/**
 * What the repository needs of a view type: a default value, a step that
 * folds in one event, serde's `to_value`, and serde_json's `from_slice`.
 * The repository never looks inside a view; these four capabilities are
 * supplied by the caller and kept uninterpreted here.
 */
module Views {
  import opened Wrappers
  import opened Json

  /**
   * The trait bounds on `V`: `Default`, `Query::update`, `Serialize` (through
   * `serde_json::to_value`, whose error is its message) and `DeserializeOwned`
   * (through `serde_json::from_slice`, whose error is its message).
   */
  datatype ViewType<!V, -Ev> = ViewType(
    default: V,
    update: (V, Ev) -> V,
    toValue: V -> Result<JsonValue, string>,
    fromSlice: seq<byte> -> Result<V, string>)

  /** Why a call ends in a panic instead of returning. */
  datatype Panic =
    | StoredViewCorrupt(cause: string)   // `from_slice(..).unwrap()` in `load_mut`
    | ViewNotSerializable(cause: string) // `to_value` failed in `commit`
    | PayloadNotAString                  // `payload.as_str().unwrap()` in `commit`

  /** Events folded into a view one at a time, first event first. */
  function Fold<V, Ev>(vt: ViewType<V, Ev>, v: V, events: seq<Ev>): (r: V)
    ensures events == [] ==> r == v
    ensures |events| == 1 ==> r == vt.update(v, events[0])
    decreases |events|
  {
    if events == [] then v else Fold(vt, vt.update(v, events[0]), events[1..])
  }

  /** The same fold, defined from the last event backwards. */
  function FoldBack<V, Ev>(vt: ViewType<V, Ev>, v: V, events: seq<Ev>): V
    decreases |events|
  {
    if events == [] then v else vt.update(FoldBack(vt, v, events[..|events| - 1]), events[|events| - 1])
  }

  /** Folding a concatenation is folding the second part into the result of the first. */
  lemma {:induction false} FoldAppend<V, Ev>(vt: ViewType<V, Ev>, v: V, e1: seq<Ev>, e2: seq<Ev>)
    ensures Fold(vt, v, e1 + e2) == Fold(vt, Fold(vt, v, e1), e2)
    decreases |e1|
  {
    if e1 != [] {
      assert (e1 + e2)[1..] == e1[1..] + e2;
      FoldAppend(vt, vt.update(v, e1[0]), e1[1..], e2);
    } else {
      assert e1 + e2 == e2;
    }
  }

  /** One more event is one more `update`, applied last. */
  lemma {:induction false} FoldSnoc<V, Ev>(vt: ViewType<V, Ev>, v: V, events: seq<Ev>, e: Ev)
    ensures Fold(vt, v, events + [e]) == vt.update(Fold(vt, v, events), e)
  {
    FoldAppend(vt, v, events, [e]);
  }

  /** The fold from the front and the fold from the back agree on every input. */
  lemma {:induction false} FoldIsFoldBack<V, Ev>(vt: ViewType<V, Ev>, v: V, events: seq<Ev>)
    ensures Fold(vt, v, events) == FoldBack(vt, v, events)
    decreases |events|
  {
    if events != [] {
      var init, last := events[..|events| - 1], events[|events| - 1];
      assert events == init + [last];
      FoldIsFoldBack(vt, v, init);
      FoldSnoc(vt, v, init, last);
    }
  }

  /**
   * `to_value` followed by `as_str` and the `&str`'s bytes: what `commit`
   * hands to the store, or the panic that stops it.
   */
  function Encode<V>(toValue: V -> Result<JsonValue, string>, v: V): (r: Result<seq<byte>, Panic>)
    ensures r.Success? <==> toValue(v).Success? && toValue(v).value.String?
    ensures r.Success? ==> r.value == Utf8(toValue(v).value.s)
    ensures toValue(v).Failure? ==> r == Failure(ViewNotSerializable(toValue(v).error))
    ensures toValue(v).Success? && !toValue(v).value.String? ==> r == Failure(PayloadNotAString)
  {
    match toValue(v)
    case Failure(cause) => Failure(ViewNotSerializable(cause))
    case Success(payload) =>
      match AsStr(payload)
      case None => Failure(PayloadNotAString)
      case Some(text) => Success(Utf8(text))
  }

  /** The stored bytes of `v` parse back to `v`; nothing in the repository guarantees this. */
  ghost predicate RoundTrips<V, Ev>(vt: ViewType<V, Ev>, v: V)
  {
    Encode(vt.toValue, v).Success? && vt.fromSlice(Encode(vt.toValue, v).value) == Success(v)
  }
}
