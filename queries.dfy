/**
 * The view repository: one persisted projection per (query name, instance
 * id), read with `load` and updated with a load, left-fold, commit cycle.
 */
module Queries {
  import opened Wrappers
  import opened Json
  import opened Storage
  import opened Views

  /** Identity of the boxed closure registered as error handler. */
  type HandlerId = nat

  /** What the handler receives: a deserialization error converted into the framework's error. */
  datatype AggregateError = DeserializationError(cause: string)

  /** One call of an error handler, in the order the calls happened. */
  datatype Invocation = Invocation(handler: HandlerId, error: AggregateError)

  /** The calls a failed decode makes: one to the handler if one is set, none otherwise. */
  function Report(handler: Option<HandlerId>, e: AggregateError): (r: seq<Invocation>)
    ensures |r| == if handler.Some? then 1 else 0
    ensures forall call :: call in r ==> call == Invocation(handler.value, e)
  {
    if handler.Some? then [Invocation(handler.value, e)] else []
  }

  /**
   * The view `load_mut` starts from: the decoded record, the default when
   * there is no record, or the panic of `from_slice(..).unwrap()`.
   */
  function Start<V, Ev>(vt: ViewType<V, Ev>, stored: Option<seq<byte>>): (r: Result<V, Panic>)
    ensures stored.None? ==> r == Success(vt.default)
    ensures stored.Some? ==> (r.Success? <==> vt.fromSlice(stored.value).Success?)
    ensures stored.Some? && r.Success? ==> vt.fromSlice(stored.value) == Success(r.value)
    ensures r.Failure? ==> r.error.StoredViewCorrupt?
  {
    match stored
    case None => Success(vt.default)
    case Some(bytes) =>
      match vt.fromSlice(bytes)
      case Success(v) => Success(v)
      case Failure(cause) => Failure(StoredViewCorrupt(cause))
  }

  /**
   * The effect of `apply_events(id, events)` on the store of a repository
   * named `ns`: the new store, or the panic that ends the call with the
   * store as it was.
   */
  function Apply<V, Ev>(vt: ViewType<V, Ev>, s: Store, ns: string, id: string, events: seq<Ev>): (r: Result<Store, Panic>)
    ensures r.Success? ==> Lookup(r.value, ns, id).Some? && r.value.Keys == s.Keys + {ns}
    ensures r.Success? ==> forall n, k :: (n != ns || k != id) ==> Lookup(r.value, n, k) == Lookup(s, n, k)
    ensures Lookup(s, ns, id).None? && Encode(vt.toValue, Fold(vt, vt.default, events)).Success? ==> r.Success?
  {
    match Start(vt, Lookup(s, ns, id))
    case Failure(p) => Failure(p)
    case Success(v) =>
      match Encode(vt.toValue, Fold(vt, v, events))
      case Failure(p) => Failure(p)
      case Success(bytes) => Success(Put(s, ns, id, bytes))
  }

  /** The handle `load_mut` gives out: the only thing that may commit the view of one (name, id) pair. */
  datatype QueryContext = QueryContext(queryName: string, queryInstanceId: string)
  {
    /**
     * Serializes `view` and overwrites the record under exactly this
     * context's name and id, or panics without writing.
     */
    method Commit<V>(db: Db, toValue: V -> Result<JsonValue, string>, view: V) returns (fatal: Option<Panic>)
      modifies db
      ensures match Encode(toValue, view)
        case Success(bytes) =>
          fatal == None && db.store == Put(old(db.store), queryName, queryInstanceId, bytes)
        case Failure(p) =>
          fatal == Some(p) && db.store == old(db.store)
    {
      match Encode(toValue, view)
      case Failure(p) =>
        fatal := Some(p);
      case Success(bytes) =>
        db.store := Put(db.store, queryName, queryInstanceId, bytes);
        fatal := None;
    }
  }

  class GenericQueryRepository<V, Ev> {
    const db: Db
    const queryName: string
    const vt: ViewType<V, Ev>
    var errorHandler: Option<HandlerId>
    /** Every call made to an error handler so far. */
    var errors: seq<Invocation>

    /** `new`: binds a name and a database; no handler, nothing read or written. */
    constructor (queryName: string, db: Db, vt: ViewType<V, Ev>)
      ensures this.queryName == queryName && this.db == db && this.vt == vt
      ensures ViewName() == queryName
      ensures errorHandler == None && errors == []
    {
      this.queryName := queryName;
      this.db := db;
      this.vt := vt;
      errorHandler := None;
      errors := [];
    }

    /** Registers `handler`, replacing any handler set before. */
    method WithErrorHandler(handler: HandlerId)
      modifies this`errorHandler
      ensures errorHandler == Some(handler) && errors == old(errors)
    {
      errorHandler := Some(handler);
    }

    /** `view_name`: the name the repository was created with, which is also its tree's name. */
    function ViewName(): (r: string)
      ensures r == queryName
    {
      queryName
    }

    /**
     * The view to fold into and the context to commit it with. A record that
     * does not decode is a panic, never an error value.
     */
    function LoadMut(id: string): (r: Result<(V, QueryContext), Panic>)
      reads db
      ensures r.Success? ==> r.value.1 == QueryContext(queryName, id)
      ensures Lookup(db.store, queryName, id).None? ==> r == Success((vt.default, QueryContext(queryName, id)))
      ensures Lookup(db.store, queryName, id).Some? ==>
        match vt.fromSlice(Lookup(db.store, queryName, id).value)
        case Success(v) => r == Success((v, QueryContext(queryName, id)))
        case Failure(cause) => r == Failure(StoredViewCorrupt(cause))
    {
      match Start(vt, Lookup(db.store, queryName, id))
      case Failure(p) => Failure(p)
      case Success(v) => Success((v, QueryContext(queryName, id)))
    }

    /**
     * Loads the view of `id` (or the default), folds `events` into it in
     * order and commits it. The error handler is never called: a record
     * that does not decode panics in `LoadMut`.
     */
    method ApplyEvents(id: string, events: seq<Ev>) returns (fatal: Option<Panic>)
      modifies db
      ensures errors == old(errors)
      ensures match Apply(vt, old(db.store), queryName, id, events)
        case Success(s) => fatal == None && db.store == s
        case Failure(p) => fatal == Some(p) && db.store == old(db.store)
    {
      match LoadMut(id)
      case Failure(p) =>
        fatal := Some(p);
      case Success((start, context)) =>
        var view := start;
        for i := 0 to |events|
          invariant view == Fold(vt, start, events[..i])
          invariant db.store == old(db.store)
        {
          FoldSnoc(vt, start, events[..i], events[i]);
          assert events[..i + 1] == events[..i] + [events[i]];
          view := vt.update(view, events[i]);
        }
        assert events[..|events|] == events;
        fatal := context.Commit(db, vt.toValue, view);
    }

    /** `QueryProcessor::dispatch`: forwards to `ApplyEvents` unchanged. */
    method Dispatch(id: string, events: seq<Ev>) returns (fatal: Option<Panic>)
      modifies db
      ensures errors == old(errors)
      ensures match Apply(vt, old(db.store), queryName, id, events)
        case Success(s) => fatal == None && db.store == s
        case Failure(p) => fatal == Some(p) && db.store == old(db.store)
    {
      fatal := ApplyEvents(id, events);
    }

    /**
     * Reads the view of `id`. No record is `None`; a record that does not
     * decode is `None` too, after one call to the handler if one is set.
     */
    method Load(id: string) returns (r: Option<V>)
      modifies this`errors
      ensures db.store == old(db.store)
      ensures match Lookup(db.store, queryName, id)
        case None => r == None && errors == old(errors)
        case Some(bytes) =>
          match vt.fromSlice(bytes)
          case Success(v) => r == Some(v) && errors == old(errors)
          case Failure(cause) => r == None && errors == old(errors) + Report(errorHandler, DeserializationError(cause))
    {
      match Lookup(db.store, queryName, id)
      case None =>
        r := None;
      case Some(bytes) =>
        match vt.fromSlice(bytes)
        case Success(v) =>
          r := Some(v);
        case Failure(cause) =>
          errors := errors + Report(errorHandler, DeserializationError(cause));
          r := None;
    }
  }

  /** A completed apply overwrites the one cell of `id` with the encoded fold and touches no other. */
  lemma ApplyTouchesOneCell<V, Ev>(vt: ViewType<V, Ev>, s: Store, ns: string, id: string, events: seq<Ev>, v0: V)
    requires Start(vt, Lookup(s, ns, id)) == Success(v0)
    requires Encode(vt.toValue, Fold(vt, v0, events)).Success?
    ensures Apply(vt, s, ns, id, events).Success?
    ensures Lookup(Apply(vt, s, ns, id, events).value, ns, id) == Some(Encode(vt.toValue, Fold(vt, v0, events)).value)
    ensures forall n, k :: (n != ns || k != id) ==> Lookup(Apply(vt, s, ns, id, events).value, n, k) == Lookup(s, n, k)
  {
  }

  /** An apply panics exactly when the stored record does not decode or the folded view does not encode. */
  lemma ApplyPanics<V, Ev>(vt: ViewType<V, Ev>, s: Store, ns: string, id: string, events: seq<Ev>)
    ensures Apply(vt, s, ns, id, events).Failure? <==>
      Start(vt, Lookup(s, ns, id)).Failure? ||
      Encode(vt.toValue, Fold(vt, Start(vt, Lookup(s, ns, id)).value, events)).Failure?
  {
  }

  /**
   * Two applies in a row store what one apply of the concatenated events
   * stores, provided the view written by the first decodes back to itself.
   */
  lemma {:induction false} ApplyIsSequential<V, Ev>(vt: ViewType<V, Ev>, s: Store, ns: string, id: string, e1: seq<Ev>, e2: seq<Ev>, v0: V)
    requires Start(vt, Lookup(s, ns, id)) == Success(v0)
    requires RoundTrips(vt, Fold(vt, v0, e1))
    ensures Apply(vt, s, ns, id, e1).Success?
    ensures Apply(vt, Apply(vt, s, ns, id, e1).value, ns, id, e2) == Apply(vt, s, ns, id, e1 + e2)
  {
    var v1 := Fold(vt, v0, e1);
    var s1 := Put(s, ns, id, Encode(vt.toValue, v1).value);
    assert Start(vt, Lookup(s1, ns, id)) == Success(v1);
    FoldAppend(vt, v0, e1, e2);
    match Encode(vt.toValue, Fold(vt, v1, e2))
    case Success(bytes) =>
      PutPut(s, ns, id, Encode(vt.toValue, v1).value, bytes);
    case Failure(_) =>
  }

  /**
   * Applying no events rewrites the record without changing the view it
   * loads as, and doing it again stores the same thing.
   */
  lemma {:induction false} ApplyEmptyIsIdempotent<V, Ev>(vt: ViewType<V, Ev>, s: Store, ns: string, id: string, v0: V)
    requires Start(vt, Lookup(s, ns, id)) == Success(v0)
    requires RoundTrips(vt, v0)
    ensures Apply(vt, s, ns, id, []).Success?
    ensures Start(vt, Lookup(Apply(vt, s, ns, id, []).value, ns, id)) == Success(v0)
    ensures Apply(vt, Apply(vt, s, ns, id, []).value, ns, id, []) == Apply(vt, s, ns, id, [])
  {
    var none: seq<Ev> := [];
    assert none + none == none;
    ApplyIsSequential(vt, s, ns, id, none, none, v0);
  }

  /**
   * What an apply writes is what the next load reads, provided the folded
   * view reads back as itself.
   */
  lemma ApplyThenLoad<V, Ev>(vt: ViewType<V, Ev>, s: Store, ns: string, id: string, events: seq<Ev>, v0: V)
    requires Start(vt, Lookup(s, ns, id)) == Success(v0)
    requires RoundTrips(vt, Fold(vt, v0, events))
    ensures Apply(vt, s, ns, id, events).Success?
    ensures Start(vt, Lookup(Apply(vt, s, ns, id, events).value, ns, id)) == Success(Fold(vt, v0, events))
  {
  }

  /** Applying no events to an id without a record writes the encoded default, so the record is no longer absent. */
  lemma ApplyEmptyOnAbsent<V, Ev>(vt: ViewType<V, Ev>, s: Store, ns: string, id: string)
    requires Lookup(s, ns, id) == None
    requires Encode(vt.toValue, vt.default).Success?
    ensures Apply(vt, s, ns, id, []) == Success(Put(s, ns, id, Encode(vt.toValue, vt.default).value))
    ensures Lookup(Apply(vt, s, ns, id, []).value, ns, id).Some?
  {
  }
}
