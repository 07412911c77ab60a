/**
 * The embedded key-value engine, reduced to what the query repository uses:
 * named trees (namespaces), each a map from string keys to byte values, with
 * a lookup and an overwriting insert. Both are total here.
 */
module Storage {
  import opened Wrappers
  import opened Json

  /** Tree name to key to stored bytes. */
  type Store = map<string, map<string, seq<byte>>>

  /** `open_tree(ns)` followed by `get(key)`; a tree never opened reads as empty. */
  function Lookup(s: Store, ns: string, key: string): (r: Option<seq<byte>>)
    ensures r.Some? <==> ns in s && key in s[ns]
    ensures r.Some? ==> r.value == s[ns][key]
  {
    if ns in s && key in s[ns] then Some(s[ns][key]) else None
  }

  /** `open_tree(ns)` followed by `insert(key, value)`: one cell is overwritten. */
  function Put(s: Store, ns: string, key: string, value: seq<byte>): (r: Store)
    ensures Lookup(r, ns, key) == Some(value)
    ensures forall n, k :: (n != ns || k != key) ==> Lookup(r, n, k) == Lookup(s, n, k)
    ensures forall n :: n != ns && n in s ==> n in r && r[n] == s[n]
    ensures r.Keys == s.Keys + {ns}
  {
    var tree := if ns in s then s[ns] else map[];
    s[ns := tree[key := value]]
  }

  /** A second insert under the same key leaves no trace of the first. */
  lemma PutPut(s: Store, ns: string, key: string, a: seq<byte>, b: seq<byte>)
    ensures Put(Put(s, ns, key, a), ns, key, b) == Put(s, ns, key, b)
  {
    var l, r := Put(Put(s, ns, key, a), ns, key, b), Put(s, ns, key, b);
    assert l[ns] == r[ns];
  }

  /** The database handle shared by every repository; `store` stands in for sled's `Db`. */
  class Db {
    var store: Store

    constructor (initial: Store)
      ensures store == initial
    {
      store := initial;
    }
  }
}
