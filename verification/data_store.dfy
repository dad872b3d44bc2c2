/** The flat key-value store the mailbox lives in, reduced to what the mailbox reads from it. */
module DataStore {

  /** `getList()->filterBy('key', prefix, 'startWith')`: the entries whose key starts with `prefix`. */
  function Scan<V>(m: map<string, V>, prefix: string): map<string, V> {
    map k | k in m && prefix <= k :: m[k]
  }

  /** The store's enumeration of a set of keys: each key exactly once, in some order. */
  method Enumerate(keys: set<string>) returns (order: seq<string>)
    ensures |order| == |keys|
    ensures forall k :: k in order <==> k in keys
    ensures forall i, j :: 0 <= i < j < |order| ==> order[i] != order[j]
  {
    var pending := keys;
    order := [];
    while pending != {}
      invariant pending <= keys
      invariant forall k :: k in order <==> k in keys && k !in pending
      invariant |order| + |pending| == |keys|
      invariant forall i, j :: 0 <= i < j < |order| ==> order[i] != order[j]
      decreases pending
    {
      var k :| k in pending;
      order := order + [k];
      pending := pending - {k};
    }
  }
}
