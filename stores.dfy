/** What the repositories share: listing every stored record. */
module Stores {

  /** findAll: every stored record once, in no particular order. */
  method Values<K, V(==)>(store: map<K, V>) returns (all: seq<V>)
    ensures |all| == |store|
    ensures forall v :: v in all <==> v in store.Values
  {
    all := [];
    var left := store.Keys;
    while left != {}
      invariant left <= store.Keys
      invariant |all| + |left| == |store|
      invariant forall v :: v in all <==> exists k :: k in store.Keys - left && store[k] == v
      decreases |left|
    {
      var k :| k in left;
      all := all + [store[k]];
      left := left - {k};
    }
  }
}
