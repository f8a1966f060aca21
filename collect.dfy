/** Go's `slices.Collect(maps.Values(m))`: the values of a map, in no particular order. */
module Collect {

  /**
   * Returns one value per key of `m`, in an unspecified order; the ghost
   * `keys` records which key each position came from.
   */
  method CollectValues<K, V>(m: map<K, V>) returns (s: seq<V>, ghost keys: seq<K>)
    ensures |keys| == |s|
    ensures forall i, j :: 0 <= i < j < |keys| ==> keys[i] != keys[j]
    ensures forall i :: 0 <= i < |keys| ==> keys[i] in m && s[i] == m[keys[i]]
    ensures forall k :: k in m ==> k in keys
  {
    s := [];
    keys := [];
    var rest := m.Keys;
    while rest != {}
      invariant rest <= m.Keys
      invariant |keys| == |s|
      invariant forall i, j :: 0 <= i < j < |keys| ==> keys[i] != keys[j]
      invariant forall i :: 0 <= i < |keys| ==> keys[i] in m && keys[i] !in rest && s[i] == m[keys[i]]
      invariant forall k :: k in m ==> k in rest || k in keys
      decreases rest
    {
      var k :| k in rest;
      s := s + [m[k]];
      keys := keys + [k];
      rest := rest - {k};
    }
  }
}
