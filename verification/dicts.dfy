/** merge_dicts: copy the first dictionary, then update the copy with the second. */
module Dicts {

  /** Inserts the entries of `d2` one key at a time into a copy of `d1`, as
      `dict.update` does. The inputs are values, so `d1` is left as it was. */
  method MergeDicts<K(==), V>(d1: map<K, V>, d2: map<K, V>) returns (ret: map<K, V>)
    ensures ret.Keys == d1.Keys + d2.Keys
    ensures forall k :: k in d2 ==> ret[k] == d2[k]
    ensures forall k :: k in d1 && k !in d2 ==> ret[k] == d1[k]
    ensures ret == d1 + d2
  {
    ret := d1;
    var pending := d2.Keys;
    while pending != {}
      invariant pending <= d2.Keys
      invariant ret.Keys == d1.Keys + (d2.Keys - pending)
      invariant forall k :: k in ret ==> ret[k] == if k in d2 && k !in pending then d2[k] else d1[k]
      decreases pending
    {
      var k :| k in pending;
      ret := ret[k := d2[k]];
      pending := pending - {k};
    }
  }
}
