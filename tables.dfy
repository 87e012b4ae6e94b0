/**
 * A Python dict literal without repeated keys, kept as an association
 * list in insertion order, and `d.get(k)` / `k in d` over it.
 */
module Tables {
  import opened Wrappers

  function Keys<K, V>(t: seq<(K, V)>): (ks: seq<K>)
    ensures |ks| == |t|
    ensures forall i :: 0 <= i < |t| ==> ks[i] == t[i].0
  {
    if t == [] then [] else [t[0].0] + Keys(t[1..])
  }

  /** The value stored under the first entry for `k`, if any. */
  function Get<K(==), V>(t: seq<(K, V)>, k: K): (r: Option<V>)
    ensures r.Some? <==> k in Keys(t)
    ensures r.Some? ==> exists i :: 0 <= i < |t| && t[i].0 == k && t[i].1 == r.value
                                   && forall j :: 0 <= j < i ==> t[j].0 != k
  {
    if t == [] then None
    else if t[0].0 == k then Some(t[0].1)
    else
      assert Keys(t) == [t[0].0] + Keys(t[1..]);
      Get(t[1..], k)
  }
}
