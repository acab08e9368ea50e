/**
 * Python dictionaries: a map together with the order in which its keys were
 * first inserted. Assigning to a key that is already present replaces the value
 * and keeps the key where it was; assigning to a new key appends it.
 */
module Dicts {

  ghost predicate Distinct<K>(s: seq<K>)
  {
    forall i, j :: 0 <= i < j < |s| ==> s[i] != s[j]
  }

  datatype Dict<K(==, !new), V> = Dict(order: seq<K>, entries: map<K, V>)
  {
    /** The key order lists every key of the map exactly once. */
    ghost predicate Valid()
    {
      Distinct(order) && forall k :: k in entries <==> k in order
    }

    /** `d[k] = v` */
    function Store(k: K, v: V): (r: Dict<K, V>)
      requires Valid()
      ensures r.Valid()
      ensures r.entries == entries[k := v]
      ensures k in entries ==> r.order == order
      ensures k !in entries ==> r.order == order + [k]
    {
      if k in entries then Dict(order, entries[k := v]) else Dict(order + [k], entries[k := v])
    }
  }

  /** `{}` */
  function EmptyDict<K(==, !new), V>(): (r: Dict<K, V>)
    ensures r.Valid() && r.entries == map[]
  {
    Dict([], map[])
  }

  /** The distinct elements of `s`, each at the place of its first occurrence. */
  function Dedup<K(==, !new)>(s: seq<K>): (r: seq<K>)
    ensures forall x :: x in r <==> x in s
    ensures Distinct(r)
  {
    if s == [] then []
    else
      var d := Dedup(s[..|s| - 1]);
      if s[|s| - 1] in d then d else d + [s[|s| - 1]]
  }

  /** Extending `s` by one element extends `Dedup(s)` by it exactly when it is new. */
  lemma DedupSnoc<K(!new)>(s: seq<K>, x: K)
    ensures x in s ==> Dedup(s + [x]) == Dedup(s)
    ensures x !in s ==> Dedup(s + [x]) == Dedup(s) + [x]
  {
    assert (s + [x])[..|s|] == s;
  }
}
