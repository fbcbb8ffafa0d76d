/** Python's `dict`: a mapping that also remembers the order in which its
    keys were first inserted. */
module Dicts {
  import opened Wrappers

  datatype Dict<K(==,!new), V> = Dict(keys: seq<K>, values: map<K, V>)

  /** The insertion order lists every key of the mapping exactly once. */
  ghost predicate Valid<K(!new), V>(d: Dict<K, V>) {
    && (forall i, j :: 0 <= i < j < |d.keys| ==> d.keys[i] != d.keys[j])
    && (forall k :: k in d.values <==> k in d.keys)
  }

  /** `{}` */
  function Empty<K(==,!new), V>(): (d: Dict<K, V>)
    ensures Valid(d) && d.keys == []
  {
    Dict([], map[])
  }

  /** `d.get(k)` */
  function Get<K(==,!new), V>(d: Dict<K, V>, k: K): Option<V> {
    if k in d.values then Some(d.values[k]) else None
  }

  /** `d[k] = v`: an existing key keeps its position, a new key goes last. */
  function Put<K(==,!new), V>(d: Dict<K, V>, k: K, v: V): (r: Dict<K, V>)
    requires Valid(d)
    ensures Valid(r)
    ensures Get(r, k) == Some(v)
    ensures forall k' :: k' != k ==> Get(r, k') == Get(d, k')
    ensures k in d.values ==> r.keys == d.keys
    ensures k !in d.values ==> r.keys == d.keys + [k]
  {
    Dict(if k in d.values then d.keys else d.keys + [k], d.values[k := v])
  }
}
