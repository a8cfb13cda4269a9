/**
 * A JavaScript `Map` as a value: a finite map together with the order in
 * which its keys were first inserted, which is the order `map.values()`
 * enumerates. `set` on a present key keeps its position, `set` on a new key
 * appends it, `delete` removes it from the order.
 */
module JsMap {
  import opened Wrappers
  import opened Seqs

  datatype OrderedMap<K(==,!new), V> = OrderedMap(keys: seq<K>, table: map<K, V>) {

    /** The insertion order lists every key of the table exactly once. */
    ghost predicate Valid() {
      NoDuplicates(keys) && forall k :: k in table <==> k in keys
    }

    /** `map.has(k)`. */
    predicate Has(k: K) {
      k in table
    }

    /** `map.get(k)`, with `undefined` written as `None`. */
    function Get(k: K): Option<V> {
      if k in table then Some(table[k]) else None
    }

    /** `map.set(k, v)`. */
    function Set(k: K, v: V): (m: OrderedMap<K, V>)
      requires Valid()
      ensures m.Valid()
    {
      if k in table then OrderedMap(keys, table[k := v])
      else OrderedMap(keys + [k], table[k := v])
    }

    /** `map.delete(k)`. */
    function Delete(k: K): (m: OrderedMap<K, V>)
      requires Valid()
      ensures m.Valid()
    {
      FilterNoDuplicates(keys, x => x != k);
      OrderedMap(Filter(keys, x => x != k), table - {k})
    }

    /** `Array.from(map.values())`: the values in insertion order of their keys. */
    function Values(): (vs: seq<V>)
      requires Valid()
    {
      seq(|keys|, i requires 0 <= i < |keys| => table[keys[i]])
    }
  }

  /** The empty `new Map()`. */
  function Empty<K(==,!new), V>(): (m: OrderedMap<K, V>)
    ensures m.Valid() && m.Values() == [] && forall k :: !m.Has(k)
  {
    OrderedMap([], map[])
  }

  /** Setting an absent key adds exactly one entry and appends its value to the enumeration. */
  lemma SetAbsent<K(!new), V>(m: OrderedMap<K, V>, k: K, v: V)
    requires m.Valid() && !m.Has(k)
    ensures m.Set(k, v).Values() == m.Values() + [v]
    ensures |m.Set(k, v).table| == |m.table| + 1
    ensures m.Set(k, v).Get(k) == Some(v)
    ensures forall j :: j != k ==> m.Set(k, v).Get(j) == m.Get(j)
  {
    var n := m.Set(k, v);
    assert n.keys == m.keys + [k];
    assert |n.Values()| == |m.Values()| + 1;
    forall i | 0 <= i < |m.keys|
      ensures n.Values()[i] == m.Values()[i]
    {
      assert m.keys[i] != k;
    }
  }

  /** Setting a present key replaces its value in place: the enumeration keeps
      its length and order, and only the entry under `k` changes. */
  lemma SetPresent<K(!new), V>(m: OrderedMap<K, V>, k: K, v: V)
    requires m.Valid() && m.Has(k)
    ensures m.Set(k, v).keys == m.keys
    ensures |m.Set(k, v).table| == |m.table|
    ensures |m.Set(k, v).Values()| == |m.Values()|
    ensures forall i :: 0 <= i < |m.keys| ==>
              m.Set(k, v).Values()[i] == if m.keys[i] == k then v else m.Values()[i]
    ensures m.Set(k, v).Get(k) == Some(v)
    ensures forall j :: j != k ==> m.Set(k, v).Get(j) == m.Get(j)
  {
    assert m.table[k := v].Keys == m.table.Keys;
  }

  /** Deleting removes exactly the entry under `k`; the remaining keys keep their order. */
  lemma DeleteRemovesOnly<K(!new), V>(m: OrderedMap<K, V>, k: K)
    requires m.Valid()
    ensures !m.Delete(k).Has(k)
    ensures forall j :: j != k ==> m.Delete(k).Get(j) == m.Get(j)
    ensures SubsequenceOf(m.Delete(k).keys, m.keys)
    ensures |m.Delete(k).table| == if m.Has(k) then |m.table| - 1 else |m.table|
    ensures !m.Has(k) ==> m.Delete(k) == m
  {
    if !m.Has(k) {
      assert forall i :: 0 <= i < |m.keys| ==> m.keys[i] != k;
      assert m.table - {k} == m.table;
    }
  }
}
