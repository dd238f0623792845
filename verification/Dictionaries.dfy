/** Python dictionaries as lists of entries in insertion order. */
module Dictionaries {
  import opened Results

  type Dictionary<K, V> = seq<(K, V)>

  predicate DistinctKeys<K(==), V>(d: Dictionary<K, V>) {
    forall i, j :: 0 <= i < j < |d| ==> d[i].0 != d[j].0
  }

  predicate Has<K(==), V>(d: Dictionary<K, V>, key: K) {
    exists i :: 0 <= i < |d| && d[i].0 == key
  }

  function Get<K(==), V>(d: Dictionary<K, V>, key: K): (r: Option<V>)
    ensures r.Some? <==> Has(d, key)
    ensures r.Some? ==> (key, r.value) in d
  {
    if d == [] then None
    else if d[0].0 == key then Some(d[0].1)
    else
      var r := Get(d[1..], key);
      assert forall i :: 0 < i < |d| ==> d[i] == d[1..][i - 1];
      assert forall i :: 0 <= i < |d[1..]| ==> d[1..][i] == d[i + 1];
      r
  }

  /** `d[key] = value` */
  function Put<K(==), V>(d: Dictionary<K, V>, key: K, value: V): Dictionary<K, V> {
    if d == [] then [(key, value)]
    else if d[0].0 == key then [(key, value)] + d[1..]
    else [d[0]] + Put(d[1..], key, value)
  }

  lemma {:induction false} GetOfPut<K, V>(d: Dictionary<K, V>, key: K, value: V, other: K)
    ensures Get(Put(d, key, value), other) == if other == key then Some(value) else Get(d, other)
  {
    if d != [] && d[0].0 != key { GetOfPut(d[1..], key, value, other); }
  }

  lemma {:induction false} PutKeepsDistinct<K, V>(d: Dictionary<K, V>, key: K, value: V)
    requires DistinctKeys(d)
    ensures DistinctKeys(Put(d, key, value))
  {
    if d != [] && d[0].0 != key {
      PutKeepsDistinct(d[1..], key, value);
      var rest := Put(d[1..], key, value);
      forall j | 0 <= j < |rest| ensures rest[j].0 != d[0].0 {
        assert Has(rest, rest[j].0);
        GetOfPut(d[1..], key, value, rest[j].0);
        if rest[j].0 != key {
          assert Has(d[1..], rest[j].0);
        }
      }
    }
  }

  lemma {:induction false} GetOfEntry<K, V>(d: Dictionary<K, V>, i: nat)
    requires DistinctKeys(d) && i < |d|
    ensures Get(d, d[i].0) == Some(d[i].1)
  {
    if i > 0 {
      assert d[0].0 != d[i].0;
      assert d[1..][i - 1] == d[i];
      GetOfEntry(d[1..], i - 1);
    }
  }
}
