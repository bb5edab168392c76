/** Counting the keys of a map by the value they are sent to. */
module Pigeonhole {

  function KeysOn<K, V(==)>(m: map<K, V>, v: V): set<K> {
    set k | k in m && m[k] == v
  }

  lemma KeysOnInsert<K, V>(m: map<K, V>, key: K, host: V, h: V)
    requires key !in m
    ensures |KeysOn(m[key := host], h)| == |KeysOn(m, h)| + if h == host then 1 else 0
  {
    if h == host {
      assert KeysOn(m[key := host], h) == KeysOn(m, h) + {key};
    } else {
      assert KeysOn(m[key := host], h) == KeysOn(m, h);
    }
  }

  function Elsewhere<K, V(==)>(m: map<K, V>, v: V): map<K, V> {
    map k | k in m && m[k] != v :: m[k]
  }

  lemma SplitByValue<K, V>(m: map<K, V>, v: V)
    ensures |m.Keys| == |Elsewhere(m, v).Keys| + |KeysOn(m, v)|
    ensures forall v' | v' != v :: KeysOn(Elsewhere(m, v), v') == KeysOn(m, v')
  {
    assert m.Keys == Elsewhere(m, v).Keys + KeysOn(m, v);
    forall v' | v' != v ensures KeysOn(Elsewhere(m, v), v') == KeysOn(m, v') {}
  }

  lemma ElsewhereHas<K, V>(m: map<K, V>, v: V)
    ensures forall k | k in Elsewhere(m, v) :: k in m && Elsewhere(m, v)[k] == m[k] != v
  {
  }

  // At most `bound` keys per value: at most bound * |values| keys.
  lemma {:induction false} KeysBound<K, V>(m: map<K, V>, values: set<V>, bound: nat)
    requires forall k | k in m :: m[k] in values
    requires forall v | v in values :: |KeysOn(m, v)| <= bound
    ensures |m.Keys| <= bound * |values|
    decreases |values|
  {
    hide KeysOn, Elsewhere;
    if v :| v in values {
      SplitByValue(m, v);
      ElsewhereHas(m, v);
      KeysBound(Elsewhere(m, v), values - {v}, bound);
      var n := |values - {v}|;
      assert |values| == n + 1;
      OneMore(bound, n);
    } else {
      assert m.Keys == {};
    }
  }

  lemma OneMore(bound: nat, n: nat)
    ensures bound * (n + 1) == bound * n + bound
  {
  }

  function Row<K>(keys: set<K>, tier: int): set<(K, int)> { set k | k in keys :: (k, tier) }

  lemma {:induction false} RowCount<K>(keys: set<K>, tier: int)
    ensures |Row(keys, tier)| == |keys|
  {
    if k :| k in keys {
      RowCount(keys - {k}, tier);
      assert Row(keys, tier) == Row(keys - {k}, tier) + {(k, tier)};
    } else {
      assert Row(keys, tier) == {};
    }
  }

  lemma SubsetCount<T>(a: set<T>, b: set<T>)
    requires a <= b
    ensures |a| <= |b|
  {
    assert b == a + (b - a);
  }
}
