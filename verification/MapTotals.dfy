/** Summing the values of a map: the order a loop visits the keys in is irrelevant. */
module MapTotals {

  ghost function Total(m: map<int, int>): int {
    if exists k :: k in m then var k :| k in m; m[k] + Total(m - {k}) else 0
  }

  lemma {:induction false} TotalRemove(m: map<int, int>, k: int)
    requires k in m
    ensures Total(m) == m[k] + Total(m - {k})
    decreases |m|
  {
    var k' :| k' in m && Total(m) == m[k'] + Total(m - {k'});
    if k' != k {
      TotalRemove(m - {k'}, k);
      TotalRemove(m - {k}, k');
      assert m - {k'} - {k} == m - {k} - {k'};
    }
  }

  // No map order matters, and with non-negative counts nothing cancels out.
  lemma {:induction false} TotalZero(m: map<int, int>)
    requires forall k | k in m :: 0 <= m[k]
    ensures 0 <= Total(m)
    ensures Total(m) == 0 <==> forall k | k in m :: m[k] == 0
    decreases |m|
  {
    if k :| k in m {
      TotalRemove(m, k);
      TotalZero(m - {k});
      assert forall j | j in m :: j == k || j in m - {k};
    }
  }

  // The loop over `range m`; the map is read, not changed.
  method SumOf(m: map<int, int>) returns (total: int)
    ensures total == Total(m)
  {
    total := 0;
    var keys := m.Keys;
    ghost var rest := m;
    while exists k :: k in keys
      invariant rest.Keys == keys && forall k | k in keys :: k in m && rest[k] == m[k]
      invariant total + Total(rest) == Total(m)
      decreases |keys|
    {
      var k :| k in keys;
      TotalRemove(rest, k);
      total, keys, rest := total + m[k], keys - {k}, rest - {k};
    }
  }
}
