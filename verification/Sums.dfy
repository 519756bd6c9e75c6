/** Sums over finite maps. */
module Sums {

  ghost function Total<K>(m: map<K, int>): int
    decreases |m|
  {
    if m == map[] then 0
    else
      var k :| k in m;
      m[k] + Total(m - {k})
  }

  lemma {:induction false} TotalTakesOut<K>(m: map<K, int>, k: K)
    requires k in m
    ensures Total(m) == m[k] + Total(m - {k})
    decreases |m|
  {
    var j :| j in m && Total(m) == m[j] + Total(m - {j});
    if j != k {
      TotalTakesOut(m - {j}, k);
      TotalTakesOut(m - {k}, j);
      assert m - {j} - {k} == m - {k} - {j};
    }
  }

  /** Changing one entry changes the sum by the difference. */
  lemma TotalPut<K>(m: map<K, int>, k: K, v: int)
    ensures Total(m[k := v]) == Total(m) - (if k in m then m[k] else 0) + v
  {
    TotalTakesOut(m[k := v], k);
    assert m[k := v] - {k} == m - {k};
    if k in m {
      TotalTakesOut(m, k);
    } else {
      assert m - {k} == m;
    }
  }

  lemma {:induction false} TotalIsAtLeast<K>(m: map<K, int>, n: map<K, int>)
    requires n.Keys <= m.Keys
    requires forall k :: k in m ==> m[k] >= (if k in n then n[k] else 0)
    ensures Total(m) >= Total(n)
    decreases |m|
  {
    if m == map[] {
      assert n == map[];
    } else {
      var k :| k in m;
      TotalTakesOut(m, k);
      if k in n {
        TotalTakesOut(n, k);
      }
      TotalIsAtLeast(m - {k}, if k in n then n - {k} else n);
    }
  }

  lemma {:induction false} TotalOfZeros<K>(m: map<K, int>)
    requires forall k <- m :: m[k] == 0
    ensures Total(m) == 0
    decreases |m|
  {
    if m != map[] {
      var k :| k in m;
      TotalTakesOut(m, k);
      TotalOfZeros(m - {k});
    }
  }
}
