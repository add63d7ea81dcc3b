// Sums over finite tables: the totals that conservation statements speak of.
module Sums {

  /** The sum of a table's entries. */
  ghost function Sum<K(!new)>(m: map<K, int>): int {
    if m == map[] then 0
    else var k :| k in m; m[k] + Sum(m - {k})
  }

  /** Any row may be taken out first. */
  lemma {:induction false} SumTake<K(!new)>(m: map<K, int>, k: K)
    requires k in m
    ensures Sum(m) == m[k] + Sum(m - {k})
    decreases |m|
  {
    var j :| j in m && Sum(m) == m[j] + Sum(m - {j});
    if j != k {
      SumTake(m - {j}, k);
      SumTake(m - {k}, j);
      assert m - {j} - {k} == m - {k} - {j};
    }
  }

  function At<K>(m: map<K, int>, k: K): int {
    if k in m then m[k] else 0
  }

  /** Writing one row moves the sum by the difference; an absent row counts as zero. */
  lemma SumWrite<K(!new)>(m: map<K, int>, k: K, v: int)
    ensures Sum(m[k := v]) == Sum(m) - At(m, k) + v
  {
    SumTake(m[k := v], k);
    if k in m {
      SumTake(m, k);
      assert m[k := v] - {k} == m - {k};
    } else {
      assert m[k := v] - {k} == m;
    }
  }

  lemma {:induction false} SumZero<K(!new)>(m: map<K, int>)
    requires forall k :: k in m ==> m[k] == 0
    ensures Sum(m) == 0
    decreases |m|
  {
    if m != map[] {
      var k :| k in m && Sum(m) == m[k] + Sum(m - {k});
      SumZero(m - {k});
    }
  }

  /** Tables add up row by row. */
  lemma {:induction false} SumAdd<K(!new)>(f: map<K, int>, g: map<K, int>, h: map<K, int>)
    requires f.Keys == g.Keys == h.Keys && forall k :: k in f ==> h[k] == f[k] + g[k]
    ensures Sum(h) == Sum(f) + Sum(g)
    decreases |f|
  {
    if f == map[] {
      assert g == map[] && h == map[];
    } else {
      var k :| k in f && Sum(f) == f[k] + Sum(f - {k});
      SumTake(g, k);
      SumTake(h, k);
      SumAdd(f - {k}, g - {k}, h - {k});
    }
  }

  /** A bound that holds row by row, at fixed weights, holds for the sums. */
  lemma {:induction false} SumScaled<K(!new)>(f: map<K, int>, g: map<K, int>, d: int, t: int)
    requires f.Keys == g.Keys && forall k :: k in f ==> f[k] * d <= g[k] * t
    ensures Sum(f) * d <= Sum(g) * t
    decreases |f|
  {
    if f != map[] {
      var k :| k in f && Sum(f) == f[k] + Sum(f - {k});
      SumTake(g, k);
      SumScaled(f - {k}, g - {k}, d, t);
      assert (f[k] + Sum(f - {k})) * d == f[k] * d + Sum(f - {k}) * d;
      assert (g[k] + Sum(g - {k})) * t == g[k] * t + Sum(g - {k}) * t;
    } else {
      assert g == map[];
    }
  }

  predicate Near(a: int, d: int, b: int, t: int, e: int) {
    b * t - e <= a * d <= b * t + e
  }

  lemma NearAdds(a: int, a': int, d: int, b: int, b': int, t: int, e: int, e': int)
    requires Near(a, d, b, t, e) && Near(a', d, b', t, e')
    ensures Near(a + a', d, b + b', t, e + e')
  {
    assert (a + a') * d == a * d + a' * d;
    assert (b + b') * t == b * t + b' * t;
  }

  lemma OneLess<K(!new)>(m: map<K, int>, k: K)
    requires k in m
    ensures |m - {k}| == |m| - 1
  {
    assert (m - {k}).Keys == m.Keys - {k} && |m.Keys| == |m|;
  }

  /** Rows that agree at fixed weights within `e` sum to totals that agree within `e` a row. */
  lemma {:induction false} SumNear<K(!new)>(f: map<K, int>, g: map<K, int>, d: int, t: int, e: nat)
    requires f.Keys == g.Keys && forall k :: k in f ==> Near(f[k], d, g[k], t, e)
    ensures Near(Sum(f), d, Sum(g), t, |f| * e)
    decreases |f|
  {
    hide Near;
    if f != map[] {
      var k :| k in f && Sum(f) == f[k] + Sum(f - {k});
      SumTake(g, k);
      OneLess(f, k);
      SumNear(f - {k}, g - {k}, d, t, e);
      NearAdds(f[k], Sum(f - {k}), d, g[k], Sum(g - {k}), t, e, (|f| - 1) * e);
      OneMore(|f|, e);
    } else {
      assert g == map[];
      NothingNear(d, t);
    }
  }

  lemma OneMore(n: int, e: int)
    ensures e + (n - 1) * e == n * e
  {
  }

  lemma NothingNear(d: int, t: int)
    ensures Near(0, d, 0, t, 0)
  {
  }

  /** A non-negative table's sum bounds each of its rows. */
  lemma {:induction false} SumBounds<K(!new)>(m: map<K, int>)
    requires forall k :: k in m ==> 0 <= m[k]
    ensures 0 <= Sum(m)
    ensures forall k :: k in m ==> m[k] <= Sum(m)
    decreases |m|
  {
    forall k | k in m ensures 0 <= Sum(m) && m[k] <= Sum(m) {
      SumTake(m, k);
      SumBounds(m - {k});
    }
  }
}
