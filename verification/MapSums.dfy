/** Sums over finite maps, the model of SQL's SUM over a table with a primary key. */
module MapSums {

  ghost function Total<K>(m: map<K, int>): int
    decreases |m|
  {
    if m == map[] then 0 else
    var k :| k in m;
    assert |m - {k}| < |m| by {
      assert (m - {k}).Keys == m.Keys - {k};
      assert |(m - {k}).Keys| == |m.Keys| - 1;
    }
    m[k] + Total(m - {k})
  }

  /** The sum does not depend on which entry is taken out first. */
  lemma {:induction false} TotalRemove<K>(m: map<K, int>, k: K)
    requires k in m
    ensures Total(m) == m[k] + Total(m - {k})
    decreases |m|
  {
    var c :| c in m && Total(m) == m[c] + Total(m - {c});
    if c != k {
      assert (m - {c}).Keys == m.Keys - {c};
      assert |(m - {c}).Keys| < |m.Keys|;
      assert (m - {k}).Keys == m.Keys - {k};
      assert |(m - {k}).Keys| < |m.Keys|;
      TotalRemove(m - {c}, k);
      TotalRemove(m - {k}, c);
      assert m - {c} - {k} == m - {k} - {c};
    }
  }

  lemma TotalSet<K>(m: map<K, int>, k: K, v: int)
    ensures Total(m[k := v]) == Total(m) + v - (if k in m then m[k] else 0)
  {
    TotalRemove(m[k := v], k);
    assert m[k := v] - {k} == m - {k};
    if k in m {
      TotalRemove(m, k);
    } else {
      assert m - {k} == m;
    }
  }

  lemma {:induction false} TotalNonNegative<K>(m: map<K, int>)
    requires forall k | k in m :: 0 <= m[k]
    ensures 0 <= Total(m)
    decreases |m|
  {
    if m != map[] {
      var k :| k in m;
      TotalRemove(m, k);
      assert (m - {k}).Keys == m.Keys - {k};
      assert |(m - {k}).Keys| < |m.Keys|;
      TotalNonNegative(m - {k});
    }
  }

  /** Non-negative entries sum to zero exactly when they are all zero. */
  lemma {:induction false} ZeroTotal<K>(m: map<K, int>)
    requires forall k | k in m :: 0 <= m[k]
    ensures Total(m) == 0 <==> forall k | k in m :: m[k] == 0
    decreases |m|
  {
    if m != map[] {
      var k :| k in m;
      TotalRemove(m, k);
      assert (m - {k}).Keys == m.Keys - {k};
      assert |(m - {k}).Keys| < |m.Keys|;
      TotalNonNegative(m - {k});
      ZeroTotal(m - {k});
      assert forall j :: j in m <==> j == k || j in m - {k};
    }
  }

  /** Entry by entry, a map that is the sum of two. */
  ghost predicate SumOf<K>(m: map<K, int>, a: map<K, int>, b: map<K, int>) {
    m.Keys == a.Keys == b.Keys && forall k | k in m :: m[k] == a[k] + b[k]
  }

  lemma {:induction false} TotalPlus<K>(m: map<K, int>, a: map<K, int>, b: map<K, int>)
    requires SumOf(m, a, b)
    ensures Total(m) == Total(a) + Total(b)
    decreases |m|
  {
    if m == map[] {
      assert a == map[] && b == map[];
    } else {
      var k :| k in m;
      TotalRemove(m, k);
      TotalRemove(a, k);
      TotalRemove(b, k);
      assert (m - {k}).Keys == m.Keys - {k};
      assert |(m - {k}).Keys| < |m.Keys|;
      TotalPlus(m - {k}, a - {k}, b - {k});
    }
  }
}
