/** Sums over the entries of a finite map. */
module Sums {

  ghost function SumOver<K(!new), V(!new)>(m: map<K, V>, f: (K, V) -> int): int
    decreases |m|
  {
    if m == map[] then 0 else
      var k :| k in m;
      assert (m - {k}).Keys == m.Keys - {k};
      f(k, m[k]) + SumOver(m - {k}, f)
  }

  lemma {:induction false} SumOverRemove<K(!new), V(!new)>(m: map<K, V>, f: (K, V) -> int, k: K)
    requires k in m
    ensures SumOver(m, f) == f(k, m[k]) + SumOver(m - {k}, f)
    decreases |m|
  {
    var j :| j in m && SumOver(m, f) == f(j, m[j]) + SumOver(m - {j}, f);
    if j != k {
      assert (m - {j}).Keys == m.Keys - {j} && (m - {k}).Keys == m.Keys - {k};
      SumOverRemove(m - {j}, f, k);
      SumOverRemove(m - {k}, f, j);
      assert m - {j} - {k} == m - {k} - {j};
    }
  }

  lemma SumOverUpdate<K(!new), V(!new)>(m: map<K, V>, f: (K, V) -> int, k: K, v: V)
    ensures SumOver(m[k := v], f) == SumOver(m, f) - (if k in m then f(k, m[k]) else 0) + f(k, v)
  {
    SumOverRemove(m[k := v], f, k);
    if k in m {
      SumOverRemove(m, f, k);
      assert m[k := v] - {k} == m - {k};
    } else {
      assert m[k := v] - {k} == m;
    }
  }

  lemma {:induction false} SumOverMonotone<K(!new), V(!new)>(m: map<K, V>, f: (K, V) -> int, g: (K, V) -> int)
    requires forall k <- m :: f(k, m[k]) <= g(k, m[k])
    ensures SumOver(m, f) <= SumOver(m, g)
    decreases |m|
  {
    if m != map[] {
      var k :| k in m && SumOver(m, f) == f(k, m[k]) + SumOver(m - {k}, f);
      SumOverRemove(m, g, k);
      assert (m - {k}).Keys == m.Keys - {k};
      SumOverMonotone(m - {k}, f, g);
    }
  }

  lemma SumOverSame<K(!new), V(!new)>(m: map<K, V>, f: (K, V) -> int, g: (K, V) -> int)
    requires forall k <- m :: f(k, m[k]) == g(k, m[k])
    ensures SumOver(m, f) == SumOver(m, g)
  {
    SumOverMonotone(m, f, g);
    SumOverMonotone(m, g, f);
  }

  lemma {:induction false} SumOverNonNegative<K(!new), V(!new)>(m: map<K, V>, f: (K, V) -> int)
    requires forall k <- m :: 0 <= f(k, m[k])
    ensures 0 <= SumOver(m, f)
    decreases |m|
  {
    if m != map[] {
      var k :| k in m && SumOver(m, f) == f(k, m[k]) + SumOver(m - {k}, f);
      assert (m - {k}).Keys == m.Keys - {k};
      SumOverNonNegative(m - {k}, f);
    }
  }

  /** One entry of a sum of non-negative terms is at most the whole. */
  lemma SumOverAtLeast<K(!new), V(!new)>(m: map<K, V>, f: (K, V) -> int, k: K)
    requires k in m
    requires forall j <- m :: 0 <= f(j, m[j])
    ensures f(k, m[k]) <= SumOver(m, f)
  {
    SumOverRemove(m, f, k);
    SumOverNonNegative(m - {k}, f);
  }
}
