/** Sums over the entries of a finite map, weighted by a function of key and value. */
module Sums {
  ghost function Sum<K, V>(m: map<K, V>, w: (K, V) -> int): int
    decreases |m|
  {
    if m == map[] then 0
    else
      var k :| k in m;
      w(k, m[k]) + Sum(m - {k}, w)
  }

  /** Any key may be taken out first. */
  lemma {:induction false} SumRemove<K, V>(m: map<K, V>, w: (K, V) -> int, k: K)
    requires k in m
    ensures Sum(m, w) == w(k, m[k]) + Sum(m - {k}, w)
    decreases |m|
  {
    var c :| c in m && Sum(m, w) == w(c, m[c]) + Sum(m - {c}, w);
    if c != k {
      SumRemove(m - {c}, w, k);
      SumRemove(m - {k}, w, c);
      assert m - {c} - {k} == m - {k} - {c};
    }
  }

  lemma SumInsert<K, V>(m: map<K, V>, w: (K, V) -> int, k: K, v: V)
    requires k !in m
    ensures Sum(m[k := v], w) == Sum(m, w) + w(k, v)
  {
    SumRemove(m[k := v], w, k);
    assert m[k := v] - {k} == m;
  }

  lemma SumUpdate<K, V>(m: map<K, V>, w: (K, V) -> int, k: K, v: V)
    requires k in m
    ensures Sum(m[k := v], w) == Sum(m, w) - w(k, m[k]) + w(k, v)
  {
    SumRemove(m, w, k);
    SumRemove(m[k := v], w, k);
    assert m[k := v] - {k} == m - {k};
  }

  /** Two maps with the same keys and pointwise equal weights have equal sums. */
  lemma {:induction false} SumSame<K, U, V>(m: map<K, U>, n: map<K, V>, v: (K, U) -> int, w: (K, V) -> int)
    requires m.Keys == n.Keys
    requires forall k :: k in m ==> v(k, m[k]) == w(k, n[k])
    ensures Sum(m, v) == Sum(n, w)
    decreases |m|
  {
    if m == map[] {
      assert n.Keys == {};
      assert n == map[];
    } else {
      var k :| k in m;
      SumRemove(m, v, k);
      SumRemove(n, w, k);
      SumSame(m - {k}, n - {k}, v, w);
    }
  }

  /** Sums of non-negative weights are non-negative and dominate each of their terms. */
  lemma {:induction false} SumNonNegative<K, V>(m: map<K, V>, w: (K, V) -> int)
    requires forall k :: k in m ==> w(k, m[k]) >= 0
    ensures Sum(m, w) >= 0
    ensures forall k :: k in m ==> Sum(m, w) >= w(k, m[k])
    decreases |m|
  {
    forall k | k in m
      ensures Sum(m, w) >= w(k, m[k])
    {
      SumRemove(m, w, k);
      SumNonNegative(m - {k}, w);
    }
    if k :| k in m {
      assert Sum(m, w) >= w(k, m[k]);
    }
  }
}
