/** Sums over finite maps, and how an update changes them. */
module Sums {

  ghost function Sum<K(!new)>(m: map<K, int>): int {
    if m == map[] then 0
    else
      var k :| k in m;
      m[k] + Sum(m - {k})
  }

  lemma {:induction false} SumWithout<K(!new)>(m: map<K, int>, k: K)
    requires k in m
    ensures Sum(m) == m[k] + Sum(m - {k})
    decreases |m|
  {
    var j :| j in m && Sum(m) == m[j] + Sum(m - {j});
    if j != k {
      SumWithout(m - {j}, k);
      SumWithout(m - {k}, j);
      assert m - {j} - {k} == m - {k} - {j};
    }
  }

  lemma {:induction false} SumUpdate<K(!new)>(m: map<K, int>, k: K, v: int)
    ensures Sum(m[k := v]) == Sum(m) + v - if k in m then m[k] else 0
  {
    SumWithout(m[k := v], k);
    if k in m {
      SumWithout(m, k);
      assert m[k := v] - {k} == m - {k};
    } else {
      assert m[k := v] - {k} == m;
    }
  }

  lemma {:induction false} SumNonNegative<K(!new)>(m: map<K, int>)
    requires forall k :: k in m ==> m[k] >= 0
    ensures Sum(m) >= 0
    decreases |m|
  {
    if m != map[] {
      var k :| k in m && Sum(m) == m[k] + Sum(m - {k});
      SumNonNegative(m - {k});
    }
  }

  lemma {:induction false} SumOfZeros<K(!new)>(m: map<K, int>)
    requires forall k :: k in m ==> m[k] == 0
    ensures Sum(m) == 0
    decreases |m|
  {
    if m != map[] {
      var k :| k in m && Sum(m) == m[k] + Sum(m - {k});
      SumOfZeros(m - {k});
    }
  }

  /** Moving `delta` from one entry of `t` to one entry of `h` keeps the sum of both. */
  lemma {:induction false} SumTransfer<K(!new),
                                         L(!new)>(h: map<K, int>, h': map<K, int>, t: map<L, int>, t': map<L, int>,
                                                         n: K, p: L, delta: int)
    requires n in h && h' == h[n := h[n] + delta]
    requires p in t && t'.Keys == t.Keys
    requires forall q :: q in t ==> t'[q] == t[q] - if q == p then delta else 0
    ensures Sum(h') + Sum(t') == Sum(h) + Sum(t)
  {
    assert t' == t[p := t[p] - delta];
    SumUpdate(h, n, h[n] + delta);
    SumUpdate(t, p, t[p] - delta);
  }
}
