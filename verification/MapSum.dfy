/** Sums over the values of a finite map, and how one update moves them. */
module MapSum {

  ghost function Sum<K(!new)>(m: map<K, int>): (total: int)
    decreases |m|
  {
    if m == map[] then 0
    else
      var k: K :| k in m;
      m[k] + Sum(m - {k})
  }

  /** Any key may be taken out first. */
  lemma {:induction false} SumWithout<K(!new)>(m: map<K, int>, k: K)
    requires k in m
    ensures Sum(m) == m[k] + Sum(m - {k})
    decreases |m|
  {
    var j: K :| j in m && Sum(m) == m[j] + Sum(m - {j});
    if j != k {
      SumWithout(m - {j}, k);
      SumWithout(m - {k}, j);
      assert (m - {j}) - {k} == (m - {k}) - {j};
    }
  }

  function At<K>(m: map<K, int>, k: K): int {
    if k in m then m[k] else 0
  }

  /** Writing one key moves the sum by the change at that key. */
  lemma SumUpdate<K(!new)>(m: map<K, int>, k: K, v: int)
    ensures Sum(m[k := v]) == Sum(m) - At(m, k) + v
  {
    SumWithout(m[k := v], k);
    if k in m {
      SumWithout(m, k);
      assert m[k := v] - {k} == m - {k};
    } else {
      assert m[k := v] - {k} == m;
    }
  }

  /** Removing one key lowers the sum by the value that was there. */
  lemma SumRemove<K(!new)>(m: map<K, int>, k: K)
    ensures Sum(m - {k}) == Sum(m) - At(m, k)
  {
    if k in m {
      SumWithout(m, k);
    } else {
      assert m - {k} == m;
    }
  }

  /** With no negative value, no single value exceeds the sum. */
  lemma {:induction false} SumBounds<K(!new)>(m: map<K, int>)
    requires forall k :: k in m ==> m[k] >= 0
    ensures Sum(m) >= 0
    ensures forall k :: k in m ==> m[k] <= Sum(m)
    decreases |m|
  {
    forall k | k in m
      ensures 0 <= m[k] <= Sum(m)
    {
      SumWithout(m, k);
      SumBounds(m - {k});
    }
    if m != map[] {
      var k: K :| k in m;
      assert 0 <= m[k] <= Sum(m);
    }
  }

  /** A sum of zeros is zero. */
  lemma {:induction false} SumZero<K(!new)>(m: map<K, int>)
    requires forall k :: k in m ==> m[k] == 0
    ensures Sum(m) == 0
    decreases |m|
  {
    if m != map[] {
      var k: K :| k in m;
      SumWithout(m, k);
      SumZero(m - {k});
    }
  }

  /** A difference taken key by key is a difference of sums. */
  lemma {:induction false} SumDifference<K(!new)>(m: map<K, int>, p: map<K, int>, q: map<K, int>)
    requires m.Keys == p.Keys == q.Keys && forall k :: k in m ==> m[k] == p[k] - q[k]
    ensures Sum(m) == Sum(p) - Sum(q)
    decreases |m|
  {
    if m != map[] {
      var k: K :| k in m;
      SumWithout(m, k);
      SumWithout(p, k);
      SumWithout(q, k);
      SumDifference(m - {k}, p - {k}, q - {k});
    } else {
      assert p == map[] && q == map[];
    }
  }
}
