/** Sums over the values of a finite map: Python's sum(d.values()), whatever the iteration order. */
module Sums {

  ghost function Sum<K>(m: map<K, real>): real {
    if m == map[] then 0.0 else
      var k :| k in m;
      m[k] + Sum(m - {k})
  }

  lemma {:induction false} SumRemove<K>(m: map<K, real>, k: K)
    requires k in m
    ensures Sum(m) == m[k] + Sum(m - {k})
    decreases |m|
  {
    var j :| j in m && Sum(m) == m[j] + Sum(m - {j});
    if j != k {
      SumRemove(m - {j}, k);
      SumRemove(m - {k}, j);
      assert m - {j} - {k} == m - {k} - {j};
    }
  }

  lemma SumUpdate<K>(m: map<K, real>, k: K, v: real)
    ensures Sum(m[k := v]) == Sum(m) + v - (if k in m then m[k] else 0.0)
  {
    SumRemove(m[k := v], k);
    assert m[k := v] - {k} == m - {k};
    if k in m {
      SumRemove(m, k);
    } else {
      assert m - {k} == m;
    }
  }

  lemma {:induction false} SumAdd<K>(a: map<K, real>, b: map<K, real>, c: map<K, real>)
    requires a.Keys == b.Keys == c.Keys
    requires forall k | k in a :: c[k] == a[k] + b[k]
    ensures Sum(c) == Sum(a) + Sum(b)
    decreases |a|
  {
    if a == map[] {
      assert b == map[] && c == map[];
    } else {
      var k :| k in a;
      SumRemove(a, k);
      SumRemove(b, k);
      SumRemove(c, k);
      SumAdd(a - {k}, b - {k}, c - {k});
    }
  }

  lemma {:induction false} SumZero<K>(m: map<K, real>)
    requires forall k | k in m :: m[k] == 0.0
    ensures Sum(m) == 0.0
    decreases |m|
  {
    if m != map[] {
      var k :| k in m;
      SumRemove(m, k);
      SumZero(m - {k});
    }
  }

  /** The same sum over whole numbers. */
  ghost function Count<K>(m: map<K, int>): int {
    if m == map[] then 0 else
      var k :| k in m;
      m[k] + Count(m - {k})
  }

  lemma {:induction false} CountRemove<K>(m: map<K, int>, k: K)
    requires k in m
    ensures Count(m) == m[k] + Count(m - {k})
    decreases |m|
  {
    var j :| j in m && Count(m) == m[j] + Count(m - {j});
    if j != k {
      CountRemove(m - {j}, k);
      CountRemove(m - {k}, j);
      assert m - {j} - {k} == m - {k} - {j};
    }
  }

  lemma CountUpdate<K>(m: map<K, int>, k: K, v: int)
    ensures Count(m[k := v]) == Count(m) + v - (if k in m then m[k] else 0)
  {
    CountRemove(m[k := v], k);
    assert m[k := v] - {k} == m - {k};
    if k in m {
      CountRemove(m, k);
    } else {
      assert m - {k} == m;
    }
  }

  lemma {:induction false} CountNonNegative<K>(m: map<K, int>)
    requires forall k | k in m :: 0 <= m[k]
    ensures 0 <= Count(m)
    ensures forall k | k in m :: m[k] <= Count(m)
    decreases |m|
  {
    if m != map[] {
      forall k | k in m ensures 0 <= Count(m) && m[k] <= Count(m) {
        CountRemove(m, k);
        CountNonNegative(m - {k});
      }
      var k :| k in m;
    }
  }
}
