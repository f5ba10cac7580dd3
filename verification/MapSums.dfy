/** Sums of an integer quantity over the values of a finite map. */
module MapSums {
  import opened Numeric

  ghost function Sum<K, V>(m: map<K, V>, f: V -> int): int
    decreases |m|
  {
    if |m| == 0 then 0
    else
      var k :| k in m;
      assert (m - {k}).Keys == m.Keys - {k};
      f(m[k]) + Sum(m - {k}, f)
  }

  /** A key with which `Sum` may begin. */
  lemma FirstKey<K, V>(m: map<K, V>, f: V -> int) returns (j: K)
    requires 0 < |m|
    ensures j in m && Sum(m, f) == f(m[j]) + Sum(m - {j}, f)
  {
    j :| j in m && Sum(m, f) == f(m[j]) + Sum(m - {j}, f);
  }

  /** The order in which `Sum` visits the keys does not matter. */
  lemma {:induction false} SumRemove<K, V>(m: map<K, V>, f: V -> int, k: K)
    requires k in m
    ensures Sum(m, f) == f(m[k]) + Sum(m - {k}, f)
    decreases |m|
  {
    assert 0 < |m|;
    var j := FirstKey(m, f);
    if j != k {
      var mj, mk := m - {j}, m - {k};
      assert mj.Keys == m.Keys - {j} && mk.Keys == m.Keys - {k};
      SumRemove(mj, f, k);
      SumRemove(mk, f, j);
      assert mj - {k} == mk - {j};
    }
  }

  lemma SumUpdate<K, V>(m: map<K, V>, f: V -> int, k: K, v: V)
    ensures Sum(m[k := v], f) == f(v) + Sum(m, f) - (if k in m then f(m[k]) else 0)
  {
    SumRemove(m[k := v], f, k);
    if k in m {
      SumRemove(m, f, k);
      assert m[k := v] - {k} == m - {k};
    } else {
      assert m[k := v] - {k} == m;
    }
  }

  /** Sums are linear: used with the accumulator increment as the factor `c`. */
  lemma {:induction false} SumLinear<K, V>(m: map<K, V>, f: V -> int, g: V -> int, h: V -> int, c: int)
    requires forall k :: k in m ==> h(m[k]) == f(m[k]) + c * g(m[k])
    ensures Sum(m, h) == Sum(m, f) + c * Sum(m, g)
    decreases |m|
  {
    if |m| == 0 {
    } else {
      var k :| k in m;
      assert (m - {k}).Keys == m.Keys - {k};
      SumLinear(m - {k}, f, g, h, c);
      SumLinearStep(m, f, g, h, c, k);
    }
  }

  lemma SumLinearStep<K, V>(m: map<K, V>, f: V -> int, g: V -> int, h: V -> int, c: int, k: K)
    requires k in m && h(m[k]) == f(m[k]) + c * g(m[k])
    requires Sum(m - {k}, h) == Sum(m - {k}, f) + c * Sum(m - {k}, g)
    ensures Sum(m, h) == Sum(m, f) + c * Sum(m, g)
  {
    SumRemove(m, f, k);
    SumRemove(m, g, k);
    SumRemove(m, h, k);
    hide Sum;
    Distribute(c, g(m[k]), Sum(m - {k}, g));
  }

  lemma {:induction false} SumMonotone<K, V>(m: map<K, V>, f: V -> int, g: V -> int)
    requires forall k :: k in m ==> f(m[k]) <= g(m[k])
    ensures Sum(m, f) <= Sum(m, g)
    decreases |m|
  {
    if |m| == 0 {
    } else {
      var k :| k in m;
      assert (m - {k}).Keys == m.Keys - {k};
      SumMonotone(m - {k}, f, g);
      SumRemove(m, f, k);
      SumRemove(m, g, k);
    }
  }

  lemma {:induction false} SumNonNegative<K, V>(m: map<K, V>, f: V -> int)
    requires forall k :: k in m ==> 0 <= f(m[k])
    ensures 0 <= Sum(m, f)
    decreases |m|
  {
    if |m| == 0 {
    } else {
      var k :| k in m;
      assert (m - {k}).Keys == m.Keys - {k};
      SumNonNegative(m - {k}, f);
      SumRemove(m, f, k);
    }
  }

  /** One term of a non-negative sum is at most the sum. */
  lemma SumTerm<K, V>(m: map<K, V>, f: V -> int, k: K)
    requires forall j :: j in m ==> 0 <= f(m[j])
    requires k in m
    ensures f(m[k]) <= Sum(m, f)
  {
    SumRemove(m, f, k);
    SumNonNegative(m - {k}, f);
  }

  /** A positive non-negative sum has a positive term. */
  lemma {:induction false} SumPositive<K, V>(m: map<K, V>, f: V -> int) returns (k: K)
    requires forall j :: j in m ==> 0 <= f(m[j])
    requires 0 < Sum(m, f)
    ensures k in m && 0 < f(m[k])
    decreases |m|
  {
    k :| k in m;
    if f(m[k]) == 0 {
      SumRemove(m, f, k);
      assert (m - {k}).Keys == m.Keys - {k};
      k := SumPositive(m - {k}, f);
    }
  }
}
