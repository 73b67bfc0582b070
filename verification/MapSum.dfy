/** The sum of a weight over the values of a finite map. */
module MapSum {

  ghost function Total<V>(m: map<nat, V>, w: V -> nat): nat
    decreases |m|
  {
    if m == map[] then 0 else
      var k :| k in m;
      w(m[k]) + Total(m - {k}, w)
  }

  /** Any key may be taken out first. */
  lemma {:induction false} TotalTake<V>(m: map<nat, V>, w: V -> nat, k: nat)
    requires k in m
    ensures Total(m, w) == w(m[k]) + Total(m - {k}, w)
    decreases |m|
  {
    var j :| j in m && Total(m, w) == w(m[j]) + Total(m - {j}, w);
    if j != k {
      TotalTake(m - {j}, w, k);
      TotalTake(m - {k}, w, j);
      assert (m - {j}) - {k} == (m - {k}) - {j};
    }
  }

  lemma TotalPut<V>(m: map<nat, V>, w: V -> nat, k: nat, v: V)
    ensures Total(m[k := v], w) + (if k in m then w(m[k]) else 0) == Total(m, w) + w(v)
  {
    TotalTake(m[k := v], w, k);
    if k in m {
      TotalTake(m, w, k);
      assert m[k := v] - {k} == m - {k};
    } else {
      assert m[k := v] - {k} == m;
    }
  }

  /** Maps that agree in weight key by key have the same total. */
  lemma {:induction false} TotalSame<U, V>(m: map<nat, U>, n: map<nat, V>, w: U -> nat, x: V -> nat)
    requires m.Keys == n.Keys
    requires forall k | k in m :: w(m[k]) == x(n[k])
    ensures Total(m, w) == Total(n, x)
    decreases |m|
  {
    if m == map[] {
      assert n == map[];
    } else {
      var k :| k in m;
      TotalTake(m, w, k);
      TotalTake(n, x, k);
      TotalSame(m - {k}, n - {k}, w, x);
    }
  }
}
