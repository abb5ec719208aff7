/** Sums of weights over the values of a finite map. */
module Sums {

  ghost function SumOver<K, V>(m: map<K, V>, w: V -> nat): nat
    decreases |m|
  {
    if m == map[] then 0
    else
      var k :| k in m;
      w(m[k]) + SumOver(m - {k}, w)
  }

  lemma SumRemove<K, V>(m: map<K, V>, w: V -> nat, k: K)
    requires k in m
    ensures SumOver(m, w) == w(m[k]) + SumOver(m - {k}, w)
    decreases |m|
  {
    var j :| j in m && SumOver(m, w) == w(m[j]) + SumOver(m - {j}, w);
    if j != k {
      SumRemove(m - {j}, w, k);
      SumRemove(m - {k}, w, j);
      assert m - {j} - {k} == m - {k} - {j};
    }
  }

  lemma SumUpdate<K, V>(m: map<K, V>, w: V -> nat, k: K, v: V)
    ensures SumOver(m[k := v], w) == SumOver(m - {k}, w) + w(v)
    ensures k in m ==> SumOver(m[k := v], w) == SumOver(m, w) - w(m[k]) + w(v)
    ensures k !in m ==> SumOver(m[k := v], w) == SumOver(m, w) + w(v)
  {
    var n := m[k := v];
    SumRemove(n, w, k);
    assert n - {k} == m - {k};
    if k in m {
      SumRemove(m, w, k);
    } else {
      assert m - {k} == m;
    }
  }

  /** A positive sum has a positive weight. */
  lemma SumWitness<K, V>(m: map<K, V>, w: V -> nat) returns (k: K)
    requires SumOver(m, w) > 0
    ensures k in m && w(m[k]) > 0
    decreases |m|
  {
    k :| k in m && SumOver(m, w) == w(m[k]) + SumOver(m - {k}, w);
    if w(m[k]) == 0 {
      k := SumWitness(m - {k}, w);
    }
  }

  /** Weights that do not grow. */
  lemma SumShrinks<K, V>(m: map<K, V>, n: map<K, V>, w: V -> nat)
    requires n.Keys == m.Keys && forall k <- m :: w(n[k]) <= w(m[k])
    ensures SumOver(n, w) <= SumOver(m, w)
    decreases |m|
  {
    if m == map[] {
      assert n == map[];
    } else {
      var k :| k in m;
      assert k in n.Keys;
      SumRemove(m, w, k);
      SumRemove(n, w, k);
      SumShrinks(m - {k}, n - {k}, w);
    }
  }

  /** ... and one that does shrink. */
  lemma SumShrinksAt<K, V>(m: map<K, V>, n: map<K, V>, w: V -> nat, k: K)
    requires n.Keys == m.Keys && forall k <- m :: w(n[k]) <= w(m[k])
    requires k in m && w(n[k]) < w(m[k])
    ensures SumOver(n, w) < SumOver(m, w)
  {
    assert k in n.Keys;
    SumRemove(m, w, k);
    SumRemove(n, w, k);
    SumShrinks(m - {k}, n - {k}, w);
  }
}
