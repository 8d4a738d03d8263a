/** Options, and sums over the rows of a finite table. */
module Prelude {
  datatype Option<+T> = None | Some(value: T)
}

/**
 Sums over finite maps. The order in which a table yields its rows is never
 specified, so a sum picks its rows in an arbitrary order and the lemmas show
 that the order does not matter.
 */
module Sums {

  ghost function SumBy<K, T>(m: map<K, T>, f: T -> real): real {
    if m == map[] then 0.0 else
      var k :| k in m;
      f(m[k]) + SumBy(m - {k}, f)
  }

  lemma {:induction false} SumRemove<K, T>(m: map<K, T>, k: K, f: T -> real)
    requires k in m
    ensures SumBy(m, f) == f(m[k]) + SumBy(m - {k}, f)
    decreases |m|
  {
    var p :| p in m && SumBy(m, f) == f(m[p]) + SumBy(m - {p}, f);
    if p != k {
      SumRemove(m - {p}, k, f);
      SumRemove(m - {k}, p, f);
      assert m - {p} - {k} == m - {k} - {p};
    }
  }

  lemma SumUpdate<K, T>(m: map<K, T>, k: K, v: T, f: T -> real)
    ensures SumBy(m[k := v], f) == SumBy(m - {k}, f) + f(v)
    ensures k in m ==> SumBy(m[k := v], f) == SumBy(m, f) - f(m[k]) + f(v)
    ensures k !in m ==> SumBy(m[k := v], f) == SumBy(m, f) + f(v)
  {
    SumRemove(m[k := v], k, f);
    assert m[k := v] - {k} == m - {k};
    if k in m {
      SumRemove(m, k, f);
    } else {
      assert m - {k} == m;
    }
  }

  /** A sum that grows row by row grows. */
  lemma {:induction false} SumMonotone<K, T, U>(m: map<K, T>, f: T -> real, n: map<K, U>, g: U -> real)
    requires m.Keys == n.Keys
    requires forall k :: k in m ==> f(m[k]) <= g(n[k])
    ensures SumBy(m, f) <= SumBy(n, g)
    decreases |m|
  {
    if m == map[] {
      assert n == map[];
    } else {
      var k :| k in m;
      SumRemove(m, k, f);
      SumRemove(n, k, g);
      SumMonotone(m - {k}, f, n - {k}, g);
    }
  }

  lemma {:induction false} SumCongruent<K, T, U>(m: map<K, T>, f: T -> real, n: map<K, U>, g: U -> real)
    requires m.Keys == n.Keys
    requires forall k :: k in m ==> f(m[k]) == g(n[k])
    ensures SumBy(m, f) == SumBy(n, g)
  {
    SumMonotone(m, f, n, g);
    SumMonotone(n, g, m, f);
  }

  lemma {:induction false} SumZero<K, T>(m: map<K, T>, f: T -> real)
    requires forall k :: k in m ==> f(m[k]) == 0.0
    ensures SumBy(m, f) == 0.0
    decreases |m|
  {
    if m != map[] {
      var k :| k in m;
      SumRemove(m, k, f);
      SumZero(m - {k}, f);
    }
  }

  /** The sum of two measures is the measure of their sum. */
  lemma {:induction false} SumAdd<K, T>(m: map<K, T>, f: T -> real, g: T -> real, h: T -> real)
    requires forall k :: k in m ==> h(m[k]) == f(m[k]) + g(m[k])
    ensures SumBy(m, h) == SumBy(m, f) + SumBy(m, g)
    decreases |m|
  {
    if m != map[] {
      var k :| k in m;
      SumRemove(m, k, f);
      SumRemove(m, k, g);
      SumRemove(m, k, h);
      SumAdd(m - {k}, f, g, h);
    }
  }

  /** `n` copies of the amount `c`. */
  ghost function Times(c: real, n: nat): real {
    if n == 0 then 0.0 else Times(c, n - 1) + c
  }

  lemma {:induction false} TimesIsProduct(c: real, n: nat)
    ensures Times(c, n) == c * (n as real)
  {
    if n > 0 {
      TimesIsProduct(c, n - 1);
      calc {
        Times(c, n);
        c * ((n - 1) as real) + c;
        c * ((n - 1) as real + 1.0);
        c * (n as real);
      }
    }
  }

  function Product(c: real, n: nat): real {
    c * (n as real)
  }

  lemma {:induction false} BelowProduct(x: real, y: real, c: real, n: nat)
    requires x < y + Times(c, n)
    ensures x < y + Product(c, n)
  {
    TimesIsProduct(c, n);
  }

  lemma {:induction false} TimesMonotone(c: real, m: nat, n: nat)
    requires c >= 0.0 && m <= n
    ensures Times(c, m) <= Times(c, n)
    decreases n
  {
    if m < n {
      TimesMonotone(c, m, n - 1);
    }
  }

  /** The keys whose rows satisfy a condition. */
  ghost function Select<K, T>(m: map<K, T>, p: T -> bool): set<K> {
    set k | k in m && p(m[k])
  }

  lemma SelectRemove<K, T>(m: map<K, T>, k: K, p: T -> bool)
    requires k in m
    ensures |Select(m, p)| == |Select(m - {k}, p)| + if p(m[k]) then 1 else 0
  {
    var rest := Select(m - {k}, p);
    if p(m[k]) {
      assert Select(m, p) == rest + {k};
    } else {
      assert Select(m, p) == rest;
    }
  }

  /** Charging `c` to each selected row charges `c` once per selected row. */
  lemma {:induction false} SumSelected<K, T>(m: map<K, T>, p: T -> bool, c: real, f: T -> real)
    requires forall k :: k in m ==> f(m[k]) == if p(m[k]) then c else 0.0
    ensures SumBy(m, f) == Times(c, |Select(m, p)|)
    decreases |m|
  {
    if m == map[] {
      assert Select(m, p) == {};
    } else {
      var k :| k in m;
      SumRemove(m, k, f);
      SelectRemove(m, k, p);
      SumSelected(m - {k}, p, c, f);
    }
  }
}
