/**
 * Finite sums over sets. The metrics accumulate over the keys of a `HashMap`,
 * whose iteration order is unspecified; in exact arithmetic the sum does not
 * depend on that order, which `SumRemove` states.
 */
module Sums {

  ghost function Sum<K>(s: set<K>, f: K -> real): real
    decreases s
  {
    if s == {} then 0.0 else var k :| k in s; f(k) + Sum(s - {k}, f)
  }

  /** Any element can be taken out first. */
  lemma {:induction false} SumRemove<K>(s: set<K>, f: K -> real, x: K)
    requires x in s
    ensures Sum(s, f) == f(x) + Sum(s - {x}, f)
    decreases s
  {
    var y :| y in s && Sum(s, f) == f(y) + Sum(s - {y}, f);
    if y != x {
      SumRemove(s - {y}, f, x);
      SumRemove(s - {x}, f, y);
      assert s - {y} - {x} == s - {x} - {y};
    }
  }

  /** Adding one new element adds its term. */
  lemma SumAdd<K>(s: set<K>, f: K -> real, x: K)
    requires x !in s
    ensures Sum(s + {x}, f) == Sum(s, f) + f(x)
  {
    SumRemove(s + {x}, f, x);
    assert s + {x} - {x} == s;
  }

  /** Sums agree when the terms agree on the set. */
  lemma {:induction false} SumCongruence<K>(s: set<K>, f: K -> real, g: K -> real)
    requires forall k :: k in s ==> f(k) == g(k)
    ensures Sum(s, f) == Sum(s, g)
    decreases s
  {
    if s != {} {
      var k :| k in s;
      SumRemove(s, f, k);
      SumRemove(s, g, k);
      SumCongruence(s - {k}, f, g);
    }
  }

  /** A sum of non-negative terms is non-negative. */
  lemma {:induction false} SumNonNegative<K>(s: set<K>, f: K -> real)
    requires forall k :: k in s ==> f(k) >= 0.0
    ensures Sum(s, f) >= 0.0
    decreases s
  {
    if s != {} {
      var k :| k in s;
      SumRemove(s, f, k);
      SumNonNegative(s - {k}, f);
    }
  }

  /** A sum of non-negative terms is zero exactly when every term is zero. */
  lemma {:induction false} SumZeroIff<K>(s: set<K>, f: K -> real)
    requires forall k :: k in s ==> f(k) >= 0.0
    ensures Sum(s, f) == 0.0 <==> forall k :: k in s ==> f(k) == 0.0
    decreases s
  {
    if s != {} {
      var k :| k in s;
      SumRemove(s, f, k);
      SumZeroIff(s - {k}, f);
      SumNonNegative(s - {k}, f);
    }
  }

    /** Sums are monotone in their terms. */
  lemma {:induction false} SumMonotone<K>(s: set<K>, f: K -> real, g: K -> real)
    requires forall k :: k in s ==> f(k) <= g(k)
    ensures Sum(s, f) <= Sum(s, g)
    decreases s
  {
    if s != {} {
      var k :| k in s;
      SumRemove(s, f, k);
      SumRemove(s, g, k);
      SumMonotone(s - {k}, f, g);
    }
  }

  /** Terms within `[lo, hi]` sum to between `|s|` times each bound. */
  lemma SumBounds<K>(s: set<K>, f: K -> real, lo: real, hi: real)
    requires forall k :: k in s ==> lo <= f(k) <= hi
    ensures lo * (|s| as real) <= Sum(s, f) <= hi * (|s| as real)
  {
    var low, high := (_: K) => lo, (_: K) => hi;
    SumMonotone(s, low, f);
    SumMonotone(s, f, high);
    SumConst(s, low, lo);
    SumConst(s, high, hi);
  }

  /** Linearity: scaling every term scales the sum. */
  lemma {:induction false} SumScale<K>(s: set<K>, h: K -> real, f: K -> real, c: real)
    requires forall k :: k in s ==> h(k) == c * f(k)
    ensures Sum(s, h) == c * Sum(s, f)
    decreases s
  {
    if s != {} {
      var k :| k in s;
      var rest := s - {k};
      SumScale(rest, h, f, c);
      SumScaleStep(s, h, f, c, k, Sum(s, h), Sum(s, f), Sum(rest, h), Sum(rest, f));
    }
  }

  /**
   * The step of `SumScale`, from the rest of the set to the whole of it. The
   * sums come in as plain values so that no product of `c` with a `Sum` term
   * is in sight while the sums are unfolded.
   */
  lemma SumScaleStep<K>(s: set<K>, h: K -> real, f: K -> real, c: real, k: K, sh: real, sf: real, rh: real, rf: real)
    requires k in s && h(k) == c * f(k)
    requires sh == Sum(s, h) && sf == Sum(s, f) && rh == Sum(s - {k}, h) && rf == Sum(s - {k}, f)
    requires rh == c * rf
    ensures sh == c * sf
  {
    SumRemove(s, h, k);
    SumRemove(s, f, k);
    ScaleStep(sh, sf, h(k), f(k), rh, rf, c);
  }

  /** One element more on both sides of `SumScale`. */
  lemma ScaleStep(sh: real, sf: real, hk: real, fk: real, rh: real, rf: real, c: real)
    requires sh == hk + rh && sf == fk + rf && hk == c * fk && rh == c * rf
    ensures sh == c * sf
  {
  }

  /** A constant term is counted once per element. */
  lemma {:induction false} SumConst<K>(s: set<K>, h: K -> real, e: real)
    requires forall k :: k in s ==> h(k) == e
    ensures Sum(s, h) == e * (|s| as real)
    decreases s
  {
    if s != {} {
      var k :| k in s;
      var rest := s - {k};
      SumRemove(s, h, k);
      SumConst(rest, h, e);
      assert |rest| == |s| - 1;
    }
  }

  /** Linearity: the sum of a pointwise sum. */
  lemma {:induction false} SumPlus<K>(s: set<K>, h: K -> real, f: K -> real, g: K -> real)
    requires forall k :: k in s ==> h(k) == f(k) + g(k)
    ensures Sum(s, h) == Sum(s, f) + Sum(s, g)
    decreases s
  {
    if s != {} {
      var k :| k in s;
      SumRemove(s, h, k);
      SumRemove(s, f, k);
      SumRemove(s, g, k);
      SumPlus(s - {k}, h, f, g);
    }
  }

  /** Linearity of the sum, for a term `f + c1 * g + c2 * h + d`. */
  lemma SumAffine<K>(s: set<K>, t: K -> real, f: K -> real, g: K -> real, h: K -> real, c1: real, c2: real, d: real)
    requires forall k :: k in s ==> t(k) == f(k) + c1 * g(k) + c2 * h(k) + d
    ensures Sum(s, t) == Sum(s, f) + c1 * Sum(s, g) + c2 * Sum(s, h) + d * (|s| as real)
  {
    var rest1: K -> real := k => c1 * g(k) + c2 * h(k) + d;
    var scaled1: K -> real := k => c1 * g(k);
    var rest2: K -> real := k => c2 * h(k) + d;
    var scaled2: K -> real := k => c2 * h(k);
    var constant: K -> real := k => d;
    SumPlus(s, t, f, rest1);
    SumPlus(s, rest1, scaled1, rest2);
    SumScale(s, scaled1, g, c1);
    SumPlus(s, rest2, scaled2, constant);
    SumScale(s, scaled2, h, c2);
    SumConst(s, constant, d);
  }
}
