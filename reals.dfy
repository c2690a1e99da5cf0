/**
 * Real arithmetic that stands in for the engine's `f64` values.
 *
 * Ratings are modelled as exact reals. The square root (`Float::sqrt`) and the
 * fractional power `powf(1 / p)` cannot be computed in Dafny; both are the
 * principal p-th root, which the model receives as a parameter `root` of type
 * `Root` and constrains with `IsRoot`. Integer powers (`powi`) are exact.
 */
module Reals {

  function Abs(x: real): real {
    if x < 0.0 then -x else x
  }

  /** `powi`: x raised to a natural exponent. */
  function Pow(x: real, n: nat): real {
    if n == 0 then 1.0 else x * Pow(x, n - 1)
  }

  /** root(y, p) stands for y^(1/p): `sqrt` is root(·, 2), `powf(1 / p)` is root(·, p). */
  type Root = (real, nat) -> real

  /**
   * Exact division of two reals whose denominator is known not to be zero
   * (a mean over a non-empty set, a share of a non-empty union).
   */
  function Quotient(num: real, den: real): (q: real)
    requires den != 0.0
    ensures q * den == num
  {
    num / den
  }

  /** The quotient is the only number that gives back the numerator when multiplied by the denominator. */
  lemma QuotientUnique(q: real, num: real, den: real)
    requires den != 0.0 && q * den == num
    ensures Quotient(num, den) == q
  {
    var r := Quotient(num, den);
    assert (r - q) * den == 0.0;
  }

  /** A square is non-negative and vanishes only at zero. */
  lemma SquareNonNegative(x: real)
    ensures x * x >= 0.0
    ensures x != 0.0 ==> x * x > 0.0
  {
    if x < 0.0 {
      assert x * x == (-x) * (-x);
    }
  }

  /** A part over a positive whole lies in [0, 1], reaching 1 only for the whole and 0 only for nothing. */
  lemma QuotientOfPart(part: real, whole: real)
    requires 0.0 <= part <= whole && whole > 0.0
    ensures 0.0 <= Quotient(part, whole) <= 1.0
    ensures Quotient(part, whole) == 1.0 <==> part == whole
    ensures Quotient(part, whole) == 0.0 <==> part == 0.0
  {
    ScaledBounds(Quotient(part, whole), part, whole);
  }

  lemma ScaledBounds(q: real, part: real, whole: real)
    requires q * whole == part && 0.0 <= part <= whole && whole > 0.0
    ensures 0.0 <= q <= 1.0
  {
  }

  /** A quotient by a positive denominator lies between bounds whose multiples bracket the numerator. */
  lemma QuotientWithin(q: real, num: real, den: real, lo: real, hi: real)
    requires den > 0.0 && q * den == num && lo * den <= num <= hi * den
    ensures lo <= q <= hi
  {
    assert (q - lo) * den >= 0.0;
    assert (hi - q) * den >= 0.0;
  }

  /** `root` is the principal root: on non-negative reals it inverts `Pow` and is non-negative. */
  ghost predicate IsRoot(root: Root) {
    && (forall x: real, p: nat :: p >= 1 && x >= 0.0 ==> root(Pow(x, p), p) == x)
    && (forall y: real, p: nat :: p >= 1 && y >= 0.0 ==> root(y, p) >= 0.0 && Pow(root(y, p), p) == y)
  }

  /**
   * An `f64` produced by a division the source does not guard: either an
   * ordinary number or one of the non-finite values (NaN, +inf, -inf).
   */
  datatype Float = Finite(value: real) | NonFinite

  /** IEEE division of two finite values: dividing by zero gives a non-finite value. */
  function FloatDiv(num: real, den: real): (r: Float)
    ensures r.NonFinite? <==> den == 0.0
    ensures r.Finite? ==> r.value * den == num
  {
    if den == 0.0 then NonFinite else Finite(num / den)
  }

  lemma {:induction false} PowNonNegative(x: real, n: nat)
    requires x >= 0.0
    ensures Pow(x, n) >= 0.0
  {
    if n > 0 {
      PowNonNegative(x, n - 1);
    }
  }

  lemma {:induction false} PowZeroBase(n: nat)
    requires n >= 1
    ensures Pow(0.0, n) == 0.0
  {
  }

  lemma PowOne(x: real)
    ensures Pow(x, 1) == x
  {
  }

  lemma PowTwo(x: real)
    ensures Pow(x, 2) == x * x
  {
    assert Pow(x, 1) == x * Pow(x, 0);
  }

  /** The root of zero is zero. */
  lemma RootOfZero(root: Root, p: nat)
    requires IsRoot(root) && p >= 1
    ensures root(0.0, p) == 0.0
  {
    PowZeroBase(p);
    assert root(Pow(0.0, p), p) == 0.0;
  }

  /** The root of a positive number is positive. */
  lemma RootOfPositive(root: Root, y: real, p: nat)
    requires IsRoot(root) && p >= 1 && y > 0.0
    ensures root(y, p) > 0.0
  {
    assert Pow(root(y, p), p) == y;
    if root(y, p) == 0.0 {
      PowZeroBase(p);
    }
  }

  /** The root of a non-negative number is zero exactly when the number is. */
  lemma RootZeroIff(root: Root, y: real, p: nat)
    requires IsRoot(root) && p >= 1 && y >= 0.0
    ensures root(y, p) == 0.0 <==> y == 0.0
  {
    if y == 0.0 {
      RootOfZero(root, p);
    } else {
      RootOfPositive(root, y, p);
    }
  }

  /** A square root times itself gives back the radicand. */
  lemma RootSquared(root: Root, y: real)
    requires IsRoot(root) && y >= 0.0
    ensures root(y, 2) * root(y, 2) == y
  {
    assert Pow(root(y, 2), 2) == y;
    PowTwo(root(y, 2));
  }

  /** The first root is the identity on non-negative numbers. */
  lemma RootFirst(root: Root, y: real)
    requires IsRoot(root) && y >= 0.0
    ensures root(y, 1) == y
  {
    PowOne(y);
    assert root(Pow(y, 1), 1) == y;
  }

  /** The square root of a perfect square of a non-negative number. */
  lemma RootOfSquare(root: Root, x: real)
    requires IsRoot(root) && x >= 0.0
    ensures root(x * x, 2) == x
  {
    PowTwo(x);
    assert root(Pow(x, 2), 2) == x;
  }
}
