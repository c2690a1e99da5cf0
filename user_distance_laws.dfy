/**
 * What the user-to-user metrics of engine/src/distances/users.rs promise,
 * stated about their exact-arithmetic values: the split into distances and
 * similarities, symmetry, the behaviour on a map compared with itself, the
 * Minkowski special cases, and the agreement of the one-pass Pearson formula
 * with the two-pass one.
 */
module UserDistanceLaws {
  import opened Wrappers
  import opened Reals
  import opened Sums
  import opened EngineErrors
  import opened CommonKeys
  import opened PairSums
  import opened UserDistances

  /** `is_similarity` / `is_distance` split the eight methods four and four. */
  lemma MethodKinds(m: Method)
    ensures m.IsDistance() <==> m.Manhattan? || m.Euclidean? || m.Minkowski? || m.JaccardDistance?
    ensures m.IsSimilarity() <==> m.JaccardIndex? || m.CosineSimilarity? || m.PearsonCorrelation? || m.PearsonApproximation?
    ensures m.IsDistance() != m.IsSimilarity()
  {
  }

  // ---------------------------------------------------------------------------
  // Symmetry.

  lemma CoRatedSymmetric<K>(a: map<K, real>, b: map<K, real>)
    ensures CoRated(a, b) == CoRated(b, a)
  {
  }

  lemma ManhattanSymmetric<K>(a: map<K, real>, b: map<K, real>)
    ensures ManhattanValue(a, b) == ManhattanValue(b, a)
  {
    CoRatedSymmetric(a, b);
    PairSumSymmetric(a, b, AbsDiff);
  }

  lemma EuclideanSymmetric<K>(a: map<K, real>, b: map<K, real>, root: Root)
    ensures EuclideanValue(a, b, root) == EuclideanValue(b, a, root)
  {
    CoRatedSymmetric(a, b);
    forall x, y ensures SquaredDiff(x, y) == SquaredDiff(y, x) {
      assert (y - x) * (y - x) == (x - y) * (x - y);
    }
    PairSumSymmetric(a, b, SquaredDiff);
  }

  lemma MinkowskiSymmetric<K>(a: map<K, real>, b: map<K, real>, p: nat, root: Root)
    ensures MinkowskiValue(a, b, p, root) == MinkowskiValue(b, a, p, root)
  {
    CoRatedSymmetric(a, b);
    forall x, y ensures PowAbsDiff(p)(x, y) == PowAbsDiff(p)(y, x) {
      assert Abs(y - x) == Abs(x - y);
    }
    PairSumSymmetric(a, b, PowAbsDiff(p));
  }

  lemma JaccardSymmetric<K>(a: map<K, real>, b: map<K, real>)
    ensures JaccardIndexOf(a, b) == JaccardIndexOf(b, a)
  {
    var i1, i2 := a.Keys * b.Keys, b.Keys * a.Keys;
    var u1, u2 := a.Keys + b.Keys, b.Keys + a.Keys;
    assert i1 == i2;
    assert u1 == u2;
  }

  lemma JaccardDistanceSymmetric<K>(a: map<K, real>, b: map<K, real>)
    ensures JaccardDistanceOf(a, b) == JaccardDistanceOf(b, a)
  {
    JaccardSymmetric(a, b);
  }

  /** The closing division does not care in which order the two spreads come. */
  lemma CorrelationCommutes(num: real, sx: real, sy: real, root: Root)
    ensures Correlation(num, sx, sy, root) == Correlation(num, sy, sx, root)
  {
    assert root(sx, 2) * root(sy, 2) == root(sy, 2) * root(sx, 2);
  }

  lemma CosineSymmetric<K>(a: map<K, real>, b: map<K, real>, root: Root)
    ensures CosineValue(a, b, root) == CosineValue(b, a, root)
  {
    CoRatedSymmetric(a, b);
    PairSumSwapped(a, b, Dot, Dot);
    PairSumSwapped(a, b, SquareX, SquareY);
    PairSumSwapped(a, b, SquareY, SquareX);
    CorrelationCommutes(PairSum(a, b, Dot), PairSum(a, b, SquareX), PairSum(a, b, SquareY), root);
  }

  // ---------------------------------------------------------------------------
  // Minkowski's special cases.

  /** `minkowski(a, b, 1)` is `manhattan(a, b)`. */
  lemma MinkowskiOneIsManhattan<K>(a: map<K, real>, b: map<K, real>, root: Root)
    requires IsRoot(root)
    ensures MinkowskiValue(a, b, 1, root) == ManhattanValue(a, b)
  {
    forall x, y ensures PowAbsDiff(1)(x, y) == AbsDiff(x, y) {
      PowOne(Abs(y - x));
    }
    PairSumAgree(a, b, PowAbsDiff(1), AbsDiff);
    PairSumNonNegative(a, b, AbsDiff);
    RootFirst(root, PairSum(a, b, AbsDiff));
  }

  /** `minkowski(a, b, 2)` is `euclidean(a, b)`. */
  lemma MinkowskiTwoIsEuclidean<K>(a: map<K, real>, b: map<K, real>, root: Root)
    ensures MinkowskiValue(a, b, 2, root) == EuclideanValue(a, b, root)
  {
    forall x, y ensures PowAbsDiff(2)(x, y) == SquaredDiff(x, y) {
      PowTwo(Abs(y - x));
      assert Abs(y - x) * Abs(y - x) == (y - x) * (y - x);
    }
    PairSumAgree(a, b, PowAbsDiff(2), SquaredDiff);
  }

  // ---------------------------------------------------------------------------
  // Distances are non-negative and vanish on a map compared with itself.

  lemma SquaredDiffNonNegative<K>(a: map<K, real>, b: map<K, real>)
    ensures PairSum(a, b, SquaredDiff) >= 0.0
  {
    forall x, y ensures SquaredDiff(x, y) >= 0.0 {
      if y - x < 0.0 {
        assert (y - x) * (y - x) == (x - y) * (x - y);
      }
    }
    PairSumNonNegative(a, b, SquaredDiff);
  }

  lemma PowAbsDiffNonNegative<K>(a: map<K, real>, b: map<K, real>, p: nat)
    ensures PairSum(a, b, PowAbsDiff(p)) >= 0.0
  {
    forall x, y ensures PowAbsDiff(p)(x, y) >= 0.0 {
      PowNonNegative(Abs(y - x), p);
    }
    PairSumNonNegative(a, b, PowAbsDiff(p));
  }

  /** Every distance method that succeeds gives a non-negative value. */
  lemma DistanceNonNegative<K>(a: map<K, real>, b: map<K, real>, m: Method, root: Root)
    requires IsRoot(root) && m.Allowed() && m.IsDistance()
    ensures DistanceValue(a, b, m, root).Ok? ==> DistanceValue(a, b, m, root).value >= 0.0
  {
    match m
    case Manhattan =>
      PairSumNonNegative(a, b, AbsDiff);
    case Euclidean =>
      SquaredDiffNonNegative(a, b);
    case Minkowski(p) =>
      PowAbsDiffNonNegative(a, b, p);
    case JaccardDistance =>
      JaccardDistanceRange(a, b);
  }

  /** The sum of a term that is zero on the diagonal, over a map compared with itself. */
  lemma SelfSumZero<K>(a: map<K, real>, term: Term)
    requires forall x :: term(x, x) == 0.0
    ensures PairSum(a, a, term) == 0.0
  {
    PairSumSelfAgree(a, term, (x, y) => 0.0);
    PairSumConst(a, a, (x, y) => 0.0, 0.0);
  }

  /** A non-empty map is at distance zero from itself under every distance method. */
  lemma SelfDistanceIsZero<K>(a: map<K, real>, m: Method, root: Root)
    requires IsRoot(root) && m.Allowed() && m.IsDistance() && |a| > 0
    ensures DistanceValue(a, a, m, root) == Ok(0.0)
  {
    assert CoRated(a, a) == a.Keys;
    assert CoRated(a, a) != {} by {
      var k :| k in a;
    }
    match m
    case Manhattan =>
      SelfSumZero(a, AbsDiff);
    case Euclidean =>
      SelfSumZero(a, SquaredDiff);
      RootOfZero(root, 2);
    case Minkowski(p) =>
      PowZeroBase(p);
      SelfSumZero(a, PowAbsDiff(p));
      RootOfZero(root, p);
    case JaccardDistance =>
      JaccardDistanceRange(a, a);
  }

  // ---------------------------------------------------------------------------
  // Similarities of a map with itself.

  /** A spread set against itself correlates perfectly, unless it is zero, which is 0/0. */
  lemma CorrelationSelf(s: real, root: Root)
    requires IsRoot(root) && s >= 0.0
    ensures s > 0.0 ==> Correlation(s, s, s, root) == Ok(1.0)
    ensures s == 0.0 ==> Correlation(s, s, s, root) == Err(IndeterminateForm)
  {
    RootSquared(root, s);
    if s > 0.0 {
      QuotientUnique(1.0, s, s);
    }
  }

  /** A sum of squared ratings is never negative. */
  lemma SelfSquaresNonNegative<K>(a: map<K, real>)
    ensures PairSum(a, a, SquareX) >= 0.0
  {
    forall x, y ensures SquareX(x, y) >= 0.0 {
      SquareNonNegative(x);
    }
    PairSumNonNegative(a, a, SquareX);
  }

  /**
   * The cosine of a non-empty map with itself is 1, unless its norm is zero,
   * when it is 0/0.
   */
  lemma CosineSelf<K>(a: map<K, real>, root: Root)
    requires IsRoot(root) && |a| > 0
    ensures PairSum(a, a, SquareX) != 0.0 ==> CosineValue(a, a, root) == Ok(1.0)
    ensures PairSum(a, a, SquareX) == 0.0 ==> CosineValue(a, a, root) == Err(IndeterminateForm)
  {
    assert CoRated(a, a) == a.Keys;
    assert CoRated(a, a) != {} by {
      var k :| k in a;
    }
    PairSumSelfAgree(a, Dot, SquareX);
    PairSumSelfAgree(a, SquareY, SquareX);
    SelfSquaresNonNegative(a);
    CorrelationSelf(PairSum(a, a, SquareX), root);
  }

  /**
   * Pearson's coefficient of a non-empty map with itself is 1, unless its
   * ratings do not spread around their mean, when it is 0/0.
   */
  lemma PearsonSelf<K>(a: map<K, real>, root: Root)
    requires IsRoot(root) && CoRated(a, a) != {}
    ensures var m := Quotient(PairSum(a, a, RatingX), Count(a, a));
      && (PairSum(a, a, CentredSquareX(m)) != 0.0 ==> PearsonValue(a, a, root) == Ok(1.0))
      && (PairSum(a, a, CentredSquareX(m)) == 0.0 ==> PearsonValue(a, a, root) == Err(IndeterminateForm))
  {
    var m := Quotient(PairSum(a, a, RatingX), Count(a, a));
    PairSumSelfAgree(a, RatingY, RatingX);
    forall x ensures CentredDot(m, m)(x, x) == CentredSquareX(m)(x, x) {}
    forall x ensures CentredSquareY(m)(x, x) == CentredSquareX(m)(x, x) {}
    PairSumSelfAgree(a, CentredDot(m, m), CentredSquareX(m));
    PairSumSelfAgree(a, CentredSquareY(m), CentredSquareX(m));
    forall x, y ensures CentredSquareX(m)(x, y) >= 0.0 {
      SquareNonNegative(x - m);
    }
    PairSumNonNegative(a, a, CentredSquareX(m));
    CorrelationSelf(PairSum(a, a, CentredSquareX(m)), root);
  }

  // ---------------------------------------------------------------------------
  // Pearson's two formulas.

  lemma PearsonSymmetric<K>(a: map<K, real>, b: map<K, real>, root: Root)
    ensures PearsonValue(a, b, root) == PearsonValue(b, a, root)
  {
    CoRatedSymmetric(a, b);
    if CoRated(a, b) != {} {
      PairSumSwapped(a, b, RatingX, RatingY);
      PairSumSwapped(a, b, RatingY, RatingX);
      var mx := Quotient(PairSum(a, b, RatingX), Count(a, b));
      var my := Quotient(PairSum(a, b, RatingY), Count(a, b));
      forall x, y ensures CentredDot(mx, my)(x, y) == CentredDot(my, mx)(y, x) {
        assert (x - mx) * (y - my) == (y - my) * (x - mx);
      }
      forall x, y ensures CentredSquareX(mx)(x, y) == CentredSquareY(mx)(y, x) {}
      forall x, y ensures CentredSquareY(my)(x, y) == CentredSquareX(my)(y, x) {}
      PairSumSwapped(a, b, CentredDot(mx, my), CentredDot(my, mx));
      PairSumSwapped(a, b, CentredSquareX(mx), CentredSquareY(mx));
      PairSumSwapped(a, b, CentredSquareY(my), CentredSquareX(my));
      if |a| == |b| {
        CorrelationCommutes(PairSum(a, b, CentredDot(mx, my)), PairSum(a, b, CentredSquareX(mx)),
                            PairSum(a, b, CentredSquareY(my)), root);
      }
    }
  }

  /** Expanding a centred cross product summed over n pairs, with the means written as sums over n. */
  lemma ExpandCross(n: real, sx: real, sy: real, sxy: real, mx: real, my: real)
    requires n != 0.0 && mx * n == sx && my * n == sy
    ensures sxy + (-my) * sx + (-mx) * sy + (mx * my) * n == sxy - Quotient(sx * sy, n)
  {
    assert (mx * my * n) * n == (mx * n) * (my * n);
    QuotientUnique(mx * my * n, sx * sy, n);
    assert my * sx == mx * my * n;
    assert mx * sy == mx * my * n;
  }

  /**
   * Closing arithmetic of the one-pass rewrite: with the means `mx = sx / n` and
   * `my = sy / n`, expanding a centred sum `q` leaves `sxy - sx * sy / n`.
   */
  lemma CentredChain(p: real, q: real, sxy: real, sx: real, sy: real, n: real, mx: real, my: real)
    requires n != 0.0 && mx == Quotient(sx, n) && my == Quotient(sy, n)
    requires p == q && q == sxy + (-my) * sx + (-mx) * sy + mx * my * n
    ensures p == sxy - Quotient(sx * sy, n)
  {
    ExpandCross(n, sx, sy, sxy, mx, my);
  }

  /**
   * A term that is `f - my * g - mx * h + mx * my` on every pair, where `mx` and
   * `my` are the means of `g` and `h`, sums to `sum f - (sum g) * (sum h) / n`.
   */
  lemma CentredSum<K>(a: map<K, real>, b: map<K, real>, t: Term, f: Term, g: Term, h: Term, mx: real, my: real)
    requires CoRated(a, b) != {}
    requires mx == Quotient(PairSum(a, b, g), Count(a, b)) && my == Quotient(PairSum(a, b, h), Count(a, b))
    requires forall x, y :: t(x, y) == Affine(f, g, h, -my, -mx, mx * my)(x, y)
    ensures PairSum(a, b, t) == PairSum(a, b, f) - Quotient(PairSum(a, b, g) * PairSum(a, b, h), Count(a, b))
  {
    var n := Count(a, b);
    assert n == |CoRated(a, b)| as real;
    PairSumAgree(a, b, t, Affine(f, g, h, -my, -mx, mx * my));
    PairSumAffine(a, b, f, g, h, -my, -mx, mx * my);
    CentredChain(PairSum(a, b, t), PairSum(a, b, Affine(f, g, h, -my, -mx, mx * my)),
      PairSum(a, b, f), PairSum(a, b, g), PairSum(a, b, h), n, mx, my);
  }

  /** `(x - mx) * (y - my)` multiplied out. */
  lemma ProductExpands(x: real, y: real, mx: real, my: real, p: real, xy: real)
    requires p == (x - mx) * (y - my) && xy == x * y
    ensures p == xy + (-my) * x + (-mx) * y + mx * my
  {
  }

  lemma CentredDotExpands(mx: real, my: real)
    ensures forall x, y :: CentredDot(mx, my)(x, y) == Affine(Dot, RatingX, RatingY, -my, -mx, mx * my)(x, y)
  {
    forall x, y ensures CentredDot(mx, my)(x, y) == Affine(Dot, RatingX, RatingY, -my, -mx, mx * my)(x, y) {
      assert Affine(Dot, RatingX, RatingY, -my, -mx, mx * my)(x, y) == Dot(x, y) + (-my) * RatingX(x, y) + (-mx) * RatingY(x, y) + mx * my;
      ProductExpands(RatingX(x, y), RatingY(x, y), mx, my, CentredDot(mx, my)(x, y), Dot(x, y));
    }
  }

  lemma CentredSquareXExpands(mx: real)
    ensures forall x, y :: CentredSquareX(mx)(x, y) == Affine(SquareX, RatingX, RatingX, -mx, -mx, mx * mx)(x, y)
  {
    forall x, y ensures CentredSquareX(mx)(x, y) == Affine(SquareX, RatingX, RatingX, -mx, -mx, mx * mx)(x, y) {
      assert Affine(SquareX, RatingX, RatingX, -mx, -mx, mx * mx)(x, y) == SquareX(x, y) + (-mx) * RatingX(x, y) + (-mx) * RatingX(x, y) + mx * mx;
      ProductExpands(RatingX(x, y), RatingX(x, y), mx, mx, CentredSquareX(mx)(x, y), SquareX(x, y));
    }
  }

  lemma CentredSquareYExpands(my: real)
    ensures forall x, y :: CentredSquareY(my)(x, y) == Affine(SquareY, RatingY, RatingY, -my, -my, my * my)(x, y)
  {
    forall x, y ensures CentredSquareY(my)(x, y) == Affine(SquareY, RatingY, RatingY, -my, -my, my * my)(x, y) {
      assert Affine(SquareY, RatingY, RatingY, -my, -my, my * my)(x, y) == SquareY(x, y) + (-my) * RatingY(x, y) + (-my) * RatingY(x, y) + my * my;
      ProductExpands(RatingY(x, y), RatingY(x, y), my, my, CentredSquareY(my)(x, y), SquareY(x, y));
    }
  }

  /** The numerator of Pearson's coefficient, centred or one-pass. */
  lemma CentredCrossSum<K>(a: map<K, real>, b: map<K, real>, mx: real, my: real)
    requires CoRated(a, b) != {}
    requires mx == Quotient(PairSum(a, b, RatingX), Count(a, b)) && my == Quotient(PairSum(a, b, RatingY), Count(a, b))
    ensures PairSum(a, b, CentredDot(mx, my))
         == PairSum(a, b, Dot) - Quotient(PairSum(a, b, RatingX) * PairSum(a, b, RatingY), Count(a, b))
  {
    CentredDotExpands(mx, my);
    CentredSum(a, b, CentredDot(mx, my), Dot, RatingX, RatingY, mx, my);
  }

  /** The first denominator of Pearson's coefficient, centred or one-pass. */
  lemma CentredSquareSumX<K>(a: map<K, real>, b: map<K, real>, mx: real)
    requires CoRated(a, b) != {}
    requires mx == Quotient(PairSum(a, b, RatingX), Count(a, b))
    ensures PairSum(a, b, CentredSquareX(mx))
         == PairSum(a, b, SquareX) - Quotient(PairSum(a, b, RatingX) * PairSum(a, b, RatingX), Count(a, b))
  {
    CentredSquareXExpands(mx);
    CentredSum(a, b, CentredSquareX(mx), SquareX, RatingX, RatingX, mx, mx);
  }

  /** The second denominator of Pearson's coefficient, centred or one-pass. */
  lemma CentredSquareSumY<K>(a: map<K, real>, b: map<K, real>, my: real)
    requires CoRated(a, b) != {}
    requires my == Quotient(PairSum(a, b, RatingY), Count(a, b))
    ensures PairSum(a, b, CentredSquareY(my))
         == PairSum(a, b, SquareY) - Quotient(PairSum(a, b, RatingY) * PairSum(a, b, RatingY), Count(a, b))
  {
    CentredSquareYExpands(my);
    CentredSum(a, b, CentredSquareY(my), SquareY, RatingY, RatingY, my, my);
  }

  /**
   * `pearson_approximation` computes the same coefficient as `pearson_correlation`
   * in exact arithmetic: the one-pass numerator and denominators are the centred
   * sums rewritten.
   */
  lemma PearsonApproxIsPearson<K>(a: map<K, real>, b: map<K, real>, root: Root)
    ensures PearsonApproxValue(a, b, root) == PearsonValue(a, b, root)
  {
    if CoRated(a, b) != {} {
      var n := Count(a, b);
      var mx := Quotient(PairSum(a, b, RatingX), n);
      var my := Quotient(PairSum(a, b, RatingY), n);
      CentredAsOnePass(a, b, n, mx, my);
      OnePassIsCentred(n, PairSum(a, b, RatingX), PairSum(a, b, RatingY), PairSum(a, b, SquareX), PairSum(a, b, SquareY),
                       PairSum(a, b, Dot), PairSum(a, b, CentredDot(mx, my)), PairSum(a, b, CentredSquareX(mx)),
                       PairSum(a, b, CentredSquareY(my)), root);
    }
  }

  /** The centred sums `cxy`, `cxx` and `cyy` are the one-pass sums rewritten, over `n` pairs. */
  ghost predicate OnePassAgrees(n: real, sx: real, sy: real, sxx: real, syy: real, sxy: real, cxy: real, cxx: real, cyy: real) {
    && n != 0.0
    && cxy == sxy - Quotient(sx * sy, n)
    && cxx == sxx - Quotient(sx * sx, n)
    && cyy == syy - Quotient(sy * sy, n)
  }

  /** The one-pass closing arithmetic on raw sums is the correlation of the centred sums they equal. */
  lemma OnePassIsCentred(n: real, sx: real, sy: real, sxx: real, syy: real, sxy: real,
                         cxy: real, cxx: real, cyy: real, root: Root)
    requires OnePassAgrees(n, sx, sy, sxx, syy, sxy, cxy, cxx, cyy)
    ensures OnePassPearson(n, sx, sy, sxx, syy, sxy, root) == Correlation(cxy, cxx, cyy, root)
  {
  }

  /** The three centred sums of Pearson's coefficient, each rewritten as a one-pass sum. */
  lemma CentredAsOnePass<K>(a: map<K, real>, b: map<K, real>, n: real, mx: real, my: real)
    requires CoRated(a, b) != {} && n == Count(a, b)
    requires mx == Quotient(PairSum(a, b, RatingX), n) && my == Quotient(PairSum(a, b, RatingY), n)
    ensures OnePassAgrees(n, PairSum(a, b, RatingX), PairSum(a, b, RatingY), PairSum(a, b, SquareX), PairSum(a, b, SquareY),
                          PairSum(a, b, Dot), PairSum(a, b, CentredDot(mx, my)), PairSum(a, b, CentredSquareX(mx)),
                          PairSum(a, b, CentredSquareY(my)))
  {
    CentredCrossSum(a, b, mx, my);
    CentredSquareSumX(a, b, mx);
    CentredSquareSumY(a, b, my);
  }

  lemma PearsonApproxSymmetric<K>(a: map<K, real>, b: map<K, real>, root: Root)
    ensures PearsonApproxValue(a, b, root) == PearsonApproxValue(b, a, root)
  {
    PearsonApproxIsPearson(a, b, root);
    PearsonApproxIsPearson(b, a, root);
    PearsonSymmetric(a, b, root);
  }

  /** Every metric `distance` dispatches to gives the same answer with its arguments swapped. */
  lemma DistanceSymmetric<K>(a: map<K, real>, b: map<K, real>, m: Method, root: Root)
    requires m.Allowed()
    ensures DistanceValue(a, b, m, root) == DistanceValue(b, a, m, root)
  {
    match m
    case Manhattan => ManhattanSymmetric(a, b);
    case Euclidean => EuclideanSymmetric(a, b, root);
    case Minkowski(p) => MinkowskiSymmetric(a, b, p, root);
    case JaccardIndex => JaccardSymmetric(a, b);
    case JaccardDistance => JaccardDistanceSymmetric(a, b);
    case CosineSimilarity => CosineSymmetric(a, b, root);
    case PearsonCorrelation => PearsonSymmetric(a, b, root);
    case PearsonApproximation => PearsonApproxSymmetric(a, b, root);
  }
}
