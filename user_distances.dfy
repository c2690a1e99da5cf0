/**
 * User-to-user metrics (engine/src/distances/users.rs).
 *
 * Each metric walks the co-rated keys with `common_keys_iter`, filling
 * `Option` accumulators, and reports `NoMatchingRatings` when the maps share
 * no key. The `...Value` ghost functions state what each metric computes in
 * exact arithmetic; the methods are the loops, proved to compute them.
 */
module UserDistances {
  import opened Wrappers
  import opened Reals
  import opened Sums
  import opened EngineErrors
  import opened CommonKeys
  import opened PairSums

  datatype Method =
    | Manhattan
    | Euclidean
    | Minkowski(p: nat)
    | JaccardIndex
    | JaccardDistance
    | CosineSimilarity
    | PearsonCorrelation
    | PearsonApproximation
  {
    /** A similarity grows as users get closer; the others are distances. */
    predicate IsSimilarity() {
      match this
      case Manhattan | Euclidean | Minkowski(_) | JaccardDistance => false
      case JaccardIndex | CosineSimilarity | PearsonCorrelation | PearsonApproximation => true
    }

    predicate IsDistance() {
      !IsSimilarity()
    }

    /** `minkowski_distance` panics on p = 0; every other method is always allowed. */
    predicate Allowed() {
      Minkowski? ==> p != 0
    }
  }

  // The terms the loops add per co-rated key: `x` is the smaller map's rating, `y` the larger map's.

  function AbsDiff(x: real, y: real): real { Abs(y - x) }
  function SquaredDiff(x: real, y: real): real { (y - x) * (y - x) }
  function PowAbsDiff(p: nat): Term { (x, y) => Pow(Abs(y - x), p) }
  function SquareX(x: real, y: real): real { x * x }
  function SquareY(x: real, y: real): real { y * y }
  function Dot(x: real, y: real): real { x * y }
  function One(x: real, y: real): real { 1.0 }
  function RatingX(x: real, y: real): real { x }
  function RatingY(x: real, y: real): real { y }
  function CentredDot(mx: real, my: real): Term { (x, y) => (x - mx) * (y - my) }
  function CentredSquareX(mx: real): Term { (x, y) => (x - mx) * (x - mx) }
  function CentredSquareY(my: real): Term { (x, y) => (y - my) * (y - my) }

  /** The number of co-rated keys, as the loops' counter `n` converted to a float. */
  ghost function Count<K>(a: map<K, real>, b: map<K, real>): real {
    |CoRated(a, b)| as real
  }

  /**
   * The closing step of the correlation metrics: a covariance-like numerator
   * over the product of two square roots, with the NaN and infinity checks.
   */
  function Correlation(num: real, sx: real, sy: real, root: Root): Result<real, ErrorKind> {
    Divide(num, root(sx, 2) * root(sy, 2))
  }

  /** The closing arithmetic of `pearson_approximation`, from the counter and the five raw sums. */
  function OnePassPearson(n: real, sumX: real, sumY: real, sumXSq: real, sumYSq: real, dotProd: real, root: Root)
    : Result<real, ErrorKind>
    requires n != 0.0
  {
    var num := dotProd - Quotient(sumX * sumY, n);
    var demX := sumXSq - Quotient(sumX * sumX, n);
    var demY := sumYSq - Quotient(sumY * sumY, n);
    Correlation(num, demX, demY, root)
  }

  ghost function ManhattanValue<K>(a: map<K, real>, b: map<K, real>): Result<real, ErrorKind> {
    if CoRated(a, b) == {} then Err(NoMatchingRatings) else Ok(PairSum(a, b, AbsDiff))
  }

  ghost function EuclideanValue<K>(a: map<K, real>, b: map<K, real>, root: Root): Result<real, ErrorKind> {
    if CoRated(a, b) == {} then Err(NoMatchingRatings) else Ok(root(PairSum(a, b, SquaredDiff), 2))
  }

  ghost function MinkowskiValue<K>(a: map<K, real>, b: map<K, real>, p: nat, root: Root): Result<real, ErrorKind> {
    if CoRated(a, b) == {} then Err(NoMatchingRatings) else Ok(root(PairSum(a, b, PowAbsDiff(p)), p))
  }

  ghost function CosineValue<K>(a: map<K, real>, b: map<K, real>, root: Root): Result<real, ErrorKind> {
    if CoRated(a, b) == {} then Err(NoMatchingRatings)
    else Correlation(PairSum(a, b, Dot), PairSum(a, b, SquareX), PairSum(a, b, SquareY), root)
  }

  /** Pearson's coefficient with the means taken over the co-rated keys. */
  ghost function PearsonValue<K>(a: map<K, real>, b: map<K, real>, root: Root): Result<real, ErrorKind> {
    if CoRated(a, b) == {} then Err(NoMatchingRatings)
    else
      var mx := Quotient(PairSum(a, b, RatingX), Count(a, b));
      var my := Quotient(PairSum(a, b, RatingY), Count(a, b));
      Correlation(PairSum(a, b, CentredDot(mx, my)), PairSum(a, b, CentredSquareX(mx)),
                  PairSum(a, b, CentredSquareY(my)), root)
  }

  /** The one-pass form of Pearson's coefficient, from raw sums. */
  ghost function PearsonApproxValue<K>(a: map<K, real>, b: map<K, real>, root: Root): Result<real, ErrorKind> {
    if CoRated(a, b) == {} then Err(NoMatchingRatings)
    else
      OnePassPearson(Count(a, b), PairSum(a, b, RatingX), PairSum(a, b, RatingY),
                     PairSum(a, b, SquareX), PairSum(a, b, SquareY), PairSum(a, b, Dot), root)
  }

  /** `jaccard_index`: shared keys over all keys; `EmptyRatings` when both maps are empty. */
  function JaccardIndexOf<K>(a: map<K, real>, b: map<K, real>): Result<real, ErrorKind> {
    if |a| == 0 && |b| == 0 then Err(EmptyRatings)
    else if |a| == 0 || |b| == 0 then Ok(0.0)
    else Ok(Quotient(|a.Keys * b.Keys| as real, |a.Keys + b.Keys| as real))
  }

  /** `jaccard_distance`: one minus the index, passing its error on. */
  function JaccardDistanceOf<K>(a: map<K, real>, b: map<K, real>): Result<real, ErrorKind> {
    Complement(JaccardIndexOf(a, b))
  }

  /** One minus an index, or the index's error. */
  function Complement(index: Result<real, ErrorKind>): Result<real, ErrorKind> {
    if index.Err? then Err(index.error) else Ok(1.0 - index.value)
  }

  /**
   * The index fails only on two empty maps, lies in [0, 1], is 1 exactly when
   * both users rated the same items and 0 exactly when they share none.
   */
  lemma JaccardIndexRange<K>(a: map<K, real>, b: map<K, real>)
    ensures JaccardIndexOf(a, b).Err? <==> |a| == 0 && |b| == 0
    ensures JaccardIndexOf(a, b).Err? ==> JaccardIndexOf(a, b).error == EmptyRatings
    ensures JaccardIndexOf(a, b).Ok? ==> 0.0 <= JaccardIndexOf(a, b).value <= 1.0
    ensures JaccardIndexOf(a, b).Ok? ==> (JaccardIndexOf(a, b).value == 1.0 <==> a.Keys == b.Keys)
    ensures JaccardIndexOf(a, b).Ok? ==> (JaccardIndexOf(a, b).value == 0.0 <==> CoRated(a, b) == {})
  {
    if |a| == 0 || |b| == 0 {
      if |a| != 0 || |b| != 0 {
        assert a.Keys != b.Keys;
      }
    } else {
      var union, inter := |a.Keys + b.Keys|, |a.Keys * b.Keys|;
      SubsetSize(a.Keys * b.Keys, a.Keys + b.Keys);
      assert union > 0 by {
        var k :| k in a.Keys;
        assert k in a.Keys + b.Keys;
      }
      assert inter == union <==> a.Keys == b.Keys by {
        if a.Keys == b.Keys {
          assert a.Keys * b.Keys == a.Keys + b.Keys;
        }
        if inter == union {
          assert a.Keys * b.Keys == a.Keys + b.Keys;
          assert a.Keys <= b.Keys && b.Keys <= a.Keys;
        }
      }
      QuotientOfPart(inter as real, union as real);
    }
  }

  /** The distance fails exactly when the index does, and also lies in [0, 1]. */
  lemma JaccardDistanceRange<K>(a: map<K, real>, b: map<K, real>)
    ensures JaccardDistanceOf(a, b).Err? <==> |a| == 0 && |b| == 0
    ensures JaccardDistanceOf(a, b).Err? ==> JaccardDistanceOf(a, b).error == EmptyRatings
    ensures JaccardDistanceOf(a, b).Ok? ==> 0.0 <= JaccardDistanceOf(a, b).value <= 1.0
    ensures JaccardDistanceOf(a, b).Ok? ==> (JaccardDistanceOf(a, b).value == 0.0 <==> a.Keys == b.Keys)
  {
    JaccardIndexRange(a, b);
  }

  /** A subset is no larger, and a subset as large as its superset is the superset. */
  lemma {:induction false} SubsetSize<T>(x: set<T>, y: set<T>)
    requires x <= y
    ensures |x| <= |y|
    ensures |x| == |y| ==> x == y
    decreases y
  {
    if y != {} {
      var e :| e in y;
      SubsetSize(x - {e}, y - {e});
      if |x| == |y| && x != y {
        var f :| f in y && f !in x;
        SubsetSize(x, y - {f});
      }
    }
  }

  /** `distance`: the dispatch on the method. */
  ghost function DistanceValue<K>(a: map<K, real>, b: map<K, real>, m: Method, root: Root): Result<real, ErrorKind>
    requires m.Allowed()
  {
    match m
    case Manhattan => ManhattanValue(a, b)
    case Euclidean => EuclideanValue(a, b, root)
    case Minkowski(p) => MinkowskiValue(a, b, p, root)
    case JaccardIndex => JaccardIndexOf(a, b)
    case JaccardDistance => JaccardDistanceOf(a, b)
    case CosineSimilarity => CosineValue(a, b, root)
    case PearsonCorrelation => PearsonValue(a, b, root)
    case PearsonApproximation => PearsonApproxValue(a, b, root)
  }

  // ---------------------------------------------------------------------------
  // The loops.

  method ManhattanDistance<K(==)>(a: map<K, real>, b: map<K, real>) returns (r: Result<real, ErrorKind>)
    ensures r == ManhattanValue(a, b)
  {
    var dist: Option<real> := None;
    var it := new CommonKeyIterator(a, b);
    while true
      invariant fresh(it) && it.Valid() && it.source == Shortest(a, b) && it.longest == Longest(a, b)
      invariant dist == Accumulated(a, b, it.yielded, AbsDiff)
      decreases it.shortest
    {
      ghost var seen := it.yielded;
      var next := it.Next();
      if next.None? {
        break;
      }
      var (k, (x, y)) := next.value;
      AccumulateStep(a, b, seen, k, x, y, AbsDiff);
      dist := Some(dist.UnwrapOr(0.0) + AbsDiff(x, y));
    }
    ExhaustedYieldsCoRated(a, b, it);
    AccumulatedAll(a, b, AbsDiff);
    r := if dist.None? then Err(NoMatchingRatings) else Ok(dist.value);
  }

  method EuclideanDistance<K(==)>(a: map<K, real>, b: map<K, real>, root: Root) returns (r: Result<real, ErrorKind>)
    ensures r == EuclideanValue(a, b, root)
  {
    var dist: Option<real> := None;
    var it := new CommonKeyIterator(a, b);
    while true
      invariant fresh(it) && it.Valid() && it.source == Shortest(a, b) && it.longest == Longest(a, b)
      invariant dist == Accumulated(a, b, it.yielded, SquaredDiff)
      decreases it.shortest
    {
      ghost var seen := it.yielded;
      var next := it.Next();
      if next.None? {
        break;
      }
      var (k, (x, y)) := next.value;
      AccumulateStep(a, b, seen, k, x, y, SquaredDiff);
      dist := Some(dist.UnwrapOr(0.0) + SquaredDiff(x, y));
    }
    ExhaustedYieldsCoRated(a, b, it);
    AccumulatedAll(a, b, SquaredDiff);
    r := if dist.None? then Err(NoMatchingRatings) else Ok(root(dist.value, 2));
  }

  method MinkowskiDistance<K(==)>(a: map<K, real>, b: map<K, real>, p: nat, root: Root) returns (r: Result<real, ErrorKind>)
    requires p != 0
    ensures r == MinkowskiValue(a, b, p, root)
  {
    var dist: Option<real> := None;
    var it := new CommonKeyIterator(a, b);
    while true
      invariant fresh(it) && it.Valid() && it.source == Shortest(a, b) && it.longest == Longest(a, b)
      invariant dist == Accumulated(a, b, it.yielded, PowAbsDiff(p))
      decreases it.shortest
    {
      ghost var seen := it.yielded;
      var next := it.Next();
      if next.None? {
        break;
      }
      var (k, (x, y)) := next.value;
      AccumulateStep(a, b, seen, k, x, y, PowAbsDiff(p));
      dist := Some(dist.UnwrapOr(0.0) + PowAbsDiff(p)(x, y));
    }
    ExhaustedYieldsCoRated(a, b, it);
    AccumulatedAll(a, b, PowAbsDiff(p));
    r := if dist.None? then Err(NoMatchingRatings) else Ok(root(dist.value, p));
  }

  method CosineSimilarityOf<K(==)>(a: map<K, real>, b: map<K, real>, root: Root) returns (r: Result<real, ErrorKind>)
    ensures r == CosineValue(a, b, root)
  {
    var aNorm: Option<real> := None;
    var bNorm: Option<real> := None;
    var dotProd: Option<real> := None;
    var it := new CommonKeyIterator(a, b);
    while true
      invariant fresh(it) && it.Valid() && it.source == Shortest(a, b) && it.longest == Longest(a, b)
      invariant aNorm == Accumulated(a, b, it.yielded, SquareX)
      invariant bNorm == Accumulated(a, b, it.yielded, SquareY)
      invariant dotProd == Accumulated(a, b, it.yielded, Dot)
      decreases it.shortest
    {
      ghost var seen := it.yielded;
      var next := it.Next();
      if next.None? {
        break;
      }
      var (k, (x, y)) := next.value;
      AccumulateStep(a, b, seen, k, x, y, SquareX);
      AccumulateStep(a, b, seen, k, x, y, SquareY);
      AccumulateStep(a, b, seen, k, x, y, Dot);
      aNorm := Some(aNorm.UnwrapOr(0.0) + SquareX(x, y));
      bNorm := Some(bNorm.UnwrapOr(0.0) + SquareY(x, y));
      dotProd := Some(dotProd.UnwrapOr(0.0) + Dot(x, y));
    }
    ExhaustedYieldsCoRated(a, b, it);
    CosineOfSums(a, b, root, aNorm, bNorm, dotProd);
    if dotProd.None? || aNorm.None? || bNorm.None? {
      return Err(NoMatchingRatings);
    }
    r := Correlation(dotProd.value, aNorm.value, bNorm.value, root);
  }

  /** The first pass of `pearson_correlation`: the two rating sums and the number of co-rated keys. */
  method RatingSums<K(==)>(a: map<K, real>, b: map<K, real>) returns (sumX: Option<real>, sumY: Option<real>, n: nat)
    ensures sumX == Accumulated(a, b, CoRated(a, b), RatingX)
    ensures sumY == Accumulated(a, b, CoRated(a, b), RatingY)
    ensures n as real == Accumulated(a, b, CoRated(a, b), One).UnwrapOr(0.0)
  {
    sumX, sumY, n := None, None, 0;
    var it := new CommonKeyIterator(a, b);
    while true
      invariant fresh(it) && it.Valid() && it.source == Shortest(a, b) && it.longest == Longest(a, b)
      invariant sumX == Accumulated(a, b, it.yielded, RatingX)
      invariant sumY == Accumulated(a, b, it.yielded, RatingY)
      invariant n as real == Accumulated(a, b, it.yielded, One).UnwrapOr(0.0)
      decreases it.shortest
    {
      ghost var seen := it.yielded;
      var next := it.Next();
      if next.None? {
        break;
      }
      var (k, (x, y)) := next.value;
      AccumulateStep(a, b, seen, k, x, y, RatingX);
      AccumulateStep(a, b, seen, k, x, y, RatingY);
      AccumulateStep(a, b, seen, k, x, y, One);
      sumX := Some(sumX.UnwrapOr(0.0) + x);
      sumY := Some(sumY.UnwrapOr(0.0) + y);
      n := n + 1;
    }
    ExhaustedYieldsCoRated(a, b, it);
  }

  /** The second pass of `pearson_correlation`: the centred cross product and the two centred squares. */
  method CentredSums<K(==)>(a: map<K, real>, b: map<K, real>, mx: real, my: real)
    returns (cov: Option<real>, sdA: Option<real>, sdB: Option<real>)
    ensures cov == Accumulated(a, b, CoRated(a, b), CentredDot(mx, my))
    ensures sdA == Accumulated(a, b, CoRated(a, b), CentredSquareX(mx))
    ensures sdB == Accumulated(a, b, CoRated(a, b), CentredSquareY(my))
  {
    cov, sdA, sdB := None, None, None;
    var it := new CommonKeyIterator(a, b);
    while true
      invariant fresh(it) && it.Valid() && it.source == Shortest(a, b) && it.longest == Longest(a, b)
      invariant cov == Accumulated(a, b, it.yielded, CentredDot(mx, my))
      invariant sdA == Accumulated(a, b, it.yielded, CentredSquareX(mx))
      invariant sdB == Accumulated(a, b, it.yielded, CentredSquareY(my))
      decreases it.shortest
    {
      ghost var seen := it.yielded;
      var next := it.Next();
      if next.None? {
        break;
      }
      var (k, (x, y)) := next.value;
      CentredStep(a, b, seen, k, x, y, mx, my, cov, sdA, sdB);
      cov := Some(cov.UnwrapOr(0.0) + (x - mx) * (y - my));
      sdA := Some(sdA.UnwrapOr(0.0) + (x - mx) * (x - mx));
      sdB := Some(sdB.UnwrapOr(0.0) + (y - my) * (y - my));
    }
    ExhaustedYieldsCoRated(a, b, it);
  }

  /** One co-rated key moves the three centred accumulators on by its terms. */
  lemma CentredStep<K>(a: map<K, real>, b: map<K, real>, seen: set<K>, k: K, x: real, y: real,
                       mx: real, my: real, cov: Option<real>, sdA: Option<real>, sdB: Option<real>)
    requires k in a && k in b && k !in seen
    requires x == Shortest(a, b)[k] && y == Longest(a, b)[k]
    requires cov == Accumulated(a, b, seen, CentredDot(mx, my))
    requires sdA == Accumulated(a, b, seen, CentredSquareX(mx))
    requires sdB == Accumulated(a, b, seen, CentredSquareY(my))
    ensures Some(cov.UnwrapOr(0.0) + (x - mx) * (y - my)) == Accumulated(a, b, seen + {k}, CentredDot(mx, my))
    ensures Some(sdA.UnwrapOr(0.0) + (x - mx) * (x - mx)) == Accumulated(a, b, seen + {k}, CentredSquareX(mx))
    ensures Some(sdB.UnwrapOr(0.0) + (y - my) * (y - my)) == Accumulated(a, b, seen + {k}, CentredSquareY(my))
  {
    AccumulateStep(a, b, seen, k, x, y, CentredDot(mx, my));
    AccumulateStep(a, b, seen, k, x, y, CentredSquareX(mx));
    AccumulateStep(a, b, seen, k, x, y, CentredSquareY(my));
    assert CentredDot(mx, my)(x, y) == (x - mx) * (y - my);
    assert CentredSquareX(mx)(x, y) == (x - mx) * (x - mx);
    assert CentredSquareY(my)(x, y) == (y - my) * (y - my);
  }

  method PearsonCorrelationOf<K(==)>(a: map<K, real>, b: map<K, real>, root: Root) returns (r: Result<real, ErrorKind>)
    ensures r == PearsonValue(a, b, root)
  {
    var meanX, meanY, n := RatingSums(a, b);
    MeansOfSums(a, b, meanX, meanY, n);
    if meanX.None? || meanY.None? {
      return Err(NoMatchingRatings);
    }
    var mx, my := Quotient(meanX.value, n as real), Quotient(meanY.value, n as real);
    var cov, sdA, sdB := CentredSums(a, b, mx, my);
    PearsonOfSums(a, b, root, mx, my, cov, sdA, sdB);
    r := Correlation(cov.value, sdA.value, sdB.value, root);
  }

  /** The loop of `pearson_approximation`: five raw sums and the number of co-rated keys, in one pass. */
  method OnePassSums<K(==)>(a: map<K, real>, b: map<K, real>)
    returns (sumX: Option<real>, sumY: Option<real>, sumXSq: Option<real>, sumYSq: Option<real>,
             dotProd: Option<real>, n: nat)
    ensures sumX == Accumulated(a, b, CoRated(a, b), RatingX)
    ensures sumY == Accumulated(a, b, CoRated(a, b), RatingY)
    ensures sumXSq == Accumulated(a, b, CoRated(a, b), SquareX)
    ensures sumYSq == Accumulated(a, b, CoRated(a, b), SquareY)
    ensures dotProd == Accumulated(a, b, CoRated(a, b), Dot)
    ensures n as real == Accumulated(a, b, CoRated(a, b), One).UnwrapOr(0.0)
  {
    sumX, sumY, sumXSq, sumYSq, dotProd, n := None, None, None, None, None, 0;
    var it := new CommonKeyIterator(a, b);
    while true
      invariant fresh(it) && it.Valid() && it.source == Shortest(a, b) && it.longest == Longest(a, b)
      invariant sumX == Accumulated(a, b, it.yielded, RatingX)
      invariant sumY == Accumulated(a, b, it.yielded, RatingY)
      invariant sumXSq == Accumulated(a, b, it.yielded, SquareX)
      invariant sumYSq == Accumulated(a, b, it.yielded, SquareY)
      invariant dotProd == Accumulated(a, b, it.yielded, Dot)
      invariant n as real == Accumulated(a, b, it.yielded, One).UnwrapOr(0.0)
      decreases it.shortest
    {
      ghost var seen := it.yielded;
      var next := it.Next();
      if next.None? {
        break;
      }
      var (k, (x, y)) := next.value;
      OnePassStep(a, b, seen, k, x, y, sumX, sumY, sumXSq, sumYSq, dotProd, n);
      sumX := Some(sumX.UnwrapOr(0.0) + x);
      sumY := Some(sumY.UnwrapOr(0.0) + y);
      sumXSq := Some(sumXSq.UnwrapOr(0.0) + x * x);
      sumYSq := Some(sumYSq.UnwrapOr(0.0) + y * y);
      dotProd := Some(dotProd.UnwrapOr(0.0) + x * y);
      n := n + 1;
    }
    ExhaustedYieldsCoRated(a, b, it);
  }

  /** One co-rated key moves the six accumulators of the one-pass loop on by its terms. */
  lemma OnePassStep<K>(a: map<K, real>, b: map<K, real>, seen: set<K>, k: K, x: real, y: real,
                      sumX: Option<real>, sumY: Option<real>, sumXSq: Option<real>, sumYSq: Option<real>,
                      dotProd: Option<real>, n: nat)
    requires k in a && k in b && k !in seen
    requires x == Shortest(a, b)[k] && y == Longest(a, b)[k]
    requires sumX == Accumulated(a, b, seen, RatingX)
    requires sumY == Accumulated(a, b, seen, RatingY)
    requires sumXSq == Accumulated(a, b, seen, SquareX)
    requires sumYSq == Accumulated(a, b, seen, SquareY)
    requires dotProd == Accumulated(a, b, seen, Dot)
    requires n as real == Accumulated(a, b, seen, One).UnwrapOr(0.0)
    ensures Some(sumX.UnwrapOr(0.0) + x) == Accumulated(a, b, seen + {k}, RatingX)
    ensures Some(sumY.UnwrapOr(0.0) + y) == Accumulated(a, b, seen + {k}, RatingY)
    ensures Some(sumXSq.UnwrapOr(0.0) + SquareX(x, y)) == Accumulated(a, b, seen + {k}, SquareX)
    ensures Some(sumYSq.UnwrapOr(0.0) + SquareY(x, y)) == Accumulated(a, b, seen + {k}, SquareY)
    ensures Some(dotProd.UnwrapOr(0.0) + Dot(x, y)) == Accumulated(a, b, seen + {k}, Dot)
    ensures (n + 1) as real == Accumulated(a, b, seen + {k}, One).UnwrapOr(0.0)
  {
    AccumulateStep(a, b, seen, k, x, y, RatingX);
    AccumulateStep(a, b, seen, k, x, y, RatingY);
    AccumulateStep(a, b, seen, k, x, y, One);
    AccumulateStep(a, b, seen, k, x, y, SquareX);
    AccumulateStep(a, b, seen, k, x, y, SquareY);
    AccumulateStep(a, b, seen, k, x, y, Dot);
  }

  method PearsonApproximationOf<K(==)>(a: map<K, real>, b: map<K, real>, root: Root) returns (r: Result<real, ErrorKind>)
    ensures r == PearsonApproxValue(a, b, root)
  {
    var sumX, sumY, sumXSq, sumYSq, dotProd, n := OnePassSums(a, b);
    PearsonApproxOfSums(a, b, root, n, sumX, sumY, sumXSq, sumYSq, dotProd);
    if dotProd.None? || sumX.None? || sumY.None? || sumXSq.None? || sumYSq.None? {
      return Err(NoMatchingRatings);
    }
    r := OnePassPearson(n as real, sumX.value, sumY.value, sumXSq.value, sumYSq.value, dotProd.value, root);
  }

  lemma CosineOfSums<K>(a: map<K, real>, b: map<K, real>, root: Root, aNorm: Option<real>, bNorm: Option<real>, dotProd: Option<real>)
    requires aNorm == Accumulated(a, b, CoRated(a, b), SquareX)
    requires bNorm == Accumulated(a, b, CoRated(a, b), SquareY)
    requires dotProd == Accumulated(a, b, CoRated(a, b), Dot)
    ensures CosineValue(a, b, root)
         == if dotProd.None? || aNorm.None? || bNorm.None? then Err(NoMatchingRatings)
            else Correlation(dotProd.value, aNorm.value, bNorm.value, root)
  {
    AccumulatedAll(a, b, SquareX);
    AccumulatedAll(a, b, SquareY);
    AccumulatedAll(a, b, Dot);
  }

  lemma MeansOfSums<K>(a: map<K, real>, b: map<K, real>, sumX: Option<real>, sumY: Option<real>, n: nat)
    requires sumX == Accumulated(a, b, CoRated(a, b), RatingX)
    requires sumY == Accumulated(a, b, CoRated(a, b), RatingY)
    requires n as real == Accumulated(a, b, CoRated(a, b), One).UnwrapOr(0.0)
    ensures CoRated(a, b) == {} ==> sumX.None? && sumY.None?
    ensures CoRated(a, b) != {} ==> n > 0 && sumX.Some? && sumY.Some?
    ensures CoRated(a, b) != {} ==>
      Quotient(sumX.value, n as real) == Quotient(PairSum(a, b, RatingX), Count(a, b)) && Quotient(sumY.value, n as real) == Quotient(PairSum(a, b, RatingY), Count(a, b))
  {
    AccumulatedAll(a, b, RatingX);
    AccumulatedAll(a, b, RatingY);
    AccumulatedAll(a, b, One);
    CountIsSumOfOnes(a, b);
  }

  lemma PearsonOfSums<K>(a: map<K, real>, b: map<K, real>, root: Root, mx: real, my: real,
                         cov: Option<real>, sdA: Option<real>, sdB: Option<real>)
    requires CoRated(a, b) != {}
    requires mx == Quotient(PairSum(a, b, RatingX), Count(a, b)) && my == Quotient(PairSum(a, b, RatingY), Count(a, b))
    requires cov == Accumulated(a, b, CoRated(a, b), CentredDot(mx, my))
    requires sdA == Accumulated(a, b, CoRated(a, b), CentredSquareX(mx))
    requires sdB == Accumulated(a, b, CoRated(a, b), CentredSquareY(my))
    ensures cov.Some? && sdA.Some? && sdB.Some?
    ensures PearsonValue(a, b, root) == Correlation(cov.value, sdA.value, sdB.value, root)
  {
    AccumulatedAll(a, b, CentredDot(mx, my));
    AccumulatedAll(a, b, CentredSquareX(mx));
    AccumulatedAll(a, b, CentredSquareY(my));
  }

  lemma PearsonApproxOfSums<K>(a: map<K, real>, b: map<K, real>, root: Root, n: nat,
                               sumX: Option<real>, sumY: Option<real>, sumXSq: Option<real>,
                               sumYSq: Option<real>, dotProd: Option<real>)
    requires n as real == Accumulated(a, b, CoRated(a, b), One).UnwrapOr(0.0)
    requires sumX == Accumulated(a, b, CoRated(a, b), RatingX)
    requires sumY == Accumulated(a, b, CoRated(a, b), RatingY)
    requires sumXSq == Accumulated(a, b, CoRated(a, b), SquareX)
    requires sumYSq == Accumulated(a, b, CoRated(a, b), SquareY)
    requires dotProd == Accumulated(a, b, CoRated(a, b), Dot)
    ensures CoRated(a, b) == {} ==> dotProd.None? && PearsonApproxValue(a, b, root) == Err(NoMatchingRatings)
    ensures CoRated(a, b) != {} ==> n > 0 && dotProd.Some? && sumX.Some? && sumY.Some? && sumXSq.Some? && sumYSq.Some?
    ensures CoRated(a, b) != {} ==>
      PearsonApproxValue(a, b, root)
      == OnePassPearson(n as real, sumX.value, sumY.value, sumXSq.value, sumYSq.value, dotProd.value, root)
  {
    AccumulatedAll(a, b, RatingX);
    AccumulatedAll(a, b, RatingY);
    AccumulatedAll(a, b, SquareX);
    AccumulatedAll(a, b, SquareY);
    AccumulatedAll(a, b, Dot);
    AccumulatedAll(a, b, One);
    CountIsSumOfOnes(a, b);
  }

  /** The loops' counter: one per co-rated key. */
  lemma CountIsSumOfOnes<K>(a: map<K, real>, b: map<K, real>)
    ensures PairSum(a, b, One) == Count(a, b)
  {
    forall k | k in CoRated(a, b)
      ensures OnPairs(a, b, One)(k) == 1.0
    {
      var x, y := Shortest(a, b)[k], Longest(a, b)[k];
      assert One(x, y) == 1.0;
    }
    SumConst(CoRated(a, b), OnPairs(a, b, One), 1.0);
  }

  /** `distance`: run the loop the method names. */
  method Distance<K(==)>(a: map<K, real>, b: map<K, real>, m: Method, root: Root) returns (r: Result<real, ErrorKind>)
    requires m.Allowed()
    ensures r == DistanceValue(a, b, m, root)
  {
    match m {
      case Manhattan => r := ManhattanDistance(a, b);
      case Euclidean => r := EuclideanDistance(a, b, root);
      case Minkowski(p) => r := MinkowskiDistance(a, b, p, root);
      case JaccardIndex => r := JaccardIndexOf(a, b);
      case JaccardDistance => r := JaccardDistanceOf(a, b);
      case CosineSimilarity => r := CosineSimilarityOf(a, b, root);
      case PearsonCorrelation => r := PearsonCorrelationOf(a, b, root);
      case PearsonApproximation => r := PearsonApproximationOf(a, b, root);
    }
  }
}
