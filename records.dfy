/**
 * `Record` of recommend/src/record.rs: a user's ratings keyed by `u64` item
 * id, with the pairwise metrics as methods. Unlike the other metric sets it
 * walks `self`'s entries and looks each key up in `rhs`, so `x` is always the
 * rating in `self` and `y` the rating in `rhs`.
 *
 * Its cosine and Pearson metrics start the numerator's accumulator at one and
 * multiply into it (`get_or_insert_with(V::one) *=`) where every other copy of
 * these metrics adds from zero. Both forms are modelled: the accumulator's
 * operation is a parameter, `Mul` as written and `Add` as corrected.
 */
module Records {
  import opened Wrappers
  import opened Reals
  import opened Sums
  import opened EngineErrors
  import opened CommonKeys
  import opened PairSums
  import Live = UserDistances
  import Laws = UserDistanceLaws
  import Legacy = LegacyDistances

  type U64 = x: int | 0 <= x < 0x1_0000_0000_0000_0000

  datatype Record = Record(values: map<U64, real>)

  /** `From<HashMap<u64, V>>`: the map becomes the record's values as it is. */
  function From(m: map<U64, real>): Record {
    Record(m)
  }

  /** `Record::new`: the default record, without ratings. */
  function New(): (r: Record)
    ensures |r.values| == 0
  {
    Record(map[])
  }

  /** `values`: the ratings the record holds. */
  function Values(r: Record): map<U64, real> {
    r.values
  }

  /** A record built from a map hands the same map back. */
  lemma FromValues(m: map<U64, real>)
    ensures Values(From(m)) == m
  {
  }

  // ---------------------------------------------------------------------------
  // Products over sets, for the multiplicative accumulators.

  /**
   * A fold of `op` over a set, starting from `unit`. Any `op` whose factors
   * can be exchanged (as multiplication's can) gives the same result whatever
   * the order of the set, which `FoldRemove` states.
   */
  ghost function Fold<K>(s: set<K>, f: K -> real, op: (real, real) -> real, unit: real): real
    decreases s
  {
    if s == {} then unit else var k :| k in s; op(f(k), Fold(s - {k}, f, op, unit))
  }

  /** Applying `op` to two values, in either order, gives the same result. */
  ghost predicate Exchanges(op: (real, real) -> real) {
    forall u, v, w :: op(u, op(v, w)) == op(v, op(u, w))
  }

  /** Any element can be taken out of a fold first. */
  lemma {:induction false} FoldRemove<K>(s: set<K>, f: K -> real, op: (real, real) -> real, unit: real, x: K)
    requires Exchanges(op) && x in s
    ensures Fold(s, f, op, unit) == op(f(x), Fold(s - {x}, f, op, unit))
    decreases s
  {
    var y :| y in s && Fold(s, f, op, unit) == op(f(y), Fold(s - {y}, f, op, unit));
    if y != x {
      var rest := s - {x} - {y};
      assert s - {y} - {x} == rest;
      FoldRemove(s - {y}, f, op, unit, x);
      FoldRemove(s - {x}, f, op, unit, y);
      var fx, fy, r := f(x), f(y), Fold(rest, f, op, unit);
      assert op(fy, op(fx, r)) == op(fx, op(fy, r));
    }
  }

  function Times(u: real, v: real): real {
    u * v
  }

  lemma TimesExchanges()
    ensures Exchanges(Times)
  {
    forall u, v, w ensures Times(u, Times(v, w)) == Times(v, Times(u, w)) {
      assert u * (v * w) == v * (u * w);
    }
  }

  /** The product of `f` over a set. */
  ghost function Product<K>(s: set<K>, f: K -> real): real {
    Fold(s, f, Times, 1.0)
  }

  /** Any element can be taken out of a product first. */
  lemma ProductRemove<K>(s: set<K>, f: K -> real, x: K)
    requires x in s
    ensures Product(s, f) == Times(f(x), Product(s - {x}, f))
  {
    TimesExchanges();
    FoldRemove(s, f, Times, 1.0, x);
  }

  /** Multiplying one more factor in. */
  lemma ProductAdd<K>(s: set<K>, f: K -> real, x: K)
    requires x !in s
    ensures Product(s + {x}, f) == Times(Product(s, f), f(x))
  {
    ProductRemove(s + {x}, f, x);
    assert s + {x} - {x} == s;
    TimesCommutes(f(x), Product(s, f));
  }

  lemma TimesCommutes(u: real, v: real)
    ensures Times(u, v) == Times(v, u)
  {
  }

  // ---------------------------------------------------------------------------
  // The accumulation loop shared by every metric.

  /** How an accumulator starts and grows: `get_or_insert_with(zero) +=` or `get_or_insert_with(one) *=`. */
  datatype Op = Add | Mul

  /** The term of key `k`, with `x` taken from `a` and `y` from `b`. */
  function Aligned<K>(a: map<K, real>, b: map<K, real>, term: Term): K -> real {
    k => if k in a && k in b then term(a[k], b[k]) else 0.0
  }

  ghost function Combined<K>(s: set<K>, f: K -> real, op: Op): real {
    match op
    case Add => Sum(s, f)
    case Mul => Product(s, f)
  }

  /** One step of an accumulator. */
  function Apply(op: Op, acc: Option<real>, t: real): real {
    match op
    case Add => acc.UnwrapOr(0.0) + t
    case Mul => Times(acc.UnwrapOr(1.0), t)
  }

  /** The accumulator once the keys of `seen` are visited: `None` until one of them is also in `b`. */
  ghost function FoldedOn<K>(a: map<K, real>, b: map<K, real>, seen: set<K>, term: Term, op: Op): Option<real> {
    var hits := seen * b.Keys;
    if hits == {} then None else Some(Combined(hits, Aligned(a, b, term), op))
  }

  /** The accumulator after the whole loop: `None` exactly when no key is co-rated. */
  ghost function Folded<K>(a: map<K, real>, b: map<K, real>, term: Term, op: Op): Option<real> {
    if CoRated(a, b) == {} then None else Some(Combined(CoRated(a, b), Aligned(a, b, term), op))
  }

  /**
   * `for (key, x) in &self.values { if let Some(y) = rhs.values.get(key) { acc op= term(x, y) } }`
   * for one accumulator.
   */
  method Accumulate<K(==)>(a: map<K, real>, b: map<K, real>, term: Term, op: Op) returns (acc: Option<real>)
    ensures acc == Folded(a, b, term, op)
  {
    acc := None;
    var rest := a.Keys;
    while rest != {}
      invariant rest <= a.Keys
      invariant acc == FoldedOn(a, b, a.Keys - rest, term, op)
      decreases rest
    {
      var k :| k in rest;
      FoldStep(a, b, a.Keys - rest, k, term, op, acc);
      if k in b {
        acc := Some(Apply(op, acc, term(a[k], b[k])));
      }
      Legacy.TakeOne(a.Keys, rest, k);
      rest := rest - {k};
    }
    assert a.Keys - rest == a.Keys;
  }

  /** Visiting one more key of `a` changes the accumulator only when `b` holds the key too. */
  lemma FoldStep<K>(a: map<K, real>, b: map<K, real>, seen: set<K>, k: K, term: Term, op: Op, acc: Option<real>)
    requires k in a && k !in seen && acc == FoldedOn(a, b, seen, term, op)
    ensures k !in b ==> FoldedOn(a, b, seen + {k}, term, op) == acc
    ensures k in b ==> FoldedOn(a, b, seen + {k}, term, op) == Some(Apply(op, acc, term(a[k], b[k])))
  {
    var hits := seen * b.Keys;
    var f := Aligned(a, b, term);
    if k in b {
      assert (seen + {k}) * b.Keys == hits + {k};
      assert f(k) == term(a[k], b[k]);
      match op
      case Add => SumStep(hits, f, k, acc);
      case Mul => ProductStep(hits, f, k, acc);
    } else {
      assert (seen + {k}) * b.Keys == hits;
    }
  }

  lemma SumStep<K>(hits: set<K>, f: K -> real, k: K, acc: Option<real>)
    requires k !in hits && acc == (if hits == {} then None else Some(Sum(hits, f)))
    ensures Sum(hits + {k}, f) == Apply(Add, acc, f(k))
  {
    SumAdd(hits, f, k);
  }

  lemma ProductStep<K>(hits: set<K>, f: K -> real, k: K, acc: Option<real>)
    requires k !in hits && acc == (if hits == {} then None else Some(Product(hits, f)))
    ensures Product(hits + {k}, f) == Apply(Mul, acc, f(k))
  {
    ProductAdd(hits, f, k);
  }

  /** `dist.map(|d| d.powf(1 / p))`, with `sqrt` as the root of order 2. */
  function RootOf(acc: Option<real>, p: nat, root: Root): Option<real> {
    match acc
    case None => None
    case Some(d) => Some(root(d, p))
  }

  // ---------------------------------------------------------------------------
  // The metrics.

  method ManhattanDistance(self: Record, rhs: Record) returns (r: Option<real>)
    ensures r == Folded(self.values, rhs.values, Live.AbsDiff, Add)
  {
    r := Accumulate(self.values, rhs.values, Live.AbsDiff, Add);
  }

  method EuclideanDistance(self: Record, rhs: Record, root: Root) returns (r: Option<real>)
    ensures r == RootOf(Folded(self.values, rhs.values, Live.SquaredDiff, Add), 2, root)
  {
    var dist := Accumulate(self.values, rhs.values, Live.SquaredDiff, Add);
    r := RootOf(dist, 2, root);
  }

  /**
   * `minkowski_distance`. There is no guard for p = 0: every term is then 1
   * and the root taken is `powf(1 / 0)`, which `root` leaves unconstrained.
   */
  method MinkowskiDistance(self: Record, rhs: Record, p: nat, root: Root) returns (r: Option<real>)
    ensures r == RootOf(Folded(self.values, rhs.values, Live.PowAbsDiff(p), Add), p, root)
  {
    var dist := Accumulate(self.values, rhs.values, Live.PowAbsDiff(p), Add);
    r := RootOf(dist, p, root);
  }

  /** `jaccard_index`: `None` when the union of the key sets is empty, the shared fraction otherwise. */
  function JaccardIndex(self: Record, rhs: Record): Option<real> {
    var inter := |self.values.Keys * rhs.values.Keys|;
    var union := |self.values.Keys + rhs.values.Keys|;
    if union == 0 then None else Some(Quotient(inter as real, union as real))
  }

  /** `jaccard_distance`: one minus the index. */
  function JaccardDistance(self: Record, rhs: Record): Option<real> {
    match JaccardIndex(self, rhs)
    case None => None
    case Some(index) => Some(1.0 - index)
  }

  /** `(u * v).sqrt()`: the denominator of both correlations. */
  function SqrtOfProduct(u: real, v: real, root: Root): real {
    root(u * v, 2)
  }

  /**
   * The cosine as `cosine_similarity` computes it, with the dot product's
   * accumulator combined by `dotOp`: the quotient is not checked, so a zero
   * norm gives a non-finite value inside `Some`.
   */
  ghost function CosineOf<K>(a: map<K, real>, b: map<K, real>, dotOp: Op, root: Root): Option<Float> {
    var c := CoRated(a, b);
    if c == {} then None
    else
      var aNorm := Sum(c, Aligned(a, b, Live.SquareX));
      var bNorm := Sum(c, Aligned(a, b, Live.SquareY));
      Some(FloatDiv(Combined(c, Aligned(a, b, Live.Dot), dotOp), SqrtOfProduct(aNorm, bNorm, root)))
  }

  /** `cosine_similarity` as written: the products x * y are multiplied together. */
  method CosineSimilarity(self: Record, rhs: Record, root: Root) returns (r: Option<Float>)
    ensures r == CosineOf(self.values, rhs.values, Mul, root)
  {
    r := Cosine(self.values, rhs.values, Mul, root);
  }

  /** `cosine_similarity` with the dot product summed, as every other cosine of the repository does. */
  method CorrectedCosineSimilarity(self: Record, rhs: Record, root: Root) returns (r: Option<Float>)
    ensures r == CosineOf(self.values, rhs.values, Add, root)
  {
    r := Cosine(self.values, rhs.values, Add, root);
  }

  /** The body of `cosine_similarity`, with the dot product's operation as a parameter. */
  method Cosine<K(==)>(a: map<K, real>, b: map<K, real>, dotOp: Op, root: Root) returns (r: Option<Float>)
    ensures r == CosineOf(a, b, dotOp, root)
  {
    var aNorm := Accumulate(a, b, Live.SquareX, Add);
    var bNorm := Accumulate(a, b, Live.SquareY, Add);
    var dotProd := Accumulate(a, b, Live.Dot, dotOp);
    if aNorm.None? || bNorm.None? || dotProd.None? {
      assert CoRated(a, b) == {};
      return None;
    }
    assert aNorm.value == Sum(CoRated(a, b), Aligned(a, b, Live.SquareX));
    assert bNorm.value == Sum(CoRated(a, b), Aligned(a, b, Live.SquareY));
    assert dotProd.value == Combined(CoRated(a, b), Aligned(a, b, Live.Dot), dotOp);
    r := Some(FloatDiv(dotProd.value, SqrtOfProduct(aNorm.value, bNorm.value, root)));
  }

  /** The number of co-rated keys, as the counter `total` converted to a float. */
  ghost function CountOf<K>(a: map<K, real>, b: map<K, real>): real {
    |CoRated(a, b)| as real
  }

  /**
   * Pearson's coefficient as `pearson_correlation` computes it, the covariance
   * accumulator combined by `covOp`; the quotient is not checked.
   */
  ghost function PearsonOf<K>(a: map<K, real>, b: map<K, real>, covOp: Op, root: Root): Option<Float> {
    var c := CoRated(a, b);
    if c == {} then None
    else
      var mx := Quotient(Sum(c, Aligned(a, b, Live.RatingX)), CountOf(a, b));
      var my := Quotient(Sum(c, Aligned(a, b, Live.RatingY)), CountOf(a, b));
      var sdA := Sum(c, Aligned(a, b, Live.CentredSquareX(mx)));
      var sdB := Sum(c, Aligned(a, b, Live.CentredSquareY(my)));
      Some(FloatDiv(Combined(c, Aligned(a, b, Live.CentredDot(mx, my)), covOp), SqrtOfProduct(sdA, sdB, root)))
  }

  /** `pearson_correlation` as written: the centred products are multiplied together. */
  method PearsonCorrelation(self: Record, rhs: Record, root: Root) returns (r: Option<Float>)
    ensures r == PearsonOf(self.values, rhs.values, Mul, root)
  {
    r := Pearson(self.values, rhs.values, Mul, root);
  }

  /** `pearson_correlation` with the covariance summed. */
  method CorrectedPearsonCorrelation(self: Record, rhs: Record, root: Root) returns (r: Option<Float>)
    ensures r == PearsonOf(self.values, rhs.values, Add, root)
  {
    r := Pearson(self.values, rhs.values, Add, root);
  }

  /** The two passes of `pearson_correlation`, with the covariance's operation as a parameter. */
  method Pearson<K(==)>(a: map<K, real>, b: map<K, real>, covOp: Op, root: Root) returns (r: Option<Float>)
    ensures r == PearsonOf(a, b, covOp, root)
  {
    var sumX := Accumulate(a, b, Live.RatingX, Add);
    var sumY := Accumulate(a, b, Live.RatingY, Add);
    var total := Accumulate(a, b, Live.One, Add);
    if sumX.None? || sumY.None? {
      return None;
    }
    CountIsFoldOfOnes(a, b);
    var mx := Quotient(sumX.value, total.value);
    var my := Quotient(sumY.value, total.value);
    var cov := Accumulate(a, b, Live.CentredDot(mx, my), covOp);
    var sdA := Accumulate(a, b, Live.CentredSquareX(mx), Add);
    var sdB := Accumulate(a, b, Live.CentredSquareY(my), Add);
    r := Some(FloatDiv(cov.value, SqrtOfProduct(sdA.value, sdB.value, root)));
  }

  /** Adding one per co-rated key counts them. */
  lemma CountIsFoldOfOnes<K>(a: map<K, real>, b: map<K, real>)
    ensures Folded(a, b, Live.One, Add) == if CoRated(a, b) == {} then None else Some(CountOf(a, b))
    ensures CoRated(a, b) != {} ==> CountOf(a, b) > 0.0
  {
    SumConst(CoRated(a, b), Aligned(a, b, Live.One), 1.0);
  }

  // ---------------------------------------------------------------------------
  // Agreement with the engine's metrics.

  /** Read as `Option`, a checked quotient and an IEEE quotient agree; every failure is a non-finite value. */
  function AsFloat(r: Result<real, ErrorKind>): Float {
    if r.Ok? then Finite(r.value) else NonFinite
  }

  lemma FloatDivIsDivide(num: real, den: real)
    ensures FloatDiv(num, den) == AsFloat(Divide(num, den))
  {
  }

  /**
   * Walking `a` and looking keys up in `b` sums the same terms as walking the
   * smaller map, once the term is read with its arguments swapped whenever `b`
   * is the smaller map.
   */
  lemma Oriented<K>(a: map<K, real>, b: map<K, real>, t1: Term, t2: Term)
    requires forall x, y :: t1(x, y) == t2(y, x)
    ensures Sum(CoRated(a, b), Aligned(a, b, t1)) == PairSum(a, b, if |a| > |b| then t2 else t1)
  {
    var t := if |a| > |b| then t2 else t1;
    forall k | k in CoRated(a, b)
      ensures Aligned(a, b, t1)(k) == OnPairs(a, b, t)(k)
    {
      var x, y := a[k], b[k];
      assert Aligned(a, b, t1)(k) == t1(x, y);
      if |a| > |b| {
        assert t1(x, y) == t2(y, x);
        assert OnPairs(a, b, t)(k) == t2(y, x);
      } else {
        assert OnPairs(a, b, t)(k) == t1(x, y);
      }
    }
    SumCongruence(CoRated(a, b), Aligned(a, b, t1), OnPairs(a, b, t));
  }

  /** A term that does not care about the order of its arguments sums as the engine sums it. */
  lemma OrientedSymmetric<K>(a: map<K, real>, b: map<K, real>, t: Term)
    requires forall x, y :: t(x, y) == t(y, x)
    ensures Sum(CoRated(a, b), Aligned(a, b, t)) == PairSum(a, b, t)
  {
    Oriented(a, b, t, t);
  }

  /** The record's Manhattan distance is the engine's legacy one. */
  lemma ManhattanAgrees(self: Record, rhs: Record)
    ensures Folded(self.values, rhs.values, Live.AbsDiff, Add) == Legacy.Collapse(Live.ManhattanValue(self.values, rhs.values))
  {
    forall x, y ensures Live.AbsDiff(x, y) == Live.AbsDiff(y, x) {
      assert Abs(y - x) == Abs(x - y);
    }
    OrientedSymmetric(self.values, rhs.values, Live.AbsDiff);
  }

  /** The record's Euclidean distance is the engine's legacy one. */
  lemma EuclideanAgrees(self: Record, rhs: Record, root: Root)
    ensures RootOf(Folded(self.values, rhs.values, Live.SquaredDiff, Add), 2, root)
         == Legacy.Collapse(Live.EuclideanValue(self.values, rhs.values, root))
  {
    forall x, y ensures Live.SquaredDiff(x, y) == Live.SquaredDiff(y, x) {
      assert (y - x) * (y - x) == (x - y) * (x - y);
    }
    OrientedSymmetric(self.values, rhs.values, Live.SquaredDiff);
  }

  /**
   * The record's Minkowski distance is the engine's legacy one for every
   * order, including 0, for which the engine panics before computing it.
   */
  lemma MinkowskiAgrees(self: Record, rhs: Record, p: nat, root: Root)
    ensures RootOf(Folded(self.values, rhs.values, Live.PowAbsDiff(p), Add), p, root)
         == Legacy.Collapse(Live.MinkowskiValue(self.values, rhs.values, p, root))
  {
    forall x, y ensures Live.PowAbsDiff(p)(x, y) == Live.PowAbsDiff(p)(y, x) {
      assert Abs(y - x) == Abs(x - y);
    }
    OrientedSymmetric(self.values, rhs.values, Live.PowAbsDiff(p));
  }

  /** At order 0 every term is 1: the distance is taken of the number of co-rated items. */
  lemma MinkowskiZeroCounts(self: Record, rhs: Record)
    ensures Folded(self.values, rhs.values, Live.PowAbsDiff(0), Add)
         == if CoRated(self.values, rhs.values) == {} then None else Some(CountOf(self.values, rhs.values))
  {
    var a, b := self.values, rhs.values;
    forall k | k in CoRated(a, b) ensures Aligned(a, b, Live.PowAbsDiff(0))(k) == 1.0 {
      assert Aligned(a, b, Live.PowAbsDiff(0))(k) == Pow(Abs(b[k] - a[k]), 0);
    }
    SumConst(CoRated(a, b), Aligned(a, b, Live.PowAbsDiff(0)), 1.0);
  }

  /** The record's Jaccard index and distance are the engine's legacy ones. */
  lemma JaccardAgrees(self: Record, rhs: Record)
    ensures JaccardIndex(self, rhs) == Legacy.JaccardIndex(self.values, rhs.values)
    ensures JaccardDistance(self, rhs) == Legacy.JaccardDistance(self.values, rhs.values)
  {
    var a, b := self.values, rhs.values;
    if |a| == 0 && |b| == 0 {
      EmptyKeys(a);
      EmptyKeys(b);
      assert a.Keys + b.Keys == {};
    } else if |a| == 0 || |b| == 0 {
      OneEmpty(a, b);
    } else {
      var k :| k in a;
      assert k in a.Keys + b.Keys;
    }
  }

  /** Against an empty map the shared fraction is zero. */
  lemma OneEmpty<K>(a: map<K, real>, b: map<K, real>)
    requires (|a| == 0) != (|b| == 0)
    ensures |a.Keys + b.Keys| > 0 && Quotient(|a.Keys * b.Keys| as real, |a.Keys + b.Keys| as real) == 0.0
  {
    var k;
    if |a| == 0 {
      EmptyKeys(a);
      k :| k in b;
    } else {
      EmptyKeys(b);
      k :| k in a;
    }
    var union, inter := a.Keys + b.Keys, a.Keys * b.Keys;
    assert k in union;
    assert inter == {};
    var n := |union| as real;
    assert n > 0.0;
    QuotientOfPart(0.0, n);
  }

  lemma EmptyKeys<K, V>(m: map<K, V>)
    requires |m| == 0
    ensures m.Keys == {}
  {
    assert |m.Keys| == |m|;
  }

  /** A square root of a product of non-negative numbers is the product of their square roots. */
  lemma RootOfProduct(root: Root, u: real, v: real)
    requires IsRoot(root) && u >= 0.0 && v >= 0.0
    ensures SqrtOfProduct(u, v, root) == root(u, 2) * root(v, 2)
  {
    var ru, rv := root(u, 2), root(v, 2);
    RootSquared(root, u);
    RootSquared(root, v);
    assert ru >= 0.0 && rv >= 0.0;
    var w := ru * rv;
    ProductOfRoots(ru, rv, w, u, v);
    RootOfSquare(root, w);
  }

  /** Multiplying two square roots gives a square root of the product. */
  lemma ProductOfRoots(ru: real, rv: real, w: real, u: real, v: real)
    requires ru >= 0.0 && rv >= 0.0 && ru * ru == u && rv * rv == v && w == ru * rv
    ensures w >= 0.0 && w * w == u * v
  {
    assert w * w == (ru * ru) * (rv * rv);
  }

  /** Terms that are squares sum to a non-negative number. */
  lemma SquaresNonNegative<K>(a: map<K, real>, b: map<K, real>, t: Term)
    requires forall x, y :: t(x, y) >= 0.0
    ensures Sum(CoRated(a, b), Aligned(a, b, t)) >= 0.0
  {
    forall k | k in CoRated(a, b) ensures Aligned(a, b, t)(k) >= 0.0 {
      var x, y := a[k], b[k];
      assert t(x, y) >= 0.0;
      assert Aligned(a, b, t)(k) == t(x, y);
    }
    SumNonNegative(CoRated(a, b), Aligned(a, b, t));
  }

  /** The record's closing division, read as the engine's `Correlation` whichever way round the norms come. */
  lemma CorrelationAsFloat(num: real, u: real, v: real, root: Root)
    requires IsRoot(root) && u >= 0.0 && v >= 0.0
    ensures FloatDiv(num, SqrtOfProduct(u, v, root)) == AsFloat(Live.Correlation(num, u, v, root))
    ensures FloatDiv(num, SqrtOfProduct(u, v, root)) == AsFloat(Live.Correlation(num, v, u, root))
  {
    RootOfProduct(root, u, v);
    FloatDivIsDivide(num, root(u, 2) * root(v, 2));
    Laws.CorrelationCommutes(num, u, v, root);
  }

  /** The sums of the cosine, read the engine's way round. */
  lemma CosineSums<K>(a: map<K, real>, b: map<K, real>)
    ensures Sum(CoRated(a, b), Aligned(a, b, Live.Dot)) == PairSum(a, b, Live.Dot)
    ensures Sum(CoRated(a, b), Aligned(a, b, Live.SquareX)) == PairSum(a, b, if |a| > |b| then Live.SquareY else Live.SquareX)
    ensures Sum(CoRated(a, b), Aligned(a, b, Live.SquareY)) == PairSum(a, b, if |a| > |b| then Live.SquareX else Live.SquareY)
    ensures Sum(CoRated(a, b), Aligned(a, b, Live.SquareX)) >= 0.0
    ensures Sum(CoRated(a, b), Aligned(a, b, Live.SquareY)) >= 0.0
  {
    Oriented(a, b, Live.Dot, Live.Dot);
    Oriented(a, b, Live.SquareX, Live.SquareY);
    Oriented(a, b, Live.SquareY, Live.SquareX);
    forall x, y ensures Live.SquareX(x, y) >= 0.0 && Live.SquareY(x, y) >= 0.0 {
      SquareNonNegative(x);
      SquareNonNegative(y);
    }
    SquaresNonNegative(a, b, Live.SquareX);
    SquaresNonNegative(a, b, Live.SquareY);
  }

  /**
   * With the dot product summed, the record's cosine is the engine's: `None`
   * without co-rated items, the engine's value otherwise, and a non-finite
   * value where the engine reports a zero norm.
   */
  lemma CorrectedCosineAgrees<K>(a: map<K, real>, b: map<K, real>, root: Root)
    requires IsRoot(root)
    ensures CosineOf(a, b, Add, root)
         == if CoRated(a, b) == {} then None else Some(AsFloat(Live.CosineValue(a, b, root)))
  {
    if CoRated(a, b) != {} {
      CosineSums(a, b);
      CorrelationAsFloat(Sum(CoRated(a, b), Aligned(a, b, Live.Dot)), Sum(CoRated(a, b), Aligned(a, b, Live.SquareX)),
                         Sum(CoRated(a, b), Aligned(a, b, Live.SquareY)), root);
    }
  }

  /** Pearson's means, read the engine's way round. */
  lemma MeansOriented<K>(a: map<K, real>, b: map<K, real>)
    requires CoRated(a, b) != {}
    ensures var mx := Quotient(Sum(CoRated(a, b), Aligned(a, b, Live.RatingX)), CountOf(a, b));
      var my := Quotient(Sum(CoRated(a, b), Aligned(a, b, Live.RatingY)), CountOf(a, b));
      && Quotient(PairSum(a, b, Live.RatingX), Live.Count(a, b)) == (if |a| > |b| then my else mx)
      && Quotient(PairSum(a, b, Live.RatingY), Live.Count(a, b)) == (if |a| > |b| then mx else my)
  {
    CountIsFoldOfOnes(a, b);
    Oriented(a, b, Live.RatingX, Live.RatingY);
    Oriented(a, b, Live.RatingY, Live.RatingX);
  }

  /**
   * With the covariance summed, the record's Pearson coefficient is the
   * engine's: `None` without co-rated items, the engine's value otherwise, and
   * a non-finite value where the engine reports a zero deviation.
   */
  lemma CorrectedPearsonAgrees<K>(a: map<K, real>, b: map<K, real>, root: Root)
    requires IsRoot(root)
    ensures PearsonOf(a, b, Add, root)
         == if CoRated(a, b) == {} then None else Some(AsFloat(Live.PearsonValue(a, b, root)))
  {
    var c := CoRated(a, b);
    if c != {} {
      CountIsFoldOfOnes(a, b);
      var mx := Quotient(Sum(c, Aligned(a, b, Live.RatingX)), CountOf(a, b));
      var my := Quotient(Sum(c, Aligned(a, b, Live.RatingY)), CountOf(a, b));
      MeansOriented(a, b);
      CentredOriented(a, b, mx, my);
      var cov := Sum(c, Aligned(a, b, Live.CentredDot(mx, my)));
      var sdA := Sum(c, Aligned(a, b, Live.CentredSquareX(mx)));
      var sdB := Sum(c, Aligned(a, b, Live.CentredSquareY(my)));
      CorrelationAsFloat(cov, sdA, sdB, root);
      if |a| > |b| {
        assert Live.PearsonValue(a, b, root) == Live.Correlation(cov, sdB, sdA, root);
      } else {
        assert Live.PearsonValue(a, b, root) == Live.Correlation(cov, sdA, sdB, root);
      }
    }
  }

  /** The centred sums, read the engine's way round. */
  lemma CentredOriented<K>(a: map<K, real>, b: map<K, real>, mx: real, my: real)
    ensures Sum(CoRated(a, b), Aligned(a, b, Live.CentredDot(mx, my)))
         == PairSum(a, b, if |a| > |b| then Live.CentredDot(my, mx) else Live.CentredDot(mx, my))
    ensures Sum(CoRated(a, b), Aligned(a, b, Live.CentredSquareX(mx)))
         == PairSum(a, b, if |a| > |b| then Live.CentredSquareY(mx) else Live.CentredSquareX(mx))
    ensures Sum(CoRated(a, b), Aligned(a, b, Live.CentredSquareY(my)))
         == PairSum(a, b, if |a| > |b| then Live.CentredSquareX(my) else Live.CentredSquareY(my))
    ensures Sum(CoRated(a, b), Aligned(a, b, Live.CentredSquareX(mx))) >= 0.0
    ensures Sum(CoRated(a, b), Aligned(a, b, Live.CentredSquareY(my))) >= 0.0
  {
    forall x, y ensures Live.CentredSquareX(mx)(x, y) >= 0.0 && Live.CentredSquareY(my)(x, y) >= 0.0 {
      SquareNonNegative(x - mx);
      SquareNonNegative(y - my);
    }
    SquaresNonNegative(a, b, Live.CentredSquareX(mx));
    SquaresNonNegative(a, b, Live.CentredSquareY(my));
    forall x, y ensures Live.CentredDot(mx, my)(x, y) == Live.CentredDot(my, mx)(y, x) {
      assert (x - mx) * (y - my) == (y - my) * (x - mx);
    }
    Oriented(a, b, Live.CentredDot(mx, my), Live.CentredDot(my, mx));
    Oriented(a, b, Live.CentredSquareX(mx), Live.CentredSquareY(mx));
    Oriented(a, b, Live.CentredSquareY(my), Live.CentredSquareX(my));
  }

  // ---------------------------------------------------------------------------
  // The multiplicative accumulators.

  /** With the dot product summed, a user with some non-zero rating is fully similar to themself. */
  lemma CorrectedCosineSelf<K>(a: map<K, real>, root: Root)
    requires IsRoot(root) && |a| > 0
    ensures PairSum(a, a, Live.SquareX) != 0.0 ==> CosineOf(a, a, Add, root) == Some(Finite(1.0))
    ensures PairSum(a, a, Live.SquareX) == 0.0 ==> CosineOf(a, a, Add, root) == Some(NonFinite)
  {
    var k :| k in a;
    assert k in CoRated(a, a);
    CorrectedCosineAgrees(a, a, root);
    Laws.CosineSelf(a, root);
  }

  /** With the covariance summed, a user whose ratings vary is fully correlated with themself. */
  lemma CorrectedPearsonSelf<K>(a: map<K, real>, root: Root)
    requires IsRoot(root) && CoRated(a, a) != {}
    ensures var m := Quotient(PairSum(a, a, Live.RatingX), Live.Count(a, a));
      && (PairSum(a, a, Live.CentredSquareX(m)) != 0.0 ==> PearsonOf(a, a, Add, root) == Some(Finite(1.0)))
      && (PairSum(a, a, Live.CentredSquareX(m)) == 0.0 ==> PearsonOf(a, a, Add, root) == Some(NonFinite))
  {
    CorrectedPearsonAgrees(a, a, root);
    Laws.PearsonSelf(a, root);
  }

  lemma SumOfTwo<K>(s: set<K>, f: K -> real, i: K, j: K)
    requires s == {i, j} && i != j
    ensures Sum(s, f) == f(i) + f(j)
  {
    SumRemove(s, f, i);
    assert s - {i} == {j};
    SumRemove({j}, f, j);
    assert {j} - {j} == {};
  }

  lemma ProductOfTwo<K>(s: set<K>, f: K -> real, i: K, j: K)
    requires s == {i, j} && i != j
    ensures Product(s, f) == f(i) * f(j)
  {
    ProductRemove(s, f, i);
    assert s - {i} == {j};
    ProductRemove({j}, f, j);
    assert {j} - {j} == {};
  }

  /**
   * As written, the cosine of a user with two ratings of 1 against themself
   * is 0.5: the dot product is 1 * 1 instead of 1 + 1. Summed, it is 1.
   */
  lemma CosineAsWrittenExample(root: Root)
    requires IsRoot(root)
    ensures var m := map[0 := 1.0, 1 := 1.0];
      CosineOf(m, m, Mul, root) == Some(Finite(0.5)) && CosineOf(m, m, Add, root) == Some(Finite(1.0))
  {
    var m := map[0 := 1.0, 1 := 1.0];
    assert CoRated(m, m) == {0, 1};
    SumOfTwo(CoRated(m, m), Aligned(m, m, Live.SquareX), 0, 1);
    SumOfTwo(CoRated(m, m), Aligned(m, m, Live.SquareY), 0, 1);
    SumOfTwo(CoRated(m, m), Aligned(m, m, Live.Dot), 0, 1);
    ProductOfTwo(CoRated(m, m), Aligned(m, m, Live.Dot), 0, 1);
    RootOfSquare(root, 2.0);
  }

  /**
   * As written, Pearson's coefficient of the ratings 1 and 3 against themselves
   * is 0.5: the centred products (-1)(-1) and (1)(1) are multiplied instead of
   * added. Summed, it is 1.
   */
  lemma PearsonAsWrittenExample(root: Root)
    requires IsRoot(root)
    ensures var m := map[0 := 1.0, 1 := 3.0];
      PearsonOf(m, m, Mul, root) == Some(Finite(0.5)) && PearsonOf(m, m, Add, root) == Some(Finite(1.0))
  {
    var m := map[0 := 1.0, 1 := 3.0];
    PearsonExampleMeans(m);
    PearsonExampleCentred(m);
    RootOfSquare(root, 2.0);
    assert SqrtOfProduct(2.0, 2.0, root) == 2.0;
  }

  /** Both means of the ratings 1 and 3 are 2. */
  lemma PearsonExampleMeans(m: map<int, real>)
    requires m == map[0 := 1.0, 1 := 3.0]
    ensures CoRated(m, m) == {0, 1}
    ensures Quotient(Sum(CoRated(m, m), Aligned(m, m, Live.RatingX)), CountOf(m, m)) == 2.0
    ensures Quotient(Sum(CoRated(m, m), Aligned(m, m, Live.RatingY)), CountOf(m, m)) == 2.0
  {
    var c := CoRated(m, m);
    assert c == {0, 1};
    assert CountOf(m, m) == 2.0;
    SumOfTwo(c, Aligned(m, m, Live.RatingX), 0, 1);
    SumOfTwo(c, Aligned(m, m, Live.RatingY), 0, 1);
    QuotientUnique(2.0, 4.0, 2.0);
  }

  /** Around the mean 2, each centred term of the ratings 1 and 3 is 1. */
  lemma PearsonExampleCentred(m: map<int, real>)
    requires m == map[0 := 1.0, 1 := 3.0] && CoRated(m, m) == {0, 1}
    ensures Sum(CoRated(m, m), Aligned(m, m, Live.CentredSquareX(2.0))) == 2.0
    ensures Sum(CoRated(m, m), Aligned(m, m, Live.CentredSquareY(2.0))) == 2.0
    ensures Sum(CoRated(m, m), Aligned(m, m, Live.CentredDot(2.0, 2.0))) == 2.0
    ensures Product(CoRated(m, m), Aligned(m, m, Live.CentredDot(2.0, 2.0))) == 1.0
  {
    var c := CoRated(m, m);
    SumOfTwo(c, Aligned(m, m, Live.CentredSquareX(2.0)), 0, 1);
    SumOfTwo(c, Aligned(m, m, Live.CentredSquareY(2.0)), 0, 1);
    SumOfTwo(c, Aligned(m, m, Live.CentredDot(2.0, 2.0)), 0, 1);
    ProductOfTwo(c, Aligned(m, m, Live.CentredDot(2.0, 2.0)), 0, 1);
  }

  // ---------------------------------------------------------------------------
  // The unit tests of record.rs.

  /** `b.manhattan_distance(&a)` with a = {0: 1, 2: 2} and b = {0: 1, 1: 3, 2: 3} is 1. */
  method ManhattanExample() returns (d: Option<real>)
    ensures d == Some(1.0)
  {
    var a := Record(map[0 := 1.0, 2 := 2.0]);
    var b := Record(map[0 := 1.0, 1 := 3.0, 2 := 3.0]);
    d := ManhattanDistance(b, a);
    assert CoRated(b.values, a.values) == {0, 2};
    SumOfTwo(CoRated(b.values, a.values), Aligned(b.values, a.values, Live.AbsDiff), 0, 2);
  }

  /** `b.euclidean_distance(&a)` with a = {0: 0, 2: 0} and b = {0: 2, 1: 1, 2: 2} is the square root of 8. */
  method EuclideanExample(root: Root) returns (d: Option<real>)
    ensures d == Some(root(8.0, 2))
  {
    var a := Record(map[0 := 0.0, 2 := 0.0]);
    var b := Record(map[0 := 2.0, 1 := 1.0, 2 := 2.0]);
    d := EuclideanDistance(b, a, root);
    assert CoRated(b.values, a.values) == {0, 2};
    SumOfTwo(CoRated(b.values, a.values), Aligned(b.values, a.values, Live.SquaredDiff), 0, 2);
  }

  /** `b.minkowski_distance(&a, 3)` on the same records is the cube root of 16. */
  method Minkowski3Example(root: Root) returns (d: Option<real>)
    ensures d == Some(root(16.0, 3))
  {
    var a := Record(map[0 := 0.0, 2 := 0.0]);
    var b := Record(map[0 := 2.0, 1 := 1.0, 2 := 2.0]);
    d := MinkowskiDistance(b, a, 3, root);
    var both := CoRated(b.values, a.values);
    assert both == {0, 2};
    assert Pow(2.0, 1) == 2.0 && Pow(2.0, 2) == 4.0 && Pow(2.0, 3) == 8.0;
    var f := Aligned(b.values, a.values, Live.PowAbsDiff(3));
    assert Live.PowAbsDiff(3)(2.0, 0.0) == Pow(Abs(0.0 - 2.0), 3) == 8.0;
    assert f(0) == Live.PowAbsDiff(3)(2.0, 0.0);
    assert f(2) == Live.PowAbsDiff(3)(2.0, 0.0);
    SumOfTwo(both, f, 0, 2);
    assert Folded(b.values, a.values, Live.PowAbsDiff(3), Add) == Some(16.0);
  }
}
