/**
 * Sums over the keys two rating maps share, oriented the way
 * `common_keys_iter` orients them: `term(x, y)` receives the value from the
 * smaller map as `x` and the value from the larger map as `y`.
 */
module PairSums {
  import opened Wrappers
  import opened Sums
  import opened CommonKeys

  /** What a metric adds for one co-rated key, from the pair (x, y). */
  type Term = (real, real) -> real

  /** The term for one key: `term` on the key's two ratings, or zero when the key is not co-rated. */
  function PairTerm<K>(a: map<K, real>, b: map<K, real>, term: Term, k: K): real {
    if k in a && k in b then term(Shortest(a, b)[k], Longest(a, b)[k]) else 0.0
  }

  function OnPairs<K>(a: map<K, real>, b: map<K, real>, term: Term): K -> real {
    k => PairTerm(a, b, term, k)
  }

  /** The sum of `term` over every co-rated key. */
  ghost function PairSum<K>(a: map<K, real>, b: map<K, real>, term: Term): real {
    Sum(CoRated(a, b), OnPairs(a, b, term))
  }

  /**
   * What a Rust accumulator `Option<f64>` filled with `get_or_insert_with(zero)`
   * holds after the co-rated keys in `seen`: `None` until the first key.
   */
  ghost function Accumulated<K>(a: map<K, real>, b: map<K, real>, seen: set<K>, term: Term): Option<real> {
    if seen == {} then None else Some(RunningSum(a, b, seen, term))
  }

  /** The sum of `term` over the keys in `seen`, written without a closure. */
  ghost function RunningSum<K>(a: map<K, real>, b: map<K, real>, seen: set<K>, term: Term): real
    decreases seen
  {
    if seen == {} then 0.0 else var k :| k in seen; PairTerm(a, b, term, k) + RunningSum(a, b, seen - {k}, term)
  }

  lemma {:induction false} RunningSumIsSum<K>(a: map<K, real>, b: map<K, real>, seen: set<K>, term: Term)
    ensures RunningSum(a, b, seen, term) == Sum(seen, OnPairs(a, b, term))
    decreases seen
  {
    if seen != {} {
      var k :| k in seen && RunningSum(a, b, seen, term) == PairTerm(a, b, term, k) + RunningSum(a, b, seen - {k}, term);
      RunningSumIsSum(a, b, seen - {k}, term);
      SumRemove(seen, OnPairs(a, b, term), k);
    }
  }

  /** One more co-rated key adds its term to the accumulator. */
  lemma AccumulateStep<K>(a: map<K, real>, b: map<K, real>, seen: set<K>, k: K, x: real, y: real, term: Term)
    requires k in a && k in b && k !in seen
    requires x == Shortest(a, b)[k] && y == Longest(a, b)[k]
    ensures Accumulated(a, b, seen + {k}, term) == Some(Accumulated(a, b, seen, term).UnwrapOr(0.0) + term(x, y))
  {
    RunningSumIsSum(a, b, seen, term);
    RunningSumIsSum(a, b, seen + {k}, term);
    SumAdd(seen, OnPairs(a, b, term), k);
  }

  /** After every co-rated key, the accumulator is `None` exactly when there was none. */
  lemma AccumulatedAll<K>(a: map<K, real>, b: map<K, real>, term: Term)
    ensures Accumulated(a, b, CoRated(a, b), term)
         == if CoRated(a, b) == {} then None else Some(PairSum(a, b, term))
  {
    RunningSumIsSum(a, b, CoRated(a, b), term);
  }

  /** A term that does not care which value comes first gives the same sum either way round. */
  lemma PairSumSymmetric<K>(a: map<K, real>, b: map<K, real>, term: Term)
    requires forall x, y :: term(x, y) == term(y, x)
    ensures PairSum(a, b, term) == PairSum(b, a, term)
  {
    assert CoRated(a, b) == CoRated(b, a);
    forall k | k in CoRated(a, b)
      ensures OnPairs(a, b, term)(k) == OnPairs(b, a, term)(k)
    {
      var x, y := a[k], b[k];
      assert term(x, y) == term(y, x);
    }
    SumCongruence(CoRated(a, b), OnPairs(a, b, term), OnPairs(b, a, term));
  }

  /**
   * Swapping the arguments swaps which value is `x` only when both maps have
   * as many entries; otherwise the smaller map stays the smaller one.
   */
  lemma PairSumSwapped<K>(a: map<K, real>, b: map<K, real>, t1: Term, t2: Term)
    requires forall x, y :: t1(x, y) == t2(y, x)
    ensures |a| == |b| ==> PairSum(a, b, t1) == PairSum(b, a, t2)
    ensures |a| != |b| ==> PairSum(a, b, t1) == PairSum(b, a, t1)
  {
    assert CoRated(a, b) == CoRated(b, a);
    if |a| == |b| {
      forall k | k in CoRated(a, b)
        ensures OnPairs(a, b, t1)(k) == OnPairs(b, a, t2)(k)
      {
        var x, y := a[k], b[k];
        assert t1(x, y) == t2(y, x);
      }
      SumCongruence(CoRated(a, b), OnPairs(a, b, t1), OnPairs(b, a, t2));
    } else {
      SumCongruence(CoRated(a, b), OnPairs(a, b, t1), OnPairs(b, a, t1));
    }
  }

  /** Comparing a map with itself: every term sees the same value twice. */
  lemma PairSumSelf<K>(a: map<K, real>, term: Term, f: K -> real)
    requires forall k :: k in a ==> f(k) == term(a[k], a[k])
    ensures CoRated(a, a) == a.Keys
    ensures PairSum(a, a, term) == Sum(a.Keys, f)
  {
    assert CoRated(a, a) == a.Keys;
    forall k | k in a.Keys
      ensures OnPairs(a, a, term)(k) == f(k)
    {
      assert Shortest(a, a) == a && Longest(a, a) == a;
      assert OnPairs(a, a, term)(k) == term(a[k], a[k]);
    }
    SumCongruence(a.Keys, OnPairs(a, a, term), f);
  }

  /** Non-negative terms give a non-negative sum. */
  lemma PairSumNonNegative<K>(a: map<K, real>, b: map<K, real>, term: Term)
    requires forall x, y :: term(x, y) >= 0.0
    ensures PairSum(a, b, term) >= 0.0
  {
    forall k | k in CoRated(a, b)
      ensures OnPairs(a, b, term)(k) >= 0.0
    {
      var x, y := Shortest(a, b)[k], Longest(a, b)[k];
      assert term(x, y) >= 0.0;
    }
    SumNonNegative(CoRated(a, b), OnPairs(a, b, term));
  }

  /** A term that is the same constant on every co-rated key sums to that constant times their number. */
  lemma PairSumConst<K>(a: map<K, real>, b: map<K, real>, term: Term, e: real)
    requires forall k :: k in CoRated(a, b) ==> PairTerm(a, b, term, k) == e
    ensures PairSum(a, b, term) == e * (|CoRated(a, b)| as real)
  {
    SumConst(CoRated(a, b), OnPairs(a, b, term), e);
  }

  /** The term `f + c1 * g + c2 * h + d`. */
  function Affine(f: Term, g: Term, h: Term, c1: real, c2: real, d: real): Term {
    (x, y) => f(x, y) + c1 * g(x, y) + c2 * h(x, y) + d
  }

  /** Linearity: the sum of `f + c1 * g + c2 * h + d` over the co-rated keys. */
  lemma PairSumAffine<K>(a: map<K, real>, b: map<K, real>, f: Term, g: Term, h: Term, c1: real, c2: real, d: real)
    ensures PairSum(a, b, Affine(f, g, h, c1, c2, d))
         == PairSum(a, b, f) + c1 * PairSum(a, b, g) + c2 * PairSum(a, b, h) + d * (|CoRated(a, b)| as real)
  {
    AffineOnPairs(a, b, f, g, h, c1, c2, d);
    SumAffine(CoRated(a, b), OnPairs(a, b, Affine(f, g, h, c1, c2, d)),
              OnPairs(a, b, f), OnPairs(a, b, g), OnPairs(a, b, h), c1, c2, d);
    AffineTotals(a, b, Affine(f, g, h, c1, c2, d), f, g, h, c1, c2, d);
  }

  /** The affine relation between the sums over the co-rated keys is one between the pair sums. */
  lemma AffineTotals<K>(a: map<K, real>, b: map<K, real>, t: Term, f: Term, g: Term, h: Term, c1: real, c2: real, d: real)
    requires Sum(CoRated(a, b), OnPairs(a, b, t))
          == Sum(CoRated(a, b), OnPairs(a, b, f)) + c1 * Sum(CoRated(a, b), OnPairs(a, b, g))
           + c2 * Sum(CoRated(a, b), OnPairs(a, b, h)) + d * (|CoRated(a, b)| as real)
    ensures PairSum(a, b, t) == PairSum(a, b, f) + c1 * PairSum(a, b, g) + c2 * PairSum(a, b, h) + d * (|CoRated(a, b)| as real)
  {
    var s := CoRated(a, b);
    SameTotals(PairSum(a, b, t), PairSum(a, b, f), PairSum(a, b, g), PairSum(a, b, h),
               Sum(s, OnPairs(a, b, t)), Sum(s, OnPairs(a, b, f)), Sum(s, OnPairs(a, b, g)),
               Sum(s, OnPairs(a, b, h)), c1, c2, d, |s| as real);
  }

  /** The affine relation carries over from one set of totals to equal ones. */
  lemma SameTotals(pt: real, pf: real, pg: real, ph: real, st: real, sf: real, sg: real, sh: real,
                   c1: real, c2: real, d: real, n: real)
    requires pt == st && pf == sf && pg == sg && ph == sh
    requires st == sf + c1 * sg + c2 * sh + d * n
    ensures pt == pf + c1 * pg + c2 * ph + d * n
  {
  }

  lemma AffineOnPairs<K>(a: map<K, real>, b: map<K, real>, f: Term, g: Term, h: Term, c1: real, c2: real, d: real)
    ensures forall k :: k in CoRated(a, b) ==>
      OnPairs(a, b, Affine(f, g, h, c1, c2, d))(k)
      == OnPairs(a, b, f)(k) + c1 * OnPairs(a, b, g)(k) + c2 * OnPairs(a, b, h)(k) + d
  {
    forall k | k in CoRated(a, b)
      ensures OnPairs(a, b, Affine(f, g, h, c1, c2, d))(k)
           == OnPairs(a, b, f)(k) + c1 * OnPairs(a, b, g)(k) + c2 * OnPairs(a, b, h)(k) + d
    {
      AffineOnPair(a, b, f, g, h, c1, c2, d, k);
    }
  }

  lemma AffineOnPair<K>(a: map<K, real>, b: map<K, real>, f: Term, g: Term, h: Term, c1: real, c2: real, d: real, k: K)
    requires k in CoRated(a, b)
    ensures PairTerm(a, b, Affine(f, g, h, c1, c2, d), k)
         == PairTerm(a, b, f, k) + c1 * PairTerm(a, b, g, k) + c2 * PairTerm(a, b, h, k) + d
  {
    var x, y := Shortest(a, b)[k], Longest(a, b)[k];
    assert Affine(f, g, h, c1, c2, d)(x, y) == f(x, y) + c1 * g(x, y) + c2 * h(x, y) + d;
  }

  /** Terms that agree on every pair give the same sum. */
  lemma PairSumAgree<K>(a: map<K, real>, b: map<K, real>, t1: Term, t2: Term)
    requires forall x, y :: t1(x, y) == t2(x, y)
    ensures PairSum(a, b, t1) == PairSum(a, b, t2)
  {
    forall k | k in CoRated(a, b)
      ensures OnPairs(a, b, t1)(k) == OnPairs(a, b, t2)(k)
    {
      var x, y := Shortest(a, b)[k], Longest(a, b)[k];
      assert t1(x, y) == t2(x, y);
    }
    SumCongruence(CoRated(a, b), OnPairs(a, b, t1), OnPairs(a, b, t2));
  }

  /** Comparing a map with itself, only the diagonal `t(x, x)` of a term matters. */
  lemma PairSumSelfAgree<K>(a: map<K, real>, t1: Term, t2: Term)
    requires forall x :: t1(x, x) == t2(x, x)
    ensures PairSum(a, a, t1) == PairSum(a, a, t2)
  {
    var f := k => if k in a then t1(a[k], a[k]) else 0.0;
    forall k | k in a
      ensures f(k) == t2(a[k], a[k])
    {
      var v := a[k];
      assert t1(v, v) == t2(v, v);
    }
    PairSumSelf(a, t1, f);
    PairSumSelf(a, t2, f);
  }
}
