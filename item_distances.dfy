/**
 * The item-to-item metrics of engine/src/distances/items.rs: per-user means,
 * the adjusted cosine similarity between two items, and the normalisation of
 * a user's ratings into [-1, 1] that the adjusted-cosine predictor uses.
 */
module ItemDistances {
  import opened Wrappers
  import opened Reals
  import opened Sums
  import opened EngineErrors
  import opened UserDistances
  import opened UserDistanceLaws

  /** The item-based methods. */
  datatype Method = AdjCosine | SlopeOne

  /** A user's ratings as the terms of a sum over the rated items. */
  function RatingOf<I>(vec: map<I, real>): I -> real {
    i => if i in vec then vec[i] else 0.0
  }

  /** The mean of a non-empty rating vector. */
  ghost function MeanOf<I>(vec: map<I, real>): real
    requires |vec| > 0
  {
    Quotient(Sum(vec.Keys, RatingOf(vec)), |vec| as real)
  }

  /** `adjusted_cosine_means` restricted to the users in `users`. */
  ghost function MeansOn<U, I>(vecs: map<U, map<I, real>>, users: set<U>): map<U, real> {
    map u | u in users && u in vecs && |vecs[u]| > 0 :: MeanOf(vecs[u])
  }

  /** The sum of a user's ratings and their number, as the inner loop finds them. */
  method SumRatings<I(==)>(vec: map<I, real>) returns (total: Option<real>, n: nat)
    ensures n == |vec|
    ensures total == if |vec| == 0 then None else Some(Sum(vec.Keys, RatingOf(vec)))
  {
    total, n := None, 0;
    var rest := vec.Keys;
    while rest != {}
      invariant rest <= vec.Keys
      invariant n + |rest| == |vec.Keys|
      invariant total == Filled(vec.Keys - rest, RatingOf(vec))
      decreases rest
    {
      var k :| k in rest;
      RatingStep(vec, rest, k, total);
      total := Some(total.UnwrapOr(0.0) + vec[k]);
      n := n + 1;
      rest := rest - {k};
    }
    assert vec.Keys - rest == vec.Keys;
  }

  /** Taking one more rated item adds its rating to the running total. */
  lemma RatingStep<I>(vec: map<I, real>, rest: set<I>, k: I, total: Option<real>)
    requires rest <= vec.Keys && k in rest && total == Filled(vec.Keys - rest, RatingOf(vec))
    ensures |rest - {k}| == |rest| - 1
    ensures Some(total.UnwrapOr(0.0) + vec[k]) == Filled(vec.Keys - (rest - {k}), RatingOf(vec))
  {
    assert vec.Keys - (rest - {k}) == (vec.Keys - rest) + {k};
    FilledStep(vec.Keys - rest, RatingOf(vec), k, total, vec[k]);
  }

  /** `adjusted_cosine_means`: the mean of every user that rated anything. */
  method AdjustedCosineMeans<U(==), I(==)>(vecs: map<U, map<I, real>>) returns (means: map<U, real>)
    ensures means == MeansOn(vecs, vecs.Keys)
  {
    means := map[];
    var rest := vecs.Keys;
    while rest != {}
      invariant rest <= vecs.Keys
      invariant forall v :: v in means <==> v in vecs && v !in rest && |vecs[v]| > 0
      invariant forall v :: v in means ==> v in vecs && |vecs[v]| > 0 && means[v] == MeanOf(vecs[v])
      decreases rest
    {
      var u :| u in rest;
      var total, n := SumRatings(vecs[u]);
      if total.Some? {
        means := means[u := Quotient(total.value, n as real)];
      }
      rest := rest - {u};
    }
    MeansOnPointwise(vecs, means);
  }

  /** A map holding exactly the means of the users that rated anything is `MeansOn` all users. */
  lemma MeansOnPointwise<U, I>(vecs: map<U, map<I, real>>, means: map<U, real>)
    requires forall u :: u in means <==> u in vecs && |vecs[u]| > 0
    requires forall u :: u in means ==> means[u] == MeanOf(vecs[u])
    ensures means == MeansOn(vecs, vecs.Keys)
  {
  }

  /** Whether `fast_adjusted_cosine` counts user `u`: it has a vector rating both items and a mean. */
  predicate Contributes<U, I>(means: map<U, real>, vecs: map<U, map<I, real>>, a: I, b: I, u: U) {
    u in vecs && a in vecs[u] && b in vecs[u] && u in means
  }

  /** The users of `users` that contribute. */
  ghost function Contributors<U, I>(means: map<U, real>, vecs: map<U, map<I, real>>, users: set<U>, a: I, b: I): set<U> {
    set u | u in users && Contributes(means, vecs, a, b, u)
  }

  /** A user's rating of `item` minus the user's mean, or zero when either is missing. */
  function Centred<U, I>(means: map<U, real>, vecs: map<U, map<I, real>>, u: U, item: I): real {
    if u in vecs && item in vecs[u] && u in means then vecs[u][item] - means[u] else 0.0
  }

  function CovTerm<U, I>(means: map<U, real>, vecs: map<U, map<I, real>>, a: I, b: I): U -> real {
    u => Centred(means, vecs, u, a) * Centred(means, vecs, u, b)
  }

  function DevTerm<U, I>(means: map<U, real>, vecs: map<U, map<I, real>>, item: I): U -> real {
    u => Centred(means, vecs, u, item) * Centred(means, vecs, u, item)
  }

  /** `fast_adjusted_cosine` in exact arithmetic. */
  ghost function AdjustedCosineValue<U, I>(means: map<U, real>, vecs: map<U, map<I, real>>, usersA: set<U>,
                                           usersB: set<U>, a: I, b: I, root: Root): Result<real, ErrorKind> {
    var users := Contributors(means, vecs, usersA * usersB, a, b);
    if users == {} then Err(NoMatchingRatings)
    else Correlation(Sum(users, CovTerm(means, vecs, a, b)), Sum(users, DevTerm(means, vecs, a)),
                     Sum(users, DevTerm(means, vecs, b)), root)
  }

  /** An accumulator filled over the contributing users in `seen`. */
  ghost function Filled<U>(seen: set<U>, term: U -> real): Option<real> {
    if seen == {} then None else Some(Sum(seen, term))
  }

  /** `fast_adjusted_cosine`: one pass over the users who rated both items. */
  method FastAdjustedCosine<U(==), I(==)>(means: map<U, real>, vecs: map<U, map<I, real>>, usersA: set<U>,
                                          usersB: set<U>, a: I, b: I, root: Root)
    returns (r: Result<real, ErrorKind>)
    ensures r == AdjustedCosineValue(means, vecs, usersA, usersB, a, b, root)
  {
    var cov: Option<real> := None;
    var devA: Option<real> := None;
    var devB: Option<real> := None;
    var rest := usersA * usersB;
    ghost var seen: set<U> := {};
    while rest != {}
      invariant seen + rest == usersA * usersB && seen !! rest
      invariant cov == Filled(Contributors(means, vecs, seen, a, b), CovTerm(means, vecs, a, b))
      invariant devA == Filled(Contributors(means, vecs, seen, a, b), DevTerm(means, vecs, a))
      invariant devB == Filled(Contributors(means, vecs, seen, a, b), DevTerm(means, vecs, b))
      decreases rest
    {
      var u :| u in rest;
      ContributorsStep(means, vecs, seen, a, b, u);
      ghost var counted := Contributors(means, vecs, seen, a, b);
      seen, rest := seen + {u}, rest - {u};
      if u !in vecs {
        continue;
      }
      if a in vecs[u] && b in vecs[u] && u in means {
        var x, y, m := vecs[u][a], vecs[u][b], means[u];
        AdjustedStep(means, vecs, a, b, counted, u, x, y, m, cov, devA, devB);
        cov := Some(cov.UnwrapOr(0.0) + (x - m) * (y - m));
        devA := Some(devA.UnwrapOr(0.0) + (x - m) * (x - m));
        devB := Some(devB.UnwrapOr(0.0) + (y - m) * (y - m));
      }
    }
    if cov.None? || devA.None? || devB.None? {
      r := Err(NoMatchingRatings);
    } else {
      r := Correlation(cov.value, devA.value, devB.value, root);
    }
  }

  /** Taking one more user adds it to the contributors exactly when it contributes. */
  lemma ContributorsStep<U, I>(means: map<U, real>, vecs: map<U, map<I, real>>, seen: set<U>, a: I, b: I, u: U)
    requires u !in seen
    ensures u !in Contributors(means, vecs, seen, a, b)
    ensures Contributors(means, vecs, seen + {u}, a, b)
         == if Contributes(means, vecs, a, b, u) then Contributors(means, vecs, seen, a, b) + {u}
            else Contributors(means, vecs, seen, a, b)
  {
  }

  /** One contributing user, whose ratings of the items are `x` and `y` and whose mean is `m`, adds its three terms. */
  lemma AdjustedStep<U, I>(means: map<U, real>, vecs: map<U, map<I, real>>, a: I, b: I, counted: set<U>, u: U,
                           x: real, y: real, m: real, cov: Option<real>, devA: Option<real>, devB: Option<real>)
    requires u !in counted && Contributes(means, vecs, a, b, u)
    requires x == vecs[u][a] && y == vecs[u][b] && m == means[u]
    requires cov == Filled(counted, CovTerm(means, vecs, a, b))
    requires devA == Filled(counted, DevTerm(means, vecs, a))
    requires devB == Filled(counted, DevTerm(means, vecs, b))
    ensures Some(cov.UnwrapOr(0.0) + (x - m) * (y - m)) == Filled(counted + {u}, CovTerm(means, vecs, a, b))
    ensures Some(devA.UnwrapOr(0.0) + (x - m) * (x - m)) == Filled(counted + {u}, DevTerm(means, vecs, a))
    ensures Some(devB.UnwrapOr(0.0) + (y - m) * (y - m)) == Filled(counted + {u}, DevTerm(means, vecs, b))
  {
    FilledStep(counted, CovTerm(means, vecs, a, b), u, cov, (x - m) * (y - m));
    FilledStep(counted, DevTerm(means, vecs, a), u, devA, (x - m) * (x - m));
    FilledStep(counted, DevTerm(means, vecs, b), u, devB, (y - m) * (y - m));
  }

  /** Adding a user's term to an accumulator over `counted` gives the accumulator over one more user. */
  lemma FilledStep<U>(counted: set<U>, term: U -> real, u: U, acc: Option<real>, t: real)
    requires u !in counted && term(u) == t && acc == Filled(counted, term)
    ensures Some(acc.UnwrapOr(0.0) + t) == Filled(counted + {u}, term)
  {
    SumAdd(counted, term, u);
    if counted == {} {
      assert Sum(counted, term) == 0.0;
    }
  }

  /** `slow_adjusted_cosine`: the fast version with freshly computed means. */
  method SlowAdjustedCosine<U(==), I(==)>(vecs: map<U, map<I, real>>, usersA: set<U>, usersB: set<U>, a: I, b: I,
                                          root: Root)
    returns (r: Result<real, ErrorKind>)
    ensures r == AdjustedCosineValue(MeansOn(vecs, vecs.Keys), vecs, usersA, usersB, a, b, root)
  {
    var means := AdjustedCosineMeans(vecs);
    r := FastAdjustedCosine(means, vecs, usersA, usersB, a, b, root);
  }

  /** The normalised value of one rating: `min` goes to -1 and `max` to 1. */
  function Normalized(r: real, min: real, max: real): real
    requires max - min != 0.0
  {
    Quotient(2.0 * r - min - max, max - min)
  }

  /**
   * `normalize_user_ratings`. The conversion of the constant 2 into `f64`
   * cannot fail, so `ConvertType` never arises.
   */
  method NormalizeUserRatings<I(==)>(ratings: map<I, real>, min: real, max: real)
    returns (r: Result<map<I, real>, ErrorKind>)
    ensures max - min == 0.0 ==> r == Err(DivisionByZero)
    ensures max - min != 0.0 ==> r.Ok? && r.value.Keys == ratings.Keys
    ensures max - min != 0.0 ==> forall i :: i in ratings ==> r.value[i] == Normalized(ratings[i], min, max)
  {
    if max - min == 0.0 {
      return Err(DivisionByZero);
    }
    var normalized: map<I, real> := map[];
    var rest := ratings.Keys;
    while rest != {}
      invariant rest <= ratings.Keys
      invariant normalized.Keys == ratings.Keys - rest
      invariant forall i :: i in normalized ==> normalized[i] == Normalized(ratings[i], min, max)
      decreases rest
    {
      var i :| i in rest;
      normalized := normalized[i := Quotient(2.0 * ratings[i] - min - max, max - min)];
      rest := rest - {i};
    }
    r := Ok(normalized);
  }

  /** `denormalize_user_rating`; as for normalisation, the `ConvertType` error cannot occur. */
  function DenormalizeUserRating(n: real, min: real, max: real): (r: Result<real, ErrorKind>)
    ensures r.Ok?
  {
    Ok(0.5 * ((n + 1.0) * (max - min)) + min)
  }

  /** Denormalising a normalised rating gives the rating back. */
  lemma DenormalizeNormalized(r: real, min: real, max: real)
    requires max - min != 0.0
    ensures DenormalizeUserRating(Normalized(r, min, max), min, max) == Ok(r)
  {
    var q := Normalized(r, min, max);
    assert DenormalizeUserRating(q, min, max).value == 0.5 * ((q + 1.0) * (max - min)) + min;
    Unscale(q, r, min, max);
  }

  lemma Unscale(q: real, r: real, min: real, max: real)
    requires q * (max - min) == 2.0 * r - min - max
    ensures 0.5 * ((q + 1.0) * (max - min)) + min == r
  {
    assert (q + 1.0) * (max - min) == q * (max - min) + (max - min);
  }

  /** Normalising a denormalised value gives the value back. */
  lemma NormalizedDenormalize(n: real, min: real, max: real)
    requires max - min != 0.0
    ensures Normalized(DenormalizeUserRating(n, min, max).value, min, max) == n
  {
    var r := DenormalizeUserRating(n, min, max).value;
    assert 2.0 * r - min - max == n * (max - min);
    QuotientUnique(n, 2.0 * r - min - max, max - min);
  }

  /** With `min < max`, the range `[min, max]` goes onto `[-1, 1]`, ends onto ends. */
  lemma NormalizedRange(r: real, min: real, max: real)
    requires min < max
    ensures Normalized(min, min, max) == -1.0 && Normalized(max, min, max) == 1.0
    ensures min <= r <= max ==> -1.0 <= Normalized(r, min, max) <= 1.0
  {
    QuotientUnique(-1.0, 2.0 * min - min - max, max - min);
    QuotientUnique(1.0, 2.0 * max - min - max, max - min);
    if min <= r <= max {
      QuotientWithin(Normalized(r, min, max), 2.0 * r - min - max, max - min, -1.0, 1.0);
    }
  }

  /** Every mean lies between the smallest and the largest of the user's ratings. */
  lemma MeanWithin<U, I>(vecs: map<U, map<I, real>>, u: U, lo: real, hi: real)
    requires u in vecs && |vecs[u]| > 0
    requires forall i :: i in vecs[u] ==> lo <= vecs[u][i] <= hi
    ensures u in MeansOn(vecs, vecs.Keys)
    ensures lo <= MeansOn(vecs, vecs.Keys)[u] <= hi
  {
    var vec := vecs[u];
    assert |vec.Keys| == |vec|;
    SumBounds(vec.Keys, RatingOf(vec), lo, hi);
    QuotientWithin(MeanOf(vec), Sum(vec.Keys, RatingOf(vec)), |vec| as real, lo, hi);
  }

  /** Swapping the items together with their user sets does not change the similarity. */
  lemma AdjustedCosineSymmetric<U, I>(means: map<U, real>, vecs: map<U, map<I, real>>, usersA: set<U>,
                                      usersB: set<U>, a: I, b: I, root: Root)
    ensures AdjustedCosineValue(means, vecs, usersA, usersB, a, b, root)
         == AdjustedCosineValue(means, vecs, usersB, usersA, b, a, root)
  {
    var users := Contributors(means, vecs, usersA * usersB, a, b);
    assert usersA * usersB == usersB * usersA;
    assert users == Contributors(means, vecs, usersB * usersA, b, a);
    forall u | u in users
      ensures CovTerm(means, vecs, a, b)(u) == CovTerm(means, vecs, b, a)(u)
    {
      var x, y := Centred(means, vecs, u, a), Centred(means, vecs, u, b);
      assert x * y == y * x;
    }
    SumCongruence(users, CovTerm(means, vecs, a, b), CovTerm(means, vecs, b, a));
    CorrelationCommutes(Sum(users, CovTerm(means, vecs, a, b)), Sum(users, DevTerm(means, vecs, a)),
                        Sum(users, DevTerm(means, vecs, b)), root);
  }

  /**
   * An item compared with itself over one user set: 1 when some contributing
   * rating differs from its user's mean, the indeterminate form when none does.
   */
  lemma AdjustedCosineSelf<U, I>(means: map<U, real>, vecs: map<U, map<I, real>>, users: set<U>, a: I, root: Root)
    requires IsRoot(root)
    requires Contributors(means, vecs, users * users, a, a) != {}
    ensures var dev := Sum(Contributors(means, vecs, users * users, a, a), DevTerm(means, vecs, a));
      && (dev != 0.0 ==> AdjustedCosineValue(means, vecs, users, users, a, a, root) == Ok(1.0))
      && (dev == 0.0 ==> AdjustedCosineValue(means, vecs, users, users, a, a, root) == Err(IndeterminateForm))
  {
    var c := Contributors(means, vecs, users * users, a, a);
    forall u | u in c
      ensures DevTerm(means, vecs, a)(u) >= 0.0
    {
      SquareNonNegative(Centred(means, vecs, u, a));
    }
    SumNonNegative(c, DevTerm(means, vecs, a));
    assert CovTerm(means, vecs, a, a) == DevTerm(means, vecs, a);
    CorrelationSelf(Sum(c, DevTerm(means, vecs, a)), root);
  }

  /** A user set with no contributing user gives `NoMatchingRatings`, and only then. */
  lemma AdjustedCosineNoOverlap<U, I>(means: map<U, real>, vecs: map<U, map<I, real>>, usersA: set<U>,
                                      usersB: set<U>, a: I, b: I, root: Root)
    ensures AdjustedCosineValue(means, vecs, usersA, usersB, a, b, root) == Err(NoMatchingRatings)
        <==> Contributors(means, vecs, usersA * usersB, a, b) == {}
  {
    var users := Contributors(means, vecs, usersA * usersB, a, b);
    if users != {} {
      var num, sx, sy := Sum(users, CovTerm(means, vecs, a, b)), Sum(users, DevTerm(means, vecs, a)),
                         Sum(users, DevTerm(means, vecs, b));
      var c := Divide(num, root(sx, 2) * root(sy, 2));
      assert c.Ok? || c == Err(IndeterminateForm) || c == Err(DivisionByZero);
    }
  }
}
