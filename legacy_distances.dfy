/**
 * The older, `Option`-returning metric set of engine/src/distances.rs, of which
 * recommend/src/distances.rs is a copy. Each metric runs the same
 * accumulation as its counterpart in engine/src/distances/users.rs and then
 * reports every failure (no co-rated key, a NaN or an infinite quotient) as
 * `None`; the methods below run that loop and drop the error's kind.
 */
module LegacyDistances {
  import opened Wrappers
  import opened Reals
  import opened Sums
  import opened EngineErrors
  import opened CommonKeys
  import opened PairSums
  import Live = UserDistances
  import Laws = UserDistanceLaws
  import Items = ItemDistances

  /** An engine result as the older API reports it: the value, or `None` whatever the error. */
  function Collapse<T>(r: Result<T, ErrorKind>): (o: Option<T>)
    ensures o.Some? <==> r.Ok?
    ensures o.Some? ==> o.value == r.value
  {
    if r.Ok? then Some(r.value) else None
  }

  method ManhattanDistance<K(==)>(a: map<K, real>, b: map<K, real>) returns (r: Option<real>)
    ensures r == Collapse(Live.ManhattanValue(a, b))
  {
    var v := Live.ManhattanDistance(a, b);
    r := Collapse(v);
  }

  method EuclideanDistance<K(==)>(a: map<K, real>, b: map<K, real>, root: Root) returns (r: Option<real>)
    ensures r == Collapse(Live.EuclideanValue(a, b, root))
  {
    var v := Live.EuclideanDistance(a, b, root);
    r := Collapse(v);
  }

  /** `minkowski_distance` panics on p = 0 before looking at the maps. */
  method MinkowskiDistance<K(==)>(a: map<K, real>, b: map<K, real>, p: nat, root: Root) returns (r: Option<real>)
    requires p != 0
    ensures r == Collapse(Live.MinkowskiValue(a, b, p, root))
  {
    var v := Live.MinkowskiDistance(a, b, p, root);
    r := Collapse(v);
  }

  /** `jaccard_index`: `None` on two empty maps, 0 when one is empty, shared keys over all keys otherwise. */
  function JaccardIndex<K>(a: map<K, real>, b: map<K, real>): (r: Option<real>)
    ensures r == Collapse(Live.JaccardIndexOf(a, b))
  {
    if |a| == 0 && |b| == 0 then None
    else if |a| == 0 || |b| == 0 then Some(0.0)
    else Some(Quotient(|a.Keys * b.Keys| as real, |a.Keys + b.Keys| as real))
  }

  /** `jaccard_distance`: one minus the index, `None` when the index is. */
  function JaccardDistance<K>(a: map<K, real>, b: map<K, real>): (r: Option<real>)
    ensures r == Collapse(Live.JaccardDistanceOf(a, b))
  {
    match JaccardIndex(a, b)
    case None => None
    case Some(index) => Some(1.0 - index)
  }

  method CosineSimilarity<K(==)>(a: map<K, real>, b: map<K, real>, root: Root) returns (r: Option<real>)
    ensures r == Collapse(Live.CosineValue(a, b, root))
  {
    var v := Live.CosineSimilarityOf(a, b, root);
    r := Collapse(v);
  }

  method PearsonCorrelation<K(==)>(a: map<K, real>, b: map<K, real>, root: Root) returns (r: Option<real>)
    ensures r == Collapse(Live.PearsonValue(a, b, root))
  {
    var v := Live.PearsonCorrelationOf(a, b, root);
    r := Collapse(v);
  }

  method PearsonApproximation<K(==)>(a: map<K, real>, b: map<K, real>, root: Root) returns (r: Option<real>)
    ensures r == Collapse(Live.PearsonApproxValue(a, b, root))
  {
    var v := Live.PearsonApproximationOf(a, b, root);
    r := Collapse(v);
  }

  /** `distance`: the dispatch on the method. */
  method Distance<K(==)>(a: map<K, real>, b: map<K, real>, m: Live.Method, root: Root) returns (r: Option<real>)
    requires m.Allowed()
    ensures r == Collapse(Live.DistanceValue(a, b, m, root))
  {
    match m
    case Manhattan => r := ManhattanDistance(a, b);
    case Euclidean => r := EuclideanDistance(a, b, root);
    case Minkowski(p) => r := MinkowskiDistance(a, b, p, root);
    case JaccardIndex => r := JaccardIndex(a, b);
    case JaccardDistance => r := JaccardDistance(a, b);
    case CosineSimilarity => r := CosineSimilarity(a, b, root);
    case PearsonCorrelation => r := PearsonCorrelation(a, b, root);
    case PearsonApproximation => r := PearsonApproximation(a, b, root);
  }

  // ---------------------------------------------------------------------------
  // Adjusted cosine.

  /** `pre_adjusted_cosine`: the mean of every user whose vector is not empty. */
  method PreAdjustedCosine<U(==), I(==)>(vecs: map<U, map<I, real>>) returns (means: map<U, real>)
    ensures means == Items.MeansOn(vecs, vecs.Keys)
  {
    means := Items.AdjustedCosineMeans(vecs);
  }

  /**
   * `post_adjusted_cosine`: every user of `vecs` that has a mean and rated both
   * items contributes its centred terms; `None` when nobody does or the
   * quotient is not finite.
   */
  method PostAdjustedCosine<U(==), I(==)>(means: map<U, real>, vecs: map<U, map<I, real>>, a: I, b: I, root: Root)
    returns (r: Option<real>)
    ensures r == Collapse(Items.AdjustedCosineValue(means, vecs, vecs.Keys, vecs.Keys, a, b, root))
  {
    var v := Items.FastAdjustedCosine(means, vecs, vecs.Keys, vecs.Keys, a, b, root);
    r := Collapse(v);
  }

  /**
   * `adjusted_cosine`: as `post_adjusted_cosine`, with each user's mean
   * recomputed on the spot over the user's whole vector.
   */
  method AdjustedCosine<U(==), I(==)>(vecs: map<U, map<I, real>>, a: I, b: I, root: Root) returns (r: Option<real>)
    ensures r == Collapse(Items.AdjustedCosineValue(Items.MeansOn(vecs, vecs.Keys), vecs, vecs.Keys, vecs.Keys, a, b, root))
  {
    ghost var means := Items.MeansOn(vecs, vecs.Keys);
    var cov: Option<real> := None;
    var devA: Option<real> := None;
    var devB: Option<real> := None;
    var rest := vecs.Keys;
    ghost var seen: set<U> := {};
    while rest != {}
      invariant rest <= vecs.Keys && seen == vecs.Keys - rest
      invariant cov == Items.Filled(Items.Contributors(means, vecs, seen, a, b), Items.CovTerm(means, vecs, a, b))
      invariant devA == Items.Filled(Items.Contributors(means, vecs, seen, a, b), Items.DevTerm(means, vecs, a))
      invariant devB == Items.Filled(Items.Contributors(means, vecs, seen, a, b), Items.DevTerm(means, vecs, b))
      decreases rest
    {
      var u :| u in rest;
      cov, devA, devB := AddUser(vecs, a, b, seen, u, cov, devA, devB);
      TakeOne(vecs.Keys, rest, u);
      seen, rest := seen + {u}, rest - {u};
    }
    assert vecs.Keys * vecs.Keys == seen;
    if cov.None? || devA.None? || devB.None? {
      r := None;
    } else {
      r := Collapse(Live.Correlation(cov.value, devA.value, devB.value, root));
    }
  }

  /**
   * The body of `adjusted_cosine` for one user: the mean of the whole vector,
   * then the two ratings, when the user rated both items.
   */
  method CentredInputs<I(==)>(vec: map<I, real>, a: I, b: I) returns (t: Option<(real, real, real)>)
    ensures t.Some? <==> a in vec && b in vec
    ensures t.Some? ==> |vec| > 0 && t.value == (vec[a], vec[b], Items.MeanOf(vec))
  {
    var total, n := Items.SumRatings(vec);
    if total.None? {
      return None;
    }
    var mean := Quotient(total.value, n as real);
    if a in vec && b in vec {
      t := Some((vec[a], vec[b], mean));
    } else {
      t := None;
    }
  }

  /** A user with ratings has a mean, the mean of the whole vector. */
  lemma MeanOfContributor<U, I>(vecs: map<U, map<I, real>>, u: U)
    requires u in vecs && |vecs[u]| > 0
    ensures u in Items.MeansOn(vecs, vecs.Keys) && Items.MeansOn(vecs, vecs.Keys)[u] == Items.MeanOf(vecs[u])
  {
  }

  /** One pass of the loop of `adjusted_cosine`: user `u` adds its centred terms if it contributes. */
  method AddUser<U(==), I(==)>(vecs: map<U, map<I, real>>, a: I, b: I, ghost seen: set<U>, u: U,
                               cov: Option<real>, devA: Option<real>, devB: Option<real>)
    returns (cov': Option<real>, devA': Option<real>, devB': Option<real>)
    requires u in vecs && u !in seen
    requires cov == Items.Filled(Items.Contributors(Items.MeansOn(vecs, vecs.Keys), vecs, seen, a, b),
                                 Items.CovTerm(Items.MeansOn(vecs, vecs.Keys), vecs, a, b))
    requires devA == Items.Filled(Items.Contributors(Items.MeansOn(vecs, vecs.Keys), vecs, seen, a, b),
                                  Items.DevTerm(Items.MeansOn(vecs, vecs.Keys), vecs, a))
    requires devB == Items.Filled(Items.Contributors(Items.MeansOn(vecs, vecs.Keys), vecs, seen, a, b),
                                  Items.DevTerm(Items.MeansOn(vecs, vecs.Keys), vecs, b))
    ensures cov' == Items.Filled(Items.Contributors(Items.MeansOn(vecs, vecs.Keys), vecs, seen + {u}, a, b),
                                 Items.CovTerm(Items.MeansOn(vecs, vecs.Keys), vecs, a, b))
    ensures devA' == Items.Filled(Items.Contributors(Items.MeansOn(vecs, vecs.Keys), vecs, seen + {u}, a, b),
                                  Items.DevTerm(Items.MeansOn(vecs, vecs.Keys), vecs, a))
    ensures devB' == Items.Filled(Items.Contributors(Items.MeansOn(vecs, vecs.Keys), vecs, seen + {u}, a, b),
                                  Items.DevTerm(Items.MeansOn(vecs, vecs.Keys), vecs, b))
  {
    ghost var means := Items.MeansOn(vecs, vecs.Keys);
    Items.ContributorsStep(means, vecs, seen, a, b, u);
    ghost var counted := Items.Contributors(means, vecs, seen, a, b);
    cov', devA', devB' := cov, devA, devB;
    var t := CentredInputs(vecs[u], a, b);
    if t.Some? {
      var (x, y, m) := t.value;
      MeanOfContributor(vecs, u);
      Items.AdjustedStep(means, vecs, a, b, counted, u, x, y, m, cov, devA, devB);
      cov' := Some(cov.UnwrapOr(0.0) + (x - m) * (y - m));
      devA' := Some(devA.UnwrapOr(0.0) + (x - m) * (x - m));
      devB' := Some(devB.UnwrapOr(0.0) + (y - m) * (y - m));
    }
  }

  /** Moving one element from the unvisited part to the visited part. */
  lemma TakeOne<T>(all: set<T>, rest: set<T>, u: T)
    requires rest <= all && u in rest
    ensures all - (rest - {u}) == (all - rest) + {u}
  {
  }

  // ---------------------------------------------------------------------------
  // Properties of the older API.

  /** Users who share no rated item have no distance and no similarity of any co-rated kind. */
  lemma DisjointIsNone<K>(a: map<K, real>, b: map<K, real>, p: nat, root: Root)
    requires CoRated(a, b) == {}
    ensures Collapse(Live.ManhattanValue(a, b)) == None
    ensures Collapse(Live.EuclideanValue(a, b, root)) == None
    ensures Collapse(Live.MinkowskiValue(a, b, p, root)) == None
    ensures Collapse(Live.CosineValue(a, b, root)) == None
    ensures Collapse(Live.PearsonValue(a, b, root)) == None
    ensures Collapse(Live.PearsonApproxValue(a, b, root)) == None
  {
  }

  /** The unit tests' disjoint users: {0, 2, 3} against {4, 5, 6}. */
  lemma DisjointExample(root: Root)
    ensures var a, b := map[0 := 1.0, 2 := 2.0, 3 := 2.0], map[4 := 1.0, 5 := 2.0, 6 := 2.0];
      && Collapse(Live.ManhattanValue(a, b)) == None
      && Collapse(Live.EuclideanValue(a, b, root)) == None
      && Collapse(Live.MinkowskiValue(a, b, 1, root)) == None
      && Collapse(Live.MinkowskiValue(a, b, 2, root)) == None
      && Collapse(Live.MinkowskiValue(a, b, 3, root)) == None
      && Collapse(Live.CosineValue(a, b, root)) == None
      && Collapse(Live.PearsonValue(a, b, root)) == None
      && Collapse(Live.PearsonApproxValue(a, b, root)) == None
  {
    var a, b := map[0 := 1.0, 2 := 2.0, 3 := 2.0], map[4 := 1.0, 5 := 2.0, 6 := 2.0];
    assert a.Keys == {0, 2, 3} && b.Keys == {4, 5, 6};
    assert CoRated(a, b) == {};
    DisjointIsNone(a, b, 1, root);
    DisjointIsNone(a, b, 2, root);
    DisjointIsNone(a, b, 3, root);
  }

  /** The older Jaccard functions: `None` exactly on two empty maps, an index in [0, 1], and its complement. */
  lemma JaccardLaws<K>(a: map<K, real>, b: map<K, real>)
    ensures JaccardIndex(a, b).None? <==> |a| == 0 && |b| == 0
    ensures JaccardIndex(a, b).Some? ==> 0.0 <= JaccardIndex(a, b).value <= 1.0
    ensures |a| == 0 && |b| != 0 ==> JaccardIndex(a, b) == Some(0.0)
    ensures JaccardDistance(a, b).None? <==> JaccardIndex(a, b).None?
    ensures JaccardDistance(a, b).Some? ==> JaccardDistance(a, b).value == 1.0 - JaccardIndex(a, b).value
  {
    Live.JaccardIndexRange(a, b);
  }

  /** With p = 1 Minkowski is Manhattan, with p = 2 it is Euclid, in the older API as well. */
  lemma MinkowskiSpecialCases<K>(a: map<K, real>, b: map<K, real>, root: Root)
    requires IsRoot(root)
    ensures Collapse(Live.MinkowskiValue(a, b, 1, root)) == Collapse(Live.ManhattanValue(a, b))
    ensures Collapse(Live.MinkowskiValue(a, b, 2, root)) == Collapse(Live.EuclideanValue(a, b, root))
  {
    Laws.MinkowskiOneIsManhattan(a, b, root);
    Laws.MinkowskiTwoIsEuclidean(a, b, root);
  }

  /** A sum over three distinct elements. */
  lemma SumOfThree<K>(f: K -> real, x: K, y: K, z: K)
    requires x != y && y != z && x != z
    ensures Sum({x, y, z}, f) == f(x) + f(y) + f(z)
  {
    SumRemove({x, y, z}, f, x);
    assert {x, y, z} - {x} == {y, z};
    SumRemove({y, z}, f, y);
    assert {y, z} - {y} == {z};
    SumRemove({z}, f, z);
    assert {z} - {z} == {};
  }

  /** The unit test's Manhattan distance: the users agree on item 0 and differ by 1 and 2 on items 2 and 3. */
  lemma ManhattanExample()
    ensures Collapse(Live.ManhattanValue(map[0 := 1.0, 2 := 2.0, 3 := 2.0],
                                         map[0 := 1.0, 1 := 3.0, 2 := 3.0, 3 := 4.0])) == Some(3.0)
  {
    var a, b := map[0 := 1.0, 2 := 2.0, 3 := 2.0], map[0 := 1.0, 1 := 3.0, 2 := 3.0, 3 := 4.0];
    assert a.Keys == {0, 2, 3} && b.Keys == {0, 1, 2, 3};
    assert CoRated(a, b) == {0, 2, 3};
    assert |a| == 3 && |b| == 4;
    var f := OnPairs(a, b, Live.AbsDiff);
    assert f(0) == 0.0 && f(2) == 1.0 && f(3) == 2.0;
    SumOfThree(f, 0, 2, 3);
  }

  /** The unit test's Euclidean distance: differences 2, 1 and 2 give the square root of 9. */
  lemma EuclideanExample(root: Root)
    requires IsRoot(root)
    ensures Collapse(Live.EuclideanValue(map[0 := 0.0, 2 := 1.0, 3 := 2.0],
                                         map[0 := 2.0, 1 := 1.0, 2 := 2.0, 3 := 4.0], root)) == Some(3.0)
  {
    var a, b := map[0 := 0.0, 2 := 1.0, 3 := 2.0], map[0 := 2.0, 1 := 1.0, 2 := 2.0, 3 := 4.0];
    EuclideanExampleSum(a, b);
    RootOfSquare(root, 3.0);
    assert Live.EuclideanValue(a, b, root) == Ok(root(3.0 * 3.0, 2));
  }

  /** The squared differences of the unit test's ratings add up to 9. */
  lemma EuclideanExampleSum(a: map<int, real>, b: map<int, real>)
    requires a == map[0 := 0.0, 2 := 1.0, 3 := 2.0] && b == map[0 := 2.0, 1 := 1.0, 2 := 2.0, 3 := 4.0]
    ensures CoRated(a, b) == {0, 2, 3}
    ensures PairSum(a, b, Live.SquaredDiff) == 3.0 * 3.0
  {
    assert a.Keys == {0, 2, 3} && b.Keys == {0, 1, 2, 3};
    assert CoRated(a, b) == {0, 2, 3};
    var f := OnPairs(a, b, Live.SquaredDiff);
    assert f(0) == 4.0 && f(2) == 1.0 && f(3) == 4.0;
    SumOfThree(f, 0, 2, 3);
  }

  /**
   * When every co-rated rating of `a` is zero, the cosine is 0/0 and the older
   * API reports `None`.
   */
  lemma CosineZeroNorm<K>(a: map<K, real>, b: map<K, real>, root: Root)
    requires IsRoot(root)
    requires forall k :: k in CoRated(a, b) ==> a[k] == 0.0
    ensures Collapse(Live.CosineValue(a, b, root)) == None
  {
    if CoRated(a, b) != {} {
      PairSumConst(a, b, Live.Dot, 0.0);
      if |a| > |b| {
        PairSumConst(a, b, Live.SquareY, 0.0);
        RootOfZero(root, 2);
      } else {
        PairSumConst(a, b, Live.SquareX, 0.0);
        RootOfZero(root, 2);
      }
    }
  }

  /** The unit test's cosine: user a rated items 0 to 3 with zeros, so its co-rated norm is zero. */
  lemma CosineZeroExample(root: Root)
    requires IsRoot(root)
    ensures Collapse(Live.CosineValue(map[0 := 0.0, 1 := 0.0, 2 := 0.0, 3 := 0.0, 4 := 1.0],
                                      map[0 := 1.0, 1 := 1.0, 2 := 1.0, 3 := 1.0], root)) == None
  {
    var a, b := map[0 := 0.0, 1 := 0.0, 2 := 0.0, 3 := 0.0, 4 := 1.0], map[0 := 1.0, 1 := 1.0, 2 := 1.0, 3 := 1.0];
    assert b.Keys == {0, 1, 2, 3};
    CosineZeroNorm(a, b, root);
  }
}
