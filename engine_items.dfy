/**
 * The item-based half of `Engine` in engine/src/lib.rs: the distance between
 * two items and the two item-based predictors. `slope_one` and
 * `AdjCosine::calculate` are imported from engine/src/distances/items.rs,
 * whose definitions of them are not part of this model; both enter as
 * functions of the two items' ratings by user.
 */
module EngineItems {
  import opened Wrappers
  import opened Reals
  import opened Sums
  import opened EngineErrors
  import opened Controllers
  import opened Lazy
  import Items = ItemDistances

  /** `slope_one(a, b)`: the mean deviation of item b from item a and how many users rated both, or an error. */
  type SlopeOneFn<!U> = (map<U, real>, map<U, real>) -> Result<(real, nat), ErrorKind>

  /**
   * `AdjCosine::calculate(a, b)` once the means of every user involved are
   * loaded: the adjusted cosine of two items, or an error.
   */
  type SimilarityFn<!U> = (map<U, real>, map<U, real>) -> Result<real, ErrorKind>

  /**
   * `item_distance`: the adjusted cosine of the two items' raters, or the
   * slope-one deviation with its count of common raters dropped. Both items
   * must have raters, since the source indexes `users_who_rated` by them.
   */
  method ItemDistance<U, I(==)>(store: Store<U, I>, a: I, b: I, m: Items.Method,
                                calculate: SimilarityFn<U>, slopeOne: SlopeOneFn<U>) returns (r: Result<real, ErrorKind>)
    requires a in store.raters && b in store.raters
    ensures m.AdjCosine? ==> r == calculate(store.raters[a], store.raters[b])
    ensures m.SlopeOne? ==> r.Ok? == slopeOne(store.raters[a], store.raters[b]).Ok?
    ensures m.SlopeOne? && r.Ok? ==> r.value == slopeOne(store.raters[a], store.raters[b]).value.0
    ensures m.SlopeOne? && r.Err? ==> r.error == slopeOne(store.raters[a], store.raters[b]).error
  {
    var usersWhoRated := UsersWhoRated(store, {a, b});
    match m
    case AdjCosine =>
      r := calculate(usersWhoRated[a], usersWhoRated[b]);
    case SlopeOne =>
      var pair := slopeOne(usersWhoRated[a], usersWhoRated[b]);
      match pair
      case Ok((dev, _)) => r := Ok(dev);
      case Err(e) => r := Err(e);
  }

  // ---------------------------------------------------------------------------
  // slope_one_predict

  /** A count of common raters as a weight: `card as f64`. */
  function Card(card: nat): (w: real)
    ensures w >= 0.0
  {
    card as real
  }

  /** `(dev + rating) * card`. */
  function Weighted(x: real, card: nat): real {
    x * Card(card)
  }

  /** What one item the user rated adds to the numerator: nothing when nobody rated it or `slope_one` fails. */
  function SlopeNum<U, I>(target: map<U, real>, raters: map<I, map<U, real>>, ratings: map<I, real>, slopeOne: SlopeOneFn<U>): I -> real {
    j => if j in raters && j in ratings && slopeOne(target, raters[j]).Ok?
         then Weighted(slopeOne(target, raters[j]).value.0 + ratings[j], slopeOne(target, raters[j]).value.1)
         else 0.0
  }

  /** What one item the user rated adds to the denominator. */
  function SlopeDen<U, I>(target: map<U, real>, raters: map<I, map<U, real>>, slopeOne: SlopeOneFn<U>): I -> real {
    j => if j in raters && slopeOne(target, raters[j]).Ok? then Card(slopeOne(target, raters[j]).value.1) else 0.0
  }

  /**
   * The slope-one prediction from the user's other ratings: the mean of
   * `dev_j + r_j` weighted by the common raters, or `DivisionByZero` when
   * there is no weight at all.
   */
  ghost function SlopeOneValue<U, I>(target: map<U, real>, raters: map<I, map<U, real>>, ratings: map<I, real>,
                                     slopeOne: SlopeOneFn<U>): Result<real, ErrorKind>
  {
    var den := Sum(ratings.Keys, SlopeDen(target, raters, slopeOne));
    if den == 0.0 then Err(DivisionByZero)
    else Ok(Quotient(Sum(ratings.Keys, SlopeNum(target, raters, ratings, slopeOne)), den))
  }

  /** What `slope_one_predict` returns: the user's ratings without the target item. */
  ghost function SlopeOnePredictionOf<U, I>(store: Store<U, I>, user: U, item: I, slopeOne: SlopeOneFn<U>): Result<real, ErrorKind>
    requires item in store.raters
  {
    SlopeOneValue(store.raters[item], store.raters, RatingsBy(store.users, user) - {item}, slopeOne)
  }

  /** One more item of the user's ratings, as the loop of `slope_one_predict` takes it. */
  lemma SlopeStep<U, I>(target: map<U, real>, raters: map<I, map<U, real>>, ratings: map<I, real>, slopeOne: SlopeOneFn<U>,
                        rest: set<I>, j: I, num: real, den: real)
    requires rest <= ratings.Keys && j in rest
    requires num == Sum(ratings.Keys - rest, SlopeNum(target, raters, ratings, slopeOne))
    requires den == Sum(ratings.Keys - rest, SlopeDen(target, raters, slopeOne))
    ensures num + SlopeNum(target, raters, ratings, slopeOne)(j) == Sum(ratings.Keys - (rest - {j}), SlopeNum(target, raters, ratings, slopeOne))
    ensures den + SlopeDen(target, raters, slopeOne)(j) == Sum(ratings.Keys - (rest - {j}), SlopeDen(target, raters, slopeOne))
  {
    assert ratings.Keys - (rest - {j}) == (ratings.Keys - rest) + {j};
    SumAdd(ratings.Keys - rest, SlopeNum(target, raters, ratings, slopeOne), j);
    SumAdd(ratings.Keys - rest, SlopeDen(target, raters, slopeOne), j);
  }

  /**
   * `slope_one_predict`: over the items the user rated other than the
   * target, accumulate `(dev + r) * card` and `card` for each item whose
   * slope-one against the target succeeds. `chunks` panics on a chunk size
   * of 0; the grouping into chunks does not change the sums.
   */
  method SlopeOnePredict<U, I(==)>(store: Store<U, I>, user: U, item: I, chunkSize: nat, slopeOne: SlopeOneFn<U>)
    returns (r: Result<real, ErrorKind>)
    requires item in store.raters && chunkSize > 0
    ensures r == SlopeOnePredictionOf(store, user, item, slopeOne)
  {
    var target := UsersWhoRated(store, {item})[item];
    var ratings := RatingsBy(store.users, user) - {item};
    var num, den := 0.0, 0.0;
    var rest := ratings.Keys;
    while rest != {}
      invariant rest <= ratings.Keys
      invariant num == Sum(ratings.Keys - rest, SlopeNum(target, store.raters, ratings, slopeOne))
      invariant den == Sum(ratings.Keys - rest, SlopeDen(target, store.raters, slopeOne))
      decreases rest
    {
      var j :| j in rest;
      SlopeStep(target, store.raters, ratings, slopeOne, rest, j, num, den);
      if j in store.raters {
        var pair := slopeOne(target, store.raters[j]);
        if pair.Ok? {
          var dev, card := pair.value.0, pair.value.1;
          num := num + Weighted(dev + ratings[j], card);
          den := den + Card(card);
        }
      }
      rest := rest - {j};
    }
    assert ratings.Keys - rest == ratings.Keys;
    if den == 0.0 {
      r := Err(DivisionByZero);
    } else {
      r := Ok(Quotient(num, den));
    }
  }

  /** The prediction fails exactly when no item the user rated has a successful slope-one with any common rater. */
  lemma SlopeOneDivisionByZero<U, I>(target: map<U, real>, raters: map<I, map<U, real>>, ratings: map<I, real>, slopeOne: SlopeOneFn<U>)
    ensures SlopeOneValue(target, raters, ratings, slopeOne).Err? <==>
      forall j :: j in ratings ==> SlopeDen(target, raters, slopeOne)(j) == 0.0
    ensures SlopeOneValue(target, raters, ratings, slopeOne).Err? ==> SlopeOneValue(target, raters, ratings, slopeOne).error == DivisionByZero
  {
    forall j | j in ratings.Keys
      ensures SlopeDen(target, raters, slopeOne)(j) >= 0.0
    {
      if j in raters && slopeOne(target, raters[j]).Ok? {
        assert SlopeDen(target, raters, slopeOne)(j) == Card(slopeOne(target, raters[j]).value.1);
      }
    }
    SumZeroIff(ratings.Keys, SlopeDen(target, raters, slopeOne));
  }

  /** The slope-one prediction is a weighted mean: when every `dev_j + r_j` is `c`, `c` is predicted. */
  lemma SlopeOneMean<U, I>(target: map<U, real>, raters: map<I, map<U, real>>, ratings: map<I, real>, slopeOne: SlopeOneFn<U>, c: real)
    requires forall j :: j in ratings && j in raters && slopeOne(target, raters[j]).Ok? ==>
      slopeOne(target, raters[j]).value.0 + ratings[j] == c
    ensures SlopeOneValue(target, raters, ratings, slopeOne).Ok? ==> SlopeOneValue(target, raters, ratings, slopeOne).value == c
  {
    var num := SlopeNum(target, raters, ratings, slopeOne);
    var den := SlopeDen(target, raters, slopeOne);
    forall j | j in ratings.Keys
      ensures num(j) == c * den(j)
    {
      if j in raters && slopeOne(target, raters[j]).Ok? {
        var card := slopeOne(target, raters[j]).value.1;
        assert num(j) == Weighted(c, card);
      }
    }
    SumScale(ratings.Keys, num, den, c);
    if Sum(ratings.Keys, den) != 0.0 {
      QuotientUnique(c, Sum(ratings.Keys, num), Sum(ratings.Keys, den));
    }
  }

  // ---------------------------------------------------------------------------
  // adj_cosine_predict

  /** The `item_chunk` filter: the items of a page the user rated, in page order. */
  function RatedIn<I>(page: seq<I>, ratings: map<I, real>): (r: seq<I>)
    ensures forall i :: 0 <= i < |r| ==> r[i] in ratings && r[i] in page
    ensures forall i :: 0 <= i < |page| && page[i] in ratings ==> page[i] in r
  {
    if page == [] then []
    else
      var init := RatedIn(page[..|page| - 1], ratings);
      var last := page[|page| - 1];
      assert page == page[..|page| - 1] + [last];
      if last in ratings then init + [last] else init
  }

  /** `similarity * normalized_rating`. */
  function Times(sim: real, n: real): real {
    sim * n
  }

  /** The accumulated `num` and `dem`. */
  datatype Totals = Totals(num: real, dem: real)

  /**
   * `num` and `dem` after a run of items: each item the user rated, other
   * than the target, whose similarity with the target can be computed adds
   * `sim * normalized rating` and `|sim|`.
   */
  function AdjSums<U, I>(items: seq<I>, ratings: map<I, real>, min: real, max: real, item: I,
                         target: map<U, real>, raters: map<I, map<U, real>>, calculate: SimilarityFn<U>): Totals
    requires max - min != 0.0
  {
    if items == [] then Totals(0.0, 0.0)
    else
      AdjStep(AdjSums(items[..|items| - 1], ratings, min, max, item, target, raters, calculate),
              items[|items| - 1], ratings, min, max, item, target, raters, calculate)
  }

  /** What one more item `j` adds to the running totals `acc`. */
  function AdjStep<U, I>(acc: Totals, j: I, ratings: map<I, real>, min: real, max: real, item: I,
                         target: map<U, real>, raters: map<I, map<U, real>>, calculate: SimilarityFn<U>): Totals
    requires max - min != 0.0
  {
    if j in ratings && j != item && j in raters && calculate(target, raters[j]).Ok? then
      var sim := calculate(target, raters[j]).value;
      Totals(acc.num + Times(sim, Items.Normalized(ratings[j], min, max)), acc.dem + Abs(sim))
    else acc
  }

  /** `AdjSums` over a run extended by one item is one more step. */
  lemma AdjSumsLast<U, I>(items: seq<I>, j: I, ratings: map<I, real>, min: real, max: real, item: I,
                          target: map<U, real>, raters: map<I, map<U, real>>, calculate: SimilarityFn<U>)
    requires max - min != 0.0
    ensures AdjSums(items + [j], ratings, min, max, item, target, raters, calculate)
         == AdjStep(AdjSums(items, ratings, min, max, item, target, raters, calculate), j, ratings, min, max, item, target, raters, calculate)
  {
    assert (items + [j])[..|items|] == items;
  }

  /** The closing step: `DivisionByZero` for a zero `dem`, otherwise the denormalised `num / dem`. */
  function AdjClose(s: Totals, min: real, max: real): (r: Result<real, ErrorKind>)
    ensures r.Err? <==> s.dem == 0.0
  {
    if s.dem == 0.0 then Err(DivisionByZero) else Items.DenormalizeUserRating(Quotient(s.num, s.dem), min, max)
  }

  /** What `adj_cosine_predict` returns. */
  function AdjCosinePredictionOf<U, I>(store: Store<U, I>, user: U, item: I, chunkSize: nat, calculate: SimilarityFn<U>)
    : Result<real, ErrorKind>
    requires item in store.raters
  {
    var min, max := store.minRating, store.maxRating;
    if max - min == 0.0 then Err(DivisionByZero)
    else
      var items := if store.paged && chunkSize > 0 then store.items else [];
      AdjClose(AdjSums(items, RatingsBy(store.users, user), min, max, item, store.raters[item], store.raters, calculate), min, max)
  }

  /** Items the user did not rate contribute nothing, so filtering them out first changes nothing. */
  lemma {:induction false} AdjSumsRatedIn<U, I>(done: seq<I>, page: seq<I>, ratings: map<I, real>, min: real, max: real, item: I,
                                                target: map<U, real>, raters: map<I, map<U, real>>, calculate: SimilarityFn<U>)
    requires max - min != 0.0
    ensures AdjSums(done + RatedIn(page, ratings), ratings, min, max, item, target, raters, calculate)
         == AdjSums(done + page, ratings, min, max, item, target, raters, calculate)
    decreases |page|
  {
    if page == [] {
      assert done + [] == done;
    } else {
      var init := page[..|page| - 1];
      var last := page[|page| - 1];
      AdjSumsRatedIn(done, init, ratings, min, max, item, target, raters, calculate);
      assert done + page == (done + init) + [last];
      AdjSumsLast(done + init, last, ratings, min, max, item, target, raters, calculate);
      if last in ratings {
        assert done + RatedIn(page, ratings) == (done + RatedIn(init, ratings)) + [last];
        AdjSumsLast(done + RatedIn(init, ratings), last, ratings, min, max, item, target, raters, calculate);
      }
    }
  }

  /** The inner loop of `adj_cosine_predict` over one chunk of rated items. */
  method AddChunk<U, I(==)>(chunk: seq<I>, ratings: map<I, real>, normalized: map<I, real>, min: real, max: real, item: I,
                            target: map<U, real>, raters: map<I, map<U, real>>, calculate: SimilarityFn<U>,
                            ghost done: seq<I>, acc: Totals) returns (sums: Totals)
    requires max - min != 0.0
    requires normalized.Keys == ratings.Keys
    requires forall j :: j in ratings ==> normalized[j] == Items.Normalized(ratings[j], min, max)
    requires forall i :: 0 <= i < |chunk| && chunk[i] in ratings ==> chunk[i] in raters
    requires acc == AdjSums(done, ratings, min, max, item, target, raters, calculate)
    ensures sums == AdjSums(done + chunk, ratings, min, max, item, target, raters, calculate)
  {
    sums := acc;
    var i := 0;
    assert done + chunk[..0] == done;
    while i < |chunk|
      invariant 0 <= i <= |chunk|
      invariant sums == AdjSums(done + chunk[..i], ratings, min, max, item, target, raters, calculate)
    {
      var other := chunk[i];
      assert (done + chunk[..i + 1])[..|done + chunk[..i + 1]| - 1] == done + chunk[..i];
      assert (done + chunk[..i + 1])[|done + chunk[..i + 1]| - 1] == other;
      if other in normalized && item != other {
        var similarity := calculate(target, raters[other]);
        if similarity.Ok? {
          var sim := similarity.value;
          sums := Totals(sums.num + Times(sim, normalized[other]), sums.dem + Abs(sim));
        }
      }
      i := i + 1;
    }
    assert chunk[..i] == chunk;
  }

  /** The by-item view lists every item the user rated, with the user among its raters. */
  predicate RatersAgree<U, I>(store: Store<U, I>, user: U, ratings: map<I, real>) {
    forall j :: j in ratings ==> j in store.raters && user in store.raters[j]
  }

  /** One turn of the `for item_chunk_base in items_chunks` loop. */
  method AdvanceItems<U, I(==)>(pager: LazyChunks<I>, ratings: map<I, real>, normalized: map<I, real>, min: real, max: real,
                                item: I, target: map<U, real>, raters: map<I, map<U, real>>, calculate: SimilarityFn<U>,
                                ghost pages: seq<seq<I>>, ghost j: nat, acc: Totals) returns (more: bool, sums: Totals)
    requires max - min != 0.0
    requires normalized.Keys == ratings.Keys
    requires forall i :: i in ratings ==> normalized[i] == Items.Normalized(ratings[i], min, max)
    requires forall i :: i in ratings ==> i in raters
    requires pages == if pager.paged && pager.chunkSize > 0 then Chunks(pager.rows, pager.chunkSize) else []
    requires pager.offset == j * pager.chunkSize && j <= |pages|
    requires acc == AdjSums(Flatten(pages[..j]), ratings, min, max, item, target, raters, calculate)
    modifies pager
    ensures pager.offset == (j + 1) * pager.chunkSize
    ensures more ==> j < |pages| && sums == AdjSums(Flatten(pages[..j + 1]), ratings, min, max, item, target, raters, calculate)
    ensures !more ==> j == |pages| && sums == acc
  {
    var page := pager.Next();
    assert pager.offset == (j + 1) * pager.chunkSize;
    if pager.paged && pager.chunkSize > 0 {
      PageIsChunk(pager.rows, pager.chunkSize, j);
    }
    if page.None? {
      return false, acc;
    }
    assert page.value == pages[j];
    FlattenStep(pages, j);
    var chunk := RatedIn(page.value, ratings);
    AdjSumsRatedIn(Flatten(pages[..j]), page.value, ratings, min, max, item, target, raters, calculate);
    if chunk == [] {
      assert Flatten(pages[..j]) + chunk == Flatten(pages[..j]);
      return true, acc;
    }
    sums := AddChunk(chunk, ratings, normalized, min, max, item, target, raters, calculate, Flatten(pages[..j]), acc);
    more := true;
  }

  /**
   * `adj_cosine_predict`: normalise the user's ratings, then page through
   * the items; for each item of a page the user rated, other than the
   * target, add `sim * normalized rating` to `num` and `|sim|` to `dem`. A
   * zero `dem` is `DivisionByZero`; otherwise `num / dem` is denormalised.
   */
  method AdjCosinePredict<U, I(==)>(store: Store<U, I>, user: U, item: I, chunkSize: nat, calculate: SimilarityFn<U>)
    returns (r: Result<real, ErrorKind>)
    requires item in store.raters
    requires RatersAgree(store, user, RatingsBy(store.users, user))
    ensures r == AdjCosinePredictionOf(store, user, item, chunkSize, calculate)
  {
    var ratings := RatingsBy(store.users, user);
    var min, max := store.minRating, store.maxRating;
    var normalizedRatings := Items.NormalizeUserRatings(ratings, min, max);
    if normalizedRatings.Err? {
      return Err(normalizedRatings.error);
    }
    var normalized := normalizedRatings.value;
    var target := UsersWhoRated(store, {item})[item];
    var pager := new LazyChunks(store.items, store.paged, chunkSize);
    ghost var pages := if store.paged && chunkSize > 0 then Chunks(store.items, chunkSize) else [];
    if store.paged && chunkSize > 0 {
      FlattenChunks(store.items, chunkSize);
    }
    ghost var j := 0;
    var sums := Totals(0.0, 0.0);
    assert pages[..0] == [];
    while true
      invariant fresh(pager)
      invariant pager.rows == store.items && pager.paged == store.paged && pager.chunkSize == chunkSize
      invariant pager.offset == j * chunkSize && j <= |pages|
      invariant sums == AdjSums(Flatten(pages[..j]), ratings, min, max, item, target, store.raters, calculate)
      decreases |pages| - j
    {
      var more;
      more, sums := AdvanceItems(pager, ratings, normalized, min, max, item, target, store.raters, calculate, pages, j, sums);
      if !more {
        break;
      }
      j := j + 1;
    }
    assert pages[..j] == pages;
    if sums.dem == 0.0 {
      return Err(DivisionByZero);
    }
    r := Items.DenormalizeUserRating(Quotient(sums.num, sums.dem), min, max);
  }

  /** The user's own rating of the target item plays no part in the sums. */
  lemma {:induction false} AdjSumsIgnoresTargetRating<U, I>(items: seq<I>, ratings: map<I, real>, min: real, max: real, item: I,
                                                            target: map<U, real>, raters: map<I, map<U, real>>,
                                                            calculate: SimilarityFn<U>, c: real)
    requires max - min != 0.0
    ensures AdjSums(items, ratings[item := c], min, max, item, target, raters, calculate)
         == AdjSums(items, ratings - {item}, min, max, item, target, raters, calculate)
    ensures AdjSums(items, ratings, min, max, item, target, raters, calculate)
         == AdjSums(items, ratings - {item}, min, max, item, target, raters, calculate)
    decreases |items|
  {
    if items != [] {
      AdjSumsIgnoresTargetRating(items[..|items| - 1], ratings, min, max, item, target, raters, calculate, c);
    }
  }

  /** A normalised rating inside the scale lies in [-1, 1]. */
  lemma NormalizedWithin(r: real, min: real, max: real)
    requires min < max && min <= r <= max
    ensures -1.0 <= Items.Normalized(r, min, max) <= 1.0
  {
    QuotientWithin(Items.Normalized(r, min, max), 2.0 * r - min - max, max - min, -1.0, 1.0);
  }

  lemma NonNegativeProduct(a: real, b: real)
    requires a >= 0.0 && b >= 0.0
    ensures a * b >= 0.0
  {
  }

  /** A weight no larger than 1 in size moves the numerator by no more than the similarity's size. */
  lemma TimesWithin(sim: real, n: real)
    requires -1.0 <= n <= 1.0
    ensures -Abs(sim) <= Times(sim, n) <= Abs(sim)
  {
    var a := Abs(sim);
    NonNegativeProduct(a, 1.0 - n);
    NonNegativeProduct(a, n + 1.0);
    assert a * (1.0 - n) == a - a * n;
    assert a * (n + 1.0) == a * n + a;
    assert sim * n == a * n || sim * n == -(a * n);
  }

  /** When the user's ratings lie in the scale, |num| never exceeds dem. */
  lemma {:induction false} AdjSumsBounded<U, I>(items: seq<I>, ratings: map<I, real>, min: real, max: real, item: I,
                                                target: map<U, real>, raters: map<I, map<U, real>>, calculate: SimilarityFn<U>)
    requires min < max
    requires forall j :: j in ratings ==> min <= ratings[j] <= max
    ensures var s := AdjSums(items, ratings, min, max, item, target, raters, calculate);
      -s.dem <= s.num <= s.dem
    decreases |items|
  {
    if items != [] {
      AdjSumsBounded(items[..|items| - 1], ratings, min, max, item, target, raters, calculate);
      var j := items[|items| - 1];
      if j in ratings && j != item && j in raters && calculate(target, raters[j]).Ok? {
        NormalizedWithin(ratings[j], min, max);
        TimesWithin(calculate(target, raters[j]).value, Items.Normalized(ratings[j], min, max));
      }
    }
  }

  /** Denormalising a value of [-1, 1] lands in the rating scale. */
  lemma DenormalizeWithin(q: real, min: real, max: real)
    requires min < max && -1.0 <= q <= 1.0
    ensures min <= Items.DenormalizeUserRating(q, min, max).value <= max
  {
    NonNegativeProduct(q + 1.0, max - min);
    NonNegativeProduct(1.0 - q, max - min);
    assert (q + 1.0) * (max - min) + (1.0 - q) * (max - min) == 2.0 * (max - min);
  }

  /**
   * The adjusted-cosine prediction stays on the rating scale: when every
   * rating of the user lies in [min, max], so does the predicted one.
   */
  lemma AdjCosineWithinScale<U, I>(store: Store<U, I>, user: U, item: I, chunkSize: nat, calculate: SimilarityFn<U>)
    requires item in store.raters && store.minRating < store.maxRating
    requires forall j :: j in RatingsBy(store.users, user) ==> store.minRating <= RatingsBy(store.users, user)[j] <= store.maxRating
    ensures var r := AdjCosinePredictionOf(store, user, item, chunkSize, calculate);
      r.Ok? ==> store.minRating <= r.value <= store.maxRating
  {
    var min, max := store.minRating, store.maxRating;
    var items := if store.paged && chunkSize > 0 then store.items else [];
    var ratings := RatingsBy(store.users, user);
    var s := AdjSums(items, ratings, min, max, item, store.raters[item], store.raters, calculate);
    AdjSumsBounded(items, ratings, min, max, item, store.raters[item], store.raters, calculate);
    if s.dem != 0.0 {
      QuotientWithin(Quotient(s.num, s.dem), s.num, s.dem, -1.0, 1.0);
      DenormalizeWithin(Quotient(s.num, s.dem), min, max);
    }
  }

  /** Every similarity the sums take in is positive. */
  predicate PositiveSimilarities<U, I>(target: map<U, real>, raters: map<I, map<U, real>>, calculate: SimilarityFn<U>) {
    forall j :: j in raters && calculate(target, raters[j]).Ok? ==> calculate(target, raters[j]).value > 0.0
  }

  /** One more positive similarity keeps `num = n * dem`. */
  lemma ProportionalStep(acc: Totals, s: Totals, sim: real, n: real)
    requires Proportional(acc, n) && sim > 0.0
    requires s == Totals(acc.num + Times(sim, n), acc.dem + Abs(sim))
    ensures Proportional(s, n)
  {
    assert n * (acc.dem + sim) == n * acc.dem + n * sim;
  }

  /** With positive similarities and one common normalised rating `n`, num is n times dem. */
  lemma {:induction false} AdjSumsConstant<U, I>(items: seq<I>, ratings: map<I, real>, min: real, max: real, item: I,
                                                 target: map<U, real>, raters: map<I, map<U, real>>, calculate: SimilarityFn<U>, c: real)
    requires max - min != 0.0
    requires PositiveSimilarities(target, raters, calculate)
    requires forall j :: j in ratings && j != item ==> ratings[j] == c
    ensures Proportional(AdjSums(items, ratings, min, max, item, target, raters, calculate), Items.Normalized(c, min, max))
    decreases |items|
  {
    if items == [] {
      assert Items.Normalized(c, min, max) * 0.0 == 0.0;
    } else {
      var init := items[..|items| - 1];
      AdjSumsConstant(init, ratings, min, max, item, target, raters, calculate, c);
      AdjSumsConstantStep(items, ratings, min, max, item, target, raters, calculate, c);
    }
  }

  /** `num = n * dem`. */
  predicate Proportional(s: Totals, n: real) {
    s.num == n * s.dem
  }

  lemma AdjSumsConstantStep<U, I>(items: seq<I>, ratings: map<I, real>, min: real, max: real, item: I,
                                  target: map<U, real>, raters: map<I, map<U, real>>, calculate: SimilarityFn<U>, c: real)
    requires max - min != 0.0 && items != []
    requires PositiveSimilarities(target, raters, calculate)
    requires forall j :: j in ratings && j != item ==> ratings[j] == c
    requires Proportional(AdjSums(items[..|items| - 1], ratings, min, max, item, target, raters, calculate), Items.Normalized(c, min, max))
    ensures Proportional(AdjSums(items, ratings, min, max, item, target, raters, calculate), Items.Normalized(c, min, max))
  {
    var n := Items.Normalized(c, min, max);
    var s := AdjSums(items, ratings, min, max, item, target, raters, calculate);
    var acc := AdjSums(items[..|items| - 1], ratings, min, max, item, target, raters, calculate);
    var j := items[|items| - 1];
    if j in ratings && j != item && j in raters && calculate(target, raters[j]).Ok? {
      var sim := calculate(target, raters[j]).value;
      ProportionalStep(acc, s, sim, n);
    } else {
      assert s == acc;
    }
  }

  /**
   * A user who gave every other item the same rating `c` is predicted `c`
   * when every similarity is positive.
   */
  lemma AdjCosineConstant<U, I>(store: Store<U, I>, user: U, item: I, chunkSize: nat, calculate: SimilarityFn<U>, c: real)
    requires item in store.raters
    requires PositiveSimilarities(store.raters[item], store.raters, calculate)
    requires forall j :: j in RatingsBy(store.users, user) && j != item ==> RatingsBy(store.users, user)[j] == c
    ensures var r := AdjCosinePredictionOf(store, user, item, chunkSize, calculate);
      r.Ok? ==> r.value == c
  {
    var min, max := store.minRating, store.maxRating;
    if max - min != 0.0 {
      var items := if store.paged && chunkSize > 0 then store.items else [];
      var ratings := RatingsBy(store.users, user);
      var n := Items.Normalized(c, min, max);
      AdjSumsConstant(items, ratings, min, max, item, store.raters[item], store.raters, calculate, c);
      var s := AdjSums(items, ratings, min, max, item, store.raters[item], store.raters, calculate);
      if s.dem != 0.0 {
        QuotientUnique(n, s.num, s.dem);
        Items.DenormalizeNormalized(c, min, max);
      }
    }
  }

  // ---------------------------------------------------------------------------
  // item_based_predict

  /** `item_based_predict`: adjusted cosine or slope one, as asked. */
  method ItemBasedPredict<U, I(==)>(store: Store<U, I>, user: U, item: I, m: Items.Method, chunkSize: nat,
                                    calculate: SimilarityFn<U>, slopeOne: SlopeOneFn<U>) returns (r: Result<real, ErrorKind>)
    requires item in store.raters
    requires m.AdjCosine? ==> RatersAgree(store, user, RatingsBy(store.users, user))
    requires m.SlopeOne? ==> chunkSize > 0
    ensures m.AdjCosine? ==> r == AdjCosinePredictionOf(store, user, item, chunkSize, calculate)
    ensures m.SlopeOne? ==> r == SlopeOnePredictionOf(store, user, item, slopeOne)
  {
    match m
    case AdjCosine =>
      r := AdjCosinePredict(store, user, item, chunkSize, calculate);
    case SlopeOne =>
      r := SlopeOnePredict(store, user, item, chunkSize, slopeOne);
  }
}
