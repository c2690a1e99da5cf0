/**
 * The user-based half of `Engine` in engine/src/lib.rs: the distance between
 * two users, their k nearest neighbours, and the rating predicted for an item
 * from the neighbours who rated it. The controller is the `Store` it would
 * answer from; its chunked user listing is the `LazyChunks` pager.
 */
module EngineUsers {
  import opened Wrappers
  import opened Reals
  import opened EngineErrors
  import opened MapedDistances
  import opened KnnSelection
  import opened Controllers
  import opened Lazy
  import Live = UserDistances
  import Laws = UserDistanceLaws
  import Heaps = Knn

  /** `user_distance`: the metric on the two users' ratings, which is symmetric in the users. */
  method UserDistance<U(==), I(==)>(store: Store<U, I>, a: U, b: U, m: Live.Method, root: Root) returns (r: Result<real, ErrorKind>)
    requires m.Allowed()
    ensures r == Live.DistanceValue(RatingsBy(store.users, a), RatingsBy(store.users, b), m, root)
    ensures r == Live.DistanceValue(RatingsBy(store.users, b), RatingsBy(store.users, a), m, root)
  {
    var ratingA := RatingsBy(store.users, a);
    var ratingB := RatingsBy(store.users, b);
    r := Live.Distance(ratingA, ratingB, m, root);
    Laws.DistanceSymmetric(ratingA, ratingB, m, root);
  }

  /** The heap both `user_knn` and `user_based_predict` pick: a min-heap for a similarity, a max-heap for a distance. */
  function KindFor(m: Live.Method): (kind: Kind)
    ensures kind == MinHeap <==> m.IsSimilarity()
  {
    if m.IsSimilarity() then MinHeap else MaxHeap
  }

  /** The users, restricted to those who rated `item` when one is given. */
  function WhoRated<U, I>(users: seq<(U, map<I, real>)>, item: Option<I>): (r: seq<(U, map<I, real>)>)
    ensures forall i :: 0 <= i < |r| ==> r[i] in users && (item.None? || item.value in r[i].1)
    ensures forall i :: 0 <= i < |users| && (item.None? || item.value in users[i].1) ==> users[i] in r
  {
    if users == [] then []
    else
      var init := WhoRated(users[..|users| - 1], item);
      var last := users[|users| - 1];
      assert users == users[..|users| - 1] + [last];
      if item.None? || item.value in last.1 then init + [last] else init
  }

  /** Filtering a concatenation filters both parts. */
  lemma {:induction false} WhoRatedAppend<U, I>(a: seq<(U, map<I, real>)>, b: seq<(U, map<I, real>)>, item: Option<I>)
    ensures WhoRated(a + b, item) == WhoRated(a, item) + WhoRated(b, item)
    decreases |b|
  {
    if b == [] {
      assert a + b == a;
    } else {
      var init, last := b[..|b| - 1], b[|b| - 1];
      assert b == init + [last];
      assert a + b == (a + init) + [last];
      WhoRatedAppend(a, init, item);
      WhoRatedSnoc(a + init, last, item);
      WhoRatedSnoc(init, last, item);
      var wa, wi, tail := WhoRated(a, item), WhoRated(init, item), if item.None? || item.value in last.1 then [last] else [];
      assert (wa + wi) + tail == wa + (wi + tail);
    }
  }

  /** Filtering one more user appends it when it qualifies. */
  lemma WhoRatedSnoc<U, I>(s: seq<(U, map<I, real>)>, last: (U, map<I, real>), item: Option<I>)
    ensures WhoRated(s + [last], item) == WhoRated(s, item) + if item.None? || item.value in last.1 then [last] else []
  {
    assert (s + [last])[..|s + [last]| - 1] == s;
  }

  /** The users a chunked scan offers: every user, page after page, when the controller pages at all. */
  function PagedCandidates<U, I>(store: Store<U, I>, size: nat, item: Option<I>): seq<(U, map<I, real>)> {
    if store.paged && size > 0 then WhoRated(store.users, item) else []
  }

  /**
   * The users scored against the query user: with a chunk size, every user
   * of every page, the query user included; without one, every other user.
   */
  function Candidates<U(==), I>(store: Store<U, I>, user: U, chunkSize: Option<nat>, item: Option<I>): seq<(U, map<I, real>)> {
    match chunkSize
    case Some(size) => PagedCandidates(store, size, item)
    case None => WhoRated(MapedRatingsExcept(store.users, user), item)
  }

  /** The unchunked scan never scores the query user; the chunked one scores every user there is. */
  lemma CandidatesOf<U, I>(store: Store<U, I>, user: U, size: nat, item: Option<I>)
    ensures forall p :: p in Candidates(store, user, None, item) <==>
      p in store.users && p.0 != user && (item.None? || item.value in p.1)
    ensures store.paged && size > 0 ==> forall p :: p in Candidates(store, user, Some(size), item) <==>
      p in store.users && (item.None? || item.value in p.1)
  {
  }

  /** The candidates a run of pages offers to the heap. */
  ghost function Offered<U, I>(userRatings: map<I, real>, pages: seq<seq<(U, map<I, real>)>>, item: Option<I>, m: Live.Method, root: Root): seq<MapedDistance<U, map<I, real>>>
    requires m.Allowed()
  {
    Scored(userRatings, WhoRated(Flatten(pages), item), m, root)
  }

  /** What one more page adds to the candidates offered so far, and takes from those still to come. */
  lemma PageStep<U, I>(kind: Kind, k: nat, pages: seq<seq<(U, map<I, real>)>>, j: nat, userRatings: map<I, real>,
                       item: Option<I>, m: Live.Method, root: Root)
    requires m.Allowed() && j < |pages|
    requires k >= 1 || Offered(userRatings, pages[..j], item, m, root) == []
    requires k >= 1 || Offered(userRatings, pages[j..], item, m, root) == []
    ensures k >= 1 || Scored(userRatings, WhoRated(pages[j], item), m, root) == []
    ensures k >= 1 || Offered(userRatings, pages[..j + 1], item, m, root) == []
    ensures k >= 1 || Offered(userRatings, pages[j + 1..], item, m, root) == []
    ensures OfferAll(kind, k, OfferAll(kind, k, [], Offered(userRatings, pages[..j], item, m, root)),
                     Scored(userRatings, WhoRated(pages[j], item), m, root))
         == OfferAll(kind, k, [], Offered(userRatings, pages[..j + 1], item, m, root))
  {
    FlattenStep(pages, j);
    var done := WhoRated(Flatten(pages[..j]), item);
    var chunk := WhoRated(pages[j], item);
    var rest := WhoRated(Flatten(pages[j + 1..]), item);
    WhoRatedAppend(Flatten(pages[..j]), pages[j], item);
    WhoRatedAppend(pages[j], Flatten(pages[j + 1..]), item);
    ScoredAppend(userRatings, done, chunk, m, root);
    ScoredAppend(userRatings, chunk, rest, m, root);
    OfferAllAppend(kind, k, [], Scored(userRatings, done, m, root), Scored(userRatings, chunk, m, root));
  }

  /**
   * After `j` pages the heap holds the candidates of those pages, and a heap
   * with k = 0 has been offered none, and will be offered none.
   */
  ghost predicate Progress<U, I>(knn: Heaps.Knn<U, I>, pages: seq<seq<(U, map<I, real>)>>, j: nat, userRatings: map<I, real>,
                                 item: Option<I>, root: Root)
    requires knn.metric.Allowed() && j <= |pages|
    reads knn
  {
    && (knn.k >= 1 || Offered(userRatings, pages[..j], item, knn.metric, root) == [])
    && (knn.k >= 1 || Offered(userRatings, pages[j..], item, knn.metric, root) == [])
    && knn.heap == OfferAll(knn.kind, knn.k, [], Offered(userRatings, pages[..j], item, knn.metric, root))
  }

  /** One turn of the `for` loop: read the next page and, when there is one, hand it to `update`. */
  method Advance<U, I(==)>(knn: Heaps.Knn<U, I>, pager: LazyChunks<(U, map<I, real>)>, userRatings: map<I, real>,
                           item: Option<I>, root: Root, ghost pages: seq<seq<(U, map<I, real>)>>, ghost j: nat)
    returns (more: bool)
    requires knn.metric.Allowed() && knn.Valid()
    requires pages == if pager.paged && pager.chunkSize > 0 then Chunks(pager.rows, pager.chunkSize) else []
    requires pager.offset == j * pager.chunkSize && j <= |pages|
    requires Progress(knn, pages, j, userRatings, item, root)
    modifies knn, pager
    ensures knn.Valid()
    ensures pager.offset == (j + 1) * pager.chunkSize
    ensures more ==> j < |pages| && Progress(knn, pages, j + 1, userRatings, item, root)
    ensures !more ==> j == |pages| && knn.heap == old(knn.heap)
  {
    var page := pager.Next();
    assert pager.offset == (j + 1) * pager.chunkSize;
    if pager.paged && pager.chunkSize > 0 {
      PageIsChunk(pager.rows, pager.chunkSize, j);
    }
    if page.None? {
      return false;
    }
    assert page.value == pages[j];
    PageStep(knn.kind, knn.k, pages, j, userRatings, item, knn.metric, root);
    ghost var before := knn.heap;
    knn.Update(userRatings, WhoRated(page.value, item), root);
    assert knn.heap == OfferAll(knn.kind, knn.k, before, Scored(userRatings, WhoRated(pages[j], item), knn.metric, root));
    return true;
  }

  /**
   * The `for users in users_chunks` loop: page after page of the controller's
   * users, each (filtered when `item` is given) handed to `update`.
   */
  method UpdateByPages<U, I(==)>(knn: Heaps.Knn<U, I>, store: Store<U, I>, userRatings: map<I, real>, size: nat,
                                 item: Option<I>, root: Root)
    requires knn.metric.Allowed() && knn.Valid() && knn.heap == []
    requires knn.k >= 1 || Scored(userRatings, PagedCandidates(store, size, item), knn.metric, root) == []
    modifies knn
    ensures knn.Valid()
    ensures knn.heap == OfferAll(knn.kind, knn.k, [], Scored(userRatings, PagedCandidates(store, size, item), knn.metric, root))
  {
    var pager := new LazyChunks(store.users, store.paged, size);
    ghost var live := store.paged && size > 0;
    ghost var pages := if live then Chunks(store.users, size) else [];
    ghost var j := 0;
    if live {
      FlattenChunks(store.users, size);
    }
    assert Offered(userRatings, pages, item, knn.metric, root) == Scored(userRatings, PagedCandidates(store, size, item), knn.metric, root);
    assert pages[0..] == pages;
    assert Offered(userRatings, pages[..0], item, knn.metric, root) == [] by {
      assert pages[..0] == [];
    }
    while true
      invariant fresh(pager)
      invariant pager.rows == store.users && pager.paged == store.paged && pager.chunkSize == size
      invariant pager.offset == j * size && j <= |pages|
      invariant knn.Valid() && Progress(knn, pages, j, userRatings, item, root)
      decreases |pages| - j
    {
      var more := Advance(knn, pager, userRatings, item, root, pages, j);
      if !more {
        break;
      }
      j := j + 1;
    }
    assert pages[..j] == pages;
  }

  /** The k entries the heap keeps once every candidate has been offered. */
  ghost function Kept<U, I>(store: Store<U, I>, k: nat, user: U, m: Live.Method, chunkSize: Option<nat>, item: Option<I>, root: Root): seq<MapedDistance<U, map<I, real>>>
    requires m.Allowed()
    requires k >= 1 || Scored(RatingsBy(store.users, user), Candidates(store, user, chunkSize, item), m, root) == []
  {
    OfferAll(KindFor(m), k, [], Scored(RatingsBy(store.users, user), Candidates(store, user, chunkSize, item), m, root))
  }

  /** The heap of a new `Knn` after the scan: the update of one page or one whole listing. */
  method Scan<U(==), I(==)>(store: Store<U, I>, k: nat, user: U, m: Live.Method, chunkSize: Option<nat>, item: Option<I>, root: Root)
    returns (knn: Heaps.Knn<U, I>)
    requires m.Allowed()
    requires k >= 1 || Scored(RatingsBy(store.users, user), Candidates(store, user, chunkSize, item), m, root) == []
    ensures knn.kind == KindFor(m) && knn.Valid()
    ensures knn.heap == Kept(store, k, user, m, chunkSize, item, root)
  {
    var userRatings := RatingsBy(store.users, user);
    knn := new Heaps.Knn(KindFor(m), k, m);
    match chunkSize
    case Some(size) =>
      UpdateByPages(knn, store, userRatings, size, item, root);
    case None =>
      knn.Update(userRatings, WhoRated(MapedRatingsExcept(store.users, user), item), root);
  }

  /** The ids and distances of the neighbours, in order. */
  function Neighbours<U, R>(kept: seq<MapedDistance<U, R>>): (r: seq<(U, real)>)
    ensures |r| == |kept|
    ensures forall i :: 0 <= i < |r| ==> r[i] == (kept[i].id, kept[i].distance)
  {
    seq(|kept|, i requires 0 <= i < |kept| => (kept[i].id, kept[i].distance))
  }

  /** What `user_knn` returns. */
  ghost function UserKnnOf<U, I>(store: Store<U, I>, k: nat, user: U, m: Live.Method, chunkSize: Option<nat>, root: Root): Result<seq<(U, real)>, ErrorKind>
    requires m.Allowed()
  {
    if k == 0 then Err(EmptyKNearestNeighbors)
    else
      var kept := Kept(store, k, user, m, chunkSize, None, root);
      if kept == [] then Err(EmptyKNearestNeighbors)
      else Ok(Neighbours(SortedBestFirst(KindFor(m), kept)))
  }

  /**
   * `user_knn`: reject k = 0, scan the users into the heap, hand out its
   * entries best first, and report an empty result as an error.
   */
  method UserKnn<U(==), I(==)>(store: Store<U, I>, k: nat, user: U, m: Live.Method, chunkSize: Option<nat>, root: Root)
    returns (r: Result<seq<(U, real)>, ErrorKind>)
    requires m.Allowed()
    ensures r == UserKnnOf(store, k, user, m, chunkSize, root)
  {
    if k == 0 {
      return Err(EmptyKNearestNeighbors);
    }
    var knn := Scan(store, k, user, m, chunkSize, None, root);
    var v := knn.IntoVec();
    if v == [] {
      assert multiset(knn.heap) == multiset{};
      r := Err(EmptyKNearestNeighbors);
    } else {
      assert knn.heap != [];
      r := Ok(Neighbours(v));
    }
  }

  /**
   * The neighbours `user_knn` returns: min(k, n) of the n users whose
   * distance could be computed, best first, none of them beaten by a user
   * left out; an error exactly when k = 0 or no distance could be computed.
   */
  lemma UserKnnSelects<U, I>(store: Store<U, I>, k: nat, user: U, m: Live.Method, chunkSize: Option<nat>, root: Root)
    requires m.Allowed()
    ensures var scored := Scored(RatingsBy(store.users, user), Candidates(store, user, chunkSize, None), m, root);
      var r := UserKnnOf(store, k, user, m, chunkSize, root);
      && (r.Err? <==> k == 0 || scored == [])
      && (r.Err? ==> r.error == EmptyKNearestNeighbors)
      && (r.Ok? ==> |r.value| == if |scored| < k then |scored| else k)
      && (r.Ok? ==> forall i, j :: 0 <= i < j < |r.value| ==> AtLeastAsGood(KindFor(m), r.value[i].1, r.value[j].1))
      && (r.Ok? ==> forall i :: 0 <= i < |r.value| ==> r.value[i] in Neighbours(scored))
      && (r.Ok? ==> forall c, i :: c in scored && 0 <= i < |r.value| && (c.id, c.distance) !in r.value ==>
                      AtLeastAsGood(KindFor(m), r.value[i].1, c.distance))
  {
    if k >= 1 {
      var scored := Scored(RatingsBy(store.users, user), Candidates(store, user, chunkSize, None), m, root);
      TopK(KindFor(m), k, scored);
      var kept := Kept(store, k, user, m, chunkSize, None, root);
      var sorted := SortedBestFirst(KindFor(m), kept);
      assert |sorted| == |kept| by {
        assert |multiset(sorted)| == |multiset(kept)|;
      }
      var r := Neighbours(sorted);
      SortedKeptFrom(KindFor(m), k, scored);
      NeighboursFrom(sorted, scored, r);
      NeighboursBest(KindFor(m), sorted, kept, scored, r);
    }
  }

  /** Neighbours of entries drawn from `cs` are among the neighbours of `cs`. */
  lemma NeighboursFrom<U, R>(sorted: seq<MapedDistance<U, R>>, cs: seq<MapedDistance<U, R>>, ns: seq<(U, real)>)
    requires (forall x :: x in sorted ==> x in cs) && ns == Neighbours(sorted)
    ensures forall i :: 0 <= i < |ns| ==> ns[i] in Neighbours(cs)
  {
    var all := Neighbours(cs);
    forall i | 0 <= i < |ns|
      ensures ns[i] in all
    {
      assert sorted[i] in sorted;
      var j :| 0 <= j < |cs| && cs[j] == sorted[i];
      assert all[j] == ns[i];
    }
  }

  /**
   * A candidate whose id and distance are not among the neighbours was left
   * out of the selection, so every neighbour is at least as good as it.
   */
  lemma NeighboursBest<U, R>(kind: Kind, sorted: seq<MapedDistance<U, R>>, kept: seq<MapedDistance<U, R>>,
                             cs: seq<MapedDistance<U, R>>, ns: seq<(U, real)>)
    requires multiset(sorted) == multiset(kept) && ns == Neighbours(sorted)
    requires forall x, y :: x in multiset(kept) && y in multiset(cs) - multiset(kept) ==> AtLeastAsGood(kind, x.distance, y.distance)
    ensures forall c, i :: c in cs && 0 <= i < |ns| && (c.id, c.distance) !in ns ==> AtLeastAsGood(kind, ns[i].1, c.distance)
  {
    forall c, i | c in cs && 0 <= i < |ns| && (c.id, c.distance) !in ns
      ensures AtLeastAsGood(kind, ns[i].1, c.distance)
    {
      NotNeighbour(sorted, c);
      assert c in multiset(cs) - multiset(kept);
      assert sorted[i] in multiset(kept);
    }
  }

  /** An entry whose id and distance are not among the neighbours is not an entry. */
  lemma NotNeighbour<U, R>(sorted: seq<MapedDistance<U, R>>, c: MapedDistance<U, R>)
    requires (c.id, c.distance) !in Neighbours(sorted)
    ensures c !in multiset(sorted)
  {
  }

  /** Each neighbour `user_knn` returns is another user when no chunk size is given. */
  lemma UserKnnExcludesQuery<U, I>(store: Store<U, I>, k: nat, user: U, m: Live.Method, root: Root)
    requires m.Allowed()
    ensures var r := UserKnnOf(store, k, user, m, None, root);
      r.Ok? ==> forall i :: 0 <= i < |r.value| ==> r.value[i].0 != user
  {
    if k >= 1 {
      var candidates := Candidates(store, user, None, None);
      var scored := Scored(RatingsBy(store.users, user), candidates, m, root);
      var sorted := SortedBestFirst(KindFor(m), Kept(store, k, user, m, None, None, root));
      SortedKeptFrom(KindFor(m), k, scored);
      ScoredSound(RatingsBy(store.users, user), candidates, m, root);
      CandidatesOf(store, user, 0, None);
      forall i | 0 <= i < |sorted|
        ensures sorted[i].id != user
      {
        assert sorted[i] in scored;
        assert (sorted[i].id, sorted[i].ratings.value) in candidates;
      }
    }
  }

  // ---------------------------------------------------------------------------
  // user_based_predict

  /**
   * The `filter_map` of `user_based_predict`: for each neighbour, best first,
   * that rated the item and whose Pearson approximation with the query user
   * can be computed, that coefficient and the neighbour's rating of the item.
   */
  ghost function WeightsOf<U, I>(userRatings: map<I, real>, nns: seq<MapedDistance<U, map<I, real>>>, item: I, root: Root): (ws: seq<(real, real)>)
    ensures |ws| <= |nns|
  {
    if nns == [] then []
    else
      var init := WeightsOf(userRatings, nns[..|nns| - 1], item, root);
      var nn := nns[|nns| - 1];
      if nn.ratings.Some? && item in nn.ratings.value then
        match Live.DistanceValue(userRatings, nn.ratings.value, Live.PearsonApproximation, root)
        case Ok(coef) => init + [(coef, nn.ratings.value[item])]
        case Err(_) => init
      else init
  }

  /** Each weight belongs to a neighbour who rated the item: its Pearson approximation and its rating. */
  lemma {:induction false} WeightsFromRaters<U, I>(userRatings: map<I, real>, nns: seq<MapedDistance<U, map<I, real>>>, item: I, root: Root)
    ensures forall w :: w in WeightsOf(userRatings, nns, item, root) ==>
      exists nn :: nn in nns && nn.ratings.Some? && item in nn.ratings.value && w.1 == nn.ratings.value[item]
        && Live.DistanceValue(userRatings, nn.ratings.value, Live.PearsonApproximation, root) == Ok(w.0)
    decreases |nns|
  {
    if nns != [] {
      var init := nns[..|nns| - 1];
      WeightsFromRaters(userRatings, init, item, root);
      var last := nns[|nns| - 1];
      assert nns == init + [last];
      assert forall nn :: nn in init ==> nn in nns;
    }
  }

  /** The loop that builds the weights. */
  method PearsonWeights<U, I(==)>(userRatings: map<I, real>, nns: seq<MapedDistance<U, map<I, real>>>, item: I, root: Root)
    returns (ws: seq<(real, real)>)
    ensures ws == WeightsOf(userRatings, nns, item, root)
  {
    ws := [];
    var i := 0;
    while i < |nns|
      invariant 0 <= i <= |nns|
      invariant ws == WeightsOf(userRatings, nns[..i], item, root)
    {
      assert nns[..i + 1][..i] == nns[..i];
      var nn := nns[i];
      if nn.ratings.Some? && item in nn.ratings.value {
        var coef := Live.Distance(userRatings, nn.ratings.value, Live.PearsonApproximation, root);
        if coef.Ok? {
          ws := ws + [(coef.value, nn.ratings.value[item])];
        }
      }
      i := i + 1;
    }
    assert nns[..i] == nns;
  }

  /** `total`: the sum of the coefficients. */
  function TotalWeight(ws: seq<(real, real)>): real {
    if ws == [] then 0.0 else TotalWeight(ws[..|ws| - 1]) + ws[|ws| - 1].0
  }

  /** One neighbour's part of the prediction: its rating times its share of the total weight. */
  function Share(rating: real, w: real, total: real): real
    requires total != 0.0
  {
    rating * Quotient(w, total)
  }

  /** Σ rating · (w / total). */
  function WeightedSum(ws: seq<(real, real)>, total: real): real
    requires total != 0.0
  {
    if ws == [] then 0.0 else WeightedSum(ws[..|ws| - 1], total) + Share(ws[|ws| - 1].1, ws[|ws| - 1].0, total)
  }

  /** The running prediction after some neighbours: non-finite as soon as the total weight is zero. */
  function Partial(ws: seq<(real, real)>, total: real): Float {
    if total == 0.0 then NonFinite else Finite(WeightedSum(ws, total))
  }

  /**
   * What `user_based_predict` returns for its weights: no weight is an error;
   * otherwise Σ r·(w/Σw), which is not a number when Σw = 0.
   */
  function PredictionOf(ws: seq<(real, real)>): Result<Float, ErrorKind> {
    if ws == [] then Err(EmptyKNearestNeighbors) else Ok(Partial(ws, TotalWeight(ws)))
  }

  /** IEEE addition, where a non-finite operand gives a non-finite sum. */
  function Plus(a: Float, b: Float): Float {
    if a.Finite? && b.Finite? then Finite(a.value + b.value) else NonFinite
  }

  /** IEEE multiplication by a finite rating. */
  function Scale(r: real, f: Float): Float {
    if f.Finite? then Finite(r * f.value) else NonFinite
  }

  /** The closing loop: `*prediction.get_or_insert(0.0) += rating * (coef / total)`. */
  method Predict(ws: seq<(real, real)>) returns (r: Result<Float, ErrorKind>)
    ensures r == PredictionOf(ws)
  {
    var total := TotalWeight(ws);
    var prediction: Option<Float> := None;
    var i := 0;
    while i < |ws|
      invariant 0 <= i <= |ws|
      invariant prediction == if i == 0 then None else Some(Partial(ws[..i], total))
    {
      assert ws[..i + 1][..i] == ws[..i];
      var w, rating := ws[i].0, ws[i].1;
      if total != 0.0 {
        QuotientUnique(FloatDiv(w, total).value, w, total);
      }
      var acc := prediction.UnwrapOr(Finite(0.0));
      assert total != 0.0 ==> acc == Finite(WeightedSum(ws[..i], total)) by {
        if i == 0 {
          assert ws[..i] == [];
        }
      }
      prediction := Some(Plus(acc, Scale(rating, FloatDiv(w, total))));
      assert total != 0.0 ==> prediction.value == Finite(WeightedSum(ws[..i], total) + Share(rating, w, total));
      i := i + 1;
    }
    assert ws[..i] == ws;
    r := if prediction.None? then Err(EmptyKNearestNeighbors) else Ok(prediction.value);
  }

  /** What `user_based_predict` returns. */
  ghost function UserPredictionOf<U, I>(store: Store<U, I>, k: nat, user: U, item: I, m: Live.Method, chunkSize: Option<nat>, root: Root): Result<Float, ErrorKind>
    requires m.Allowed()
    requires k >= 1 || Scored(RatingsBy(store.users, user), Candidates(store, user, chunkSize, Some(item)), m, root) == []
  {
    var nns := SortedBestFirst(KindFor(m), Kept(store, k, user, m, chunkSize, Some(item), root));
    PredictionOf(WeightsOf(RatingsBy(store.users, user), nns, item, root))
  }

  /**
   * `user_based_predict`: the k nearest users among those who rated the
   * item, re-weighted by their Pearson approximation with the query user,
   * whatever metric chose them. With k = 0 the source's `update` fails as
   * soon as one candidate has a valid distance.
   */
  method UserBasedPredict<U(==), I(==)>(store: Store<U, I>, k: nat, user: U, item: I, m: Live.Method, chunkSize: Option<nat>, root: Root)
    returns (r: Result<Float, ErrorKind>)
    requires m.Allowed()
    requires k >= 1 || Scored(RatingsBy(store.users, user), Candidates(store, user, chunkSize, Some(item)), m, root) == []
    ensures r == UserPredictionOf(store, k, user, item, m, chunkSize, root)
  {
    var knn := Scan(store, k, user, m, chunkSize, Some(item), root);
    var nns := knn.IntoVec();
    var ws := PearsonWeights(RatingsBy(store.users, user), nns, item, root);
    r := Predict(ws);
  }

  /** Every total is a sum of quotients of the same denominator. */
  lemma {:induction false} WeightedSumConstant(ws: seq<(real, real)>, total: real, c: real)
    requires total != 0.0
    requires forall i :: 0 <= i < |ws| ==> ws[i].1 == c
    ensures WeightedSum(ws, total) == c * Quotient(TotalWeight(ws), total)
    decreases |ws|
  {
    if ws == [] {
      QuotientUnique(0.0, 0.0, total);
    } else {
      var init := ws[..|ws| - 1];
      WeightedSumConstant(init, total, c);
      QuotientAdds(TotalWeight(init), ws[|ws| - 1].0, total);
    }
  }

  lemma QuotientAdds(a: real, b: real, t: real)
    requires t != 0.0
    ensures Quotient(a, t) + Quotient(b, t) == Quotient(a + b, t)
  {
    QuotientUnique(Quotient(a, t) + Quotient(b, t), a + b, t);
  }

  /** When every neighbour gave the item the same rating and the weights do not cancel out, that rating is predicted. */
  lemma PredictionOfConstant(ws: seq<(real, real)>, c: real)
    requires ws != [] && TotalWeight(ws) != 0.0
    requires forall i :: 0 <= i < |ws| ==> ws[i].1 == c
    ensures PredictionOf(ws) == Ok(Finite(c))
  {
    var total := TotalWeight(ws);
    WeightedSumConstant(ws, total, c);
    QuotientUnique(1.0, total, total);
    TimesOne(WeightedSum(ws, total), c, Quotient(total, total));
  }

  lemma TimesOne(w: real, c: real, q: real)
    requires w == c * q && q == 1.0
    ensures w == c
  {
  }

  /** Weights that cancel out leave a prediction that is not a number, and no error is reported. */
  lemma PredictionUnguarded(ws: seq<(real, real)>)
    requires ws != [] && TotalWeight(ws) == 0.0
    ensures PredictionOf(ws) == Ok(NonFinite)
  {
  }

  /** A single neighbour whose Pearson approximation is 0 makes the prediction not a number. */
  lemma UnguardedExample()
    ensures PredictionOf([(0.0, 4.0)]) == Ok(NonFinite)
  {
    assert [(0.0, 4.0)][..0] == [];
  }

  /** The prediction with the zero total reported as `DivisionByZero`, as the item-based predictors do. */
  function GuardedPredictionOf(ws: seq<(real, real)>): (r: Result<real, ErrorKind>)
    ensures r.Ok? <==> ws != [] && TotalWeight(ws) != 0.0
  {
    if ws == [] then Err(EmptyKNearestNeighbors)
    else if TotalWeight(ws) == 0.0 then Err(DivisionByZero)
    else Ok(WeightedSum(ws, TotalWeight(ws)))
  }

  /** The guarded closing loop. */
  method GuardedPredict(ws: seq<(real, real)>) returns (r: Result<real, ErrorKind>)
    ensures r == GuardedPredictionOf(ws)
  {
    if ws == [] {
      return Err(EmptyKNearestNeighbors);
    }
    var total := TotalWeight(ws);
    if total == 0.0 {
      return Err(DivisionByZero);
    }
    var prediction := 0.0;
    var i := 0;
    while i < |ws|
      invariant 0 <= i <= |ws|
      invariant prediction == WeightedSum(ws[..i], total)
    {
      assert ws[..i + 1][..i] == ws[..i];
      prediction := prediction + Share(ws[i].1, ws[i].0, total);
      i := i + 1;
    }
    assert ws[..i] == ws;
    r := Ok(prediction);
  }

  /** The guarded prediction is a finite weighted mean: a common rating is predicted exactly. */
  lemma GuardedPredictionOfConstant(ws: seq<(real, real)>, c: real)
    requires forall i :: 0 <= i < |ws| ==> ws[i].1 == c
    ensures GuardedPredictionOf(ws).Ok? ==> GuardedPredictionOf(ws).value == c
    ensures ws != [] && TotalWeight(ws) == 0.0 ==> GuardedPredictionOf(ws) == Err(DivisionByZero)
  {
    if ws != [] && TotalWeight(ws) != 0.0 {
      PredictionOfConstant(ws, c);
    }
  }

  /**
   * The corrected prediction differs from the one as written only where that
   * one is not a number: there it reports `DivisionByZero` instead.
   */
  lemma GuardedAgrees(ws: seq<(real, real)>)
    ensures PredictionOf(ws).Err? ==> GuardedPredictionOf(ws) == Err(PredictionOf(ws).error)
    ensures PredictionOf(ws) == Ok(NonFinite) ==> GuardedPredictionOf(ws) == Err(DivisionByZero)
    ensures PredictionOf(ws).Ok? && PredictionOf(ws).value.Finite? ==>
              GuardedPredictionOf(ws) == Ok(PredictionOf(ws).value.value)
  {
  }

  /** `user_based_predict` with the corrected closing loop. */
  ghost function GuardedUserPredictionOf<U, I>(store: Store<U, I>, k: nat, user: U, item: I, m: Live.Method, chunkSize: Option<nat>, root: Root): Result<real, ErrorKind>
    requires m.Allowed()
    requires k >= 1 || Scored(RatingsBy(store.users, user), Candidates(store, user, chunkSize, Some(item)), m, root) == []
  {
    var nns := SortedBestFirst(KindFor(m), Kept(store, k, user, m, chunkSize, Some(item), root));
    GuardedPredictionOf(WeightsOf(RatingsBy(store.users, user), nns, item, root))
  }

  /**
   * The corrected `user_based_predict`: the same neighbours and weights, and
   * an error instead of a non-finite prediction; it always yields a finite
   * value, which matches the prediction as written whenever that is finite.
   */
  method GuardedUserBasedPredict<U(==), I(==)>(store: Store<U, I>, k: nat, user: U, item: I, m: Live.Method, chunkSize: Option<nat>, root: Root)
    returns (r: Result<real, ErrorKind>)
    requires m.Allowed()
    requires k >= 1 || Scored(RatingsBy(store.users, user), Candidates(store, user, chunkSize, Some(item)), m, root) == []
    ensures r == GuardedUserPredictionOf(store, k, user, item, m, chunkSize, root)
    ensures r.Ok? <==> UserPredictionOf(store, k, user, item, m, chunkSize, root).Ok?
                        && UserPredictionOf(store, k, user, item, m, chunkSize, root).value.Finite?
    ensures r.Ok? ==> r.value == UserPredictionOf(store, k, user, item, m, chunkSize, root).value.value
  {
    var knn := Scan(store, k, user, m, chunkSize, Some(item), root);
    var nns := knn.IntoVec();
    var ws := PearsonWeights(RatingsBy(store.users, user), nns, item, root);
    GuardedAgrees(ws);
    r := GuardedPredict(ws);
  }
}
