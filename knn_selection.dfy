/**
 * The bounded selection both k-nearest-neighbour heaps perform, as a left fold
 * over the scored candidates. `MaxHeapKnn` keeps the k smallest distances and
 * evicts its maximum; `MinHeapKnn` keeps the k largest similarities and evicts
 * its minimum. The heap is a sequence here: what matters is which entries it
 * holds, and `into_sorted_vec` fixes the order in which they come out.
 */
module KnnSelection {
  import opened Wrappers
  import opened Reals
  import opened EngineErrors
  import opened MapedDistances
  import Live = UserDistances

  /** Which of the two heaps: distances (keep the smallest) or similarities (keep the largest). */
  datatype Kind = MaxHeap | MinHeap

  /** `x` is strictly preferred to `y`: smaller for a max-heap, larger for a min-heap. */
  predicate Better(kind: Kind, x: real, y: real) {
    if kind.MaxHeap? then x < y else x > y
  }

  /** `x` is at least as good as `y`. */
  predicate AtLeastAsGood(kind: Kind, x: real, y: real) {
    !Better(kind, y, x)
  }

  /** The preference is a total preorder: two values always compare, and it chains. */
  lemma PreferenceTotal(kind: Kind, x: real, y: real, z: real)
    ensures AtLeastAsGood(kind, x, y) || AtLeastAsGood(kind, y, x)
    ensures AtLeastAsGood(kind, x, y) && AtLeastAsGood(kind, y, z) ==> AtLeastAsGood(kind, x, z)
    ensures Better(kind, x, y) <==> !AtLeastAsGood(kind, y, x)
  {
  }

  /**
   * The entry `peek` returns: the root of the heap, whose distance is the
   * largest (max-heap) or the smallest (min-heap). Among several entries at
   * that distance the heap's layout decides which one is the root; the model
   * takes the earliest.
   */
  function WorstIndex<U, R>(kind: Kind, heap: seq<MapedDistance<U, R>>): (i: nat)
    requires |heap| > 0
    ensures i < |heap|
    ensures forall j :: 0 <= j < |heap| ==> AtLeastAsGood(kind, heap[j].distance, heap[i].distance)
  {
    if |heap| == 1 then 0
    else
      var i := WorstIndex(kind, heap[..|heap| - 1]);
      if Better(kind, heap[i].distance, heap[|heap| - 1].distance) then |heap| - 1 else i
  }

  /** `pop`: the heap without the entry at `i`. */
  function RemoveAt<T>(s: seq<T>, i: nat): (r: seq<T>)
    requires i < |s|
    ensures |r| == |s| - 1
    ensures multiset(r) == multiset(s) - multiset{s[i]}
  {
    assert s == s[..i] + [s[i]] + s[i + 1..];
    s[..i] + s[i + 1..]
  }

  /**
   * One candidate with a valid distance: pushed while the heap holds fewer
   * than k entries; otherwise it replaces the worst entry when it is strictly
   * better, and is dropped when it is not. With k = 0 the source's `peek`
   * of the empty heap fails, hence `k >= 1`.
   */
  function Offer<U, R>(kind: Kind, k: nat, heap: seq<MapedDistance<U, R>>, c: MapedDistance<U, R>): seq<MapedDistance<U, R>>
    requires k >= 1
  {
    if |heap| < k then heap + [c]
    else
      var w := WorstIndex(kind, heap);
      if Better(kind, c.distance, heap[w].distance) then RemoveAt(heap, w) + [c] else heap
  }

  /** `update`'s loop: each candidate in turn, first to last. */
  function OfferAll<U, R>(kind: Kind, k: nat, heap: seq<MapedDistance<U, R>>, cs: seq<MapedDistance<U, R>>): seq<MapedDistance<U, R>>
    requires k >= 1 || cs == []
  {
    if cs == [] then heap
    else Offer(kind, k, OfferAll(kind, k, heap, cs[..|cs| - 1]), cs[|cs| - 1])
  }

  /**
   * The candidates of a chunk whose distance to the query user could be
   * computed, in chunk order, each carrying its ratings. The ones whose
   * distance fails are skipped.
   */
  ghost function Scored<U, I>(user: map<I, real>, chunk: seq<(U, map<I, real>)>, m: Live.Method, root: Root): (s: seq<MapedDistance<U, map<I, real>>>)
    requires m.Allowed()
    ensures |s| <= |chunk|
  {
    if chunk == [] then []
    else
      var init := Scored(user, chunk[..|chunk| - 1], m, root);
      var (id, ratings) := chunk[|chunk| - 1];
      match Live.DistanceValue(user, ratings, m, root)
      case Ok(d) => init + [MapedDistance(id, d, Some(ratings))]
      case Err(_) => init
  }

  /** Every scored candidate comes from the chunk, with the distance computed for it. */
  lemma {:induction false} ScoredSound<U, I>(user: map<I, real>, chunk: seq<(U, map<I, real>)>, m: Live.Method, root: Root)
    requires m.Allowed()
    ensures forall x :: x in Scored(user, chunk, m, root) ==>
      x.ratings.Some? && (x.id, x.ratings.value) in chunk && Live.DistanceValue(user, x.ratings.value, m, root) == Ok(x.distance)
    decreases |chunk|
  {
    if chunk != [] {
      var init := chunk[..|chunk| - 1];
      ScoredSound(user, init, m, root);
      var last := chunk[|chunk| - 1];
      assert chunk == init + [last];
      assert forall p :: p in init ==> p in chunk;
      assert (last.0, last.1) in chunk;
    }
  }

  /** Every entry of the chunk whose distance can be computed is scored; only the failures are skipped. */
  lemma {:induction false} ScoredComplete<U, I>(user: map<I, real>, chunk: seq<(U, map<I, real>)>, m: Live.Method, root: Root)
    requires m.Allowed()
    ensures forall j :: 0 <= j < |chunk| && Live.DistanceValue(user, chunk[j].1, m, root).Ok? ==>
      MapedDistance(chunk[j].0, Live.DistanceValue(user, chunk[j].1, m, root).value, Some(chunk[j].1)) in Scored(user, chunk, m, root)
    decreases |chunk|
  {
    if chunk != [] {
      var n := |chunk| - 1;
      var init := chunk[..n];
      ScoredComplete(user, init, m, root);
      ScoredStep(user, chunk, n, m, root, Live.DistanceValue(user, chunk[n].1, m, root));
      assert chunk[..n + 1] == chunk;
      forall j | 0 <= j < |chunk| && Live.DistanceValue(user, chunk[j].1, m, root).Ok?
        ensures MapedDistance(chunk[j].0, Live.DistanceValue(user, chunk[j].1, m, root).value, Some(chunk[j].1)) in Scored(user, chunk, m, root)
      {
        if j < n {
          assert init[j] == chunk[j];
        }
      }
    }
  }

  /** A chunk in which every distance fails leaves nothing to offer. */
  lemma {:induction false} ScoredSkipsFailures<U, I>(user: map<I, real>, chunk: seq<(U, map<I, real>)>, m: Live.Method, root: Root)
    requires m.Allowed()
    requires forall j :: 0 <= j < |chunk| ==> Live.DistanceValue(user, chunk[j].1, m, root).Err?
    ensures Scored(user, chunk, m, root) == []
    decreases |chunk|
  {
    if chunk != [] {
      var init := chunk[..|chunk| - 1];
      assert forall j :: 0 <= j < |init| ==> init[j] == chunk[j];
      ScoredSkipsFailures(user, init, m, root);
    }
  }

  /** Scoring one more entry of the chunk appends it when its distance `r` can be computed. */
  lemma ScoredStep<U, I>(user: map<I, real>, chunk: seq<(U, map<I, real>)>, i: nat, m: Live.Method, root: Root, r: Result<real, ErrorKind>)
    requires m.Allowed() && i < |chunk|
    requires r == Live.DistanceValue(user, chunk[i].1, m, root)
    ensures Scored(user, chunk[..i + 1], m, root) ==
      if r.Ok? then Scored(user, chunk[..i], m, root) + [MapedDistance(chunk[i].0, r.value, Some(chunk[i].1))]
      else Scored(user, chunk[..i], m, root)
  {
    assert chunk[..i + 1][..i] == chunk[..i];
    assert chunk[..i + 1][i] == chunk[i];
  }

  /** One entry with a computable distance makes the chunk's scored candidates non-empty. */
  lemma ScoredHasValid<U, I>(user: map<I, real>, chunk: seq<(U, map<I, real>)>, i: nat, m: Live.Method, root: Root)
    requires m.Allowed() && i < |chunk|
    requires Live.DistanceValue(user, chunk[i].1, m, root).Ok?
    ensures Scored(user, chunk, m, root) != []
  {
    ScoredComplete(user, chunk, m, root);
  }

  /** Appending one element after a concatenation. */
  lemma AppendOne<T>(a: seq<T>, b: seq<T>, c: T)
    ensures a + b + [c] == a + (b + [c])
  {
  }

  /** Offering one more candidate is one more `Offer`. */
  lemma OfferAllStep<U, R>(kind: Kind, k: nat, heap: seq<MapedDistance<U, R>>, cs: seq<MapedDistance<U, R>>, c: MapedDistance<U, R>)
    requires k >= 1
    ensures OfferAll(kind, k, heap, cs + [c]) == Offer(kind, k, OfferAll(kind, k, heap, cs), c)
  {
    assert (cs + [c])[..|cs|] == cs;
  }

  /** Scoring a concatenation scores the two chunks one after the other. */
  lemma {:induction false} ScoredAppend<U, I>(user: map<I, real>, c1: seq<(U, map<I, real>)>, c2: seq<(U, map<I, real>)>, m: Live.Method, root: Root)
    requires m.Allowed()
    ensures Scored(user, c1 + c2, m, root) == Scored(user, c1, m, root) + Scored(user, c2, m, root)
    decreases |c2|
  {
    if c2 != [] {
      var init := c2[..|c2| - 1];
      assert (c1 + c2)[..|c1 + c2| - 1] == c1 + init;
      assert (c1 + c2)[|c1 + c2| - 1] == c2[|c2| - 1];
      ScoredAppend(user, c1, init, m, root);
    } else {
      assert c1 + c2 == c1;
    }
  }

  /** Offering a concatenation offers the first part, then the second: two `update` calls are one. */
  lemma {:induction false} OfferAllAppend<U, R>(kind: Kind, k: nat, heap: seq<MapedDistance<U, R>>, c1: seq<MapedDistance<U, R>>, c2: seq<MapedDistance<U, R>>)
    requires k >= 1 || c1 + c2 == []
    ensures OfferAll(kind, k, heap, c1 + c2) == OfferAll(kind, k, OfferAll(kind, k, heap, c1), c2)
    decreases |c2|
  {
    if c2 != [] {
      var init := c2[..|c2| - 1];
      assert (c1 + c2)[..|c1 + c2| - 1] == c1 + init;
      assert (c1 + c2)[|c1 + c2| - 1] == c2[|c2| - 1];
      OfferAllAppend(kind, k, heap, c1, init);
    } else {
      assert c1 + c2 == c1;
    }
  }

  /** Two `update` calls over two chunks leave the heap as one call over both chunks would. */
  lemma UpdatesCompose<U, I>(kind: Kind, k: nat, heap: seq<MapedDistance<U, map<I, real>>>, user: map<I, real>,
                             c1: seq<(U, map<I, real>)>, c2: seq<(U, map<I, real>)>, m: Live.Method, root: Root)
    requires m.Allowed() && k >= 1
    ensures OfferAll(kind, k, OfferAll(kind, k, heap, Scored(user, c1, m, root)), Scored(user, c2, m, root))
         == OfferAll(kind, k, heap, Scored(user, c1 + c2, m, root))
  {
    ScoredAppend(user, c1, c2, m, root);
    OfferAllAppend(kind, k, heap, Scored(user, c1, m, root), Scored(user, c2, m, root));
  }

  /** A heap within its bound grows by one per candidate until it holds k entries. */
  lemma {:induction false} OfferAllSize<U, R>(kind: Kind, k: nat, heap: seq<MapedDistance<U, R>>, cs: seq<MapedDistance<U, R>>)
    requires k >= 1 || cs == []
    requires |heap| <= k
    ensures |OfferAll(kind, k, heap, cs)| == if |heap| + |cs| < k then |heap| + |cs| else k
    decreases |cs|
  {
    if cs != [] {
      OfferAllSize(kind, k, heap, cs[..|cs| - 1]);
    }
  }

  /** A full heap is left as it is by a candidate that is not strictly better than its worst entry. */
  lemma FullHeapKeepsTies<U, R>(kind: Kind, k: nat, heap: seq<MapedDistance<U, R>>, c: MapedDistance<U, R>)
    requires k >= 1 && |heap| == k
    requires AtLeastAsGood(kind, heap[WorstIndex(kind, heap)].distance, c.distance)
    ensures Offer(kind, k, heap, c) == heap
  {
  }

  /** A strictly better candidate takes the place of the worst entry of a full heap. */
  lemma FullHeapReplacesWorst<U, R>(kind: Kind, k: nat, heap: seq<MapedDistance<U, R>>, c: MapedDistance<U, R>)
    requires k >= 1 && |heap| == k
    requires Better(kind, c.distance, heap[WorstIndex(kind, heap)].distance)
    ensures |Offer(kind, k, heap, c)| == k
    ensures multiset(Offer(kind, k, heap, c)) == multiset(heap) - multiset{heap[WorstIndex(kind, heap)]} + multiset{c}
  {
  }

  /**
   * `kept` is a selection of at most k entries of `seen`: all of them while
   * fewer than k have been seen, and each kept entry at least as good as each
   * entry of `seen` that was not kept.
   */
  ghost predicate Selects<U, R>(kind: Kind, k: nat, kept: seq<MapedDistance<U, R>>, seen: seq<MapedDistance<U, R>>) {
    && |kept| <= k
    && (|kept| < k ==> multiset(kept) == multiset(seen))
    && multiset(kept) <= multiset(seen)
    && forall x, y :: x in multiset(kept) && y in multiset(seen) - multiset(kept) ==>
         AtLeastAsGood(kind, x.distance, y.distance)
  }

  /** One offer keeps the selection the best of what has been seen. */
  lemma OfferSelects<U, R>(kind: Kind, k: nat, heap: seq<MapedDistance<U, R>>, seen: seq<MapedDistance<U, R>>, c: MapedDistance<U, R>)
    requires k >= 1
    requires Selects(kind, k, heap, seen)
    ensures Selects(kind, k, Offer(kind, k, heap, c), seen + [c])
  {
    assert multiset(seen + [c]) == multiset(seen) + multiset{c};
    if |heap| < k {
      assert multiset(heap + [c]) == multiset(heap) + multiset{c};
    } else if Better(kind, c.distance, heap[WorstIndex(kind, heap)].distance) {
      ReplaceSelects(kind, k, heap, seen, c);
    } else {
      DropSelects(kind, k, heap, seen, c);
    }
  }

  /** A full heap that takes `c` in place of its worst entry still selects the best. */
  lemma ReplaceSelects<U, R>(kind: Kind, k: nat, heap: seq<MapedDistance<U, R>>, seen: seq<MapedDistance<U, R>>, c: MapedDistance<U, R>)
    requires k >= 1 && |heap| == k
    requires Selects(kind, k, heap, seen)
    requires Better(kind, c.distance, heap[WorstIndex(kind, heap)].distance)
    ensures Selects(kind, k, RemoveAt(heap, WorstIndex(kind, heap)) + [c], seen + [c])
  {
    var worst := heap[WorstIndex(kind, heap)];
    var after := RemoveAt(heap, WorstIndex(kind, heap)) + [c];
    var all := multiset(seen + [c]);
    assert all == multiset(seen) + multiset{c};
    assert multiset(after) == multiset(heap) - multiset{worst} + multiset{c};
    ReplaceCounts(multiset(heap), multiset(seen), multiset(after), worst, c);
    forall x: MapedDistance<U, R>, y: MapedDistance<U, R> | x in multiset(after) && y in all - multiset(after)
      ensures AtLeastAsGood(kind, x.distance, y.distance)
    {
      ReplacePair(kind, k, heap, seen, c, x, y);
    }
  }

  /** The counting behind a replacement: the worst entry `w` leaves the kept multiset `h` and `c` joins it. */
  lemma ReplaceCounts<T>(h: multiset<T>, s: multiset<T>, after: multiset<T>, w: T, c: T)
    requires w in h && h <= s && after == h - multiset{w} + multiset{c}
    ensures after <= s + multiset{c}
    ensures forall x :: x in after ==> x == c || x in h
    ensures forall y :: y in (s + multiset{c}) - after ==> y == w || y in s - h
  {
  }

  /** The order between one entry of the new heap and one candidate left out of it. */
  lemma ReplacePair<U, R>(kind: Kind, k: nat, heap: seq<MapedDistance<U, R>>, seen: seq<MapedDistance<U, R>>,
                          c: MapedDistance<U, R>, x: MapedDistance<U, R>, y: MapedDistance<U, R>)
    requires |heap| > 0 && Selects(kind, k, heap, seen)
    requires Better(kind, c.distance, heap[WorstIndex(kind, heap)].distance)
    requires x == c || x in multiset(heap)
    requires y == heap[WorstIndex(kind, heap)] || y in multiset(seen) - multiset(heap)
    ensures AtLeastAsGood(kind, x.distance, y.distance)
  {
    var worst := heap[WorstIndex(kind, heap)];
    if y != worst {
      assert AtLeastAsGood(kind, worst.distance, y.distance) by { assert worst in multiset(heap); }
    }
  }

  /** A full heap that drops `c` still selects the best. */
  lemma DropSelects<U, R>(kind: Kind, k: nat, heap: seq<MapedDistance<U, R>>, seen: seq<MapedDistance<U, R>>, c: MapedDistance<U, R>)
    requires k >= 1 && |heap| == k
    requires Selects(kind, k, heap, seen)
    requires AtLeastAsGood(kind, heap[WorstIndex(kind, heap)].distance, c.distance)
    ensures Selects(kind, k, heap, seen + [c])
  {
    var all := multiset(seen + [c]);
    assert all == multiset(seen) + multiset{c};
    assert all - multiset(heap) == multiset(seen) - multiset(heap) + multiset{c};
    forall x: MapedDistance<U, R>, y: MapedDistance<U, R> | x in multiset(heap) && y in all - multiset(heap)
      ensures AtLeastAsGood(kind, x.distance, y.distance)
    {
      assert x in heap;
    }
  }

  /** The fold keeps the selection the best of all candidates offered so far. */
  lemma {:induction false} OfferAllSelects<U, R>(kind: Kind, k: nat, heap: seq<MapedDistance<U, R>>, seen: seq<MapedDistance<U, R>>, cs: seq<MapedDistance<U, R>>)
    requires k >= 1
    requires Selects(kind, k, heap, seen)
    ensures Selects(kind, k, OfferAll(kind, k, heap, cs), seen + cs)
    decreases |cs|
  {
    if cs == [] {
      assert seen + cs == seen;
    } else {
      var init := cs[..|cs| - 1];
      OfferAllSelects(kind, k, heap, seen, init);
      OfferSelects(kind, k, OfferAll(kind, k, heap, init), seen + init, cs[|cs| - 1]);
      assert seen + init + [cs[|cs| - 1]] == seen + cs;
    }
  }

  /**
   * The heaps compute a top-k selection: starting empty, they end with
   * min(k, n) of the n candidates, and no candidate left out is strictly
   * better than one kept.
   */
  lemma TopK<U, R>(kind: Kind, k: nat, cs: seq<MapedDistance<U, R>>)
    requires k >= 1
    ensures var kept := OfferAll(kind, k, [], cs);
      && |kept| == (if |cs| < k then |cs| else k)
      && multiset(kept) <= multiset(cs)
      && forall x, y :: x in multiset(kept) && y in multiset(cs) - multiset(kept) ==>
           AtLeastAsGood(kind, x.distance, y.distance)
  {
    OfferAllSize(kind, k, [], cs);
    OfferAllSelects(kind, k, [], [], cs);
    assert [] + cs == cs;
  }

  /** Whatever the heap keeps, once sorted, was offered to it. */
  lemma SortedKeptFrom<U, R>(kind: Kind, k: nat, cs: seq<MapedDistance<U, R>>)
    requires k >= 1
    ensures forall x :: x in SortedBestFirst(kind, OfferAll(kind, k, [], cs)) ==> x in cs
  {
    var kept := OfferAll(kind, k, [], cs);
    TopK(kind, k, cs);
    forall x | x in SortedBestFirst(kind, kept)
      ensures x in cs
    {
      assert x in multiset(SortedBestFirst(kind, kept));
      assert x in multiset(kept);
    }
  }

  /** Each entry is at least as good as every later one: `into_vec`'s order, ascending distance or descending similarity. */
  predicate BestFirst<U, R>(kind: Kind, s: seq<MapedDistance<U, R>>) {
    forall i, j :: 0 <= i < j < |s| ==> AtLeastAsGood(kind, s[i].distance, s[j].distance)
  }

  /** `x` goes in front of a best-first sequence. */
  function Insert<U, R>(kind: Kind, x: MapedDistance<U, R>, s: seq<MapedDistance<U, R>>): (r: seq<MapedDistance<U, R>>)
    requires BestFirst(kind, s)
    ensures multiset(r) == multiset(s) + multiset{x}
    ensures BestFirst(kind, r)
  {
    if s == [] then [x]
    else if AtLeastAsGood(kind, x.distance, s[0].distance) then
      assert forall j :: 0 <= j < |s| ==> AtLeastAsGood(kind, s[0].distance, s[j].distance);
      [x] + s
    else
      var rest := Insert(kind, x, s[1..]);
      KeepHead(kind, x, s, rest);
      [s[0]] + rest
  }

  /** A head better than `x` stays in front of the tail with `x` inserted. */
  lemma KeepHead<U, R>(kind: Kind, x: MapedDistance<U, R>, s: seq<MapedDistance<U, R>>, rest: seq<MapedDistance<U, R>>)
    requires BestFirst(kind, s) && |s| > 0 && !AtLeastAsGood(kind, x.distance, s[0].distance)
    requires multiset(rest) == multiset(s[1..]) + multiset{x} && BestFirst(kind, rest)
    ensures multiset([s[0]] + rest) == multiset(s) + multiset{x}
    ensures BestFirst(kind, [s[0]] + rest)
  {
    assert s == [s[0]] + s[1..];
    forall j | 0 <= j < |rest|
      ensures AtLeastAsGood(kind, s[0].distance, rest[j].distance)
    {
      assert rest[j] in multiset(rest);
      assert rest[j] == x || rest[j] in s[1..];
    }
  }

  /**
   * `into_sorted_vec`, read best first: the heap's entries in ascending
   * distance (max-heap) or descending similarity (min-heap).
   */
  function SortedBestFirst<U, R>(kind: Kind, heap: seq<MapedDistance<U, R>>): (r: seq<MapedDistance<U, R>>)
    ensures multiset(r) == multiset(heap)
    ensures BestFirst(kind, r)
  {
    if heap == [] then []
    else
      assert heap == heap[..|heap| - 1] + [heap[|heap| - 1]];
      Insert(kind, heap[|heap| - 1], SortedBestFirst(kind, heap[..|heap| - 1]))
  }
}
