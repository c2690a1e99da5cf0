/**
 * `MaxHeapKnn` and `MinHeapKnn` of recommend/src/knn.rs, the older
 * interface: the distance is an `Option`, and `into_vec` sorts a clone of the
 * heap, leaving the object as it was. The selection itself is the one of the
 * engine.
 */
module RecommendKnn {
  import opened Wrappers
  import opened Reals
  import opened EngineErrors
  import opened MapedDistances
  import opened KnnSelection
  import Live = UserDistances
  import Legacy = LegacyDistances

  class Knn<U, I(==)> {
    const kind: Kind
    const k: nat
    const metric: Live.Method
    var heap: seq<MapedDistance<U, map<I, real>>>
    /** Every candidate with a distance offered so far, in order. */
    ghost var seen: seq<MapedDistance<U, map<I, real>>>

    /** The heap is a top-k selection of what has been seen. */
    ghost predicate Valid()
      reads this
    {
      Selects(kind, k, heap, seen)
    }

    /** `MaxHeapKnn::new` / `MinHeapKnn::new`: an empty heap. */
    constructor (kind: Kind, k: nat, metric: Live.Method)
      ensures this.kind == kind && this.k == k && this.metric == metric
      ensures heap == [] && seen == []
      ensures Valid()
    {
      this.kind, this.k, this.metric := kind, k, metric;
      heap, seen := [], [];
    }

    /**
     * `update`: the users whose distance is `None` are skipped, the others
     * offered in chunk order. A distance is `None` exactly when the engine's
     * fails, so the candidates are the engine's.
     */
    method Update(user: map<I, real>, chunk: seq<(U, map<I, real>)>, root: Root)
      requires metric.Allowed()
      requires k >= 1 || Scored(user, chunk, metric, root) == []
      requires Valid()
      modifies this
      ensures Valid()
      ensures seen == old(seen) + Scored(user, chunk, metric, root)
      ensures heap == OfferAll(kind, k, old(heap), Scored(user, chunk, metric, root))
    {
      var i := 0;
      ghost var scored := [];
      while i < |chunk|
        invariant 0 <= i <= |chunk|
        invariant scored == Scored(user, chunk[..i], metric, root)
        invariant seen == old(seen) + scored
        invariant k >= 1 || scored == []
        invariant heap == OfferAll(kind, k, old(heap), scored)
        invariant Valid()
      {
        if k == 0 && Live.DistanceValue(user, chunk[i].1, metric, root).Ok? {
          ScoredHasValid(user, chunk, i, metric, root);
          assert false;
        }
        ghost var r := Consider(user, chunk[i].0, chunk[i].1, root);
        ScoredStep(user, chunk, i, metric, root, r);
        if r.Ok? {
          var c := MapedDistance(chunk[i].0, r.value, Some(chunk[i].1));
          OfferAllStep(kind, k, old(heap), scored, c);
          AppendOne(old(seen), scored, c);
          scored := scored + [c];
        }
        i := i + 1;
      }
      assert chunk[..i] == chunk;
    }

    /** One pass of `update`'s loop; `r` is the engine's result behind the `Option`. */
    method Consider(user: map<I, real>, id: U, ratings: map<I, real>, root: Root) returns (ghost r: Result<real, ErrorKind>)
      requires metric.Allowed() && Valid()
      requires k >= 1 || Live.DistanceValue(user, ratings, metric, root).Err?
      modifies this
      ensures r == Live.DistanceValue(user, ratings, metric, root)
      ensures Valid()
      ensures r.Ok? ==> heap == Offer(kind, k, old(heap), MapedDistance(id, r.value, Some(ratings)))
      ensures r.Ok? ==> seen == old(seen) + [MapedDistance(id, r.value, Some(ratings))]
      ensures r.Err? ==> heap == old(heap) && seen == old(seen)
    {
      var distance := Legacy.Distance(user, ratings, metric, root);
      r := Live.DistanceValue(user, ratings, metric, root);
      if distance.Some? {
        Push(MapedDistance(id, distance.value, Some(ratings)));
      }
    }

    /** The body of `update`'s loop for one candidate with a distance. */
    method Push(c: MapedDistance<U, map<I, real>>)
      requires k >= 1 && Valid()
      modifies this
      ensures Valid()
      ensures heap == Offer(kind, k, old(heap), c)
      ensures seen == old(seen) + [c]
    {
      if |heap| < k {
        heap := heap + [c];
      } else {
        var w := WorstIndex(kind, heap);
        if Better(kind, c.distance, heap[w].distance) {
          heap := RemoveAt(heap, w) + [c];
        }
      }
      seen := seen + [c];
      assert heap == Offer(kind, k, old(heap), c);
      OfferSelects(kind, k, old(heap), old(seen), c);
    }

    /**
     * `into_vec`: a sorted copy of the heap, best first; the object is left
     * as it was, so it can be read again or updated further.
     */
    method IntoVec() returns (v: seq<MapedDistance<U, map<I, real>>>)
      ensures v == SortedBestFirst(kind, heap)
      ensures multiset(v) == multiset(heap) && BestFirst(kind, v)
    {
      v := SortedBestFirst(kind, heap);
    }
  }
}
