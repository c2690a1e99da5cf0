/**
 * `MapedDistance` of engine/src/maped_distance.rs: a neighbour's id, its
 * distance (or similarity) to the query user and, optionally, its ratings.
 * Equality and order look at the distance alone; the id and the ratings never
 * take part, so two different neighbours at the same distance are equal and
 * nothing breaks the tie.
 */
module MapedDistances {
  import opened Wrappers

  datatype MapedDistance<U, R> = MapedDistance(id: U, distance: real, ratings: Option<R>)
  {
    /** `dist`: the distance field. */
    function Dist(): real {
      distance
    }

    /** `ratings`: the ratings field, if any. */
    function Ratings(): Option<R> {
      ratings
    }
  }

  /** The accessors give back the second and third fields. */
  lemma AccessorsOf<U, R>(id: U, d: real, r: Option<R>)
    ensures MapedDistance(id, d, r).Dist() == d
    ensures MapedDistance(id, d, r).Ratings() == r
  {
  }

  datatype Ordering = Less | Equal | Greater
  {
    function Reverse(): Ordering {
      match this
      case Less => Greater
      case Equal => Equal
      case Greater => Less
    }
  }

  /** `PartialEq::eq`: the distances are equal. */
  predicate Same<U, R>(a: MapedDistance<U, R>, b: MapedDistance<U, R>) {
    a.Dist() == b.Dist()
  }

  /**
   * `Ord::cmp`, which is `partial_cmp` unwrapped. Distances are reals here, so
   * the comparison always exists and the unwrap never fails.
   */
  function Compare<U, R>(a: MapedDistance<U, R>, b: MapedDistance<U, R>): (o: Ordering)
    ensures o == Equal <==> Same(a, b)
    ensures o == Less <==> a.Dist() < b.Dist()
    ensures o == Greater <==> b.Dist() < a.Dist()
  {
    if a.Dist() < b.Dist() then Less
    else if b.Dist() < a.Dist() then Greater
    else Equal
  }

  /** Neighbours at the same distance are equal whatever their ids and ratings. */
  lemma SameIgnoresIdAndRatings<U, R>(u: U, v: U, d: real, r: Option<R>, s: Option<R>)
    ensures Same(MapedDistance(u, d, r), MapedDistance(v, d, s))
    ensures Compare(MapedDistance(u, d, r), MapedDistance(v, d, s)) == Equal
  {
  }

  /** Swapping the operands reverses the order. */
  lemma CompareReverses<U, R>(a: MapedDistance<U, R>, b: MapedDistance<U, R>)
    ensures Compare(b, a) == Compare(a, b).Reverse()
  {
  }

  /** The order is transitive, so it is a total preorder on neighbours. */
  lemma CompareTransitive<U, R>(a: MapedDistance<U, R>, b: MapedDistance<U, R>, c: MapedDistance<U, R>)
    requires Compare(a, b) != Greater && Compare(b, c) != Greater
    ensures Compare(a, c) != Greater
    ensures Compare(a, c) == Equal ==> Same(a, b) && Same(b, c)
  {
  }
}
