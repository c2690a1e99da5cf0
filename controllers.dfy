/**
 * The controller the engine queries (the `Controller` trait of
 * controller/src/lib.rs), replaced by the data it would answer from. The
 * users and items tables come in the order the controller pages through
 * them; `users_who_rated` is the by-item view of the same ratings.
 */
module Controllers {
  datatype Store<U, I> = Store(
    /** Every user with their ratings, in page order. */
    users: seq<(U, map<I, real>)>,
    /** Every item, in page order. */
    items: seq<I>,
    /** `users_who_rated`: each rated item's ratings, by user. */
    raters: map<I, map<U, real>>,
    /** Whether `users_offset_limit` and `items_offset_limit` are implemented. */
    paged: bool,
    /** `score_range`: the lowest and the highest rating. */
    minRating: real,
    maxRating: real)

  /** `ratings_by`: the user's ratings; a user without any has an empty map. */
  function RatingsBy<U(==), I>(users: seq<(U, map<I, real>)>, user: U): (r: map<I, real>)
    ensures forall i :: 0 <= i < |users| && users[i].0 == user && (forall j :: 0 <= j < i ==> users[j].0 != user) ==> r == users[i].1
    ensures (forall i :: 0 <= i < |users| ==> users[i].0 != user) ==> r == map[]
  {
    if users == [] then map[]
    else if users[0].0 == user then users[0].1
    else RatingsBy(users[1..], user)
  }

  /** `maped_ratings_except`: every other user with their ratings, in page order. */
  function MapedRatingsExcept<U(==), I>(users: seq<(U, map<I, real>)>, user: U): (r: seq<(U, map<I, real>)>)
    ensures forall i :: 0 <= i < |r| ==> r[i] in users && r[i].0 != user
    ensures forall i :: 0 <= i < |users| && users[i].0 != user ==> users[i] in r
  {
    if users == [] then []
    else (if users[0].0 != user then [users[0]] else []) + MapedRatingsExcept(users[1..], user)
  }

  /** `users_who_rated` for the given items: the ones with ratings, each with its raters. */
  function UsersWhoRated<U, I>(store: Store<U, I>, items: set<I>): (r: map<I, map<U, real>>)
    ensures r.Keys == items * store.raters.Keys
    ensures forall i :: i in r ==> r[i] == store.raters[i]
  {
    map i | i in items && i in store.raters :: store.raters[i]
  }
}
