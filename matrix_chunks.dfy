/**
 * One chunk of an item-item matrix: the nested loops that fill it, shared by
 * `calculate_chunk` in engine/src/chunked_matrix.rs and `get_chunk` in
 * engine/src/similarity_matrix.rs. The row items come from one page of the
 * items table, the column items from another; both are hash maps, so the
 * loops go through them in an unspecified order, and the chunk is specified
 * for every such order.
 */
module MatrixChunks {
  import opened Wrappers
  import opened Controllers
  import Items = EngineItems

  /** A chunk: row item, then column item, then the value. */
  type Matrix<I> = map<I, map<I, real>>

  /** What a cell holds: an adjusted-cosine similarity or a slope-one deviation. */
  datatype Metric<!U> = AdjCosine(calculate: Items.SimilarityFn<U>) | SlopeOne(slopeOne: Items.SlopeOneFn<U>)

  /** The cell for two items rated `x` and `y`, or `None` when the metric fails (the `if let Ok(..)`). */
  function Cell<U>(metric: Metric<U>, x: map<U, real>, y: map<U, real>): Option<real> {
    match metric
    case AdjCosine(calculate) => if calculate(x, y).Ok? then Some(calculate(x, y).value) else None
    case SlopeOne(slopeOne) => if slopeOne(x, y).Ok? then Some(slopeOne(x, y).value.0) else None
  }

  /** What every row item holds for itself: 1.0 for a similarity, 0.0 for a deviation. */
  function Diagonal<U>(metric: Metric<U>): real {
    if metric.AdjCosine? then 1.0 else 0.0
  }

  /** A cell read from the other side: similarities are symmetric, deviations change sign. */
  function Mirror<U>(metric: Metric<U>, v: real): real {
    if metric.AdjCosine? then v else -v
  }

  /** `users_who_rated` for a page, without the items nobody rated (the `filter` on `is_empty`). */
  function Rated<U, I(==)>(store: Store<U, I>, page: seq<I>): (r: map<I, map<U, real>>)
    ensures forall i :: i in r ==> i in page && i in store.raters && store.raters[i] != map[] && r[i] == store.raters[i]
    ensures forall i :: i in page && i in store.raters && store.raters[i] != map[] ==> i in r
  {
    var found := UsersWhoRated(store, set i | i in page);
    map i | i in found && found[i] != map[] :: found[i]
  }

  /** `order` lists every element of `keys` exactly once: one run through a hash map. */
  ghost predicate Enumerates<I>(order: seq<I>, keys: set<I>) {
    && (forall k :: 0 <= k < |order| ==> order[k] in keys)
    && (forall x :: x in keys ==> x in order)
    && (forall k, l :: 0 <= k < l < |order| ==> order[k] != order[l])
  }

  /** The rows handled before the `k`-th. */
  ghost function Before<I>(order: seq<I>, k: nat): set<I>
    requires k <= |order|
  {
    set x | x in order[..k]
  }

  /**
   * Row `a` of a finished chunk, the rows in `earlier` having been filled
   * before it: a cell for each column item `b` other than `a` that is not
   * one of the earlier rows and on which the metric succeeds, holding the
   * metric's value, and `Diagonal` for `a` itself.
   */
  ghost predicate IsRow<U, I>(row: map<I, real>, metric: Metric<U>, a: I, ra: map<U, real>,
                              cols: map<I, map<U, real>>, earlier: set<I>) {
    && a in row && row[a] == Diagonal(metric)
    && (forall b :: b in row && b != a ==>
          b in cols && b !in earlier && Cell(metric, ra, cols[b]) == Some(row[b]))
    && (forall b :: b in cols && b !in earlier && b != a && Cell(metric, ra, cols[b]).Some? ==> b in row)
  }

  /**
   * The column items row `a` skips, the rows in `earlier` having been filled
   * before it. As written the inner loop skips every earlier row; `guarded`
   * is the corrected loop, which skips an earlier row only when `a` is itself
   * a column item, so that the earlier row holds the cell (b, a).
   */
  function Skip<I, V>(earlier: set<I>, a: I, cols: map<I, V>, guarded: bool): (skip: set<I>)
    ensures skip <= earlier
    ensures guarded && a !in cols ==> skip == {}
  {
    if guarded && a !in cols then {} else earlier
  }

  /**
   * A chunk holding exactly the items of `rows`, filled one row after the
   * other in `order`, by the loop as written (`guarded` false) or corrected.
   */
  ghost predicate Built<U, I>(m: Matrix<I>, metric: Metric<U>, rows: map<I, map<U, real>>,
                              cols: map<I, map<U, real>>, order: seq<I>, guarded: bool) {
    && Enumerates(order, rows.Keys)
    && m.Keys == rows.Keys
    && forall k :: 0 <= k < |order| ==>
         IsRow(m[order[k]], metric, order[k], rows[order[k]], cols, Skip(Before(order, k), order[k], cols, guarded))
  }

  /** Row item `x` was filled before row item `y`. */
  ghost predicate Earlier<I>(order: seq<I>, x: I, y: I) {
    exists k, l :: 0 <= k < l < |order| && order[k] == x && order[l] == y
  }

  /** Row `a` skips column item `b`: `b` was filled before `a`, and the loop skips earlier rows. */
  ghost predicate Skips<I, V>(order: seq<I>, cols: map<I, V>, guarded: bool, a: I, b: I) {
    Earlier(order, b, a) && !(guarded && a !in cols)
  }

  /**
   * The fill computes the pair (a, b) from one side or the other: `b` is a
   * column of row `a` that row `a` does not skip, or `a` is a column of row
   * `b` that row `b` does not skip.
   */
  ghost predicate Visits<U, I>(rows: map<I, map<U, real>>, cols: map<I, map<U, real>>, order: seq<I>,
                               guarded: bool, a: I, b: I) {
    || (a in rows && b in cols && !Skips(order, cols, guarded, a, b))
    || (b in rows && a in cols && !Skips(order, cols, guarded, b, a))
  }

  /** The rows before the `k`-th are exactly those filled earlier than it. */
  lemma BeforeIsEarlier<I>(order: seq<I>, keys: set<I>, k: nat, x: I)
    requires Enumerates(order, keys) && k < |order|
    ensures x in Before(order, k) <==> Earlier(order, x, order[k])
  {
    if x in Before(order, k) {
      var j :| 0 <= j < k && order[..k][j] == x;
      assert order[j] == x;
    }
    if Earlier(order, x, order[k]) {
      var j, l :| 0 <= j < l < |order| && order[j] == x && order[l] == order[k];
      assert order[..k][j] == x;
    }
  }

  /** Of two row items at most one was filled before the other. */
  lemma EarlierAsymmetric<I>(order: seq<I>, keys: set<I>, x: I, y: I)
    requires Enumerates(order, keys)
    ensures !(Earlier(order, x, y) && Earlier(order, y, x))
  {
  }

  /** Where row item `a` stands in the order, and what its row holds. */
  lemma RowAt<U, I>(m: Matrix<I>, metric: Metric<U>, rows: map<I, map<U, real>>,
                    cols: map<I, map<U, real>>, order: seq<I>, guarded: bool, a: I) returns (k: nat)
    requires Built(m, metric, rows, cols, order, guarded) && a in rows
    ensures k < |order| && order[k] == a && Before(order, k) <= rows.Keys
    ensures IsRow(m[a], metric, a, rows[a], cols, Skip(Before(order, k), a, cols, guarded))
  {
    k :| 0 <= k < |order| && order[k] == a;
  }

  /** Of two distinct rows, the one filled first is among the rows before the other, and not the other way round. */
  lemma BeforeOrder<I>(order: seq<I>, keys: set<I>, k: nat, l: nat)
    requires Enumerates(order, keys) && k < l < |order|
    ensures order[k] in Before(order, l) && order[l] !in Before(order, k)
  {
    assert order[..l][k] == order[k];
  }

  /** Row `a` while the inner loop runs, the column items in `rest` still to come and those in `skip` skipped. */
  ghost predicate RowSoFar<U, I>(matrix: Matrix<I>, metric: Metric<U>, a: I, ra: map<U, real>,
                                 cols: map<I, map<U, real>>, rest: set<I>, skip: set<I>) {
    && (a in matrix ==> forall b :: b in matrix[a] && b != a ==>
          b in cols && b !in rest && b !in skip && Cell(metric, ra, cols[b]) == Some(matrix[a][b]))
    && (forall b :: b in cols && b !in rest && b != a && b !in skip && Cell(metric, ra, cols[b]).Some? ==>
          a in matrix && b in matrix[a])
  }

  /** A column item that is `a` itself, skipped, or on which the metric fails leaves row `a` as it is. */
  lemma RowSkip<U, I>(matrix: Matrix<I>, metric: Metric<U>, a: I, ra: map<U, real>,
                      cols: map<I, map<U, real>>, rest: set<I>, skip: set<I>, b: I)
    requires RowSoFar(matrix, metric, a, ra, cols, rest, skip) && b in rest && b in cols
    requires b == a || b in skip || Cell(metric, ra, cols[b]).None?
    ensures RowSoFar(matrix, metric, a, ra, cols, rest - {b}, skip)
  {
  }

  /** Any other column item on which the metric succeeds gets its cell in row `a`. */
  lemma RowAdd<U, I>(matrix: Matrix<I>, metric: Metric<U>, a: I, ra: map<U, real>,
                     cols: map<I, map<U, real>>, rest: set<I>, skip: set<I>, b: I)
    requires RowSoFar(matrix, metric, a, ra, cols, rest, skip) && b in rest && b in cols
    requires b !in skip && Cell(metric, ra, cols[b]).Some?
    ensures var row := if a in matrix then matrix[a] else map[];
            RowSoFar(matrix[a := row[b := Cell(metric, ra, cols[b]).value]], metric, a, ra, cols, rest - {b}, skip)
  {
  }

  /** Once every column item is handled, the diagonal completes row `a`. */
  lemma RowDone<U, I>(matrix: Matrix<I>, metric: Metric<U>, a: I, ra: map<U, real>,
                      cols: map<I, map<U, real>>, skip: set<I>)
    requires RowSoFar(matrix, metric, a, ra, cols, {}, skip)
    ensures var row := if a in matrix then matrix[a] else map[];
            IsRow(row[a := Diagonal(metric)], metric, a, ra, cols, skip)
  {
  }

  /**
   * The inner loop for row item `a`: a column item that already has a row is
   * skipped (when `guarded`, only if `a` is a column item too), a failed
   * metric leaves no cell, and the diagonal comes last, overriding whatever
   * the loop put there.
   */
  method FillRow<U, I(==)>(metric: Metric<U>, matrix0: Matrix<I>, a: I, ra: map<U, real>, cols: map<I, map<U, real>>,
                           guarded: bool)
    returns (matrix: Matrix<I>)
    requires a !in matrix0
    ensures forall k :: k != a ==> (k in matrix <==> k in matrix0)
    ensures forall k :: k in matrix0 ==> matrix[k] == matrix0[k]
    ensures a in matrix && IsRow(matrix[a], metric, a, ra, cols, Skip(matrix0.Keys, a, cols, guarded))
  {
    ghost var skip := Skip(matrix0.Keys, a, cols, guarded);
    matrix := matrix0;
    var rest := cols.Keys;
    while rest != {}
      invariant rest <= cols.Keys
      invariant forall k :: k != a ==> (k in matrix <==> k in matrix0)
      invariant forall k :: k in matrix0 ==> matrix[k] == matrix0[k]
      invariant RowSoFar(matrix, metric, a, ra, cols, rest, skip)
      decreases |rest|
    {
      var b :| b in rest;
      var cell := if b !in matrix || (guarded && a !in cols) then Cell(metric, ra, cols[b]) else None;
      if cell.Some? {
        var row := if a in matrix then matrix[a] else map[];
        RowAdd(matrix, metric, a, ra, cols, rest, skip, b);
        matrix := matrix[a := row[b := cell.value]];
      } else {
        RowSkip(matrix, metric, a, ra, cols, rest, skip, b);
      }
      rest := rest - {b};
    }
    var row := if a in matrix then matrix[a] else map[];
    RowDone(matrix, metric, a, ra, cols, skip);
    matrix := matrix[a := row[a := Diagonal(metric)]];
  }


  /** The rows before the `k`-th stay the same when one more row is appended. */
  lemma BeforeAppend<I>(order: seq<I>, a: I, k: nat)
    requires k <= |order|
    ensures Before(order + [a], k) == Before(order, k)
  {
    assert (order + [a])[..k] == order[..k];
  }

  /** What the outer loop knows of the order after filling the rows in `order`, with the rows in `rest` still to come. */
  ghost predicate Ordered<I, V>(keys: set<I>, rows: map<I, V>, order: seq<I>, rest: set<I>) {
    && rest <= rows.Keys
    && (forall k :: 0 <= k < |order| ==> order[k] in rows && order[k] !in rest)
    && (forall x :: x in rows && x !in rest ==> x in order)
    && (forall k, l :: 0 <= k < l < |order| ==> order[k] != order[l])
    && keys == Before(order, |order|)
  }

  /** What the outer loop knows after filling the rows in `order`, with the rows in `rest` still to come. */
  ghost predicate Filling<U, I>(matrix: Matrix<I>, metric: Metric<U>, rows: map<I, map<U, real>>,
                                cols: map<I, map<U, real>>, order: seq<I>, guarded: bool, rest: set<I>) {
    && Ordered(matrix.Keys, rows, order, rest)
    && forall k :: 0 <= k < |order| ==>
         IsRow(matrix[order[k]], metric, order[k], rows[order[k]], cols, Skip(Before(order, k), order[k], cols, guarded))
  }

  /** Handling row `a` next keeps the order's invariant. */
  lemma OrderedStep<I, V>(keys: set<I>, rows: map<I, V>, order: seq<I>, rest: set<I>, a: I)
    requires Ordered(keys, rows, order, rest) && a in rest
    ensures Ordered(keys + {a}, rows, order + [a], rest - {a})
  {
    var next := order + [a];
    assert next[..|next|] == next;
    assert order[..|order|] == order;
  }

  /** One turn of the outer loop keeps `Filling`. */
  lemma FillingStep<U, I>(done: Matrix<I>, matrix: Matrix<I>, metric: Metric<U>, rows: map<I, map<U, real>>,
                          cols: map<I, map<U, real>>, order: seq<I>, guarded: bool, rest: set<I>, a: I)
    requires Filling(done, metric, rows, cols, order, guarded, rest) && a in rest
    requires forall k :: k != a ==> (k in matrix <==> k in done)
    requires forall k :: k in done ==> matrix[k] == done[k]
    requires a in matrix && IsRow(matrix[a], metric, a, rows[a], cols, Skip(done.Keys, a, cols, guarded))
    ensures Filling(matrix, metric, rows, cols, order + [a], guarded, rest - {a})
  {
    var next := order + [a];
    OrderedStep(done.Keys, rows, order, rest, a);
    assert matrix.Keys == done.Keys + {a};
    forall k | 0 <= k < |order|
      ensures IsRow(matrix[next[k]], metric, next[k], rows[next[k]], cols, Skip(Before(next, k), next[k], cols, guarded))
    {
      BeforeAppend(order, a, k);
      assert next[k] == order[k] && order[k] in done;
      assert matrix[next[k]] == done[order[k]];
    }
    BeforeAppend(order, a, |order|);
    assert order[..|order|] == order;
  }


  /** Once no row is left, the chunk is built. */
  lemma FillingDone<U, I>(matrix: Matrix<I>, metric: Metric<U>, rows: map<I, map<U, real>>,
                          cols: map<I, map<U, real>>, order: seq<I>, guarded: bool)
    requires Filling(matrix, metric, rows, cols, order, guarded, {})
    ensures Built(matrix, metric, rows, cols, order, guarded)
  {
    assert order[..|order|] == order;
  }

  /** The outer loop: every row item in turn, in the hash map's order. */
  method Fill<U, I(==)>(metric: Metric<U>, rows: map<I, map<U, real>>, cols: map<I, map<U, real>>, guarded: bool)
    returns (matrix: Matrix<I>, ghost order: seq<I>)
    ensures Built(matrix, metric, rows, cols, order, guarded)
  {
    matrix, order := map[], [];
    var rest := rows.Keys;
    while rest != {}
      invariant Filling(matrix, metric, rows, cols, order, guarded, rest)
      decreases |rest|
    {
      var a :| a in rest;
      ghost var done := matrix;
      matrix := FillRow(metric, matrix, a, rows[a], cols, guarded);
      FillingStep(done, matrix, metric, rows, cols, order, guarded, rest, a);
      order := order + [a];
      rest := rest - {a};
    }
    FillingDone(matrix, metric, rows, cols, order, guarded);
  }
}
