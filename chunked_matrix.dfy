/**
 * `SimilarityMatrix` and `DeviationMatrix` of engine/src/chunked_matrix.rs:
 * an item-item matrix computed one chunk at a time. Two pagers over the items
 * table give the chunk's row items and column items; `calculate_chunk`
 * replaces the resident chunk and `get_value` reads it from either side. The
 * two structs differ only in their metric, so one class with a `Metric`
 * models both.
 */
module ChunkedMatrices {
  import opened Wrappers
  import opened EngineErrors
  import opened Controllers
  import opened Lazy
  import opened MatrixChunks
  import Items = EngineItems

  /** Why `calculate_chunk` fails: a chunk past the end of the table, or a controller query that errs. */
  datatype Failure = Engine(kind: ErrorKind) | Database

  class ChunkedMatrix<U(==), I(==)> {
    /** The controller's data. */
    const store: Store<U, I>
    /** `config.matrix.allow_chunk_optimization`. */
    const allowChunkOptimization: bool
    /** `adj_cosine.calculate` for `SimilarityMatrix`, `slope_one` for `DeviationMatrix`. */
    const metric: Metric<U>
    var verChunkSize: nat
    var horChunkSize: nat
    var verIter: LazyChunks<I>
    var horIter: LazyChunks<I>
    var matrixChunk: Matrix<I>
    /** The order in which the last chunk went through its row items. */
    ghost var rowOrder: seq<I>

    /** Both pagers run over the items table, with the chunk sizes the matrix records. */
    ghost predicate Valid()
      reads this, verIter, horIter
    {
      && verIter != horIter
      && verIter.rows == store.items && verIter.paged == store.paged && verIter.chunkSize == verChunkSize
      && horIter.rows == store.items && horIter.paged == store.paged && horIter.chunkSize == horChunkSize
    }

    /** `SimilarityMatrix::new`: `m` rows and `n` columns per chunk, no chunk yet. */
    constructor SimilarityMatrix(store: Store<U, I>, allowChunkOptimization: bool, calculate: Items.SimilarityFn<U>, m: nat, n: nat)
      ensures Valid() && fresh(verIter) && fresh(horIter)
      ensures this.store == store && this.allowChunkOptimization == allowChunkOptimization
      ensures metric == AdjCosine(calculate) && verChunkSize == m && horChunkSize == n
      ensures verIter.offset == 0 && horIter.offset == 0 && matrixChunk == map[]
    {
      this.store, this.allowChunkOptimization, metric := store, allowChunkOptimization, AdjCosine(calculate);
      verChunkSize, horChunkSize := m, n;
      verIter := new LazyChunks(store.items, store.paged, m);
      horIter := new LazyChunks(store.items, store.paged, n);
      matrixChunk := map[];
    }

    /** `DeviationMatrix::new`: the same, with slope-one deviations. */
    constructor DeviationMatrix(store: Store<U, I>, allowChunkOptimization: bool, slopeOne: Items.SlopeOneFn<U>, m: nat, n: nat)
      ensures Valid() && fresh(verIter) && fresh(horIter)
      ensures this.store == store && this.allowChunkOptimization == allowChunkOptimization
      ensures metric == SlopeOne(slopeOne) && verChunkSize == m && horChunkSize == n
      ensures verIter.offset == 0 && horIter.offset == 0 && matrixChunk == map[]
    {
      this.store, this.allowChunkOptimization, metric := store, allowChunkOptimization, SlopeOne(slopeOne);
      verChunkSize, horChunkSize := m, n;
      verIter := new LazyChunks(store.items, store.paged, m);
      horIter := new LazyChunks(store.items, store.paged, n);
      matrixChunk := map[];
    }

    /**
     * `optimize_chunks_size` with the optimisation switched off: it returns at
     * once. With it switched on it calls `approximate_chunk_size`, which is
     * `todo!()`, so that path panics.
     */
    method OptimizeChunksSize()
      requires !allowChunkOptimization
      modifies this
      ensures unchanged(this)
    {
      if !allowChunkOptimization {
        return;
      }
    }

    /**
     * `calculate_chunk(i, j)`: read row page `i` and column page `j`, drop the
     * items nobody rated, and replace the resident chunk with the one built
     * from them. `answered` says whether the controller's queries succeed.
     */
    method CalculateChunk(i: nat, j: nat, answered: bool) returns (r: Result<(), Failure>)
      requires Valid()
      modifies this, verIter, horIter
      ensures Valid() && verIter == old(verIter) && horIter == old(horIter)
      ensures verChunkSize == old(verChunkSize) && horChunkSize == old(horChunkSize)
      ensures verIter.offset == i * verChunkSize + verChunkSize
      ensures var ver := PageAt(store.items, store.paged, i * verChunkSize, verChunkSize);
              var hor := PageAt(store.items, store.paged, j * horChunkSize, horChunkSize);
              && (ver.None? ==> r == Err(Engine(IndexOutOfBound)) && horIter.offset == old(horIter.offset))
              && (ver.Some? ==> horIter.offset == j * horChunkSize + horChunkSize)
              && (ver.Some? && hor.None? ==> r == Err(Engine(IndexOutOfBound)))
              && (ver.Some? && hor.Some? && !answered ==> r == Err(Database))
              && (r.Err? ==> matrixChunk == old(matrixChunk))
              && (ver.Some? && hor.Some? && answered ==>
                    r == Ok(()) && Built(matrixChunk, metric, Rated(store, ver.value), Rated(store, hor.value), rowOrder, false))
    {
      var ver := verIter.Nth(i);
      if ver.None? {
        return Err(Engine(IndexOutOfBound));
      }
      var hor := horIter.Nth(j);
      if hor.None? {
        return Err(Engine(IndexOutOfBound));
      }
      if !answered {
        return Err(Database);
      }
      var rows := Rated(store, ver.value);
      var cols := Rated(store, hor.value);
      matrixChunk, rowOrder := Fill(metric, rows, cols, false);
      r := Ok(());
    }

    /** `get_value(a, b)`: the cell (a, b), else the cell (b, a) read from the other side, else nothing. */
    function GetValue(a: I, b: I): (r: Option<real>)
      reads this
      ensures r.Some? <==> (a in matrixChunk && b in matrixChunk[a]) || (b in matrixChunk && a in matrixChunk[b])
      ensures a in matrixChunk && b in matrixChunk[a] ==> r == Some(matrixChunk[a][b])
      ensures !(a in matrixChunk && b in matrixChunk[a]) && b in matrixChunk && a in matrixChunk[b] ==>
                r == Some(if metric.AdjCosine? then matrixChunk[b][a] else -matrixChunk[b][a])
    {
      Lookup(matrixChunk, metric, a, b)
    }
  }

  /** What `get_value` reads from a chunk `m`: row `a` first, then row `b` mirrored. */
  function Lookup<U, I>(m: Matrix<I>, metric: Metric<U>, a: I, b: I): (r: Option<real>)
    ensures r.Some? <==> (a in m && b in m[a]) || (b in m && a in m[b])
    ensures a in m && b in m[a] ==> r == Some(m[a][b])
    ensures !(a in m && b in m[a]) && b in m && a in m[b] ==> r == Some(if metric.AdjCosine? then m[b][a] else -m[b][a])
  {
    if a in m && b in m[a] then Some(m[a][b])
    else if b in m && a in m[b] then Some(Mirror(metric, m[b][a]))
    else None
  }

  /** The metric reads the same for `x` against `y` as for `y` against `x`, through `Mirror`. */
  predicate Reversible<U>(metric: Metric<U>, x: map<U, real>, y: map<U, real>) {
    && (Cell(metric, x, y).Some? <==> Cell(metric, y, x).Some?)
    && (Cell(metric, x, y).Some? ==> Cell(metric, x, y).value == Mirror(metric, Cell(metric, y, x).value))
  }

  /**
   * Whatever order the rows were filled in, a chunk answers a row item
   * against itself with the diagonal; it answers a pair of distinct items the
   * fill visits with the metric's value, or nothing exactly when the metric
   * fails, provided the metric reads the same from both sides; and it answers
   * nothing for a pair the fill does not visit.
   */
  lemma ChunkAnswers<U, I>(m: Matrix<I>, metric: Metric<U>, rows: map<I, map<U, real>>, cols: map<I, map<U, real>>,
                           order: seq<I>, guarded: bool, raters: map<I, map<U, real>>, a: I, b: I)
    requires Built(m, metric, rows, cols, order, guarded)
    requires forall c :: c in rows ==> c in raters && rows[c] == raters[c]
    requires forall c :: c in cols ==> c in raters && cols[c] == raters[c]
    ensures a == b ==> Lookup(m, metric, a, b) == if a in rows then Some(Diagonal(metric)) else None
    ensures a != b && !Visits(rows, cols, order, guarded, a, b) ==> Lookup(m, metric, a, b) == None
    ensures a != b && Visits(rows, cols, order, guarded, a, b) && Reversible(metric, raters[a], raters[b]) ==>
              Lookup(m, metric, a, b) == Cell(metric, raters[a], raters[b])
  {
    if a == b {
      if a in rows {
        var ka := RowAt(m, metric, rows, cols, order, guarded, a);
      }
    } else {
      if a in rows {
        var ka := RowAt(m, metric, rows, cols, order, guarded, a);
        BeforeIsEarlier(order, rows.Keys, ka, b);
        assert b in m[a] <==> b in cols && !Skips(order, cols, guarded, a, b) && Cell(metric, raters[a], raters[b]).Some?;
      }
      if b in rows {
        var kb := RowAt(m, metric, rows, cols, order, guarded, b);
        BeforeIsEarlier(order, rows.Keys, kb, a);
        assert a in m[b] <==> a in cols && !Skips(order, cols, guarded, b, a) && Cell(metric, raters[b], raters[a]).Some?;
      }
    }
  }

  /**
   * `get_value` on the chunk `calculate_chunk` left: the diagonal for a row
   * item against itself, the metric's value for a pair the fill visits, and
   * nothing for a pair it does not. Because row `a` skips every row filled
   * before it, a pair of a row item `a` that is not a column item and a row
   * item `b` filled earlier that is a column item is not visited.
   */
  lemma GetValueAnswers<U, I>(x: ChunkedMatrix<U, I>, rows: map<I, map<U, real>>, cols: map<I, map<U, real>>,
                              raters: map<I, map<U, real>>, a: I, b: I)
    requires Built(x.matrixChunk, x.metric, rows, cols, x.rowOrder, false)
    requires forall c :: c in rows ==> c in raters && rows[c] == raters[c]
    requires forall c :: c in cols ==> c in raters && cols[c] == raters[c]
    ensures a == b ==> x.GetValue(a, b) == if a in rows then Some(Diagonal(x.metric)) else None
    ensures a != b && !Visits(rows, cols, x.rowOrder, false, a, b) ==> x.GetValue(a, b) == None
    ensures a != b && Visits(rows, cols, x.rowOrder, false, a, b) && Reversible(x.metric, raters[a], raters[b]) ==>
              x.GetValue(a, b) == Cell(x.metric, raters[a], raters[b])
    ensures a in rows && a !in cols && b in rows && b in cols && Earlier(x.rowOrder, b, a) ==>
              x.GetValue(a, b) == None
  {
    ChunkAnswers(x.matrixChunk, x.metric, rows, cols, x.rowOrder, false, raters, a, b);
  }

  /**
   * With the corrected skip the chunk answers every pair of a row item and a
   * column item, in either order, whatever order the rows were filled in.
   */
  lemma GuardedChunkAnswers<U, I>(m: Matrix<I>, metric: Metric<U>, rows: map<I, map<U, real>>, cols: map<I, map<U, real>>,
                                  order: seq<I>, raters: map<I, map<U, real>>, a: I, b: I)
    requires Built(m, metric, rows, cols, order, true)
    requires forall c :: c in rows ==> c in raters && rows[c] == raters[c]
    requires forall c :: c in cols ==> c in raters && cols[c] == raters[c]
    ensures a == b ==> Lookup(m, metric, a, b) == if a in rows then Some(Diagonal(metric)) else None
    ensures a != b && !(a in rows && b in cols) && !(b in rows && a in cols) ==> Lookup(m, metric, a, b) == None
    ensures a != b && ((a in rows && b in cols) || (b in rows && a in cols)) && Reversible(metric, raters[a], raters[b]) ==>
              Lookup(m, metric, a, b) == Cell(metric, raters[a], raters[b])
  {
    ChunkAnswers(m, metric, rows, cols, order, true, raters, a, b);
    EarlierAsymmetric(order, rows.Keys, a, b);
  }

  /** A similarity that rates every pair of items `v`. */
  function ConstantSimilarity(v: real): Items.SimilarityFn<int> {
    (x: map<int, real>, y: map<int, real>) => Ok(v)
  }

  /**
   * Items 0 to 3 rated by user 0, row page {2, 3} and column page {0, 1, 2},
   * as `enter_matrix(2, 3, adj_cosine)` followed by `move_to(1, 0)` reads them,
   * and row 2 filled first: the chunk the loop as written builds has no cell
   * for (3, 2) from either side, though the similarity of 3 and 2 is defined.
   */
  lemma LostPairExample()
    ensures var metric := AdjCosine(ConstantSimilarity(0.5));
            var r: map<int, real> := map[0 := 4.0];
            var rows := map[2 := r, 3 := r];
            var cols := map[0 := r, 1 := r, 2 := r];
            var m: Matrix<int> := map[2 := map[0 := 0.5, 1 := 0.5, 2 := 1.0], 3 := map[0 := 0.5, 1 := 0.5, 3 := 1.0]];
            && Built(m, metric, rows, cols, [2, 3], false)
            && Cell(metric, rows[3], cols[2]) == Some(0.5)
            && Lookup(m, metric, 3, 2) == None
  {
    var metric := AdjCosine(ConstantSimilarity(0.5));
    var r: map<int, real> := map[0 := 4.0];
    var rows := map[2 := r, 3 := r];
    var cols := map[0 := r, 1 := r, 2 := r];
    var m: Matrix<int> := map[2 := map[0 := 0.5, 1 := 0.5, 2 := 1.0], 3 := map[0 := 0.5, 1 := 0.5, 3 := 1.0]];
    var order := [2, 3];
    assert Before(order, 0) == {} by { assert order[..0] == []; }
    assert Before(order, 1) == {2} by { assert order[..1] == [2]; }
    assert IsRow(m[2], metric, 2, r, cols, Skip(Before(order, 0), 2, cols, false));
    assert IsRow(m[3], metric, 3, r, cols, Skip(Before(order, 1), 3, cols, false));
  }
}
