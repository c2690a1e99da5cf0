/**
 * The older `SimilarityMatrix` of engine/src/similarity_matrix.rs: the same
 * chunked item-item similarity matrix, but `get_chunk` hands each chunk back
 * to the caller instead of keeping it, and builds a fresh adjusted-cosine
 * metric from the chunk's users every time.
 */
module SimilarityMatrices {
  import opened Wrappers
  import opened Controllers
  import opened Lazy
  import opened MatrixChunks
  import Items = EngineItems

  class SimilarityMatrix<U(==), I(==)> {
    /** The controller's data. */
    const store: Store<U, I>
    var verChunkSize: nat
    var horChunkSize: nat
    const threshold: nat
    var verIter: LazyChunks<I>
    var horIter: LazyChunks<I>

    /** Both pagers run over the items table, with the chunk sizes the matrix records. */
    ghost predicate Valid()
      reads this, verIter, horIter
    {
      && verIter != horIter
      && verIter.rows == store.items && verIter.paged == store.paged && verIter.chunkSize == verChunkSize
      && horIter.rows == store.items && horIter.paged == store.paged && horIter.chunkSize == horChunkSize
    }

    /** `SimilarityMatrix::new`: `m` rows and `n` columns per chunk. */
    constructor (store: Store<U, I>, m: nat, n: nat, threshold: nat)
      ensures Valid() && fresh(verIter) && fresh(horIter)
      ensures this.store == store && this.threshold == threshold && verChunkSize == m && horChunkSize == n
      ensures verIter.offset == 0 && horIter.offset == 0
    {
      this.store, this.threshold := store, threshold;
      verChunkSize, horChunkSize := m, n;
      verIter := new LazyChunks(store.items, store.paged, m);
      horIter := new LazyChunks(store.items, store.paged, n);
    }

    /**
     * `get_chunk(i, j)`: read row page `i` and column page `j`, drop the items
     * nobody rated and build the chunk from them. Nothing comes back when
     * either page does not exist or when one of the controller's queries
     * fails (`answered` is false). `calculate` is the adjusted cosine over the
     * means of the chunk's users. Only the two pagers move; the chunk itself
     * is not kept.
     */
    method GetChunk(i: nat, j: nat, answered: bool, calculate: Items.SimilarityFn<U>)
      returns (r: Option<Matrix<I>>, ghost order: seq<I>)
      requires Valid()
      modifies verIter, horIter
      ensures Valid()
      ensures verIter.offset == i * verChunkSize + verChunkSize
      ensures var ver := PageAt(store.items, store.paged, i * verChunkSize, verChunkSize);
              var hor := PageAt(store.items, store.paged, j * horChunkSize, horChunkSize);
              && (ver.None? ==> horIter.offset == old(horIter.offset))
              && (ver.Some? ==> horIter.offset == j * horChunkSize + horChunkSize)
              && (r.Some? <==> ver.Some? && hor.Some? && answered)
              && (r.Some? ==> Built(r.value, AdjCosine(calculate), Rated(store, ver.value), Rated(store, hor.value), order, false))
    {
      order := [];
      var ver := verIter.Nth(i);
      if ver.None? {
        return None, order;
      }
      var hor := horIter.Nth(j);
      if hor.None? || !answered {
        return None, order;
      }
      var rows := Rated(store, ver.value);
      var cols := Rated(store, hor.value);
      var matrix;
      matrix, order := Fill(AdjCosine(calculate), rows, cols, false);
      r := Some(matrix);
    }
  }
}
