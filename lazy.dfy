/**
 * `LazyUserChunks` and `LazyItemChunks` of controller/src/lazy.rs: a pager
 * that asks the controller for one OFFSET/LIMIT page of its users (or items)
 * at a time. The two are the same code over different tables, so one class
 * models both; the table is the sequence `rows` in the order the controller
 * pages through it.
 */
module Lazy {
  import opened Wrappers

  function Min(a: nat, b: nat): nat {
    if a < b then a else b
  }

  /**
   * `users_offset_limit` / `items_offset_limit`: the rows from `offset` on, at
   * most `limit` of them. A controller that keeps the trait's default fails
   * with `NotImplemented`; `paged` says whether it overrides it.
   */
  function OffsetLimit<T>(rows: seq<T>, paged: bool, offset: nat, limit: nat): (r: Option<seq<T>>)
    ensures r.Some? <==> paged
    ensures r.Some? ==> |r.value| == (if offset < |rows| then Min(limit, |rows| - offset) else 0)
    ensures r.Some? ==> forall i :: 0 <= i < |r.value| ==> r.value[i] == rows[offset + i]
  {
    if !paged then None
    else if offset >= |rows| then Some([])
    else Some(rows[offset..Min(offset + limit, |rows|)])
  }

  /** What `next` yields for the page at `offset`: the rows, or `None` for an empty page or a failed query. */
  function PageAt<T>(rows: seq<T>, paged: bool, offset: nat, size: nat): (r: Option<seq<T>>)
    ensures r.Some? <==> paged && offset < |rows| && size > 0
  {
    match OffsetLimit(rows, paged, offset, size)
    case None => None
    case Some(page) => if page == [] then None else Some(page)
  }

  class LazyChunks<T> {
    /** The controller's table, in page order. */
    const rows: seq<T>
    /** Whether the controller implements the OFFSET/LIMIT query. */
    const paged: bool
    const chunkSize: nat
    var offset: nat

    /** `users_by_chunks` / `items_by_chunks`: a fresh pager starts at offset 0. */
    constructor (rows: seq<T>, paged: bool, chunkSize: nat)
      ensures this.rows == rows && this.paged == paged && this.chunkSize == chunkSize
      ensures offset == 0
    {
      this.rows, this.paged, this.chunkSize := rows, paged, chunkSize;
      offset := 0;
    }

    /** `next`: query the current page, then move on by one chunk whatever the answer was. */
    method Next() returns (page: Option<seq<T>>)
      modifies this
      ensures offset == old(offset) + chunkSize
      ensures page == PageAt(rows, paged, old(offset), chunkSize)
    {
      var found := OffsetLimit(rows, paged, offset, chunkSize);
      offset := offset + chunkSize;
      match found
      case Some(users) =>
        if users == [] {
          page := None;
        } else {
          page := Some(users);
        }
      case None =>
        page := None;
    }

    /** `nth`: jump to page `n`, counted from the start whatever was read before, and read it. */
    method Nth(n: nat) returns (page: Option<seq<T>>)
      modifies this
      ensures offset == n * chunkSize + chunkSize
      ensures page == PageAt(rows, paged, n * chunkSize, chunkSize)
    {
      offset := n * chunkSize;
      page := Next();
    }
  }

  /** The table cut into consecutive pages of `size` rows, the last one possibly shorter. */
  function Chunks<T>(rows: seq<T>, size: nat): (pages: seq<seq<T>>)
    requires size > 0
    decreases |rows|
  {
    if rows == [] then []
    else [rows[..Min(size, |rows|)]] + Chunks(rows[Min(size, |rows|)..], size)
  }

  function Flatten<T>(pages: seq<seq<T>>): seq<T> {
    if pages == [] then [] else pages[0] + Flatten(pages[1..])
  }

  /** `Flatten` of a prefix grows by the next page. */
  lemma FlattenStep<T>(pages: seq<seq<T>>, j: nat)
    requires j < |pages|
    ensures Flatten(pages[..j + 1]) == Flatten(pages[..j]) + pages[j]
    ensures Flatten(pages[j..]) == pages[j] + Flatten(pages[j + 1..])
  {
    FlattenAppend(pages[..j], [pages[j]]);
    assert pages[..j] + [pages[j]] == pages[..j + 1];
    assert pages[j..][1..] == pages[j + 1..];
    assert Flatten([pages[j]]) == pages[j] + Flatten([]);
  }

  lemma {:induction false} FlattenAppend<T>(a: seq<seq<T>>, b: seq<seq<T>>)
    ensures Flatten(a + b) == Flatten(a) + Flatten(b)
    decreases |a|
  {
    if a == [] {
      assert a + b == b;
    } else {
      assert (a + b)[1..] == a[1..] + b;
      FlattenAppend(a[1..], b);
    }
  }

  /** Flattening one more page in front. */
  lemma FlattenCons<T>(page: seq<T>, pages: seq<seq<T>>)
    ensures Flatten([page] + pages) == page + Flatten(pages)
  {
    assert ([page] + pages)[1..] == pages;
  }

  /** The pages put back together are the table. */
  lemma {:induction false} FlattenChunks<T>(rows: seq<T>, size: nat)
    requires size > 0
    ensures Flatten(Chunks(rows, size)) == rows
    decreases |rows|
  {
    if rows != [] {
      var n := Min(size, |rows|);
      var page, pages := rows[..n], Chunks(rows[n..], size);
      FlattenChunks(rows[n..], size);
      assert Chunks(rows, size) == [page] + pages;
      FlattenCons(page, pages);
      assert page + rows[n..] == rows;
    }
  }

  /** Every page but the last holds `size` rows; none is empty. */
  lemma {:induction false} ChunkSizes<T>(rows: seq<T>, size: nat)
    requires size > 0
    ensures forall i :: 0 <= i < |Chunks(rows, size)| ==> 0 < |Chunks(rows, size)[i]| <= size
    ensures forall i :: 0 <= i < |Chunks(rows, size)| - 1 ==> |Chunks(rows, size)[i]| == size
    decreases |rows|
  {
    if rows != [] {
      ChunkSizes(rows[Min(size, |rows|)..], size);
    }
  }

  /**
   * Page `k` of the pager: the k-th chunk of the table while `k * size` is
   * inside it, `None` from there on.
   */
  lemma {:induction false} PageIsChunk<T>(rows: seq<T>, size: nat, k: nat)
    requires size > 0
    ensures k < |Chunks(rows, size)| <==> k * size < |rows|
    ensures k < |Chunks(rows, size)| ==> PageAt(rows, true, k * size, size) == Some(Chunks(rows, size)[k])
    ensures k >= |Chunks(rows, size)| ==> PageAt(rows, true, k * size, size) == None
    decreases |rows|
  {
    if rows != [] && k > 0 {
      var n := Min(size, |rows|);
      var rest := rows[n..];
      PageIsChunk(rest, size, k - 1);
      assert k * size == (k - 1) * size + size;
      if k - 1 < |Chunks(rest, size)| {
        var page := rows[k * size..Min(k * size + size, |rows|)];
        assert page == rest[(k - 1) * size..Min((k - 1) * size + size, |rest|)];
      }
    }
  }

  /**
   * A `for` loop over a fresh pager: the pages it sees are the table's
   * consecutive chunks, and the loop ends after the last one. A pager whose
   * query fails, or whose chunk size is 0, yields nothing.
   */
  method ReadAll<T>(pager: LazyChunks<T>) returns (pages: seq<seq<T>>)
    requires pager.offset == 0
    modifies pager
    ensures pages == if pager.paged && pager.chunkSize > 0 then Chunks(pager.rows, pager.chunkSize) else []
  {
    pages := [];
    ghost var k := 0;
    while true
      invariant pager.offset == k * pager.chunkSize
      invariant pager.paged && pager.chunkSize > 0 ==> k <= |Chunks(pager.rows, pager.chunkSize)|
      invariant pager.paged && pager.chunkSize > 0 ==> pages == Chunks(pager.rows, pager.chunkSize)[..k]
      invariant !(pager.paged && pager.chunkSize > 0) ==> pages == [] && k == 0
      decreases if pager.offset < |pager.rows| then |pager.rows| - pager.offset + 1 else 0
    {
      var page := pager.Next();
      if page.None? {
        if pager.paged && pager.chunkSize > 0 {
          PageIsChunk(pager.rows, pager.chunkSize, k);
          assert Chunks(pager.rows, pager.chunkSize)[..k] == Chunks(pager.rows, pager.chunkSize);
        }
        return;
      }
      PageIsChunk(pager.rows, pager.chunkSize, k);
      pages := pages + [page.value];
      assert Chunks(pager.rows, pager.chunkSize)[..k + 1] == Chunks(pager.rows, pager.chunkSize)[..k] + [page.value];
      k := k + 1;
    }
  }

  /**
   * The `chunked_users` unit test: 278858 users in pages of 80000 come as
   * three full pages, one of 38858, and then nothing.
   */
  method ChunkedUsersExample<T>(users: seq<T>) returns (sizes: seq<nat>, last: Option<seq<T>>)
    requires |users| == 278858
    ensures sizes == [80000, 80000, 80000, 38858] && last.None?
  {
    var pager := new LazyChunks(users, true, 80000);
    sizes := [];
    var i := 0;
    while i < 4
      invariant 0 <= i <= 4 && pager.offset == i * 80000 && |sizes| == i
      invariant pager.rows == users && pager.paged && pager.chunkSize == 80000
      invariant forall j :: 0 <= j < i ==> sizes[j] == if j < 3 then 80000 else 38858
    {
      var page := pager.Next();
      sizes := sizes + [|page.value|];
      i := i + 1;
    }
    last := pager.Next();
  }
}
