/**
 * One page of a query's results: the page asked for, its size, the number of items the whole
 * query counts, and the items on the page.  The page count and the next-page flag are derived
 * from the count and the size; the page itself is `Skip(pageSize * (pageIndex - 1)).Take(pageSize)`.
 */
module Pagination {
  import opened Linq
  import opened Int32
  import opened ModelSelection

  /** Ceiling of count / pageSize, computed exactly for a page size of either sign. */
  function CeilDiv(count: nat, pageSize: int): (r: int)
    requires pageSize != 0
    ensures pageSize > 0 ==> (r - 1) * pageSize < count <= r * pageSize
    ensures pageSize < 0 ==> r * pageSize <= count < (r - 1) * pageSize
  {
    if pageSize > 0 then
      var q, m := (count + pageSize - 1) / pageSize, (count + pageSize - 1) % pageSize;
      assert count + pageSize - 1 == q * pageSize + m;
      assert (q - 1) * pageSize == q * pageSize - pageSize;
      q
    else
      var n := -pageSize;
      var q, m := count / n, count % n;
      assert count == q * n + m;
      assert (-q) * pageSize == q * n;
      assert (-q - 1) * pageSize == q * n + n;
      -q
  }

  /** A page of results, 1-based. */
  datatype PaginatedItems<T> = PaginatedItems(pageIndex: int, pageSize: int, totalItems: nat, data: seq<T>)
  {
    /** The number of pages the counted items fill. */
    function TotalPages(): (r: int)
      requires pageSize != 0
      ensures pageSize > 0 ==> (r - 1) * pageSize < totalItems <= r * pageSize
      ensures pageSize > 0 ==> r >= 0 && (r == 0 <==> totalItems == 0)
    {
      var r := CeilDiv(totalItems, pageSize);
      if pageSize > 0 then
        assert r >= 0 by {
          if r < 0 { MulMono(r, -1, pageSize); }
        }
        assert r == 0 ==> r * pageSize == 0;
        r
      else
        r
    }

    /** Whether a page comes after this one. */
    predicate HasNextPage()
      requires pageSize != 0
    {
      pageIndex < TotalPages()
    }
  }

  /** The page `CreateAsync` returns when `pageSize * (pageIndex - 1)` is worked out in Int32 arithmetic, as the library does. */
  function CreateAsyncAsWritten<T>(pageIndex: int, pageSize: int, items: seq<T>): (r: PaginatedItems<T>)
    requires IsInt32(pageIndex) && IsInt32(pageSize)
    ensures r.pageIndex == pageIndex && r.pageSize == pageSize && r.totalItems == |items|
    ensures pageSize < 0 ==> r.data == items
    ensures pageSize >= 0 ==> |r.data| <= pageSize
  {
    var normalizedIndex := Wrap32(pageIndex - 1);
    var data := if pageSize >= 0 then Take(Skip(items, Wrap32(pageSize * normalizedIndex)), pageSize) else items;
    PaginatedItems(pageIndex, pageSize, |items|, data)
  }

  /** The page `CreateAsync` is evidently meant to return: the offset is the exact product. */
  function CreateAsync<T>(pageIndex: int, pageSize: int, items: seq<T>): (r: PaginatedItems<T>)
    requires IsInt32(pageIndex) && IsInt32(pageSize)
    ensures r.pageIndex == pageIndex && r.pageSize == pageSize && r.totalItems == |items|
    ensures pageSize < 0 ==> r.data == items
    ensures pageSize >= 0 ==> |r.data| <= pageSize
  {
    var data := if pageSize >= 0 then Take(Skip(items, pageSize * (pageIndex - 1)), pageSize) else items;
    PaginatedItems(pageIndex, pageSize, |items|, data)
  }

  /** Skipping m items after the first n is skipping m + n items. */
  lemma SkipSkip<T>(s: seq<T>, n: nat, m: nat)
    requires n <= |s|
    ensures Skip(s[n..], m) == Skip(s, m + n)
  {
    if m < |s| - n {
      assert s[n..][m..] == s[m + n..];
    }
  }

  lemma MulPred(k: int, n: int)
    ensures (k - 1) * n + n == k * n
  {
  }

  /** An offset of at least `pages` whole pages lies at or past the end of items that fill `pages` pages. */
  lemma OffsetPastEnd(count: nat, pageSize: int, pages: int, k: int)
    requires pageSize > 0 && count <= pages * pageSize && pages <= k
    ensures count <= pageSize * k
  {
    MulMono(pages, k, pageSize);
  }

  /** Batch k of the splitting is the slice that skips k whole batches and takes one. */
  lemma {:induction false} ChunkAt<T>(s: seq<T>, n: nat, k: nat)
    requires n > 0 && k < |Chunks(s, n)|
    ensures Chunks(s, n)[k] == Take(Skip(s, k * n), n)
    decreases k
  {
    if k == 0 {
      if |s| <= n {
        assert Chunks(s, n) == [s];
      } else {
        assert Chunks(s, n) == [s[..n]] + Chunks(s[n..], n);
      }
    } else {
      var t := s[n..];
      assert Chunks(s, n)[k] == Chunks(t, n)[k - 1] by {
        assert Chunks(s, n) == [s[..n]] + Chunks(t, n);
      }
      ChunkAt(t, n, k - 1);
      var m := (k - 1) * n;
      assert Skip(t, m) == Skip(s, k * n) by {
        MulPred(k, n);
        SkipSkip(s, n, m);
      }
    }
  }

  /** With a positive page size the page count is the number of batches the items split into. */
  lemma PageCount<T>(pageSize: int, items: seq<T>)
    requires pageSize > 0
    ensures PaginatedItems(1, pageSize, |items|, items).TotalPages() == |Chunks(items, pageSize)|
  {
    ChunksCount(items, pageSize);
    assert (|items| + pageSize - 1) / pageSize == CeilDiv(|items|, pageSize);
  }

  /**
   * With a positive page size, page i (1-based) of the corrected `CreateAsync` is batch i - 1 of
   * splitting the items into batches of that size; a page past the last one is empty, and an index
   * below 1 gives the first page's slice.
   */
  lemma PagesAreChunks<T>(pageIndex: int, pageSize: int, items: seq<T>)
    requires IsInt32(pageIndex) && IsInt32(pageSize) && pageSize > 0
    ensures var p := CreateAsync(pageIndex, pageSize, items);
      && p.TotalPages() == |Chunks(items, pageSize)|
      && (1 <= pageIndex <= p.TotalPages() ==> p.data == Chunks(items, pageSize)[pageIndex - 1])
      && (pageIndex > p.TotalPages() ==> p.data == [])
      && (pageIndex < 1 ==> p.data == Take(items, pageSize))
  {
    var r := CreateAsync(pageIndex, pageSize, items).TotalPages();
    PageCount(pageSize, items);
    assert r == PaginatedItems(1, pageSize, |items|, items).TotalPages();
    if 1 <= pageIndex <= r {
      PageInRange(pageIndex, pageSize, items);
    } else if pageIndex > r {
      OffsetPastEnd(|items|, pageSize, r, pageIndex - 1);
    } else {
      assert pageSize * (pageIndex - 1) <= 0 by {
        MulMono(pageIndex - 1, 0, pageSize);
      }
    }
  }

  lemma PageInRange<T>(pageIndex: int, pageSize: int, items: seq<T>)
    requires IsInt32(pageIndex) && IsInt32(pageSize) && pageSize > 0
    requires 1 <= pageIndex <= |Chunks(items, pageSize)|
    ensures CreateAsync(pageIndex, pageSize, items).data == Chunks(items, pageSize)[pageIndex - 1]
  {
    ChunkAt(items, pageSize, pageIndex - 1);
    assert pageSize * (pageIndex - 1) == (pageIndex - 1) * pageSize;
  }

  /** Splicing every page 1 .. TotalPages back together gives all the items, in order. */
  lemma PagesCoverItems<T>(pageSize: int, items: seq<T>)
    requires IsInt32(pageSize) && pageSize > 0
    ensures Flatten(Chunks(items, pageSize)) == items
    ensures |Chunks(items, pageSize)| == CreateAsync(1, pageSize, items).TotalPages()
  {
    ChunksFlatten(items, pageSize);
    PagesAreChunks(1, pageSize, items);
  }

  /** For a positive page size and an index of at least 1, a next page exists iff the next page's slice is non-empty. */
  lemma NextPageIff<T>(pageIndex: int, pageSize: int, items: seq<T>)
    requires IsInt32(pageIndex) && IsInt32(pageSize) && pageSize > 0 && pageIndex >= 1
    requires IsInt32(pageIndex + 1)
    ensures CreateAsync(pageIndex, pageSize, items).HasNextPage()
        <==> CreateAsync(pageIndex + 1, pageSize, items).data != []
  {
    var p := CreateAsync(pageIndex, pageSize, items);
    var r := p.TotalPages();
    if pageIndex < r {
      MulMono(pageIndex, r - 1, pageSize);
      assert pageIndex * pageSize < |items|;
      assert Skip(items, pageSize * pageIndex) == items[pageSize * pageIndex..];
    } else {
      MulMono(r, pageIndex, pageSize);
      assert pageSize * pageIndex >= |items|;
    }
  }

  /** Nine items in pages of five: two pages, five items then four, and no page after the second. */
  lemma NineItemsInPagesOfFive(items: seq<int>)
    requires |items| == 9
    ensures var p1, p2 := CreateAsync(1, 5, items), CreateAsync(2, 5, items);
      && p1.TotalPages() == 2 && p1.HasNextPage() && p1.data == items[..5]
      && p2.TotalPages() == 2 && !p2.HasNextPage() && p2.data == items[5..]
  {
    assert CeilDiv(9, 5) == 2;
  }

  /** Whenever neither subtraction nor product leaves the Int32 range, the library's page is the intended one. */
  lemma AsWrittenAgreesWithoutOverflow<T>(pageIndex: int, pageSize: int, items: seq<T>)
    requires IsInt32(pageIndex) && IsInt32(pageSize)
    requires IsInt32(pageIndex - 1) && IsInt32(pageSize * (pageIndex - 1))
    ensures CreateAsyncAsWritten(pageIndex, pageSize, items) == CreateAsync(pageIndex, pageSize, items)
  {
    WrapSpec(pageIndex - 1);
    WrapSpec(pageSize * (pageIndex - 1));
  }

  /**
   * Page 21476 of size 100000 asks to skip 2147500000 items.  In Int32 that product wraps to
   * -2147467296, `Skip` of a negative count skips nothing, and a one-item query returns its item
   * on a page that should be empty.
   */
  lemma AsWrittenOverflowReturnsFirstPage(x: int)
    ensures IsInt32(21476) && IsInt32(100000)
    ensures Wrap32(100000 * (21476 - 1)) == -2147467296
    ensures CreateAsyncAsWritten(21476, 100000, [x]).data == [x]
    ensures CreateAsync(21476, 100000, [x]).data == []
  {
  }
}
