/**
 * `paginate`: the page's window of the item list and whether the page is the
 * first or the last one. The window is Python's slice
 * `items[start : start + page_size]`, negative bounds included.
 */
module Pagination {

  const FIRST_PAGE: int := 1

  datatype PaginationResult<T> = PaginationResult(isLastPage: bool, isFirstPage: bool, items: seq<T>)

  function Min(a: int, b: int): int { if a <= b then a else b }
  function Max(a: int, b: int): int { if a <= b then b else a }

  /** A slice bound as Python resolves it against a sequence of length n. */
  function SliceBound(i: int, n: nat): (b: nat)
    ensures b <= n
  {
    if i < 0 then Max(i + n, 0) else Min(i, n)
  }

  /** `s[i:j]` with Python's rules for negative and out-of-range bounds. */
  function PySlice<T>(s: seq<T>, i: int, j: int): (r: seq<T>)
    ensures var a, b := SliceBound(i, |s|), SliceBound(j, |s|);
            r == if a < b then s[a..b] else []
  {
    var a, b := SliceBound(i, |s|), SliceBound(j, |s|);
    if a < b then s[a..b] else []
  }

  /** The number of pages: the item count divided by the page size, rounded
      up. */
  function TotalPages(n: nat, pageSize: int): (t: int)
    requires pageSize > 0
  {
    (n + pageSize - 1) / pageSize
  }

  function Paginate<T>(items: seq<T>, page: int, pageSize: int): (r: PaginationResult<T>)
    requires pageSize > 0
    ensures r.isFirstPage <==> page == FIRST_PAGE
    ensures r.isLastPage <==> page == TotalPages(|items|, pageSize) || |items| == 0
    ensures |r.items| <= pageSize
    ensures page >= 1 ==>
              r.items == items[Min((page - 1) * pageSize, |items|)..Min(page * pageSize, |items|)]
  {
    var start := (page - 1) * pageSize;
    var totalPages := TotalPages(|items|, pageSize);
    WindowArithmetic(page, pageSize);
    PaginationResult(
      page == totalPages || |items| == 0,
      page == FIRST_PAGE,
      PySlice(items, start, start + pageSize))
  }

  // ---------------------------------------------------------------------
  // Properties

  /** The page count is the ceiling of n / page_size. */
  lemma TotalPagesIsCeiling(n: nat, pageSize: int)
    requires pageSize > 0
    ensures n == 0 ==> TotalPages(n, pageSize) == 0
    ensures n > 0 ==> TotalPages(n, pageSize) >= 1
    ensures n > 0 ==> (TotalPages(n, pageSize) - 1) * pageSize < n <= TotalPages(n, pageSize) * pageSize
  {
    var t := TotalPages(n, pageSize);
    var q := n + pageSize - 1;
    assert q == t * pageSize + q % pageSize;
  }

  /** An empty list is the last page whatever the page number, and the first on page 1. */
  lemma EmptyList<T>(page: int, pageSize: int)
    requires pageSize > 0
    ensures Paginate<T>([], page, pageSize).isLastPage
    ensures Paginate<T>([], page, pageSize).items == []
    ensures page == 1 ==> Paginate<T>([], page, pageSize).isFirstPage
  {
  }

  /** A page past the end of a non-empty list is empty and not the last page. */
  lemma PastTheEnd<T>(items: seq<T>, page: int, pageSize: int)
    requires pageSize > 0
    requires |items| > 0 && page > TotalPages(|items|, pageSize)
    ensures Paginate(items, page, pageSize).items == []
    ensures !Paginate(items, page, pageSize).isLastPage
  {
    TotalPagesIsCeiling(|items|, pageSize);
    var t := TotalPages(|items|, pageSize);
    assert (page - 1) * pageSize >= t * pageSize by {
      MulMonotone(t, page - 1, pageSize);
    }
  }

  /** The last page of a non-empty list is not empty. */
  lemma LastPageHasItems<T>(items: seq<T>, pageSize: int)
    requires pageSize > 0 && |items| > 0
    ensures Paginate(items, TotalPages(|items|, pageSize), pageSize).isLastPage
    ensures Paginate(items, TotalPages(|items|, pageSize), pageSize).items != []
  {
    TotalPagesIsCeiling(|items|, pageSize);
  }

  /** Page 0 is always empty. */
  lemma PageZero<T>(items: seq<T>, pageSize: int)
    requires pageSize > 0
    ensures Paginate(items, 0, pageSize).items == []
    ensures !Paginate(items, 0, pageSize).isFirstPage
  {
  }

  /** A negative page is a window counted from the end of the list (Python's
      negative slicing): page -k covers the items (k+1)*size .. k*size from
      the end, clipped to the front. */
  lemma NegativePage<T>(items: seq<T>, page: int, pageSize: int)
    requires pageSize > 0 && page < 0
    ensures var n := |items|;
            var a := Max(n + (page - 1) * pageSize, 0);
            var b := Max(n + page * pageSize, 0);
            Paginate(items, page, pageSize).items == items[a..b]
  {
    assert page * pageSize < 0 by { MulMonotone(page, 0, pageSize); }
  }

  lemma WindowArithmetic(page: int, pageSize: int)
    requires pageSize > 0
    ensures (page - 1) * pageSize + pageSize == page * pageSize
    ensures page >= 1 ==> (page - 1) * pageSize >= 0
    ensures page <= 0 ==> page * pageSize <= 0
  {
    if page >= 1 { MulMonotone(0, page - 1, pageSize); }
    if page <= 0 { MulMonotone(page, 0, pageSize); }
  }

  lemma MulMonotone(a: int, b: int, c: int)
    requires a <= b && c > 0
    ensures a * c <= b * c
  {
  }

  /** Pages 1..k put back together. */
  function PagesUpTo<T>(items: seq<T>, pageSize: int, k: nat): seq<T>
    requires pageSize > 0
  {
    if k == 0 then [] else PagesUpTo(items, pageSize, k - 1) + Paginate(items, k, pageSize).items
  }

  lemma {:induction false} PagesUpToPrefix<T>(items: seq<T>, pageSize: int, k: nat)
    requires pageSize > 0
    ensures PagesUpTo(items, pageSize, k) == items[..Min(k * pageSize, |items|)]
  {
    if k > 0 {
      PagesUpToPrefix(items, pageSize, k - 1);
      WindowArithmetic(k, pageSize);
      var a := Min((k - 1) * pageSize, |items|);
      var b := Min(k * pageSize, |items|);
      assert items[..a] + items[a..b] == items[..b];
    }
  }

  /** Concatenating pages 1..total_pages gives back the whole list, in order. */
  lemma AllPages<T>(items: seq<T>, pageSize: int)
    requires pageSize > 0
    ensures PagesUpTo(items, pageSize, TotalPages(|items|, pageSize)) == items
  {
    TotalPagesIsCeiling(|items|, pageSize);
    PagesUpToPrefix(items, pageSize, TotalPages(|items|, pageSize));
  }
}
