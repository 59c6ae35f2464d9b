/** The page envelope shared by `getPools`, `getLoans`, `getPoolEvents` and `getLoanEvents`
    (lib/api/services.ts): `page` and `pageSize` default to 1 and 10 when absent or 0,
    `totalPages = Math.ceil(totalItems / pageSize)`, and the page is
    `items.slice((page - 1) * pageSize, (page - 1) * pageSize + pageSize)`. */
module Paging {
  import opened Wrappers
  import opened Seqs

  datatype Pagination = Pagination(page: int, pageSize: int, totalItems: nat, totalPages: int)
  datatype Paginated<T> = Paginated(data: seq<T>, pagination: Pagination)

  function Paginate<T>(items: seq<T>, page: Option<int>, pageSize: Option<int>): (r: Paginated<T>)
    ensures r.pagination.page == (if page.Some? && page.value != 0 then page.value else 1)
    ensures r.pagination.pageSize == (if pageSize.Some? && pageSize.value != 0 then pageSize.value else 10)
    ensures r.pagination.totalItems == |items|
    ensures r.data == PageSlice(items, r.pagination.page, r.pagination.pageSize)
  {
    var p := OrDefault(page, 1);
    var size := OrDefault(pageSize, 10);
    Paginated(PageSlice(items, p, size), Pagination(p, size, |items|, CeilDiv(|items|, size)))
  }

  /** `totalPages` is the least whole number of pages of `pageSize` items that holds every item. */
  lemma TotalPagesIsCeiling<T>(items: seq<T>, page: Option<int>, pageSize: Option<int>)
    ensures var p := Paginate(items, page, pageSize).pagination;
      (p.totalPages - 1) as real < |items| as real / p.pageSize as real <= p.totalPages as real
  {
  }

  /** `items.slice((page - 1) * size, (page - 1) * size + size)`. */
  function PageSlice<T>(items: seq<T>, page: int, size: int): (r: seq<T>)
    ensures |r| <= |items|
    ensures page >= 1 && size >= 1 ==>
      var start := (page - 1) * size;
      && |r| == Min(size, Max(0, |items| - start))
      && forall k :: 0 <= k < |r| ==> r[k] == items[start + k]
  {
    var start := (page - 1) * size;
    if page >= 1 && size >= 1 then
      MulNonNegative(page - 1, size);
      SliceFromStart(items, start, size);
      JsSlice(items, start, start + size)
    else
      JsSlice(items, start, start + size)
  }

  /** Every item on a page is one of the listed items. */
  lemma PageWithin<T>(items: seq<T>, page: int, size: int)
    ensures forall x :: x in PageSlice(items, page, size) ==> x in items
  {
    var start := (page - 1) * size;
    var from, to := SliceIndex(start, |items|), SliceIndex(start + size, |items|);
    assert PageSlice(items, page, size) == JsSlice(items, start, start + size);
    if from < to {
      forall x | x in items[from..to] ensures x in items {
        var k :| from <= k < to && items[k] == x;
      }
    }
  }

  lemma MulNonNegative(a: int, b: int)
    requires a >= 0 && b >= 0
    ensures a * b >= 0
  {
  }

  lemma SliceFromStart<T>(items: seq<T>, start: int, size: int)
    requires start >= 0 && size >= 1
    ensures var r := JsSlice(items, start, start + size);
      && |r| == Min(size, Max(0, |items| - start))
      && forall k :: 0 <= k < |r| ==> r[k] == items[start + k]
  {
  }

  /** Pages 1..k of a list, concatenated. */
  function PagesUpTo<T>(items: seq<T>, pageSize: int, k: nat): seq<T>
  {
    if k == 0 then [] else PagesUpTo(items, pageSize, k - 1) + Paginate(items, Some(k), Some(pageSize)).data
  }

  lemma {:induction false} PagesUpToPrefix<T>(items: seq<T>, pageSize: int, k: nat)
    requires pageSize >= 1
    ensures PagesUpTo(items, pageSize, k) == items[..Min(k * pageSize, |items|)]
  {
    if k > 0 {
      PagesUpToPrefix(items, pageSize, k - 1);
      var start := (k - 1) * pageSize;
      MulSucc(k, pageSize);
      MulNonNegative(k - 1, pageSize);
      var lo, hi := Min(start, |items|), Min(start + pageSize, |items|);
      PageIsWindow(items, k, pageSize);
      PrefixSplit(items, lo, hi);
    }
  }

  /** Page `k` (from 1) is the stretch of items from `(k - 1) * pageSize`, cut at the end of the list. */
  lemma PageIsWindow<T>(items: seq<T>, k: int, pageSize: int)
    requires k >= 1 && pageSize >= 1
    ensures var start := (k - 1) * pageSize;
      0 <= start &&
      Paginate(items, Some(k), Some(pageSize)).data == items[Min(start, |items|)..Min(start + pageSize, |items|)]
  {
    var start := (k - 1) * pageSize;
    MulNonNegative(k - 1, pageSize);
    var page := PageSlice(items, k, pageSize);
    var lo, hi := Min(start, |items|), Min(start + pageSize, |items|);
    assert |page| == hi - lo;
    assert page == items[lo..hi];
  }

  lemma PrefixSplit<T>(s: seq<T>, lo: int, hi: int)
    requires 0 <= lo <= hi <= |s|
    ensures s[..hi] == s[..lo] + s[lo..hi]
  {
  }

  lemma MulSucc(a: int, b: int)
    ensures a * b == (a - 1) * b + b
  {
  }

  /** Walking pages 1..totalPages with a positive page size yields every item exactly once, in order. */
  lemma PagesCoverAll<T>(items: seq<T>, pageSize: int)
    requires pageSize >= 1
    ensures var total := Paginate(items, None, Some(pageSize)).pagination.totalPages;
      total >= 0 && PagesUpTo(items, pageSize, total) == items
  {
    var total := CeilDiv(|items|, pageSize);
    CeilDivBounds(|items|, pageSize);
    assert total >= 0;
    PagesUpToPrefix(items, pageSize, total);
    assert Min(total * pageSize, |items|) == |items|;
  }

  /** Any page past the last one is empty. */
  lemma PastTheEndIsEmpty<T>(items: seq<T>, page: int, pageSize: int)
    requires pageSize >= 1
    requires page > Paginate(items, None, Some(pageSize)).pagination.totalPages && page >= 1
    ensures Paginate(items, Some(page), Some(pageSize)).data == []
  {
    var total := CeilDiv(|items|, pageSize);
    CeilDivBounds(|items|, pageSize);
    MulMonotone(total, page - 1, pageSize);
  }

  lemma MulMonotone(a: int, b: int, c: int)
    requires a <= b && c >= 0
    ensures a * c <= b * c
  {
  }
}
