/** Page arithmetic shared by the pagination hook, the data-table hook and the deal
    table store: page counts, page slices and the clamping of a requested page. */
module Pagination {
  import opened Js

  /** A page size. The hooks are only ever given positive sizes; with a size of zero
      or less JavaScript's division yields Infinity or NaN. */
  type PageSize = n: int | n > 0 witness 10

  function Min(a: int, b: int): int {
    if a < b then a else b
  }

  /** `Math.ceil(length / pageSize)`: the fewest pages of `pageSize` items that hold `length` items. */
  function TotalPages(length: nat, pageSize: PageSize): (t: nat)
    ensures length <= t * pageSize
    ensures t > 0 ==> (t - 1) * pageSize < length
    ensures t == 0 <==> length == 0
  {
    var t := (length + pageSize - 1) / pageSize;
    assert t * pageSize <= length + pageSize - 1 < (t + 1) * pageSize;
    t
  }

  /** `data.slice(start, start + pageSize)` with `start = (page - 1) * pageSize`: the 1-based page `page`. */
  function PageOf<T>(data: seq<T>, page: int, pageSize: PageSize): (r: seq<T>)
    ensures |r| <= pageSize
    ensures 1 <= page && (page - 1) * pageSize <= |data| ==>
              r == data[(page - 1) * pageSize .. Min(page * pageSize, |data|)]
    ensures 1 <= page && (page - 1) * pageSize >= |data| ==> r == []
  {
    var start, end := (page - 1) * pageSize, page * pageSize;
    assert end == start + pageSize;
    assert 1 <= page ==> 0 <= start;
    var r := Slice(data, start, end);
    assert 1 <= page && start <= |data| ==> r == data[start..Min(end, |data|)];
    r
  }

  /** `Math.max(1, Math.min(page, totalPages))` */
  function ClampPage(page: int, totalPages: nat): (p: int)
    ensures p >= 1
    ensures totalPages >= 1 ==> p <= totalPages
    ensures 1 <= page <= totalPages ==> p == page
    ensures page > totalPages >= 1 ==> p == totalPages
    ensures page < 1 || totalPages == 0 ==> p == 1
  {
    var lower := if page < totalPages then page else totalPages;
    if lower < 1 then 1 else lower
  }

  /** The first `k` pages, one after another. */
  function Pages<T>(data: seq<T>, pageSize: PageSize, k: nat): seq<T> {
    if k == 0 then [] else Pages(data, pageSize, k - 1) + PageOf(data, k, pageSize)
  }

  /** The first `k` pages are exactly the first k * pageSize items. */
  lemma {:induction false} PagesArePrefix<T>(data: seq<T>, pageSize: PageSize, k: nat)
    ensures Pages(data, pageSize, k) == data[..Min(k * pageSize, |data|)]
  {
    if k > 0 {
      PagesArePrefix(data, pageSize, k - 1);
      var start := (k - 1) * pageSize;
      PageStart(k, pageSize);
      if start <= |data| {
        assert Min(start, |data|) == start;
        assert data[..start] + data[start..Min(k * pageSize, |data|)] == data[..Min(k * pageSize, |data|)];
      } else {
        assert Min(start, |data|) == |data| == Min(k * pageSize, |data|);
      }
    }
  }

  /** Reading every page in turn gives back the data: no item is lost or repeated. */
  lemma PagesCoverData<T>(data: seq<T>, pageSize: PageSize)
    ensures Pages(data, pageSize, TotalPages(|data|, pageSize)) == data
  {
    var t := TotalPages(|data|, pageSize);
    PagesArePrefix(data, pageSize, t);
    assert Min(t * pageSize, |data|) == |data|;
  }

  /** There is a next page exactly when the page after `page` holds data. */
  lemma NextPageHoldsData<T>(data: seq<T>, page: int, pageSize: PageSize)
    requires page >= 0
    ensures page < TotalPages(|data|, pageSize) <==> PageOf(data, page + 1, pageSize) != []
  {
    var t := TotalPages(|data|, pageSize);
    var start := page * pageSize;
    assert start == (page + 1 - 1) * pageSize;
    if page < t {
      MulMonotone(page, t - 1, pageSize);
      assert start < |data|;
      assert PageOf(data, page + 1, pageSize) == data[start..Min((page + 1) * pageSize, |data|)];
      assert (page + 1) * pageSize == start + pageSize;
    } else {
      MulMonotone(t, page, pageSize);
      assert start >= |data|;
    }
  }

  /** A page from the first on holds data exactly when it is not past the last page. */
  lemma PageHoldsData<T>(data: seq<T>, page: int, pageSize: PageSize)
    ensures 1 <= page ==> (PageOf(data, page, pageSize) != [] <==> page <= TotalPages(|data|, pageSize))
  {
    if 1 <= page {
      NextPageHoldsData(data, page - 1, pageSize);
    }
  }

  /** Pages before the last one are exactly those with items beyond them. */
  lemma ItemsBeyondPage(page: int, length: nat, pageSize: PageSize)
    ensures page >= 0 ==> (page < TotalPages(length, pageSize) <==> page * pageSize < length)
  {
    var t := TotalPages(length, pageSize);
    if 0 <= page < t {
      MulMonotone(page, t - 1, pageSize);
    } else if page >= t {
      MulMonotone(t, page, pageSize);
    }
  }

  /** Page `page` starts one page size before the next one starts, and from the first page on
      it starts at a position that is not negative. */
  lemma PageStart(page: int, pageSize: PageSize)
    ensures page * pageSize == (page - 1) * pageSize + pageSize
    ensures 1 <= page ==> 0 <= (page - 1) * pageSize
  {
  }

  lemma MulMonotone(a: int, b: int, c: nat)
    requires a <= b
    ensures a * c <= b * c
  {
  }

  /** The state of the pagination hook: the current 1-based page and the page size. */
  class Pager {
    var currentPage: int
    var pageSize: PageSize

    /** `usePagination({ itemsPerPage, initialPage })` */
    constructor (itemsPerPage: PageSize, initialPage: int)
      ensures currentPage == initialPage && pageSize == itemsPerPage
    {
      currentPage := initialPage;
      pageSize := itemsPerPage;
    }

    /** `paginatedData`: at most a page size of items, the slice of the data that the current
        page covers; it is empty exactly when the current page lies past the last page. */
    function Page<T>(data: seq<T>): (r: seq<T>)
      reads this
      ensures |r| <= pageSize
      ensures 1 <= currentPage && (currentPage - 1) * pageSize <= |data| ==>
                r == data[(currentPage - 1) * pageSize .. Min(currentPage * pageSize, |data|)]
      ensures 1 <= currentPage ==> (r != [] <==> currentPage <= TotalPages(|data|, pageSize))
    {
      PageStart(currentPage, pageSize);
      PageHoldsData(data, currentPage, pageSize);
      PageOf(data, currentPage, pageSize)
    }

    /** `hasNextPage`, for data of `length` items: some item lies beyond the current page. */
    function HasNextPage(length: nat): (b: bool)
      reads this
      ensures currentPage >= 0 ==> (b <==> currentPage * pageSize < length)
    {
      ItemsBeyondPage(currentPage, length, pageSize);
      currentPage < TotalPages(length, pageSize)
    }

    /** `hasPreviousPage`: for data of `length` items, on a page up to the last one, it holds
        exactly when the page before is a page that `goToPage` keeps, so that `previousPage()`
        moves back one page. */
    function HasPreviousPage(length: nat): (b: bool)
      reads this
      ensures currentPage <= TotalPages(length, pageSize) ==>
                (b <==> ClampPage(currentPage - 1, TotalPages(length, pageSize)) == currentPage - 1)
    {
      currentPage > 1
    }

    /** `goToPage(page)` for data of `length` items. */
    method GoToPage(page: int, length: nat)
      modifies this`currentPage
      ensures currentPage == ClampPage(page, TotalPages(length, pageSize))
    {
      currentPage := ClampPage(page, TotalPages(length, pageSize));
    }

    /** `nextPage()`: on the last page it stays put. */
    method NextPage(length: nat)
      modifies this`currentPage
      ensures currentPage == ClampPage(old(currentPage) + 1, TotalPages(length, pageSize))
      ensures 1 <= old(currentPage) == TotalPages(length, pageSize) ==> currentPage == old(currentPage)
      ensures 1 <= old(currentPage) && old(HasNextPage(length)) ==> currentPage == old(currentPage) + 1
    {
      GoToPage(currentPage + 1, length);
    }

    /** `previousPage()`: on the first page it stays put. */
    method PreviousPage(length: nat)
      modifies this`currentPage
      ensures currentPage == ClampPage(old(currentPage) - 1, TotalPages(length, pageSize))
      ensures old(currentPage) == 1 ==> currentPage == 1
      ensures old(HasPreviousPage(length)) && old(currentPage) <= TotalPages(length, pageSize) ==>
                currentPage == old(currentPage) - 1
    {
      GoToPage(currentPage - 1, length);
    }

    /** `changePageSize(newSize)`: the new size, back to the first page. */
    method ChangePageSize(newSize: PageSize)
      modifies this
      ensures pageSize == newSize && currentPage == 1
    {
      pageSize := newSize;
      currentPage := 1;
    }
  }
}
