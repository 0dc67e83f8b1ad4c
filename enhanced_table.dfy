/** The enhanced-table hook: a sort on one column, substring filters per column and one
    global substring filter, 0-based pagination, and a row-selection map. */
module EnhancedTable {
  import opened Js
  import opened Collections
  import opened Sorting
  import opened Pagination
  import opened Notifications

  /** The `sorting` state, `{ id, desc }`; an empty id means unsorted. */
  datatype SortState = SortState(id: string, desc: bool)

  /** One entry of `columnFilters`, `{ id, value }`. */
  datatype ColumnFilter = ColumnFilter(id: string, value: string)

  /** A string starting with '$', which the hook parses as a currency amount. */
  predicate IsCurrency(v: Value) {
    v.Str? && |v.s| > 0 && v.s[0] == '$'
  }

  /** No row holds a currency string in the sorted column. */
  predicate NoCurrency(data: seq<Record>, sorting: SortState) {
    sorting.id != "" ==> forall x | x in data :: !IsCurrency(Prop(x, sorting.id))
  }

  /** `sortedData`: the data itself when no column is chosen, otherwise a sorted copy;
      ascending unless `desc` is set. Sorting keeps every row, and on a column of one kind
      it puts the rows in comparator order. */
  function SortedData(data: seq<Record>, sorting: SortState): (r: seq<Record>)
    requires NoCurrency(data, sorting)
    ensures multiset(r) == multiset(data)
    ensures sorting.id == "" ==> r == data
    ensures sorting.id != "" && Uniform(data, sorting.id) ==> Ordered(r, sorting.id, !sorting.desc)
  {
    if sorting.id == "" then data
    else
      var sorted := SortedBy(data, sorting.id, !sorting.desc);
      assert Uniform(data, sorting.id) ==> Ordered(sorted, sorting.id, !sorting.desc) by {
        if Uniform(data, sorting.id) {
          SortedByOrdered(data, sorting.id, !sorting.desc);
        }
      }
      sorted
  }

  /** For values that are not currency strings the comparator orders ascending unless `desc`
      is set, and returns 0 on ties. */
  lemma ComparatorMeaning(a: Record, b: Record, sorting: SortState)
    ensures var c := Compare(a, b, sorting.id, !sorting.desc);
      var x, y := Prop(a, sorting.id), Prop(b, sorting.id);
      && (Less(x, y) ==> c == if sorting.desc then 1 else -1)
      && (Less(y, x) ==> c == if sorting.desc then -1 else 1)
      && (!Less(x, y) && !Less(y, x) ==> c == 0)
  {
    LessAsymmetric(Prop(a, sorting.id), Prop(b, sorting.id));
  }

  /** `value?.toString().toLowerCase().includes(needle.toLowerCase())`: false for undefined and null. */
  predicate ContainsText(v: Value, needle: string) {
    !Nullish(v) && Contains(Lower(ToStr(v)), Lower(needle))
  }

  predicate PassesColumnFilters(row: Record, filters: seq<ColumnFilter>) {
    forall i :: 0 <= i < |filters| ==> ContainsText(Prop(row, filters[i].id), filters[i].value)
  }

  predicate PassesGlobalFilter(row: Record, term: string) {
    exists k | k in row :: ContainsText(row[k], term)
  }

  /** A row passes every column filter and, when one is set, the global filter. */
  predicate PassesFilters(row: Record, columnFilters: seq<ColumnFilter>, globalFilter: string) {
    PassesColumnFilters(row, columnFilters) && (globalFilter != "" ==> PassesGlobalFilter(row, globalFilter))
  }

  /** The column-filter pass (run only when there are column filters), then the global-filter
      pass (run only when the term is non-empty). */
  function Narrowed(rows: seq<Record>, columnFilters: seq<ColumnFilter>, globalFilter: string): seq<Record> {
    var byColumn := if |columnFilters| > 0 then Where(rows, row => PassesColumnFilters(row, columnFilters)) else rows;
    if globalFilter != "" then Where(byColumn, row => PassesGlobalFilter(row, globalFilter)) else byColumn
  }

  /** The two filter passes are one filter by both tests. */
  lemma NarrowedIsOneFilter(rows: seq<Record>, columnFilters: seq<ColumnFilter>, globalFilter: string)
    ensures Narrowed(rows, columnFilters, globalFilter) == Where(rows, row => PassesFilters(row, columnFilters, globalFilter))
  {
    var column := row => PassesColumnFilters(row, columnFilters);
    var global := row => PassesGlobalFilter(row, globalFilter);
    var all := row => PassesFilters(row, columnFilters, globalFilter);
    if |columnFilters| == 0 {
      WhereAll(rows, column);
    }
    if globalFilter != "" {
      WhereWhere(rows, column, global, all);
    } else {
      WhereCongruent(rows, column, all);
    }
  }

  /** `filteredData`: the sorted rows, narrowed by the column filters and then by the global
      filter. That is one filter of the sorted rows by both tests, so the rows shown are
      exactly the rows whose every filter column contains its filter value and, when a global
      filter is set, some of whose values contain it. */
  function FilteredData(data: seq<Record>, sorting: SortState, columnFilters: seq<ColumnFilter>, globalFilter: string): (r: seq<Record>)
    requires NoCurrency(data, sorting)
    ensures r == Where(SortedData(data, sorting), row => PassesFilters(row, columnFilters, globalFilter))
    ensures forall x :: x in r <==> x in data && PassesFilters(x, columnFilters, globalFilter)
  {
    var sorted := SortedData(data, sorting);
    NarrowedIsOneFilter(sorted, columnFilters, globalFilter);
    assert forall x :: x in sorted <==> x in multiset(sorted);
    assert forall x :: x in data <==> x in multiset(data);
    Narrowed(sorted, columnFilters, globalFilter)
  }

  /** Filtering keeps the sorted order. */
  lemma FilteredDataKeepsSortedOrder(data: seq<Record>, sorting: SortState, columnFilters: seq<ColumnFilter>, globalFilter: string)
    requires NoCurrency(data, sorting)
    ensures Subseq(FilteredData(data, sorting, columnFilters, globalFilter), SortedData(data, sorting))
  {
    WhereIsSubseq(SortedData(data, sorting), row => PassesFilters(row, columnFilters, globalFilter));
  }

  /** `paginatedData`: the 0-based page `pageIndex` of the filtered rows, which is the
      1-based page `pageIndex + 1`. */
  function PaginatedData(filtered: seq<Record>, pageIndex: int, pageSize: PageSize): (r: seq<Record>)
    ensures |r| <= pageSize
    ensures r == PageOf(filtered, pageIndex + 1, pageSize)
  {
    var start := pageIndex * pageSize;
    assert start == (pageIndex + 1 - 1) * pageSize;
    PageStart(pageIndex + 1, pageSize);
    Slice(filtered, start, start + pageSize)
  }

  /** `selectedCount`: the number of keys in the selection map, whatever their values; so
      `hasSelection` (a count above 0) holds exactly when the map has some key. */
  function SelectedCount(rowSelection: map<string, bool>): (n: nat)
    ensures n == 0 <==> rowSelection == map[]
  {
    |rowSelection.Keys|
  }

  /** A row toggled back to false still counts as selected. */
  lemma SelectedCountIgnoresValues(rowSelection: map<string, bool>, row: string, selected: bool)
    requires row in rowSelection
    ensures SelectedCount(rowSelection[row := selected]) == SelectedCount(rowSelection)
  {
    assert rowSelection[row := selected].Keys == rowSelection.Keys;
  }

  class EnhancedTable {
    var sorting: SortState
    var columnFilters: seq<ColumnFilter>
    var globalFilter: string
    var rowSelection: map<string, bool>
    var pageIndex: int
    var pageSize: PageSize

    /** `useEnhancedTable({ defaultSort })` */
    constructor (defaultSort: SortState)
      ensures sorting == defaultSort && columnFilters == [] && globalFilter == ""
      ensures rowSelection == map[] && pageIndex == 0 && pageSize == 10
    {
      sorting := defaultSort;
      columnFilters := [];
      globalFilter := "";
      rowSelection := map[];
      pageIndex := 0;
      pageSize := 10;
    }

    method SetSorting(s: SortState)
      modifies this`sorting
      ensures sorting == s
    {
      sorting := s;
    }

    method SetColumnFilters(filters: seq<ColumnFilter>)
      modifies this`columnFilters
      ensures columnFilters == filters
    {
      columnFilters := filters;
    }

    method SetGlobalFilter(term: string)
      modifies this`globalFilter
      ensures globalFilter == term
    {
      globalFilter := term;
    }

    method SetRowSelection(selection: map<string, bool>)
      modifies this`rowSelection
      ensures rowSelection == selection
    {
      rowSelection := selection;
    }

    method SetPagination(index: int, size: PageSize)
      modifies this`pageIndex, this`pageSize
      ensures pageIndex == index && pageSize == size
    {
      pageIndex := index;
      pageSize := size;
    }

    /** `clearSelection()` */
    method ClearSelection()
      modifies this`rowSelection
      ensures rowSelection == map[] && SelectedCount(rowSelection) == 0
    {
      rowSelection := map[];
    }

    /** `handleBulkAction(action)`, async. For 'delete', 'archive' and 'export' the hook first
        shows a success notification; `notified` says whether that call returned normally.
        The selection is emptied unless it threw; then the catch's `error` throws too and the
        promise rejects. */
    method HandleBulkAction(action: string, notified: bool) returns (settled: Result<()>)
      modifies this`rowSelection
      ensures settled.Ok? <==> notified || action !in {"delete", "archive", "export"}
      ensures notified || action !in {"delete", "archive", "export"} ==> rowSelection == map[]
      ensures !notified && action in {"delete", "archive", "export"} ==> rowSelection == old(rowSelection)
    {
      if notified || action !in {"delete", "archive", "export"} {
        rowSelection := map[];
        settled := Ok(());
      } else {
        settled := Settle(notified, ());
      }
    }

    /** `paginatedData`: at most a page size of the filtered rows, the 1-based page
        `pageIndex + 1` of them. */
    function Page(data: seq<Record>): (r: seq<Record>)
      reads this
      requires NoCurrency(data, sorting)
      ensures |r| <= pageSize
      ensures r == PageOf(FilteredData(data, sorting, columnFilters, globalFilter), pageIndex + 1, pageSize)
    {
      PaginatedData(FilteredData(data, sorting, columnFilters, globalFilter), pageIndex, pageSize)
    }

    /** `pageCount`: ceil(totalRows / pageSize), where `totalRows` is the number of filtered rows. */
    function PageCount(data: seq<Record>): (n: nat)
      reads this
      requires NoCurrency(data, sorting)
      ensures n * pageSize >= |FilteredData(data, sorting, columnFilters, globalFilter)|
      ensures n > 0 ==> (n - 1) * pageSize < |FilteredData(data, sorting, columnFilters, globalFilter)|
    {
      TotalPages(|FilteredData(data, sorting, columnFilters, globalFilter)|, pageSize)
    }
  }
}
