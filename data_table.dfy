/** The data-table hook: a sort setting toggled by column clicks, equality filters,
    a search over chosen fields, and a pager over the filtered rows that every change
    of filter or search sends back to the first page. */
module DataTable {
  import opened Js
  import opened Collections
  import opened Sorting
  import opened Pagination
  import opened Pipeline

  /** Some listed field of the row contains the term, case-insensitively
      (`fields.some(f => String(item[f]).toLowerCase().includes(term))`). */
  predicate FieldsMention(item: Record, fields: seq<string>, term: string) {
    exists i :: 0 <= i < |fields| && TextMatches(Prop(item, fields[i]), Lower(term))
  }

  function FieldSearch(fields: seq<string>, term: string): Record -> bool {
    item => FieldsMention(item, fields, term)
  }

  /** A filter entry applies unless its value is undefined, null or the empty string. */
  predicate Present(v: Value) {
    v != Undefined && v != Null && v != Str("")
  }

  /** `filteredData` as a function of the hook's inputs and state. The search runs only
      when both the term and the list of search fields are non-empty. The output holds only
      rows, each at most as often as it occurs, and a row is listed exactly when some search
      field mentions the term (when searching) and it equals every filter value that is not
      undefined, null or ''. */
  function FilteredDataOf(data: seq<Record>, fields: seq<string>, searchTerm: string,
                          filters: map<string, Value>, sort: SortConfig): (r: seq<Record>)
    ensures multiset(r) <= multiset(data)
    ensures forall x :: x in r <==>
              x in data
              && (searchTerm != "" && |fields| > 0 ==> FieldsMention(x, fields, searchTerm))
              && (forall k | k in filters && Present(filters[k]) :: Prop(x, k) == filters[k])
  {
    Processed(data, searchTerm != "" && |fields| > 0, FieldSearch(fields, searchTerm), filters, Present, sort)
  }

  /** Unsorted the output keeps the rows' order; sorted by a column of one kind it is
      ascending or descending by that column. */
  lemma FilteredDataOrder(data: seq<Record>, fields: seq<string>, searchTerm: string,
                          filters: map<string, Value>, sort: SortConfig)
    ensures var r := FilteredDataOf(data, fields, searchTerm, filters, sort);
      && (!sort.Active() ==> Subseq(r, data))
      && (sort.Active() && Uniform(data, sort.key) && sort.Ascending() ==>
            forall i, j :: 0 <= i < j < |r| ==> !Less(Prop(r[j], sort.key), Prop(r[i], sort.key)))
      && (sort.Active() && Uniform(data, sort.key) && !sort.Ascending() ==>
            forall i, j :: 0 <= i < j < |r| ==> !Less(Prop(r[i], sort.key), Prop(r[j], sort.key)))
  {
    var searching, search := searchTerm != "" && |fields| > 0, FieldSearch(fields, searchTerm);
    if sort.Active() {
      if Uniform(data, sort.key) {
        ProcessedSortedOrdered(data, searching, search, filters, Present, sort);
      }
    } else {
      ProcessedUnsortedKeepsOrder(data, searching, search, filters, Present, sort);
    }
  }

  /** `handleSort(column)`: a click on the column sorted ascending turns it descending;
      any other click sorts the clicked column ascending. */
  function NextSort(current: SortConfig, column: string): (r: SortConfig)
    ensures r.key == column
    ensures r.direction == "asc" || r.direction == "desc"
    ensures !r.Ascending() <==> current.key == column && current.Ascending()
  {
    SortConfig(column, if current.key == column && current.direction == "asc" then "desc" else "asc")
  }

  /** Clicking the same column again always flips the direction. */
  lemma NextSortAlternates(current: SortConfig, column: string)
    ensures NextSort(NextSort(current, column), column).Ascending() == !NextSort(current, column).Ascending()
  {
  }

  class DataTable {
    const searchFields: seq<string>
    const initialFilters: map<string, Value>
    const pager: Pager
    var sortConfig: SortConfig
    var filters: map<string, Value>
    var searchTerm: string

    /** `useDataTable({ initialSort, initialFilters, searchFields, itemsPerPage })` */
    constructor (initialSort: SortConfig, startFilters: map<string, Value>, fields: seq<string>, itemsPerPage: PageSize)
      ensures sortConfig == initialSort && filters == startFilters && searchTerm == ""
      ensures initialFilters == startFilters && searchFields == fields
      ensures fresh(pager) && pager.currentPage == 1 && pager.pageSize == itemsPerPage
    {
      searchFields := fields;
      initialFilters := startFilters;
      pager := new Pager(itemsPerPage, 1);
      sortConfig := initialSort;
      filters := startFilters;
      searchTerm := "";
    }

    /** `filteredData`, computed on a copy of `data`. */
    method FilteredData(data: seq<Record>) returns (r: seq<Record>)
      ensures r == FilteredDataOf(data, searchFields, searchTerm, filters, sortConfig)
    {
      r := Process(data, searchTerm != "" && |searchFields| > 0, FieldSearch(searchFields, searchTerm),
                   filters, Present, sortConfig);
    }

    /** `data`: the current page of the filtered rows. */
    method CurrentPage(data: seq<Record>) returns (r: seq<Record>)
      ensures r == PageOf(FilteredDataOf(data, searchFields, searchTerm, filters, sortConfig), pager.currentPage, pager.pageSize)
      ensures |r| <= pager.pageSize
    {
      var filtered := FilteredData(data);
      var start := (pager.currentPage - 1) * pager.pageSize;
      r := Slice(filtered, start, start + pager.pageSize);
    }

    method HandleSort(column: string)
      modifies this`sortConfig
      ensures sortConfig == NextSort(old(sortConfig), column)
    {
      sortConfig := NextSort(sortConfig, column);
    }

    /** `handleFilter(key, value)`: set one filter entry and go back to page 1. */
    method HandleFilter(key: string, value: Value, data: seq<Record>)
      modifies this`filters, pager`currentPage
      ensures filters == old(filters)[key := value]
      ensures pager.currentPage == 1
    {
      var length := |FilteredDataOf(data, searchFields, searchTerm, filters, sortConfig)|;
      filters := filters[key := value];
      pager.GoToPage(1, length);
    }

    /** `handleSearch(term)`: set the search term and go back to page 1. */
    method HandleSearch(term: string, data: seq<Record>)
      modifies this`searchTerm, pager`currentPage
      ensures searchTerm == term
      ensures pager.currentPage == 1
    {
      var length := |FilteredDataOf(data, searchFields, searchTerm, filters, sortConfig)|;
      searchTerm := term;
      pager.GoToPage(1, length);
    }

    /** `clearFilters()`: the initial filters, no search term, page 1. */
    method ClearFilters(data: seq<Record>)
      modifies this`filters, this`searchTerm, pager`currentPage
      ensures filters == initialFilters && searchTerm == ""
      ensures pager.currentPage == 1
    {
      var length := |FilteredDataOf(data, searchFields, searchTerm, filters, sortConfig)|;
      filters := initialFilters;
      searchTerm := "";
      pager.GoToPage(1, length);
    }
  }
}
