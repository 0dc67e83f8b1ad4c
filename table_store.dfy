/** The deal table store: the deal list with its create, update and delete actions,
    a selection of row ids kept consistent with deletions, and the table settings
    (sort, equality filters, search term, pagination) that the derived views read. */
module TableStore {
  import opened Js
  import opened Collections
  import opened Sorting
  import opened Pagination
  import opened Pipeline
  import opened Selection

  /** Some property value of the deal contains the term, case-insensitively
      (`Object.values(deal).some(v => String(v).toLowerCase().includes(term))`). */
  predicate Mentions(deal: Record, term: string) {
    exists k | k in deal :: TextMatches(deal[k], Lower(term))
  }

  function DealSearch(term: string): Record -> bool {
    d => Mentions(d, term)
  }

  /** A filter entry applies when its value is truthy (`if (value)`). */
  predicate ActiveFilter(v: Value) {
    Truthy(v)
  }

  /** `getFilteredDeals()` as a function of the state it reads. The listing holds only deals,
      each at most as often as it occurs, and a deal is listed exactly when it mentions the
      search term (if one is set) in some property and equals the value of every truthy
      filter entry. */
  function FilteredDealsOf(deals: seq<Record>, searchTerm: string, filters: map<string, Value>, sort: SortConfig): (r: seq<Record>)
    ensures multiset(r) <= multiset(deals)
    ensures forall d :: d in r <==>
              d in deals
              && (searchTerm != "" ==> Mentions(d, searchTerm))
              && (forall k | k in filters && Truthy(filters[k]) :: Prop(d, k) == filters[k])
  {
    Processed(deals, searchTerm != "", DealSearch(searchTerm), filters, ActiveFilter, sort)
  }

  /** Sorted by a column of one kind the listing is non-decreasing for 'asc' and non-increasing
      otherwise; unsorted it keeps the deals' order. */
  lemma FilteredDealsOrder(deals: seq<Record>, searchTerm: string, filters: map<string, Value>, sort: SortConfig)
    ensures var r := FilteredDealsOf(deals, searchTerm, filters, sort);
      && (!sort.Active() ==> Subseq(r, deals))
      && (sort.Active() && Uniform(deals, sort.key) && sort.Ascending() ==>
            forall i, j :: 0 <= i < j < |r| ==> !Less(Prop(r[j], sort.key), Prop(r[i], sort.key)))
      && (sort.Active() && Uniform(deals, sort.key) && !sort.Ascending() ==>
            forall i, j :: 0 <= i < j < |r| ==> !Less(Prop(r[i], sort.key), Prop(r[j], sort.key)))
  {
    var searching, search := searchTerm != "", DealSearch(searchTerm);
    if sort.Active() {
      if Uniform(deals, sort.key) {
        ProcessedSortedOrdered(deals, searching, search, filters, ActiveFilter, sort);
      }
    } else {
      ProcessedUnsortedKeepsOrder(deals, searching, search, filters, ActiveFilter, sort);
    }
  }

  /** The deal the store starts with. */
  function InitialDeal(): Record {
    map["id" := Num(1), "deal" := Str("City Center Complex"), "value" := Str("$1.2M"),
        "status" := Str("In Progress"), "progress" := Num(65), "lastUpdated" := Str("2024-03-15"),
        "team" := List([Str("John D."), Str("Sarah M.")]), "priority" := Str("High")]
  }

  class DealTable {
    var deals: seq<Record>
    var selectedRows: seq<Value>
    var sortConfig: SortConfig
    var filters: map<string, Value>
    var searchTerm: string
    var page: int
    var pageSize: PageSize

    constructor ()
      ensures deals == [InitialDeal()] && selectedRows == []
      ensures sortConfig == SortConfig("deal", "asc") && filters == map[] && searchTerm == ""
      ensures page == 1 && pageSize == 10
    {
      deals := [InitialDeal()];
      selectedRows := [];
      sortConfig := SortConfig("deal", "asc");
      filters := map[];
      searchTerm := "";
      page := 1;
      pageSize := 10;
    }

    /** `addDeal(deal)`: one new deal at the end. */
    method AddDeal(deal: Record, freshId: int)
      modifies this`deals
      ensures deals == old(deals) + [WithDefaultId(deal, freshId)]
    {
      deals := deals + [WithDefaultId(deal, freshId)];
    }

    /** `updateDeal(id, updates)` */
    method UpdateDeal(id: Value, updates: Record)
      modifies this`deals
      ensures deals == PatchId(old(deals), id, updates)
    {
      deals := PatchId(deals, id, updates);
    }

    /** `deleteDeal(id)`: the deal goes, and so does its id from the selection. */
    method DeleteDeal(id: Value)
      modifies this`deals, this`selectedRows
      ensures deals == WithoutId(old(deals), id)
      ensures selectedRows == Where(old(selectedRows), x => x != id)
      ensures id !in selectedRows && forall d :: d in deals ==> IdOf(d) != id
    {
      deals := WithoutId(deals, id);
      selectedRows := Where(selectedRows, x => x != id);
    }

    /** `bulkDeleteDeals(ids)` */
    method BulkDeleteDeals(ids: seq<Value>)
      modifies this`deals, this`selectedRows
      ensures deals == WithoutIds(old(deals), ids)
      ensures selectedRows == Where(old(selectedRows), x => x !in ids)
      ensures forall d :: d in deals ==> IdOf(d) !in ids
      ensures forall x :: x in selectedRows ==> x !in ids
      ensures Subseq(deals, old(deals))
    {
      WhereIsSubseq(deals, x => IdOf(x) !in ids);
      deals := WithoutIds(deals, ids);
      selectedRows := Where(selectedRows, x => x !in ids);
    }

    /** `toggleRowSelection(id)` */
    method ToggleRowSelection(id: Value)
      modifies this`selectedRows
      ensures selectedRows == Toggle(old(selectedRows), id)
    {
      selectedRows := Toggle(selectedRows, id);
    }

    method SetSelectedRows(rows: seq<Value>)
      modifies this`selectedRows
      ensures selectedRows == rows
    {
      selectedRows := rows;
    }

    method ClearSelection()
      modifies this`selectedRows
      ensures selectedRows == []
    {
      selectedRows := [];
    }

    method SetSortConfig(config: SortConfig)
      modifies this`sortConfig
      ensures sortConfig == config
    {
      sortConfig := config;
    }

    method SetFilters(newFilters: map<string, Value>)
      modifies this`filters
      ensures filters == newFilters
    {
      filters := newFilters;
    }

    method SetSearchTerm(term: string)
      modifies this`searchTerm
      ensures searchTerm == term
    {
      searchTerm := term;
    }

    method SetPagination(newPage: int, newPageSize: PageSize)
      modifies this`page, this`pageSize
      ensures page == newPage && pageSize == newPageSize
    {
      page := newPage;
      pageSize := newPageSize;
    }

    /** `getFilteredDeals()`: search, then each truthy filter in turn, then sort a copy. */
    method FilteredDeals() returns (r: seq<Record>)
      ensures r == FilteredDealsOf(deals, searchTerm, filters, sortConfig)
    {
      r := Process(deals, searchTerm != "", DealSearch(searchTerm), filters, ActiveFilter, sortConfig);
    }

    /** `getPaginatedDeals()`: at most one page of the listing, starting at (page - 1) * pageSize. */
    method PaginatedDeals() returns (r: seq<Record>)
      ensures r == PageOf(FilteredDealsOf(deals, searchTerm, filters, sortConfig), page, pageSize)
      ensures |r| <= pageSize
    {
      var filtered := FilteredDeals();
      var start := (page - 1) * pageSize;
      r := Slice(filtered, start, start + pageSize);
    }

    /** `getTotalPages()` */
    method TotalPageCount() returns (n: nat)
      ensures n == TotalPages(|FilteredDealsOf(deals, searchTerm, filters, sortConfig)|, pageSize)
    {
      var filtered := FilteredDeals();
      n := (|filtered| + pageSize - 1) / pageSize;
    }

    /** What the persistence layer stores: deals and the table settings, never the selection
        or the search term. */
    function Persisted(): (r: Record)
      reads this
      ensures r.Keys == {"deals", "sortConfig", "filters", "pagination"}
      ensures r["deals"] == List(Objects(deals))
      ensures r["sortConfig"] == Obj(map["field" := Str(sortConfig.key), "direction" := Str(sortConfig.direction)])
      ensures r["filters"] == Obj(filters)
      ensures r["pagination"] == Obj(map["page" := Num(page), "pageSize" := Num(pageSize)])
    {
      map["deals" := List(Objects(deals)),
          "sortConfig" := Obj(map["field" := Str(sortConfig.key), "direction" := Str(sortConfig.direction)]),
          "filters" := Obj(filters),
          "pagination" := Obj(map["page" := Num(page), "pageSize" := Num(pageSize)])]
    }
  }
}
