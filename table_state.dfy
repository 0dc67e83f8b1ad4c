/** The table-state store: selection, sort, filters, search term, pagination and view mode,
    each overwritten by its own action, and the subset of them that is persisted. */
module TableState {
  import opened Js
  import opened Sorting
  import opened Pagination
  import opened Selection

  class TableState {
    var selectedRows: seq<Value>
    var sortConfig: SortConfig
    var filters: map<string, Value>
    var searchTerm: string
    var page: int
    var pageSize: PageSize
    var viewMode: string

    constructor ()
      ensures selectedRows == [] && sortConfig == SortConfig("deal", "asc") && filters == map[]
      ensures searchTerm == "" && page == 1 && pageSize == 10 && viewMode == "table"
    {
      selectedRows := [];
      sortConfig := SortConfig("deal", "asc");
      filters := map[];
      searchTerm := "";
      page := 1;
      pageSize := 10;
      viewMode := "table";
    }

    /** What the persistence layer stores: sort, filters, view mode and pagination, never the
        selection or the search term. */
    function Persisted(): (r: Record)
      reads this
      ensures r.Keys == {"sortConfig", "filters", "viewMode", "pagination"}
      ensures r["sortConfig"] == Obj(map["field" := Str(sortConfig.key), "direction" := Str(sortConfig.direction)])
      ensures r["filters"] == Obj(filters) && r["viewMode"] == Str(viewMode)
      ensures r["pagination"] == Obj(map["page" := Num(page), "pageSize" := Num(pageSize)])
    {
      map["sortConfig" := Obj(map["field" := Str(sortConfig.key), "direction" := Str(sortConfig.direction)]),
          "filters" := Obj(filters),
          "viewMode" := Str(viewMode),
          "pagination" := Obj(map["page" := Num(page), "pageSize" := Num(pageSize)])]
    }

    method SetSelectedRows(rows: seq<Value>)
      modifies this`selectedRows
      ensures selectedRows == rows
      ensures Persisted() == old(Persisted())
    {
      selectedRows := rows;
    }

    /** `toggleRowSelection(id)` */
    method ToggleRowSelection(id: Value)
      modifies this`selectedRows
      ensures selectedRows == Toggle(old(selectedRows), id)
      ensures Persisted() == old(Persisted())
    {
      selectedRows := Toggle(selectedRows, id);
    }

    method ClearSelection()
      modifies this`selectedRows
      ensures selectedRows == []
    {
      selectedRows := [];
    }

    method SetSortConfig(config: SortConfig)
      modifies this`sortConfig
      ensures sortConfig == config
    {
      sortConfig := config;
    }

    method SetFilters(newFilters: map<string, Value>)
      modifies this`filters
      ensures filters == newFilters
    {
      filters := newFilters;
    }

    method SetSearchTerm(term: string)
      modifies this`searchTerm
      ensures searchTerm == term
      ensures Persisted() == old(Persisted())
    {
      searchTerm := term;
    }

    method SetPagination(newPage: int, newPageSize: PageSize)
      modifies this`page, this`pageSize
      ensures page == newPage && pageSize == newPageSize
    {
      page := newPage;
      pageSize := newPageSize;
    }

    method SetViewMode(mode: string)
      modifies this`viewMode
      ensures viewMode == mode
    {
      viewMode := mode;
    }

    /** `handleBulkAction(action, ids)`: every action, recognised or not, ends with an empty selection. */
    method HandleBulkAction(action: string, ids: seq<Value>)
      modifies this`selectedRows
      ensures selectedRows == []
      ensures Persisted() == old(Persisted())
    {
      selectedRows := [];
    }
  }
}
