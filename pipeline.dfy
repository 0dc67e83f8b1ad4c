/** The search → equality filters → sort pipeline that both the deal table store
    (getFilteredDeals) and the data-table hook (filteredData) run over a copy of their rows:
    one optional text search, then one `filter` per active filter entry, taken in turn,
    then an in-place sort of the copy. */
module Pipeline {
  import opened Js
  import opened Collections
  import opened Sorting

  /** The record equals the value of every entry among `keys` whose value `active` lets through. */
  predicate MatchesOn(r: Record, filters: map<string, Value>, active: Value -> bool, keys: set<string>) {
    forall k | k in keys && k in filters :: active(filters[k]) ==> Prop(r, k) == filters[k]
  }

  /** The record passes every active filter entry. */
  predicate Matches(r: Record, filters: map<string, Value>, active: Value -> bool) {
    MatchesOn(r, filters, active, filters.Keys)
  }

  lemma MatchesOnAdd(r: Record, filters: map<string, Value>, active: Value -> bool, keys: set<string>, key: string)
    requires key in filters
    ensures MatchesOn(r, filters, active, keys + {key}) ==
              (MatchesOn(r, filters, active, keys) && (active(filters[key]) ==> Prop(r, key) == filters[key]))
  {
  }

  /** `Object.entries(filters).forEach(([key, value]) => { if (active(value)) rows = rows.filter(r => r[key] === value) })`.
      The entries are taken in any order: the result does not depend on it. */
  method ApplyFilters(rows: seq<Record>, filters: map<string, Value>, active: Value -> bool) returns (out: seq<Record>)
    ensures out == Where(rows, r => Matches(r, filters, active))
  {
    out := rows;
    var remaining := filters.Keys;
    WhereAll(rows, r => MatchesOn(r, filters, active, filters.Keys - remaining));
    while remaining != {}
      invariant remaining <= filters.Keys
      invariant out == Where(rows, r => MatchesOn(r, filters, active, filters.Keys - remaining))
      decreases remaining
    {
      var key :| key in remaining;
      var value := filters[key];
      ghost var done := filters.Keys - remaining;
      assert filters.Keys - (remaining - {key}) == done + {key};
      forall r ensures MatchesOn(r, filters, active, done + {key}) ==
                         (MatchesOn(r, filters, active, done) && (active(value) ==> Prop(r, key) == value)) {
        MatchesOnAdd(r, filters, active, done, key);
      }
      if active(value) {
        WhereWhere(rows, r => MatchesOn(r, filters, active, done), r => Prop(r, key) == value,
                   r => MatchesOn(r, filters, active, done + {key}));
        out := Where(out, r => Prop(r, key) == value);
      } else {
        WhereCongruent(rows, r => MatchesOn(r, filters, active, done), r => MatchesOn(r, filters, active, done + {key}));
      }
      remaining := remaining - {key};
    }
    WhereCongruent(rows, r => MatchesOn(r, filters, active, filters.Keys - remaining), r => Matches(r, filters, active));
  }

  /** The rows that survive the search, when there is one. */
  function Searched(rows: seq<Record>, searching: bool, mentions: Record -> bool): seq<Record> {
    if searching then Where(rows, mentions) else rows
  }

  /** What the pipeline returns: searched, filtered, then sorted when a sort key is set. It
      only drops and reorders rows, and it keeps exactly the rows that pass the search and
      every active filter. */
  function Processed(rows: seq<Record>, searching: bool, mentions: Record -> bool,
                     filters: map<string, Value>, active: Value -> bool, sort: SortConfig): (r: seq<Record>)
    ensures multiset(r) <= multiset(rows)
    ensures forall x :: x in r <==> x in rows && Passes(x, searching, mentions, filters, active)
  {
    var kept := Where(Searched(rows, searching, mentions), r => Matches(r, filters, active));
    SearchThenFilter(rows, searching, mentions, filters, active);
    WhereSubMultiset(rows, x => Passes(x, searching, mentions, filters, active));
    if sort.Active() then
      var sorted := SortedBy(kept, sort.key, sort.Ascending());
      assert forall x :: x in sorted <==> x in multiset(sorted);
      assert forall x :: x in kept <==> x in multiset(kept);
      sorted
    else kept
  }

  /** The pipeline itself, on a copy of `rows`; the caller's rows are left as they are. */
  method Process(rows: seq<Record>, searching: bool, mentions: Record -> bool,
                 filters: map<string, Value>, active: Value -> bool, sort: SortConfig) returns (out: seq<Record>)
    ensures out == Processed(rows, searching, mentions, filters, active, sort)
  {
    var processed := rows;
    if searching {
      processed := Where(processed, mentions);
    }
    processed := ApplyFilters(processed, filters, active);
    if sort.Active() {
      var copy := new Record[|processed|](i requires 0 <= i < |processed| => processed[i]);
      assert copy[..] == processed;
      SortInPlace(copy, AfterBy(sort.key, sort.Ascending()));
      processed := copy[..];
    }
    out := processed;
  }

  lemma WhereSubMultiset(s: seq<Record>, keep: Record -> bool)
    ensures multiset(Where(s, keep)) <= multiset(s)
  {
    forall x ensures multiset(Where(s, keep))[x] <= multiset(s)[x] {
      WhereCount(s, keep, x);
    }
  }

  /** A row passes the pipeline's tests: the search, when there is one, and every active filter. */
  predicate Passes(x: Record, searching: bool, mentions: Record -> bool, filters: map<string, Value>, active: Value -> bool) {
    (searching ==> mentions(x)) && Matches(x, filters, active)
  }

  /** Searching and then filtering is one filter by both tests. */
  lemma SearchThenFilter(rows: seq<Record>, searching: bool, mentions: Record -> bool,
                         filters: map<string, Value>, active: Value -> bool)
    ensures Where(Searched(rows, searching, mentions), r => Matches(r, filters, active))
         == Where(rows, x => Passes(x, searching, mentions, filters, active))
  {
    var both := x => Passes(x, searching, mentions, filters, active);
    if searching {
      WhereWhere(rows, mentions, r => Matches(r, filters, active), both);
    } else {
      WhereCongruent(rows, r => Matches(r, filters, active), both);
    }
  }

  /** Without a sort key the surviving rows keep their original relative order. */
  lemma ProcessedUnsortedKeepsOrder(rows: seq<Record>, searching: bool, mentions: Record -> bool,
                                    filters: map<string, Value>, active: Value -> bool, sort: SortConfig)
    requires !sort.Active()
    ensures Subseq(Processed(rows, searching, mentions, filters, active, sort), rows)
  {
    SearchThenFilter(rows, searching, mentions, filters, active);
    WhereIsSubseq(rows, x => Passes(x, searching, mentions, filters, active));
  }

  /** With a sort key on a column of one kind, the rows come out in comparator order:
      non-decreasing for 'asc', non-increasing otherwise. */
  lemma ProcessedSortedOrdered(rows: seq<Record>, searching: bool, mentions: Record -> bool,
                               filters: map<string, Value>, active: Value -> bool, sort: SortConfig)
    requires sort.Active() && Uniform(rows, sort.key)
    ensures var r := Processed(rows, searching, mentions, filters, active, sort);
      Ordered(r, sort.key, sort.Ascending())
      && (sort.Ascending() ==> forall i, j :: 0 <= i < j < |r| ==> !Less(Prop(r[j], sort.key), Prop(r[i], sort.key)))
      && (!sort.Ascending() ==> forall i, j :: 0 <= i < j < |r| ==> !Less(Prop(r[i], sort.key), Prop(r[j], sort.key)))
  {
    var kept := Where(Searched(rows, searching, mentions), r => Matches(r, filters, active));
    assert Uniform(kept, sort.key) by {
      forall x | x in kept ensures x in rows {
        if searching {
          assert x in Where(rows, mentions);
        }
      }
    }
    SortedByOrdered(kept, sort.key, sort.Ascending());
    OrderedMeaning(SortedBy(kept, sort.key, sort.Ascending()), sort.key, sort.Ascending());
  }
}
