// The quotes list page (components/Quotes.jsx): no pinned rows, a search and two equality
// filters, a negatable comparator, ten rows per page and the refresh handlers.
module QuotesPage {
  import opened Strings
  import opened Entities
  import opened ListPipeline

  /** `compareFunction(a, b)`: dates by difference, the client by name, the proposed amount
      larger first (through `parseInt`), the status by collation. */
  function Compare(view: ListView, collate: string -> int, a: Quote, b: Quote): int
  {
    var comparison :=
      match view.sort
      case "start_date" => a.startDate - b.startDate
      case "deadline" => a.deadline - b.deadline
      case "client" => LocaleCompare(collate, a.client.username, b.client.username)
      case "proposed_amount" => Trunc(b.proposedAmount) - Trunc(a.proposedAmount)
      case "status" => LocaleCompare(collate, a.status, b.status)
      case _ => 0;
    if view.sortOrder == "ascending" then comparison else -comparison
  }

  /** The quantity the comparator orders by. */
  function Key(view: ListView, collate: string -> int, q: Quote): real
  {
    var k :=
      match view.sort
      case "start_date" => q.startDate
      case "deadline" => q.deadline
      case "client" => collate(q.client.username)
      case "proposed_amount" => -Trunc(q.proposedAmount)
      case "status" => collate(q.status)
      case _ => 0;
    if view.sortOrder == "ascending" then k as real else -k as real
  }

  /** The comparator's sign is that of the key difference, so sorting with it is sorting by `Key`. */
  lemma CompareIsKeyOrder(view: ListView, collate: string -> int, a: Quote, b: Quote)
    ensures Sign(Compare(view, collate, a, b) as real) == Sign(Key(view, collate, a) - Key(view, collate, b))
  {
  }

  /** For the proposed amount the larger amount comes first unless the order is "descending",
      which negates the comparison. */
  lemma AmountsLargestFirst(view: ListView, collate: string -> int, a: Quote, b: Quote)
    requires view.sort == "proposed_amount" && Trunc(a.proposedAmount) > Trunc(b.proposedAmount)
    ensures view.sortOrder == "ascending" ==> Compare(view, collate, a, b) < 0
    ensures view.sortOrder != "ascending" ==> Compare(view, collate, a, b) > 0
  {
  }

  /** The search and the two equality filters a row must pass. */
  predicate Matches(view: ListView, q: Quote)
  {
    (ContainsIgnoreCase(q.id, view.search) || ContainsIgnoreCase(q.title, view.search) ||
     ContainsIgnoreCase(q.client.username, view.search)) &&
    (view.filterClient == "" || q.client.id == view.filterClient) &&
    (view.filterStatus == "" || q.status == view.filterStatus)
  }

  function MatchesFn(view: ListView): Quote -> bool
  {
    q => Matches(view, q)
  }

  function KeyFn(view: ListView, collate: string -> int): Quote -> real
  {
    q => Key(view, collate, q)
  }

  /** `filterAndSortData(data)` */
  function FilterAndSort(view: ListView, collate: string -> int, rows: seq<Quote>): seq<Quote>
  {
    FilterSort(rows, MatchesFn(view), KeyFn(view, collate))
  }

  /** A row is kept exactly when its id, title or client name contains the search (ignoring
      case) and it passes the client and status filters; the kept rows are ordered by the
      comparator, equal rows in input order, each kept as often as it occurs. */
  lemma FilterAndSortSpec(view: ListView, collate: string -> int, rows: seq<Quote>)
    ensures var r := FilterAndSort(view, collate, rows);
            (forall x :: x in r <==>
               x in rows &&
               (ContainsIgnoreCase(x.id, view.search) || ContainsIgnoreCase(x.title, view.search) ||
                ContainsIgnoreCase(x.client.username, view.search)) &&
               (view.filterClient == "" || x.client.id == view.filterClient) &&
               (view.filterStatus == "" || x.status == view.filterStatus)) &&
            SortedBy(r, KeyFn(view, collate)) &&
            SameTies(r, Filter(rows, MatchesFn(view)), KeyFn(view, collate)) &&
            multiset(r) == multiset(Filter(rows, MatchesFn(view)))
  {
    FilterSortSpec(rows, MatchesFn(view), KeyFn(view, collate));
  }

  /** The state `handleClearFilters` leaves: no search, no filters, start date ascending. */
  function Cleared(view: ListView): (r: ListView)
    ensures r.search == "" && r.filterClient == "" && r.filterStatus == ""
    ensures r.sort == "start_date" && r.sortOrder == "ascending"
  {
    ListView("", "start_date", "ascending", "", "")
  }

  /** After clearing, every row passes the filters, so the list is all the data in start-date order. */
  lemma ClearedKeepsEverything(view: ListView, collate: string -> int, rows: seq<Quote>)
    ensures forall x :: x in FilterAndSort(Cleared(view), collate, rows) <==> x in rows
  {
    FilterAndSortSpec(Cleared(view), collate, rows);
    forall x: Quote ensures ContainsIgnoreCase(x.id, "") {
      EmptySearchMatches(x.id);
    }
  }

  /** What the edit form merges into a row: its fields, with the client looked up by id. */
  datatype Patch = EditPatch(title: string, proposedAmount: real, client: ClientRef, startDate: int,
                             deadline: int, paymentTerms: string, status: string)

  function ApplyPatch(q: Quote, p: Patch): (r: Quote)
    ensures r.id == q.id
    ensures r.title == p.title && r.proposedAmount == p.proposedAmount && r.client == p.client
    ensures r.startDate == p.startDate && r.deadline == p.deadline
    ensures r.paymentTerms == p.paymentTerms && r.status == p.status
  {
    q.(title := p.title, proposedAmount := p.proposedAmount, client := p.client,
       startDate := p.startDate, deadline := p.deadline, paymentTerms := p.paymentTerms,
       status := p.status)
  }

  function IdOf(q: Quote): string { q.id }

  /** `row.status = status` */
  function SetStatus(status: string): Quote -> Quote
  {
    (q: Quote) => q.(status := status)
  }

  function PatchFn(p: Patch): Quote -> Quote
  {
    q => ApplyPatch(q, p)
  }

  /** The page's React state. */
  class Page {
    var allData: seq<Quote>
    var filteredData: seq<Quote>
    var totalPages: int
    var page: int
    var view: ListView
    const collate: string -> int

    constructor (collate: string -> int, page: int)
      ensures allData == [] && filteredData == [] && totalPages == 0 && this.page == page
      ensures view == ListView("", "start_date", "ascending", "", "") && this.collate == collate
    {
      allData := [];
      filteredData := [];
      totalPages := 0;
      this.page := page;
      view := ListView("", "start_date", "ascending", "", "");
      this.collate := collate;
    }

    /** The filter, sort and paginate effect. */
    method ApplyEffect()
      modifies this
      ensures filteredData == Paginate(FilterAndSort(view, collate, allData), page)
      ensures totalPages == TotalPages(|FilterAndSort(view, collate, allData)|)
      ensures |filteredData| <= 10
      ensures allData == old(allData) && page == old(page) && view == old(view)
    {
      var sorted := FilterAndSort(view, collate, allData);
      var shown, count := Paginate(sorted, page), TotalPages(|sorted|);
      PageAtMostTen(sorted, page);
      filteredData, totalPages := shown, count;
    }

    /** `handleClearFilters` */
    method HandleClearFilters()
      modifies this
      ensures view == Cleared(old(view))
      ensures allData == old(allData) && filteredData == old(filteredData) && page == old(page)
    {
      view := ListView("", "start_date", "ascending", "", "");
    }

    /** `handleUpdate`: the new row and the visible page, filtered and sorted, become the
        visible list; it is not cut to a page. */
    method HandleUpdate(payload: Quote)
      modifies this
      ensures filteredData == FilterAndSort(view, collate, [payload] + old(filteredData))
      ensures allData == old(allData) && page == old(page) && view == old(view)
    {
      var rows := [payload] + filteredData;
      var sorted := FilterAndSort(view, collate, rows);
      filteredData := sorted;
    }

    /** `handleStatusRefresh`: the visible row with the id gets the status, then the visible
        page is filtered and sorted again; without such a row nothing changes. */
    method HandleStatusRefresh(id: string, status: string)
      modifies this
      ensures var k := FindIndex(old(filteredData), IdOf, id);
              (k == -1 ==> filteredData == old(filteredData)) &&
              (k >= 0 ==> filteredData == FilterAndSort(view, collate,
                                            old(filteredData)[k := old(filteredData)[k].(status := status)]))
      // the list copy is shallow: a row the page took from `allData` is the object `allData`
      // holds, so the status written into it shows there too
      ensures var k := FindIndex(old(filteredData), IdOf, id);
              allData == if k >= 0 && old(filteredData)[k] in old(allData)
                         then UpdateById(old(allData), IdOf, id, SetStatus(status))
                         else old(allData)
      ensures page == old(page) && view == old(view)
    {
      var k := FindIndex(filteredData, IdOf, id);
      if k != -1 {
        if filteredData[k] in allData {
          allData := UpdateById(allData, IdOf, id, SetStatus(status));
        }
        var rows := filteredData[k := filteredData[k].(status := status)];
        var sorted := FilterAndSort(view, collate, rows);
        filteredData := sorted;
      }
    }

    /** `handleDeleteRefresh`: the row leaves the visible page only. */
    method HandleDeleteRefresh(id: string)
      modifies this
      ensures filteredData == RemoveById(old(filteredData), IdOf, id)
      ensures allData == old(allData) && page == old(page) && view == old(view)
    {
      filteredData := RemoveById(filteredData, IdOf, id);
    }

    /** `handleEditRefresh`: the payload is merged into the first row with the id only. */
    method HandleEditRefresh(id: string, payload: Patch)
      modifies this
      ensures allData == UpdateById(old(allData), IdOf, id, PatchFn(payload))
      ensures filteredData == old(filteredData) && page == old(page) && view == old(view)
    {
      allData := UpdateById(allData, IdOf, id, PatchFn(payload));
    }
  }

  /** A status change can only drop the changed row from the refreshed list, never add one:
      every row shown afterwards was on the page before, or is the changed row. */
  lemma StatusRefreshShowsPageRows(view: ListView, collate: string -> int, rows: seq<Quote>, k: int, status: string)
    requires 0 <= k < |rows|
    ensures forall x :: x in FilterAndSort(view, collate, rows[k := rows[k].(status := status)]) ==>
                          x in rows || x == rows[k].(status := status)
  {
    var changed := rows[k := rows[k].(status := status)];
    FilterAndSortSpec(view, collate, changed);
    forall x | x in changed ensures x in rows || x == rows[k].(status := status) {
      var i :| 0 <= i < |changed| && changed[i] == x;
      if i != k { assert rows[i] == x; }
    }
  }
}
