// The change-requests list page (components/Requests.jsx). Its filter, sort and paginate
// effect filters by commission title (case-insensitive equality), status and search; a
// second, search-only `filterAndSortData` serves the status refresh and the update handler.
// In `ListView` the `filterClient` field holds the commission filter.
module RequestsPage {
  import opened Strings
  import opened Entities
  import opened ListPipeline

  /** `compareFunction(a, b)`: "commission" compares the commission's client id, the offered
      amount orders the larger first (through `parseInt`). */
  function Compare(view: ListView, collate: string -> int, a: ChangeRequest, b: ChangeRequest): int
  {
    var comparison :=
      match view.sort
      case "deadline" => a.deadline - b.deadline
      case "commission" => LocaleCompare(collate, a.commission.client.id, b.commission.client.id)
      case "offered_amount" => Trunc(b.offeredAmount) - Trunc(a.offeredAmount)
      case "status" => LocaleCompare(collate, a.status, b.status)
      case _ => 0;
    if view.sortOrder == "ascending" then comparison else -comparison
  }

  /** The quantity the comparator orders by. */
  function Key(view: ListView, collate: string -> int, r: ChangeRequest): real
  {
    var k :=
      match view.sort
      case "deadline" => r.deadline
      case "commission" => collate(r.commission.client.id)
      case "offered_amount" => -Trunc(r.offeredAmount)
      case "status" => collate(r.status)
      case _ => 0;
    if view.sortOrder == "ascending" then k as real else -k as real
  }

  /** The comparator's sign is that of the key difference, so sorting with it is sorting by `Key`. */
  lemma CompareIsKeyOrder(view: ListView, collate: string -> int, a: ChangeRequest, b: ChangeRequest)
    ensures Sign(Compare(view, collate, a, b) as real) == Sign(Key(view, collate, a) - Key(view, collate, b))
  {
  }

  /** Sorting by "commission" ignores the commission's title: two requests on commissions of
      the same client tie. */
  lemma CommissionSortsByClient(view: ListView, collate: string -> int, a: ChangeRequest, b: ChangeRequest)
    requires view.sort == "commission" && a.commission.client.id == b.commission.client.id
    ensures Compare(view, collate, a, b) == 0
  {
  }

  /** The search: id, description or commission title contains it, ignoring case. */
  predicate SearchHits(view: ListView, r: ChangeRequest)
  {
    ContainsIgnoreCase(r.id, view.search) || ContainsIgnoreCase(r.description, view.search) ||
    ContainsIgnoreCase(r.commission.title, view.search)
  }

  /** The effect's test: the commission filter compares titles ignoring case, the status
      filter exactly, and the search must hit. */
  predicate Matches(view: ListView, r: ChangeRequest)
  {
    (view.filterClient == "" || Lower(r.commission.title) == Lower(view.filterClient)) &&
    (view.filterStatus == "" || r.status == view.filterStatus) &&
    SearchHits(view, r)
  }

  function MatchesFn(view: ListView): ChangeRequest -> bool
  {
    r => Matches(view, r)
  }

  function SearchFn(view: ListView): ChangeRequest -> bool
  {
    r => SearchHits(view, r)
  }

  function KeyFn(view: ListView, collate: string -> int): ChangeRequest -> real
  {
    r => Key(view, collate, r)
  }

  /** The list the effect paginates. */
  function EffectList(view: ListView, collate: string -> int, rows: seq<ChangeRequest>): seq<ChangeRequest>
  {
    FilterSort(rows, MatchesFn(view), KeyFn(view, collate))
  }

  /** `filterAndSortData(data)`: the search alone, then the sort. */
  function FilterAndSort(view: ListView, collate: string -> int, rows: seq<ChangeRequest>): seq<ChangeRequest>
  {
    FilterSort(rows, SearchFn(view), KeyFn(view, collate))
  }

  /** A row reaches the paginated list exactly when its commission title equals the commission
      filter ignoring case, its status equals the status filter (an empty filter passes every
      row) and the search hits; the list is ordered by the comparator. */
  lemma EffectListSpec(view: ListView, collate: string -> int, rows: seq<ChangeRequest>)
    ensures var r := EffectList(view, collate, rows);
            (forall x :: x in r <==>
               x in rows &&
               (view.filterClient == "" || Lower(x.commission.title) == Lower(view.filterClient)) &&
               (view.filterStatus == "" || x.status == view.filterStatus) &&
               (ContainsIgnoreCase(x.id, view.search) || ContainsIgnoreCase(x.description, view.search) ||
                ContainsIgnoreCase(x.commission.title, view.search))) &&
            SortedBy(r, KeyFn(view, collate))
  {
    FilterSortSpec(rows, MatchesFn(view), KeyFn(view, collate));
  }

  /** The commission filter ignores case in both the filter and the title. */
  lemma CommissionFilterIgnoresCase(view: ListView, r: ChangeRequest)
    requires view.filterStatus == "" && view.search == ""
    ensures Matches(view, r) <==> Matches(view.(filterClient := Lower(view.filterClient)), r)
  {
    LowerIdempotent(view.filterClient);
    EmptySearchMatches(r.id);
  }

  /** `filterAndSortData` keeps exactly the rows the search hits, whatever the filters say. */
  lemma FilterAndSortSpec(view: ListView, collate: string -> int, rows: seq<ChangeRequest>)
    ensures var r := FilterAndSort(view, collate, rows);
            (forall x :: x in r <==>
               x in rows &&
               (ContainsIgnoreCase(x.id, view.search) || ContainsIgnoreCase(x.description, view.search) ||
                ContainsIgnoreCase(x.commission.title, view.search))) &&
            SortedBy(r, KeyFn(view, collate))
  {
    FilterSortSpec(rows, SearchFn(view), KeyFn(view, collate));
  }

  /** What the edit form merges into a row. */
  datatype Patch = EditPatch(description: string, offeredAmount: real, deadline: int, paid: bool, status: string)

  function ApplyPatch(r: ChangeRequest, p: Patch): (u: ChangeRequest)
    ensures u.id == r.id && u.commission == r.commission
    ensures u.description == p.description && u.offeredAmount == p.offeredAmount
    ensures u.deadline == p.deadline && u.paid == p.paid && u.status == p.status
  {
    r.(description := p.description, offeredAmount := p.offeredAmount, deadline := p.deadline,
       paid := p.paid, status := p.status)
  }

  function IdOf(r: ChangeRequest): string { r.id }

  /** `row.status = status` */
  function SetStatus(status: string): ChangeRequest -> ChangeRequest
  {
    (r: ChangeRequest) => r.(status := status)
  }

  function PatchFn(p: Patch): ChangeRequest -> ChangeRequest
  {
    r => ApplyPatch(r, p)
  }

  function MarkPaid(r: ChangeRequest): ChangeRequest
  {
    r.(paid := true)
  }

  /** The page's React state. */
  class Page {
    var allData: seq<ChangeRequest>
    var filteredData: seq<ChangeRequest>
    var totalPages: int
    var page: int
    var view: ListView
    const collate: string -> int

    constructor (collate: string -> int, page: int)
      ensures allData == [] && filteredData == [] && totalPages == 0 && this.page == page
      ensures view == ListView("", "deadline", "ascending", "", "") && this.collate == collate
    {
      allData := [];
      filteredData := [];
      totalPages := 0;
      this.page := page;
      view := ListView("", "deadline", "ascending", "", "");
      this.collate := collate;
    }

    /** The filter, sort and paginate effect. */
    method ApplyEffect()
      modifies this
      ensures filteredData == Paginate(EffectList(view, collate, allData), page)
      ensures totalPages == TotalPages(|EffectList(view, collate, allData)|)
      ensures |filteredData| <= 10
      ensures allData == old(allData) && page == old(page) && view == old(view)
    {
      var sorted := EffectList(view, collate, allData);
      var shown, count := Paginate(sorted, page), TotalPages(|sorted|);
      PageAtMostTen(sorted, page);
      filteredData, totalPages := shown, count;
    }

    /** `handleStatusRefresh`: the visible row with the id gets the status, then the visible
        page goes through the search-only `filterAndSortData`; without such a row nothing changes. */
    method HandleStatusRefresh(id: string, status: string)
      modifies this
      ensures var k := FindIndex(old(filteredData), IdOf, id);
              (k == -1 ==> filteredData == old(filteredData)) &&
              (k >= 0 ==> filteredData == FilterAndSort(view, collate,
                                            old(filteredData)[k := old(filteredData)[k].(status := status)]))
      // the list copy is shallow: a row the page took from `allData` is the object `allData`
      // holds, so the status written into it shows there too
      ensures var k := FindIndex(old(filteredData), IdOf, id);
              allData == if k >= 0 && old(filteredData)[k] in old(allData)
                         then UpdateById(old(allData), IdOf, id, SetStatus(status))
                         else old(allData)
      ensures page == old(page) && view == old(view)
    {
      var k := FindIndex(filteredData, IdOf, id);
      if k != -1 {
        if filteredData[k] in allData {
          allData := UpdateById(allData, IdOf, id, SetStatus(status));
        }
        var rows := filteredData[k := filteredData[k].(status := status)];
        var sorted := FilterAndSort(view, collate, rows);
        filteredData := sorted;
      }
    }

    /** `handleDeleteRefresh`: the row leaves both the data and the visible page. */
    method HandleDeleteRefresh(id: string)
      modifies this
      ensures allData == RemoveById(old(allData), IdOf, id)
      ensures filteredData == RemoveById(old(filteredData), IdOf, id)
      ensures page == old(page) && view == old(view)
    {
      allData := RemoveById(allData, IdOf, id);
      filteredData := RemoveById(filteredData, IdOf, id);
    }

    /** `handleEditRefresh`: the payload is merged into the first visible row with the id. */
    method HandleEditRefresh(id: string, payload: Patch)
      modifies this
      ensures filteredData == UpdateById(old(filteredData), IdOf, id, PatchFn(payload))
      ensures allData == old(allData) && page == old(page) && view == old(view)
    {
      filteredData := UpdateById(filteredData, IdOf, id, PatchFn(payload));
    }

    /** `handleMarkAsPaidRefresh`: the first row with the id in the data becomes paid. */
    method HandleMarkAsPaidRefresh(id: string)
      modifies this
      ensures allData == UpdateById(old(allData), IdOf, id, MarkPaid)
      ensures filteredData == old(filteredData) && page == old(page) && view == old(view)
    {
      allData := UpdateById(allData, IdOf, id, MarkPaid);
    }

    /** `handleUpdate`: the new row and the visible page go through `filterAndSortData`. */
    method HandleUpdate(payload: ChangeRequest)
      modifies this
      ensures filteredData == FilterAndSort(view, collate, [payload] + old(filteredData))
      ensures allData == old(allData) && page == old(page) && view == old(view)
    {
      var rows := [payload] + filteredData;
      var sorted := FilterAndSort(view, collate, rows);
      filteredData := sorted;
    }
  }

  /** Marking as paid changes the paid flag of the matching row and nothing else: every other
      field of that row and every other row keep their values. */
  lemma MarkAsPaidOnlyPaid(rows: seq<ChangeRequest>, id: string)
    ensures var r := UpdateById(rows, IdOf, id, MarkPaid);
            |r| == |rows| &&
            forall i :: 0 <= i < |rows| ==>
              (r[i] == rows[i] || (IdOf(rows[i]) == id && r[i] == rows[i].(paid := true)))
  {
  }

  /** After a delete no row with that id is left in either list. */
  lemma DeleteLeavesNoRow(rows: seq<ChangeRequest>, id: string, x: ChangeRequest)
    requires x in RemoveById(rows, IdOf, id)
    ensures x.id != id && x in rows
  {
    RemoveByIdMember(rows, IdOf, id, x);
  }
}
