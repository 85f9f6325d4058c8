// The commissions list page (components/Commissions.jsx): pinned rows first, search and
// equality filters, a negatable comparator, ten rows per page and the refresh handlers.
// `collate` ranks strings for `localeCompare`.
module CommissionsPage {
  import opened Wrappers
  import opened Strings
  import opened Entities
  import opened ListPipeline

  /** `compareFunction(a, b)` for the current sort field and order. */
  function Compare(view: ListView, collate: string -> int, a: Commission, b: Commission): int
  {
    var comparison :=
      match view.sort
      case "deadline" => a.deadline - b.deadline
      case "client" => LocaleCompare(collate, a.client.username, b.client.username)
      case "total_value" => Trunc(b.totalValue) - Trunc(a.totalValue)
      case "total_paid" => Trunc(b.totalPaid) - Trunc(a.totalPaid)
      case "status" => LocaleCompare(collate, a.status, b.status)
      case _ => 0;
    if view.sortOrder == "ascending" then comparison else -comparison
  }

  /** The quantity the comparator orders by: "descending" negates it, and the amount
      fields order the larger amount first. */
  function Key(view: ListView, collate: string -> int, c: Commission): real
  {
    var k :=
      match view.sort
      case "deadline" => c.deadline
      case "client" => collate(c.client.username)
      case "total_value" => -Trunc(c.totalValue)
      case "total_paid" => -Trunc(c.totalPaid)
      case "status" => collate(c.status)
      case _ => 0;
    if view.sortOrder == "ascending" then k as real else -k as real
  }

  /** The comparator's sign is that of the key difference, so sorting with it is sorting by `Key`. */
  lemma CompareIsKeyOrder(view: ListView, collate: string -> int, a: Commission, b: Commission)
    ensures Sign(Compare(view, collate, a, b) as real) == Sign(Key(view, collate, a) - Key(view, collate, b))
  {
  }

  /** For an amount field the larger amount comes first unless the order is "descending". */
  lemma AmountsLargestFirst(view: ListView, collate: string -> int, a: Commission, b: Commission)
    requires view.sort == "total_value" && Trunc(a.totalValue) > Trunc(b.totalValue)
    ensures view.sortOrder == "ascending" ==> Compare(view, collate, a, b) < 0
    ensures view.sortOrder != "ascending" ==> Compare(view, collate, a, b) > 0
  {
  }

  /** The search and the two equality filters that an unpinned row must pass. */
  predicate Matches(view: ListView, c: Commission)
  {
    (ContainsIgnoreCase(c.id, view.search) || ContainsIgnoreCase(c.title, view.search) ||
     ContainsIgnoreCase(c.trackingId, view.search)) &&
    (view.filterClient == "" || c.client.id == view.filterClient) &&
    (view.filterStatus == "" || c.status == view.filterStatus)
  }

  function IsPinned(c: Commission): bool { c.pinned }

  function MatchesFn(view: ListView): Commission -> bool
  {
    c => Matches(view, c)
  }

  function KeyFn(view: ListView, collate: string -> int): Commission -> real
  {
    c => Key(view, collate, c)
  }

  /** `filterAndSortData(data)` */
  function FilterAndSort(view: ListView, collate: string -> int, rows: seq<Commission>): seq<Commission>
  {
    PinnedFirst(rows, IsPinned, MatchesFn(view), KeyFn(view, collate))
  }

  /** Pinned rows come first, in their original order, whatever the search and filters; the
      unpinned rows follow, exactly those whose id, title or tracking id contains the search
      (ignoring case) and that pass the client and status filters, ordered by the comparator. */
  lemma FilterAndSortSpec(view: ListView, collate: string -> int, rows: seq<Commission>)
    ensures var r := FilterAndSort(view, collate, rows);
            var pinned := Filter(rows, IsPinned);
            var rest := r[|pinned|..];
            r[..|pinned|] == pinned &&
            (forall x :: x in rest <==>
               x in rows && !x.pinned &&
               (ContainsIgnoreCase(x.id, view.search) || ContainsIgnoreCase(x.title, view.search) ||
                ContainsIgnoreCase(x.trackingId, view.search)) &&
               (view.filterClient == "" || x.client.id == view.filterClient) &&
               (view.filterStatus == "" || x.status == view.filterStatus)) &&
            SortedBy(rest, KeyFn(view, collate))
  {
    PinnedFirstSpec(rows, IsPinned, MatchesFn(view), KeyFn(view, collate));
  }

  /** Every row shown on a page is a row of the current data. */
  lemma PageRowsComeFromData(view: ListView, collate: string -> int, rows: seq<Commission>, page: int)
    ensures forall x :: x in Paginate(FilterAndSort(view, collate, rows), page) ==> x in rows
  {
    PageFromList(FilterAndSort(view, collate, rows), page);
    forall x | x in Paginate(FilterAndSort(view, collate, rows), page) ensures x in rows {
      PinnedFirstFromInput(rows, IsPinned, MatchesFn(view), KeyFn(view, collate), x);
    }
  }

  /** What a commission edit or a pin change merges into the row (`{...row, ...payload}`). */
  datatype Patch =
    | EditPatch(title: string, trackingId: string, totalValue: real, totalPaid: real,
                deadline: int, product: Option<Product>, status: string, notes: string)
    | PinPatch(pinned: bool)

  function ApplyPatch(c: Commission, p: Patch): (r: Commission)
    ensures r.id == c.id && r.client == c.client && r.createdAt == c.createdAt
    ensures p.PinPatch? ==> r == c.(pinned := p.pinned)
    ensures p.EditPatch? ==> r.pinned == c.pinned && r.title == p.title && r.status == p.status && r.notes == p.notes
  {
    match p
    case EditPatch(title, trackingId, totalValue, totalPaid, deadline, product, status, notes) =>
      c.(title := title, trackingId := trackingId, totalValue := totalValue, totalPaid := totalPaid,
         deadline := deadline, product := product, status := status, notes := notes)
    case PinPatch(pinned) => c.(pinned := pinned)
  }

  function IdOf(c: Commission): string { c.id }

  function PatchFn(p: Patch): Commission -> Commission
  {
    c => ApplyPatch(c, p)
  }

  /** The write `handlePaidRefresh` sends to the store. */
  datatype PaidWrite = PaidWrite(id: string, totalPaid: real)

  /** The page's React state. */
  class Page {
    var allData: seq<Commission>
    var filteredData: seq<Commission>
    var totalPages: int
    var page: int
    var view: ListView
    const collate: string -> int

    constructor (collate: string -> int)
      ensures allData == [] && filteredData == [] && totalPages == 0 && page == 1
      ensures view == ListView("", "deadline", "ascending", "", "") && this.collate == collate
    {
      allData := [];
      filteredData := [];
      totalPages := 0;
      page := 1;
      view := ListView("", "deadline", "ascending", "", "");
      this.collate := collate;
    }

    /** The pagination effect: the visible page and the page count from the filtered, sorted data. */
    method ApplyEffect()
      modifies this
      ensures filteredData == Paginate(FilterAndSort(view, collate, allData), page)
      ensures totalPages == TotalPages(|FilterAndSort(view, collate, allData)|)
      ensures |filteredData| <= 10
      ensures allData == old(allData) && page == old(page) && view == old(view)
    {
      var sorted := FilterAndSort(view, collate, allData);
      var shown, count := Paginate(sorted, page), TotalPages(|sorted|);
      PageAtMostTen(sorted, page);
      filteredData, totalPages := shown, count;
    }

    /** `handleUpdate`: the new row followed by the visible page becomes all the data. */
    method HandleUpdate(payload: Commission)
      modifies this
      ensures allData == [payload] + old(filteredData)
      ensures filteredData == old(filteredData) && page == old(page) && view == old(view)
    {
      allData := [payload] + filteredData;
    }

    /** `handleStatusRefresh`: the visible page, with the row's status changed, replaces all
        the data, so rows on other pages drop out of the local list. */
    method HandleStatusRefresh(id: string, status: string)
      modifies this
      ensures var k := FindIndex(old(filteredData), IdOf, id);
              (k == -1 ==> allData == old(allData)) &&
              (k >= 0 ==> allData == old(filteredData)[k := old(filteredData)[k].(status := status)])
      ensures filteredData == old(filteredData) && page == old(page) && view == old(view)
    {
      var k := FindIndex(filteredData, IdOf, id);
      if k != -1 {
        allData := filteredData[k := filteredData[k].(status := status)];
      }
    }

    /** `handlePaidRefresh`: total_paid becomes the percentage of total_value on the visible
        page, which replaces all the data, and that amount is written to the store. */
    method HandlePaidRefresh(id: string, percentage: real) returns (write: Option<PaidWrite>)
      modifies this
      ensures var k := FindIndex(old(filteredData), IdOf, id);
              (k == -1 ==> allData == old(allData) && write == None) &&
              (k >= 0 ==> allData == old(filteredData)[k := PaidShare(old(filteredData)[k], percentage)] &&
                          write == Some(PaidWrite(id, PaidShare(old(filteredData)[k], percentage).totalPaid)))
      ensures filteredData == old(filteredData) && page == old(page) && view == old(view)
    {
      var k := FindIndex(filteredData, IdOf, id);
      write := None;
      if k != -1 {
        var row := PaidShare(filteredData[k], percentage);
        allData := filteredData[k := row];
        write := Some(PaidWrite(id, row.totalPaid));
      }
    }

    /** `handleDeleteRefresh`: the row leaves the visible page only. */
    method HandleDeleteRefresh(id: string)
      modifies this
      ensures filteredData == RemoveById(old(filteredData), IdOf, id)
      ensures allData == old(allData) && page == old(page) && view == old(view)
    {
      filteredData := RemoveById(filteredData, IdOf, id);
    }

    /** `handleEditRefresh`: the payload is merged into the first row with the id; other rows,
        and the list when the id is absent, stay as they are. */
    method HandleEditRefresh(id: string, payload: Patch)
      modifies this
      ensures allData == UpdateById(old(allData), IdOf, id, PatchFn(payload))
      ensures filteredData == old(filteredData) && page == old(page) && view == old(view)
    {
      allData := UpdateById(allData, IdOf, id, PatchFn(payload));
    }

    /** `handlePinRefresh` is an edit of the pinned flag. */
    method HandlePinRefresh(id: string, pinned: bool)
      modifies this
      ensures allData == UpdateById(old(allData), IdOf, id, PatchFn(PinPatch(pinned)))
      ensures filteredData == old(filteredData) && page == old(page) && view == old(view)
    {
      HandleEditRefresh(id, PinPatch(pinned));
    }
  }

  /** The row with total_paid set to `percentage` percent of total_value; nothing else changes. */
  function PaidShare(c: Commission, percentage: real): (r: Commission)
    ensures r == c.(totalPaid := r.totalPaid)
    ensures r.totalPaid * 100.0 == c.totalValue * percentage
  {
    c.(totalPaid := c.totalValue * percentage / 100.0)
  }

  /** For a non-negative value, a percentage between 0 and 100 never overpays, and 100% pays in full. */
  lemma PaidShareBounded(c: Commission, percentage: real)
    requires c.totalValue >= 0.0 && 0.0 <= percentage <= 100.0
    ensures 0.0 <= PaidShare(c, percentage).totalPaid <= c.totalValue
    ensures percentage == 100.0 ==> PaidShare(c, percentage).totalPaid == c.totalValue
  {
    var p := PaidShare(c, percentage).totalPaid;
    assert p * 100.0 == c.totalValue * percentage;
    assert c.totalValue * percentage <= c.totalValue * 100.0;
  }
}
