// The invoices list page (components/Invoices.jsx): the same pinned-first pipeline as the
// commissions page, with its own comparator, search fields and refresh handlers.
module InvoicesPage {
  import opened Wrappers
  import opened Strings
  import opened Entities
  import opened ListPipeline

  /** `compareFunction(a, b)`. Dates and amounts compare by their difference; "paid_at"
      compares the due dates. */
  function Compare(view: ListView, collate: string -> int, a: Invoice, b: Invoice): int
  {
    var comparison :=
      match view.sort
      case "created_at" => a.createdAt - b.createdAt
      case "amount" => a.amount - b.amount
      case "client" => LocaleCompare(collate, a.client.id, b.client.id)
      case "due_date" => a.dueDate - b.dueDate
      case "paid_at" => a.dueDate - b.dueDate
      case "status" => LocaleCompare(collate, a.status, b.status)
      case _ => 0;
    if view.sortOrder == "ascending" then comparison else -comparison
  }

  /** The quantity the comparator orders by. */
  function Key(view: ListView, collate: string -> int, i: Invoice): real
  {
    var k :=
      match view.sort
      case "created_at" => i.createdAt
      case "amount" => i.amount
      case "client" => collate(i.client.id)
      case "due_date" => i.dueDate
      case "paid_at" => i.dueDate
      case "status" => collate(i.status)
      case _ => 0;
    if view.sortOrder == "ascending" then k as real else -k as real
  }

  /** The comparator's sign is that of the key difference, so sorting with it is sorting by `Key`. */
  lemma CompareIsKeyOrder(view: ListView, collate: string -> int, a: Invoice, b: Invoice)
    ensures Sign(Compare(view, collate, a, b) as real) == Sign(Key(view, collate, a) - Key(view, collate, b))
  {
  }

  /** Sorting by "paid_at" orders exactly as sorting by "due_date"; the payment date is never read. */
  lemma PaidAtSortsByDueDate(view: ListView, collate: string -> int, a: Invoice, b: Invoice)
    requires view.sort == "paid_at"
    ensures Compare(view, collate, a, b) == Compare(view.(sort := "due_date"), collate, a, b)
    ensures Compare(view, collate, a, b) == Compare(view, collate, a.(paidAt := b.paidAt), b)
  {
  }

  /** "descending" negates whatever the comparison is. */
  lemma DescendingNegates(view: ListView, collate: string -> int, a: Invoice, b: Invoice)
    requires view.sortOrder == "descending"
    ensures Compare(view, collate, a, b) == -Compare(view.(sortOrder := "ascending"), collate, a, b)
  {
  }

  /** The search and the two equality filters that an unpinned row must pass. */
  predicate Matches(view: ListView, i: Invoice)
  {
    (ContainsIgnoreCase(i.id, view.search) || ContainsIgnoreCase(i.title, view.search) ||
     ContainsIgnoreCase(i.client.username, view.search)) &&
    (view.filterClient == "" || i.client.id == view.filterClient) &&
    (view.filterStatus == "" || i.status == view.filterStatus)
  }

  function IsPinned(i: Invoice): bool { i.pinned }

  function MatchesFn(view: ListView): Invoice -> bool
  {
    i => Matches(view, i)
  }

  function KeyFn(view: ListView, collate: string -> int): Invoice -> real
  {
    i => Key(view, collate, i)
  }

  /** `filterAndSortData(data)` */
  function FilterAndSort(view: ListView, collate: string -> int, rows: seq<Invoice>): seq<Invoice>
  {
    PinnedFirst(rows, IsPinned, MatchesFn(view), KeyFn(view, collate))
  }

  /** Pinned rows come first, in their original order, unfiltered; the unpinned rows follow,
      exactly those whose id, title or client name contains the search (ignoring case) and that
      pass the client and status filters, ordered by the comparator. */
  lemma FilterAndSortSpec(view: ListView, collate: string -> int, rows: seq<Invoice>)
    ensures var r := FilterAndSort(view, collate, rows);
            var pinned := Filter(rows, IsPinned);
            var rest := r[|pinned|..];
            r[..|pinned|] == pinned &&
            (forall x :: x in rest <==>
               x in rows && !x.pinned &&
               (ContainsIgnoreCase(x.id, view.search) || ContainsIgnoreCase(x.title, view.search) ||
                ContainsIgnoreCase(x.client.username, view.search)) &&
               (view.filterClient == "" || x.client.id == view.filterClient) &&
               (view.filterStatus == "" || x.status == view.filterStatus)) &&
            SortedBy(rest, KeyFn(view, collate))
  {
    PinnedFirstSpec(rows, IsPinned, MatchesFn(view), KeyFn(view, collate));
  }

  /** What the manage menu merges into a row: the pinned flag, or the paid status with the
      payment date when the provider reports one. */
  datatype Patch =
    | PinPatch(pinned: bool)
    | PaidPatch(paidAt: Option<int>)

  function ApplyPatch(i: Invoice, p: Patch): (r: Invoice)
    ensures r.id == i.id && r.title == i.title && r.client == i.client && r.amount == i.amount
    ensures r.createdAt == i.createdAt && r.dueDate == i.dueDate
    ensures p.PinPatch? ==> r.pinned == p.pinned && r.status == i.status && r.paidAt == i.paidAt
    ensures p.PaidPatch? ==> r.status == "paid" && r.pinned == i.pinned
    ensures p.PaidPatch? ==> r.paidAt == (if p.paidAt.Some? then p.paidAt else i.paidAt)
  {
    match p
    case PinPatch(pinned) => i.(pinned := pinned)
    case PaidPatch(paidAt) =>
      if paidAt.Some? then i.(status := "paid", paidAt := paidAt) else i.(status := "paid")
  }

  function IdOf(i: Invoice): string { i.id }

  function PatchFn(p: Patch): Invoice -> Invoice
  {
    i => ApplyPatch(i, p)
  }

  /** The page's React state. */
  class Page {
    var allData: seq<Invoice>
    var filteredData: seq<Invoice>
    var totalPages: int
    var page: int
    var view: ListView
    const collate: string -> int

    constructor (collate: string -> int)
      ensures allData == [] && filteredData == [] && totalPages == 0 && page == 1
      ensures view == ListView("", "created_at", "ascending", "", "") && this.collate == collate
    {
      allData := [];
      filteredData := [];
      totalPages := 0;
      page := 1;
      view := ListView("", "created_at", "ascending", "", "");
      this.collate := collate;
    }

    /** The pagination effect: the visible page and the page count from the filtered, sorted data. */
    method ApplyEffect()
      modifies this
      ensures filteredData == Paginate(FilterAndSort(view, collate, allData), page)
      ensures totalPages == TotalPages(|FilterAndSort(view, collate, allData)|)
      ensures |filteredData| <= 10
      ensures allData == old(allData) && page == old(page) && view == old(view)
    {
      var sorted := FilterAndSort(view, collate, allData);
      var shown, count := Paginate(sorted, page), TotalPages(|sorted|);
      PageAtMostTen(sorted, page);
      filteredData, totalPages := shown, count;
    }

    /** `handleUpdate`: the new row followed by the visible page becomes all the data. */
    method HandleUpdate(payload: Invoice)
      modifies this
      ensures allData == [payload] + old(filteredData)
      ensures filteredData == old(filteredData) && page == old(page) && view == old(view)
    {
      allData := [payload] + filteredData;
    }

    /** `handleDeleteRefresh`: the row leaves the visible page only. */
    method HandleDeleteRefresh(id: string)
      modifies this
      ensures filteredData == RemoveById(old(filteredData), IdOf, id)
      ensures allData == old(allData) && page == old(page) && view == old(view)
    {
      filteredData := RemoveById(filteredData, IdOf, id);
    }

    /** `handleEditRefresh`: the payload is merged into the first row with the id only. */
    method HandleEditRefresh(id: string, payload: Patch)
      modifies this
      ensures allData == UpdateById(old(allData), IdOf, id, PatchFn(payload))
      ensures filteredData == old(filteredData) && page == old(page) && view == old(view)
    {
      allData := UpdateById(allData, IdOf, id, PatchFn(payload));
    }

    /** `handlePinRefresh` is an edit of the pinned flag. */
    method HandlePinRefresh(id: string, pinned: bool)
      modifies this
      ensures allData == UpdateById(old(allData), IdOf, id, PatchFn(PinPatch(pinned)))
      ensures filteredData == old(filteredData) && page == old(page) && view == old(view)
    {
      HandleEditRefresh(id, PinPatch(pinned));
    }
  }
}
