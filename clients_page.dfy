// The clients list page (components/Clients.jsx): each fetched client gets its commission
// count and revenue, then the rows are searched, sorted, paginated and refreshed. Only the
// search, sort and order of `ListView` are used here.
module ClientsPage {
  import opened Strings
  import opened Entities
  import opened ListPipeline

  /** The revenue sum as `reduce((acc, curr) => acc + curr.total_paid, acc)` computes it,
      left to right. */
  function RevenueFrom(acc: real, cs: seq<CommissionSummary>): real
    decreases |cs|
  {
    if cs == [] then acc else RevenueFrom(acc + cs[0].totalPaid, cs[1..])
  }

  /** The sum of `total_paid` over the commissions. */
  function Revenue(cs: seq<CommissionSummary>): real
  {
    if cs == [] then 0.0 else cs[0].totalPaid + Revenue(cs[1..])
  }

  /** The left fold from `acc` adds `acc` to the sum. */
  lemma {:induction false} RevenueFromIsSum(acc: real, cs: seq<CommissionSummary>)
    ensures RevenueFrom(acc, cs) == acc + Revenue(cs)
    decreases |cs|
  {
    if cs != [] {
      RevenueFromIsSum(acc + cs[0].totalPaid, cs[1..]);
    }
  }

  /** The sum over two lists of commissions is the sum of their sums. */
  lemma {:induction false} RevenueAppend(a: seq<CommissionSummary>, b: seq<CommissionSummary>)
    ensures Revenue(a + b) == Revenue(a) + Revenue(b)
    decreases |a|
  {
    if a == [] {
      assert a + b == b;
    } else {
      assert (a + b)[1..] == a[1..] + b;
      RevenueAppend(a[1..], b);
    }
  }

  /** With no negative payments the revenue is never negative. */
  lemma {:induction false} RevenueNonNegative(cs: seq<CommissionSummary>)
    requires forall i :: 0 <= i < |cs| ==> cs[i].totalPaid >= 0.0
    ensures Revenue(cs) >= 0.0
    decreases |cs|
  {
    if cs != [] {
      RevenueNonNegative(cs[1..]);
    }
  }

  /** One row of `enhancedData`: the client with its commission count and revenue. */
  function Enhance(c: Client): (r: Client)
    ensures r == c.(totalCommissions := |c.commissions|, totalRevenue := Revenue(c.commissions))
  {
    RevenueFromIsSum(0.0, c.commissions);
    c.(totalCommissions := |c.commissions|, totalRevenue := RevenueFrom(0.0, c.commissions))
  }

  /** `data.map(client => ...)` */
  function EnhanceAll(data: seq<Client>): (r: seq<Client>)
    ensures |r| == |data|
    ensures forall i :: 0 <= i < |data| ==> r[i] == Enhance(data[i])
  {
    if data == [] then [] else [Enhance(data[0])] + EnhanceAll(data[1..])
  }

  /** `compareFunction(a, b)`: counts and revenue order the larger first. */
  function Compare(view: ListView, collate: string -> int, a: Client, b: Client): real
  {
    var comparison :=
      match view.sort
      case "username" => LocaleCompare(collate, a.username, b.username) as real
      case "discord" => LocaleCompare(collate, a.discord, b.discord) as real
      case "total_commissions" => (b.totalCommissions - a.totalCommissions) as real
      case "total_revenue" => b.totalRevenue - a.totalRevenue
      case "created_at" => (a.createdAt - b.createdAt) as real
      case _ => 0.0;
    if view.sortOrder == "ascending" then comparison else -comparison
  }

  /** The quantity the comparator orders by. */
  function Key(view: ListView, collate: string -> int, c: Client): real
  {
    var k :=
      match view.sort
      case "username" => collate(c.username) as real
      case "discord" => collate(c.discord) as real
      case "total_commissions" => -c.totalCommissions as real
      case "total_revenue" => -c.totalRevenue
      case "created_at" => c.createdAt as real
      case _ => 0.0;
    if view.sortOrder == "ascending" then k else -k
  }

  /** The comparator's sign is that of the key difference, so sorting with it is sorting by `Key`. */
  lemma CompareIsKeyOrder(view: ListView, collate: string -> int, a: Client, b: Client)
    ensures Sign(Compare(view, collate, a, b)) == Sign(Key(view, collate, a) - Key(view, collate, b))
  {
  }

  /** Sorting by revenue puts the larger revenue first unless the order is "descending". */
  lemma RevenueLargestFirst(view: ListView, collate: string -> int, a: Client, b: Client)
    requires view.sort == "total_revenue" && a.totalRevenue > b.totalRevenue
    ensures view.sortOrder == "ascending" ==> Compare(view, collate, a, b) < 0.0
    ensures view.sortOrder != "ascending" ==> Compare(view, collate, a, b) > 0.0
  {
  }

  /** The search: id, username, e-mail or discord contains it, ignoring case. */
  predicate Matches(view: ListView, c: Client)
  {
    ContainsIgnoreCase(c.id, view.search) || ContainsIgnoreCase(c.username, view.search) ||
    ContainsIgnoreCase(c.email, view.search) || ContainsIgnoreCase(c.discord, view.search)
  }

  function MatchesFn(view: ListView): Client -> bool
  {
    c => Matches(view, c)
  }

  function KeyFn(view: ListView, collate: string -> int): Client -> real
  {
    c => Key(view, collate, c)
  }

  /** The list the effect paginates. */
  function FilterAndSort(view: ListView, collate: string -> int, rows: seq<Client>): seq<Client>
  {
    FilterSort(rows, MatchesFn(view), KeyFn(view, collate))
  }

  /** A client is listed exactly when its id, username, e-mail or discord contains the search,
      ignoring case; the client and status filters play no part. The list is ordered by the
      comparator. */
  lemma FilterAndSortSpec(view: ListView, collate: string -> int, rows: seq<Client>)
    ensures var r := FilterAndSort(view, collate, rows);
            (forall x :: x in r <==>
               x in rows &&
               (ContainsIgnoreCase(x.id, view.search) || ContainsIgnoreCase(x.username, view.search) ||
                ContainsIgnoreCase(x.email, view.search) || ContainsIgnoreCase(x.discord, view.search))) &&
            SortedBy(r, KeyFn(view, collate))
  {
    FilterSortSpec(rows, MatchesFn(view), KeyFn(view, collate));
  }

  /** What the edit form merges into a row. */
  datatype Patch = EditPatch(username: string, discord: string, email: string, avatarUrl: string)

  function ApplyPatch(c: Client, p: Patch): (r: Client)
    ensures r.id == c.id && r.createdAt == c.createdAt && r.commissions == c.commissions
    ensures r.totalCommissions == c.totalCommissions && r.totalRevenue == c.totalRevenue
    ensures r.username == p.username && r.discord == p.discord && r.email == p.email && r.avatarUrl == p.avatarUrl
  {
    c.(username := p.username, discord := p.discord, email := p.email, avatarUrl := p.avatarUrl)
  }

  function IdOf(c: Client): string { c.id }

  function PatchFn(p: Patch): Client -> Client
  {
    c => ApplyPatch(c, p)
  }

  /** The page's React state. */
  class Page {
    var allData: seq<Client>
    var filteredData: seq<Client>
    var totalPages: int
    var page: int
    var view: ListView
    const collate: string -> int

    constructor (collate: string -> int)
      ensures allData == [] && filteredData == [] && totalPages == 0 && page == 1
      ensures view == ListView("", "username", "ascending", "", "") && this.collate == collate
    {
      allData := [];
      filteredData := [];
      totalPages := 0;
      page := 1;
      view := ListView("", "username", "ascending", "", "");
      this.collate := collate;
    }

    /** `fetchClients`: the fetched rows, each with its count and revenue, become all the data. */
    method Load(data: seq<Client>)
      modifies this
      ensures allData == EnhanceAll(data)
      ensures filteredData == old(filteredData) && page == old(page) && view == old(view)
    {
      allData := EnhanceAll(data);
    }

    /** The filter, sort and paginate effect. */
    method ApplyEffect()
      modifies this
      ensures filteredData == Paginate(FilterAndSort(view, collate, allData), page)
      ensures totalPages == TotalPages(|FilterAndSort(view, collate, allData)|)
      ensures |filteredData| <= 10
      ensures allData == old(allData) && page == old(page) && view == old(view)
    {
      var sorted := FilterAndSort(view, collate, allData);
      var shown, count := Paginate(sorted, page), TotalPages(|sorted|);
      PageAtMostTen(sorted, page);
      filteredData, totalPages := shown, count;
    }

    /** `handleUpdate`: the new client is put in front of the visible page. */
    method HandleUpdate(data: Client)
      modifies this
      ensures filteredData == [data] + old(filteredData)
      ensures allData == old(allData) && page == old(page) && view == old(view)
    {
      filteredData := [data] + filteredData;
    }

    /** `handleDeleteRefresh`: the client leaves the visible page only. */
    method HandleDeleteRefresh(id: string)
      modifies this
      ensures filteredData == RemoveById(old(filteredData), IdOf, id)
      ensures allData == old(allData) && page == old(page) && view == old(view)
    {
      filteredData := RemoveById(filteredData, IdOf, id);
    }

    /** `handleEditRefresh`: the payload is merged into the first client with the id only. */
    method HandleEditRefresh(id: string, payload: Patch)
      modifies this
      ensures allData == UpdateById(old(allData), IdOf, id, PatchFn(payload))
      ensures filteredData == old(filteredData) && page == old(page) && view == old(view)
    {
      allData := UpdateById(allData, IdOf, id, PatchFn(payload));
    }
  }
}
