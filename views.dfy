// Saved views turned into sidebar links (hooks/useViews.js).
// An absent field of a saved view is the empty string; a string is truthy when non-empty.
module Views {
  import opened Strings
  import opened Wrappers

  datatype ViewData = ViewData(page: string, sort: string, sortOrder: string,
                               filterClient: string, filterStatus: string,
                               search: string, filterCommission: string)
  datatype View = View(id: int, name: string, data: ViewData)
  datatype ViewLink = ViewLink(id: int, labelText: string, link: string)

  datatype Param = Param(key: string, value: string)

  /** Position of a parameter in the fixed emission order. */
  function KeyRank(key: string): int
  {
    if key == "sort" then 0
    else if key == "descending" then 1
    else if key == "filter" then 2
    else if key == "status" then 3
    else 4
  }

  predicate HasKey(params: seq<Param>, key: string)
  {
    exists k :: 0 <= k < |params| && params[k].key == key
  }

  function BoolString(b: bool): string
  {
    if b then "true" else "false"
  }

  /** The query parameters of a view, as the link builder emits them. */
  function QueryParams(v: ViewData): (params: seq<Param>)
    // keys come in the fixed order sort, descending, filter, status, none twice
    ensures forall i, j :: 0 <= i < j < |params| ==> KeyRank(params[i].key) < KeyRank(params[j].key)
    ensures forall i :: 0 <= i < |params| ==> KeyRank(params[i].key) < 4
    // each key present carries its source field's value
    ensures forall i :: 0 <= i < |params| ==>
              match params[i].key
              case "sort" => params[i].value == v.sort
              case "descending" => params[i].value == BoolString(v.sortOrder != "ascending")
              case "filter" => params[i].value == v.filterClient
              case _ => params[i].value == v.filterStatus
  {
    (if v.sort != [] then [Param("sort", v.sort)] else []) +
    (if v.sortOrder != [] then [Param("descending", BoolString(v.sortOrder != "ascending"))] else []) +
    (if v.filterClient != [] then [Param("filter", v.filterClient)] else []) +
    (if v.filterStatus != [] then [Param("status", v.filterStatus)] else [])
  }

  lemma HasKeyAppend(x: seq<Param>, y: seq<Param>, key: string)
    ensures HasKey(x + y, key) <==> HasKey(x, key) || HasKey(y, key)
  {
    if HasKey(x + y, key) {
      var i :| 0 <= i < |x + y| && (x + y)[i].key == key;
      if i >= |x| { assert y[i - |x|].key == key; }
    }
    if HasKey(x, key) {
      var i :| 0 <= i < |x| && x[i].key == key;
      assert (x + y)[i].key == key;
    }
    if HasKey(y, key) {
      var i :| 0 <= i < |y| && y[i].key == key;
      assert (x + y)[|x| + i].key == key;
    }
  }

  lemma HasKeyOptional(present: bool, p: Param, key: string)
    ensures HasKey(if present then [p] else [], key) <==> present && p.key == key
  {
    if present && p.key == key {
      assert [p][0].key == key;
    }
  }

  /** A key is among the parameters exactly when it is one of the four and its field is set. */
  lemma KeyPresence(v: ViewData, key: string)
    ensures HasKey(QueryParams(v), key) <==>
            (key == "sort" && v.sort != []) || (key == "descending" && v.sortOrder != []) ||
            (key == "filter" && v.filterClient != []) || (key == "status" && v.filterStatus != [])
  {
    var pa, pb := Param("sort", v.sort), Param("descending", BoolString(v.sortOrder != "ascending"));
    var pc, pd := Param("filter", v.filterClient), Param("status", v.filterStatus);
    var a := if v.sort != [] then [pa] else [];
    var b := if v.sortOrder != [] then [pb] else [];
    var c := if v.filterClient != [] then [pc] else [];
    var d := if v.filterStatus != [] then [pd] else [];
    assert QueryParams(v) == a + b + c + d;
    HasKeyAppend4(a, b, c, d, key);
    HasKeyOptional(v.sort != [], pa, key);
    HasKeyOptional(v.sortOrder != [], pb, key);
    HasKeyOptional(v.filterClient != [], pc, key);
    HasKeyOptional(v.filterStatus != [], pd, key);
  }

  /** Each key is present exactly when its source field is set. */
  lemma QueryParamsPresence(v: ViewData)
    ensures HasKey(QueryParams(v), "sort") <==> v.sort != []
    ensures HasKey(QueryParams(v), "descending") <==> v.sortOrder != []
    ensures HasKey(QueryParams(v), "filter") <==> v.filterClient != []
    ensures HasKey(QueryParams(v), "status") <==> v.filterStatus != []
  {
    KeyPresence(v, "sort");
    KeyPresence(v, "descending");
    KeyPresence(v, "filter");
    KeyPresence(v, "status");
  }

  lemma HasKeyAppend4(a: seq<Param>, b: seq<Param>, c: seq<Param>, d: seq<Param>, key: string)
    ensures HasKey(a + b + c + d, key) <==> HasKey(a, key) || HasKey(b, key) || HasKey(c, key) || HasKey(d, key)
  {
    HasKeyAppend(a + b + c, d, key);
    HasKeyAppend(a + b, c, key);
    HasKeyAppend(a, b, key);
  }

  /** The pushes of the source, one `if` per field. */
  method BuildQueryParams(v: ViewData) returns (params: seq<Param>)
    ensures params == QueryParams(v)
  {
    params := [];
    if v.sort != [] { params := params + [Param("sort", v.sort)]; }
    if v.sortOrder != [] { params := params + [Param("descending", BoolString(v.sortOrder != "ascending"))]; }
    if v.filterClient != [] { params := params + [Param("filter", v.filterClient)]; }
    if v.filterStatus != [] { params := params + [Param("status", v.filterStatus)]; }
  }

  function Render(params: seq<Param>): (r: seq<string>)
    ensures |r| == |params|
    ensures forall i :: 0 <= i < |r| ==> r[i] == params[i].key + "=" + params[i].value
  {
    if params == [] then [] else [params[0].key + "=" + params[0].value] + Render(params[1..])
  }

  function Link(v: ViewData): string
  {
    v.page + "/?" + Join(Render(QueryParams(v)), "&")
  }

  /** The saved search and commission filter never reach the link. */
  lemma SearchNotEmitted(v: ViewData, search: string, commission: string)
    ensures Link(v.(search := search, filterCommission := commission)) == Link(v)
  {
  }

  /** One link per view, in input order, keeping the id and using the name as label. */
  function Transform(views: seq<View>): (r: seq<ViewLink>)
    ensures |r| == |views|
    ensures forall k :: 0 <= k < |r| ==>
              r[k].id == views[k].id && r[k].labelText == views[k].name && r[k].link == Link(views[k].data)
  {
    if views == [] then []
    else [ViewLink(views[0].id, views[0].name, Link(views[0].data))] + Transform(views[1..])
  }

  /** The views context: the list of sidebar links. The store's answer is a parameter. */
  class ViewsProvider {
    var viewsData: seq<ViewLink>

    constructor ()
      ensures viewsData == []
    {
      viewsData := [];
    }

    /** `fetchData`: on an error the list is left as it was. */
    method FetchData(response: Result<seq<View>, string>)
      modifies this
      ensures response.Err? ==> viewsData == old(viewsData)
      ensures response.Ok? ==> viewsData == Transform(response.value)
    {
      if response.Ok? {
        viewsData := Transform(response.value);
      }
    }

    /** `refreshData` fetches again. */
    method RefreshData(response: Result<seq<View>, string>)
      modifies this
      ensures response.Err? ==> viewsData == old(viewsData)
      ensures response.Ok? ==> viewsData == Transform(response.value)
    {
      FetchData(response);
    }
  }
}
