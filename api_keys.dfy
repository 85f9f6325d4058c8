// The public API (app/api/v1/create/request/route.js and app/api/v1/select/client/route.js):
// a bearer key names a tenant with an active licence, each call that gets past the key and
// quota checks spends one use before it acts, and a failure after that does not refund it.
module ApiKeys {
  import opened Wrappers
  import opened Strings
  import opened ListPipeline
  import opened Store

  const BearerPrefix := "Bearer "

  const AuthRequired := "Authentication required. Please enter an API key"
  const ServerError := "A server error occurred! Please try again later or contact support."
  const InvalidKey := "Invalid API key."
  const NoUsesLeft := "You have no API uses left."
  const NoCommission := "Please enter a valid commission ID for this request."
  /** The body of a 500 carries the store's own error text, which the model does not know. */
  const StoreError := "store error"

  /** `authHeader.split('Bearer ')[1]` once the header is known to start with the prefix. */
  function BearerToken(header: Option<string>): (t: Option<string>)
    ensures t.Some? <==> header.Some? && StartsWith(header.value, BearerPrefix)
  {
    if header.Some? && StartsWith(header.value, BearerPrefix) then
      SplitOnLeading(BearerPrefix, header.value[|BearerPrefix|..]);
      assert header.value == BearerPrefix + header.value[|BearerPrefix|..];
      Some(SplitOn(header.value, BearerPrefix)[1])
    else None
  }

  /** The token is the text after the prefix, cut short at any later "Bearer ", and is
      exactly that text when the prefix does not occur again. */
  lemma BearerTokenIsRest(header: string)
    requires StartsWith(header, BearerPrefix)
    ensures BearerToken(Some(header)).value <= header[|BearerPrefix|..]
    ensures !Contains(header[|BearerPrefix|..], BearerPrefix) ==>
              BearerToken(Some(header)) == Some(header[|BearerPrefix|..])
  {
    var rest := header[|BearerPrefix|..];
    assert header == BearerPrefix + rest;
    SplitOnLeading(BearerPrefix, rest);
    SplitOnFirstPrefix(rest, BearerPrefix);
    if !Contains(rest, BearerPrefix) {
      SplitOnAbsent(rest, BearerPrefix);
    }
  }

  /** The first settings row holding this key with an active licence, or -1. */
  function KeyOwner(rows: seq<SettingsRow>, token: string): (k: int)
    ensures -1 <= k < |rows|
    ensures k == -1 <==> forall i :: 0 <= i < |rows| ==> !(rows[i].apiKey == token && rows[i].licenseActive)
    ensures k >= 0 ==> rows[k].apiKey == token && rows[k].licenseActive &&
                       forall i :: 0 <= i < k ==> !(rows[i].apiKey == token && rows[i].licenseActive)
  {
    if rows == [] then -1
    else if rows[0].apiKey == token && rows[0].licenseActive then 0
    else
      var k := KeyOwner(rows[1..], token);
      if k == -1 then -1 else k + 1
  }

  function SetUses(n: int): SettingsRow -> SettingsRow
  {
    (r: SettingsRow) => r.(apiUsesLeft := n)
  }

  /** The guards both routes run, in order, and the use they spend; `Ok` carries the tenant's id. */
  method Authorise(db: Db, header: Option<string>, fails: set<Call>) returns (outcome: Result<string, Response>)
    modifies db
    ensures BearerToken(header).None? ==> outcome == Err(Response(401, AuthRequired)) && unchanged(db)
    ensures BearerToken(header).Some? && ReadApiKey in fails ==>
              outcome == Err(Response(500, ServerError)) && unchanged(db)
    ensures BearerToken(header).Some? && ReadApiKey !in fails ==>
              var k := KeyOwner(old(db.settings), BearerToken(header).value);
              (k == -1 ==> outcome == Err(Response(403, InvalidKey)) && unchanged(db)) &&
              (k >= 0 && old(db.settings)[k].apiUsesLeft < 1 ==> outcome == Err(Response(403, NoUsesLeft)) && unchanged(db)) &&
              (k >= 0 && old(db.settings)[k].apiUsesLeft >= 1 && UpdateUses in fails ==>
                 outcome == Err(Response(500, StoreError)) && unchanged(db)) &&
              (k >= 0 && old(db.settings)[k].apiUsesLeft >= 1 && UpdateUses !in fails ==>
                 var owner := old(db.settings)[k];
                 outcome == Ok(owner.id) &&
                 db.settings == UpdateById(old(db.settings), SettingsId, owner.id, SetUses(owner.apiUsesLeft - 1)))
    ensures outcome.Ok? <==> Passes(old(db.settings), header, fails)
    ensures outcome.Err? ==> outcome.error.status != 200 && unchanged(db)
    ensures db.quoteStatus == old(db.quoteStatus) && db.commissions == old(db.commissions)
    ensures db.notifications == old(db.notifications) && db.requests == old(db.requests)
    ensures db.clients == old(db.clients) && db.invoices == old(db.invoices)
  {
    var token := BearerToken(header);
    if token.None? {
      return Err(Response(401, AuthRequired));
    }
    if ReadApiKey in fails {
      return Err(Response(500, ServerError));
    }
    var k := KeyOwner(db.settings, token.value);
    if k == -1 {
      return Err(Response(403, InvalidKey));
    }
    var apiUser := db.settings[k];
    if apiUser.apiUsesLeft < 1 {
      return Err(Response(403, NoUsesLeft));
    }
    if UpdateUses in fails {
      return Err(Response(500, StoreError));
    }
    db.settings := UpdateById(db.settings, SettingsId, apiUser.id, SetUses(apiUser.apiUsesLeft - 1));
    return Ok(apiUser.id);
  }

  /** With one settings row per id, spending a use lowers the key owner's count by one and
      leaves every other row as it was. */
  lemma SpendingOneUse(rows: seq<SettingsRow>, k: int)
    requires 0 <= k < |rows|
    requires forall i, j :: 0 <= i < j < |rows| ==> rows[i].id != rows[j].id
    ensures var r := UpdateById(rows, SettingsId, rows[k].id, SetUses(rows[k].apiUsesLeft - 1));
            |r| == |rows| && r[k] == rows[k].(apiUsesLeft := rows[k].apiUsesLeft - 1) &&
            forall i :: 0 <= i < |rows| && i != k ==> r[i] == rows[i]
  {
    assert FindIndex(rows, SettingsId, rows[k].id) == k;
  }

  /** The row `POST /api/v1/create/request` inserts: the tenant's id and nothing from the body,
      whose stream the route spreads in place of its parsed fields. */
  function ApiRequest(owner: string): RequestRow
  {
    RequestRow(owner, None, None, None, None, None)
  }

  /** The key is well formed, readable, owned by an active licence with a use left, and the
      use could be spent. */
  predicate Passes(rows: seq<SettingsRow>, header: Option<string>, fails: set<Call>)
  {
    BearerToken(header).Some? && ReadApiKey !in fails && UpdateUses !in fails &&
    var k := KeyOwner(rows, BearerToken(header).value);
    k >= 0 && rows[k].apiUsesLeft >= 1
  }

  /** The tenant a passing key belongs to. */
  function Owner(rows: seq<SettingsRow>, header: Option<string>, fails: set<Call>): SettingsRow
    requires Passes(rows, header, fails)
  {
    rows[KeyOwner(rows, BearerToken(header).value)]
  }

  /** The settings once the owner's use is spent. */
  function Spent(rows: seq<SettingsRow>, header: Option<string>, fails: set<Call>): seq<SettingsRow>
    requires Passes(rows, header, fails)
  {
    var owner := Owner(rows, header, fails);
    UpdateById(rows, SettingsId, owner.id, SetUses(owner.apiUsesLeft - 1))
  }

  /** `POST /api/v1/create/request` */
  method CreateRequest(db: Db, commission: Option<string>, header: Option<string>, fails: set<Call>)
    returns (r: Response, data: Option<seq<RequestRow>>)
    modifies db
    // the body is checked before the key
    ensures commission.None? || commission.value == "" ==>
              r == Response(400, NoCommission) && data.None? && unchanged(db)
    ensures commission.Some? && commission.value != "" && !Passes(old(db.settings), header, fails) ==>
              r.status != 200 && data.None? && unchanged(db)
    // once a use is spent it stays spent, whether or not the insert succeeds
    ensures commission.Some? && commission.value != "" && Passes(old(db.settings), header, fails) ==>
              var row := ApiRequest(Owner(old(db.settings), header, fails).id);
              db.settings == Spent(old(db.settings), header, fails) &&
              (InsertRequest in fails ==> r == Response(500, StoreError) && data.None? && db.requests == old(db.requests)) &&
              (InsertRequest !in fails ==> r.status == 200 && data == Some([row]) && db.requests == old(db.requests) + [row])
    ensures db.quoteStatus == old(db.quoteStatus) && db.commissions == old(db.commissions)
    ensures db.notifications == old(db.notifications)
    ensures db.clients == old(db.clients) && db.invoices == old(db.invoices)
  {
    if commission.None? || commission.value == "" {
      return Response(400, NoCommission), None;
    }
    var outcome := Authorise(db, header, fails);
    if outcome.Err? {
      return outcome.error, None;
    }
    if InsertRequest in fails {
      return Response(500, StoreError), None;
    }
    var row := ApiRequest(outcome.value);
    db.requests := db.requests + [row];
    return Response(200, ""), Some([row]);
  }

  /** The columns of `panel_clients` a filter may name. */
  const ClientColumns: set<string> := {"id", "panel_id", "username", "email", "discord", "avatar_url", "stripe_id", "created_at"}

  /** The value of a named column of a client row, if it holds one. */
  function ColumnValue(row: ClientRow, column: string): Option<string>
  {
    if column == "id" then Some(row.id)
    else if column == "panel_id" then Some(row.panelId)
    else if column == "stripe_id" then row.stripeId
    else if column in row.columns then Some(row.columns[column])
    else None
  }

  /** The two query parameters the select filters on. */
  datatype SearchParams = SearchParams(searchBy: Option<string>, searchValue: Option<string>)

  /** `const { searchBy, searchValue } = req.nextUrl.searchParams` as written: a
      `URLSearchParams` has no such properties, so both come out undefined. */
  function ReadParamsAsWritten(query: map<string, string>): SearchParams
  {
    SearchParams(None, None)
  }

  function Get(query: map<string, string>, name: string): Option<string>
  {
    if name in query then Some(query[name]) else None
  }

  /** `searchParams.get('searchBy')` and `searchParams.get('searchValue')`, as intended. */
  function ReadParams(query: map<string, string>): (p: SearchParams)
    ensures p.searchBy.Some? <==> "searchBy" in query
    ensures p.searchValue.Some? <==> "searchValue" in query
    ensures "searchBy" in query ==> p.searchBy.value == query["searchBy"]
    ensures "searchValue" in query ==> p.searchValue.value == query["searchValue"]
  {
    SearchParams(Get(query, "searchBy"), Get(query, "searchValue"))
  }

  function Selected(column: string, value: string, owner: string): ClientRow -> bool
  {
    (row: ClientRow) => ColumnValue(row, column) == Some(value) && row.panelId == owner
  }

  /** `.select('*').eq(searchBy, searchValue).eq('panel_id', owner)`: a filter on a missing or
      unknown column is an error of the store, otherwise the matching rows of the tenant. */
  function ClientQuery(rows: seq<ClientRow>, p: SearchParams, owner: string): Option<seq<ClientRow>>
  {
    if p.searchBy.None? || p.searchBy.value !in ClientColumns || p.searchValue.None? then None
    else Some(Filter(rows, Selected(p.searchBy.value, p.searchValue.value, owner)))
  }

  /** A successful select returns exactly the tenant's rows whose column holds the value. */
  lemma ClientQueryIsScoped(rows: seq<ClientRow>, p: SearchParams, owner: string, row: ClientRow)
    requires ClientQuery(rows, p, owner).Some?
    ensures row in ClientQuery(rows, p, owner).value <==>
              row in rows && row.panelId == owner && ColumnValue(row, p.searchBy.value) == Some(p.searchValue.value)
  {
    FilterMember(rows, Selected(p.searchBy.value, p.searchValue.value, owner), row);
  }

  /** As written, the select never succeeds, whatever the query asks for. */
  lemma AsWrittenSelectFails(rows: seq<ClientRow>, query: map<string, string>, owner: string)
    ensures ClientQuery(rows, ReadParamsAsWritten(query), owner).None?
  {
  }

  /** A query for a tenant's own client by e-mail: the intended select finds the row, the
      select as written fails. */
  lemma SelectByEmailWitness(owner: string)
    ensures var row := ClientRow("c1", owner, None, map["email" := "a@b.c"]);
            var query := map["searchBy" := "email", "searchValue" := "a@b.c"];
            ClientQuery([row], ReadParams(query), owner) == Some([row]) &&
            ClientQuery([row], ReadParamsAsWritten(query), owner).None?
  {
    var row := ClientRow("c1", owner, None, map["email" := "a@b.c"]);
    var query := map["searchBy" := "email", "searchValue" := "a@b.c"];
    assert ReadParams(query) == SearchParams(Some("email"), Some("a@b.c"));
    assert Selected("email", "a@b.c", owner)(row);
    assert "email" in ClientColumns;
    assert [row][1..] == [];
    assert Filter([row], Selected("email", "a@b.c", owner)) == [row];
  }

  /** The guards, the spent use and the select, for parameters already read from the query. */
  method Select(db: Db, header: Option<string>, p: SearchParams, fails: set<Call>)
    returns (r: Response, data: Option<seq<ClientRow>>)
    modifies db
    ensures !Passes(old(db.settings), header, fails) ==> r.status != 200 && data.None? && unchanged(db)
    // the use is spent before the select runs and stays spent if it fails
    ensures Passes(old(db.settings), header, fails) ==>
              var result := ClientQuery(old(db.clients), p, Owner(old(db.settings), header, fails).id);
              db.settings == Spent(old(db.settings), header, fails) &&
              (SelectClients in fails || result.None? ==> r == Response(500, StoreError) && data.None?) &&
              (SelectClients !in fails && result.Some? ==> r.status == 200 && data == result)
    ensures db.quoteStatus == old(db.quoteStatus) && db.commissions == old(db.commissions)
    ensures db.notifications == old(db.notifications) && db.requests == old(db.requests)
    ensures db.clients == old(db.clients) && db.invoices == old(db.invoices)
  {
    var outcome := Authorise(db, header, fails);
    if outcome.Err? {
      return outcome.error, None;
    }
    var result := ClientQuery(db.clients, p, outcome.value);
    if SelectClients in fails || result.None? {
      return Response(500, StoreError), None;
    }
    return Response(200, ""), result;
  }

  /** `GET /api/v1/select/client` as written: every call that passes the key checks spends a
      use and answers 500. */
  method SelectClientAsWritten(db: Db, header: Option<string>, query: map<string, string>, fails: set<Call>)
    returns (r: Response, data: Option<seq<ClientRow>>)
    modifies db
    ensures !Passes(old(db.settings), header, fails) ==> r.status != 200 && data.None? && unchanged(db)
    ensures Passes(old(db.settings), header, fails) ==>
              db.settings == Spent(old(db.settings), header, fails) && r == Response(500, StoreError) && data.None?
    ensures db.clients == old(db.clients) && db.requests == old(db.requests)
  {
    AsWrittenSelectFails(db.clients, query, "");
    r, data := Select(db, header, ReadParamsAsWritten(query), fails);
  }

  /** `GET /api/v1/select/client` reading its parameters with `searchParams.get`. */
  method SelectClient(db: Db, header: Option<string>, query: map<string, string>, fails: set<Call>)
    returns (r: Response, data: Option<seq<ClientRow>>)
    modifies db
    ensures !Passes(old(db.settings), header, fails) ==> r.status != 200 && data.None? && unchanged(db)
    ensures Passes(old(db.settings), header, fails) ==>
              var result := ClientQuery(old(db.clients), ReadParams(query), Owner(old(db.settings), header, fails).id);
              db.settings == Spent(old(db.settings), header, fails) &&
              (SelectClients in fails || result.None? ==> r == Response(500, StoreError) && data.None?) &&
              (SelectClients !in fails && result.Some? ==> r.status == 200 && data == result)
    ensures db.quoteStatus == old(db.quoteStatus) && db.commissions == old(db.commissions)
    ensures db.notifications == old(db.notifications) && db.requests == old(db.requests)
    ensures db.clients == old(db.clients) && db.invoices == old(db.invoices)
  {
    r, data := Select(db, header, ReadParams(query), fails);
  }
}
