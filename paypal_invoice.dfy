// Issuing a PayPal invoice (app/api/invoices/create-paypal/route.js): credentials come as a
// pair from the tenant's settings or from the environment; the invoice payload is built, its
// id cut from the returned link, the invoice sent, and a local row records it. Base64 encoding
// of the credentials is outside the model: the route's `Basic` credentials are the unencoded
// "id:secret". `stripHtml` and the ISO text `toISOString` gives an instant are parameters.
module PayPalInvoice {
  import opened Wrappers
  import opened Strings
  import opened ListPipeline
  import opened Store

  const NoKeys := "No PayPal keys found"
  const LinkPrefix := "https://www.paypal.com/invoice/p/#"
  const ItemName := "Invoice for commission"

  /** The largest distance from the epoch, in milliseconds, that a `Date` can hold. */
  const MaxTimeMs := 8640000000000000

  /** `new Date(dueDate).toISOString().split('T')[0]` given the ISO form. */
  function DatePart(iso: string): string
  {
    SplitOn(iso, "T")[0]
  }

  /** For an ISO timestamp, the date part is what precedes the "T". */
  lemma DatePartOfTimestamp(date: string, time: string)
    requires 'T' !in date
    ensures DatePart(date + "T" + time) == date
  {
    SplitAtSeparator(date, 'T', time);
    ContainsChar(date, 'T');
    SplitOnAbsent(date, "T");
  }

  /** `new Date(dueDate).toISOString().split('T')[0]`, where `iso` gives the ISO text of an
      instant: a missing due date, or one beyond the range of a `Date`, makes `toISOString`
      throw, which is `None` here. */
  function DueDay(dueDate: Option<int>, iso: int -> string): Option<string>
  {
    if dueDate.None? || dueDate.value < -MaxTimeMs || dueDate.value > MaxTimeMs then None
    else Some(DatePart(iso(dueDate.value)))
  }

  /** The day sent is the date part of the due instant's ISO text; without a due date, or
      with one out of range, there is none. */
  lemma DueDayOfTimestamp(ms: int, iso: int -> string, date: string, time: string)
    requires -MaxTimeMs <= ms <= MaxTimeMs && iso(ms) == date + "T" + time && 'T' !in date
    ensures DueDay(Some(ms), iso) == Some(date)
    ensures DueDay(None, iso).None? && DueDay(Some(MaxTimeMs + 1), iso).None?
  {
    DatePartOfTimestamp(date, time);
  }

  datatype Item = Item(name: string, description: string, quantity: int, value: string, currency: string)

  datatype Payload = Payload(items: seq<Item>, note: string, terms: string, currency: string,
                             dueDate: string, logo: string, givenName: string, surname: string,
                             businessName: string, email: string)

  datatype PayPalClient = PayPalClient(id: string, name: string, email: string)

  /** The tenant's presentation fields that go on the invoice. */
  datatype Details = Details(terms: string, logo: string, displayName: string)

  /** The `invoice` object `createInvoice` posts, due on `day`; `stripHtml` is the tag
      stripper the terms go through. */
  function InvoicePayload(client: PayPalClient, name: string, title: string, price: real, memo: string,
                          day: string, d: Details, stripHtml: string -> string): Payload
  {
    Payload([Item(name, title, 1, RealToString(price), "USD")], memo, stripHtml(d.terms), "USD", day,
            d.logo, d.displayName, "", client.name, client.email)
  }

  /** One item of quantity one in USD, described by the title, due on the given day, with the
      terms stripped of markup, addressed to the client's e-mail; a whole price is sent as its
      decimal digits, and 12.5 as "12.5". */
  lemma PayloadHasOneItem(client: PayPalClient, title: string, price: real, memo: string,
                          day: string, d: Details, stripHtml: string -> string)
    ensures var p := InvoicePayload(client, ItemName, title, price, memo, day, d, stripHtml);
            |p.items| == 1 && p.items[0].quantity == 1 && p.items[0].currency == "USD" &&
            p.dueDate == day && p.terms == stripHtml(d.terms) &&
            p.items[0].description == title && p.email == client.email &&
            (0.0 <= price && price == price.Floor as real ==>
               forall i :: 0 <= i < |p.items[0].value| ==> IsDigit(p.items[0].value[i])) &&
            (0.0 <= price && price == price.Floor as real ==> ParseDigits(p.items[0].value) == price.Floor) &&
            (price == 12.5 ==> p.items[0].value == "12.5")
  {
    if 0.0 <= price && price == price.Floor as real {
      WholeRealToString(price.Floor);
      NatToStringRoundTrip(price.Floor);
    }
    FractionalRealToString();
  }

  /** `href.substring(href.lastIndexOf('/') + 1)` */
  function InvoiceIdFromHref(href: string): (id: string)
    ensures '/' !in id
  {
    href[AfterLast(href, '/')..]
  }

  /** The id is the last path segment of the returned link. */
  lemma InvoiceIdIsLastSegment(base: string, id: string)
    requires '/' !in id
    ensures InvoiceIdFromHref(base + "/" + id) == id
  {
    var href := base + "/" + id;
    var k := AfterLast(href, '/');
    assert href[|base|] == '/';
    assert forall i :: |base| + 1 <= i < |href| ==> href[i] == id[i - |base| - 1];
    assert k == |base| + 1;
  }

  /** The link stored for the invoice: the id with every "-" removed. */
  function PayPalLink(id: string): (link: string)
    ensures |link| >= |LinkPrefix| && link[..|LinkPrefix|] == LinkPrefix && '-' !in link[|LinkPrefix|..]
  {
    var rest := RemoveChar(id, '-');
    assert (LinkPrefix + rest)[|LinkPrefix|..] == rest;
    LinkPrefix + rest
  }

  /** The link is `"…#" + invoiceId.replaceAll("-", "")`. */
  lemma PayPalLinkIsReplaceAll(id: string)
    ensures PayPalLink(id) == LinkPrefix + ReplaceAll(id, "-", "")
  {
    RemoveCharIsReplaceAll(id, '-');
  }

  predicate Truthy(s: Option<string>) { s.Some? && s.value != "" }

  /** The settings row of the tenant, as the read returns it. */
  function SettingsRowOf(rows: seq<SettingsRow>, userId: string, readFailed: bool): Option<SettingsRow>
  {
    var k := FindIndex(rows, SettingsId, userId);
    if readFailed || k == -1 then None else Some(rows[k])
  }

  /** Both credentials from the tenant when its row holds both, otherwise both from the environment. */
  function Credentials(row: Option<SettingsRow>, envId: Option<string>, envSecret: Option<string>)
    : (Option<string>, Option<string>)
  {
    if row.None? || row.value.psk.None? || row.value.psk.value.clientId == "" || row.value.psk.value.clientSecret == ""
    then (envId, envSecret)
    else (Some(row.value.psk.value.clientId), Some(row.value.psk.value.clientSecret))
  }

  /** The pair never mixes a tenant credential with an environment one. */
  lemma CredentialsNeverMixed(row: Option<SettingsRow>, envId: Option<string>, envSecret: Option<string>)
    ensures var c := Credentials(row, envId, envSecret);
            c == (envId, envSecret) ||
            (row.Some? && row.value.psk.Some? && c == (Some(row.value.psk.value.clientId), Some(row.value.psk.value.clientSecret)))
    ensures row.Some? && row.value.psk.Some? && row.value.psk.value.clientId != "" && row.value.psk.value.clientSecret != "" ==>
              Credentials(row, envId, envSecret).0.Some? && Credentials(row, envId, envSecret).1.Some?
  {
  }

  /** The `Basic` credentials before base64 encoding. */
  function BasicCredentials(clientId: string, clientSecret: string): string
  {
    clientId + ":" + clientSecret
  }

  /** The id is recovered as the text before the first ":" when it holds none itself. */
  lemma BasicCredentialsSplit(clientId: string, clientSecret: string)
    requires ':' !in clientId
    ensures SplitOn(BasicCredentials(clientId, clientSecret), ":")[0] == clientId
  {
    SplitAtSeparator(clientId, ':', clientSecret);
    ContainsChar(clientId, ':');
    SplitOnAbsent(clientId, ":");
  }

  /** `const { terms, logo, display_name } = settings` as written: without a row it throws. */
  function DetailsAsWritten(row: Option<SettingsRow>): Option<Details>
  {
    if row.None? then None else Some(Details(row.value.terms, row.value.logo, row.value.displayName))
  }

  /** The same fields read as absent (empty) when there is no row. */
  function DetailsOf(row: Option<SettingsRow>): (d: Details)
    ensures row.Some? ==> Some(d) == DetailsAsWritten(row)
    ensures row.None? ==> d == Details("", "", "")
  {
    if row.None? then Details("", "", "") else Details(row.value.terms, row.value.logo, row.value.displayName)
  }

  /** A tenant without a settings row and an environment holding both credentials: the
      credentials check passes, and the route as written then throws on the missing row. */
  lemma EnvironmentFallbackThrows(rows: seq<SettingsRow>, userId: string, envId: string, envSecret: string)
    requires forall i :: 0 <= i < |rows| ==> rows[i].id != userId
    requires envId != "" && envSecret != ""
    ensures var row := SettingsRowOf(rows, userId, false);
            var c := Credentials(row, Some(envId), Some(envSecret));
            Truthy(c.0) && Truthy(c.1) && DetailsAsWritten(row).None? && DetailsOf(row) == Details("", "", "")
  {
  }

  datatype PayPalCall = CreateCall(auth: string, payload: Payload) | SendCall(auth: string, invoiceId: string)

  /** The PayPal account as the route sees it: the link a create returns (`None` when it
      fails), and the calls received. A send's outcome is only logged, so it has none. */
  class PayPalApi {
    const createdHref: Option<string>
    var calls: seq<PayPalCall>

    constructor (createdHref: Option<string>)
      ensures this.createdHref == createdHref && calls == []
    {
      this.createdHref := createdHref;
      calls := [];
    }

    method Create(auth: string, payload: Payload) returns (href: Option<string>)
      modifies this
      ensures calls == old(calls) + [CreateCall(auth, payload)] && href == createdHref
    {
      calls := calls + [CreateCall(auth, payload)];
      href := createdHref;
    }

    method Send(auth: string, invoiceId: string)
      modifies this
      ensures calls == old(calls) + [SendCall(auth, invoiceId)]
    {
      calls := calls + [SendCall(auth, invoiceId)];
    }
  }

  datatype PayPalBody = PayPalBody(client: PayPalClient, amount: real, memo: string, title: string, dueDate: Option<int>)

  function LocalRow(userId: string, b: PayPalBody, invoiceId: string): InvoiceRow
  {
    InvoiceRow(userId, b.client.id, b.title, b.memo, b.amount, b.dueDate, "pending", PayPalLink(invoiceId), invoiceId, "paypal")
  }

  /** What the part of the route inside its `try` answers, and leaves in the invoice table and
      the PayPal call log, given the link a create returns. */
  predicate IssueOutcome(userId: string, b: PayPalBody, auth: string, iso: int -> string, d: Details,
                         stripHtml: string -> string, href: Option<string>, fails: set<Call>,
                         calls0: seq<PayPalCall>, calls: seq<PayPalCall>,
                         rows0: seq<InvoiceRow>, rows: seq<InvoiceRow>, r: Response, row: Option<InvoiceRow>)
  {
    var day := DueDay(b.dueDate, iso);
    if day.None? then
      // `toISOString` throws before PayPal is called
      r == Response(500, "") && row.None? && calls == calls0 && rows == rows0
    else
      var payload := InvoicePayload(b.client, ItemName, b.title, b.amount, b.memo, day.value, d, stripHtml);
      if href.None? || InvoiceIdFromHref(href.value) == "" then
        r == Response(500, "") && row.None? && rows == rows0 && calls == calls0 + [CreateCall(auth, payload)]
      else
        var id := InvoiceIdFromHref(href.value);
        // sending is attempted and its failure ignored; the row is written either way
        calls == calls0 + [CreateCall(auth, payload), SendCall(auth, id)] &&
        (InsertInvoice in fails ==> r == Response(500, "") && row.None? && rows == rows0) &&
        (InsertInvoice !in fails ==>
           r.status == 200 && row == Some(LocalRow(userId, b, id)) && rows == rows0 + [LocalRow(userId, b, id)])
  }

  /** The part of the route inside its `try`: the due day, then create, send, and record the invoice. */
  method Issue(db: Db, paypal: PayPalApi, userId: string, auth: string, b: PayPalBody, iso: int -> string,
               d: Details, stripHtml: string -> string, fails: set<Call>) returns (r: Response, row: Option<InvoiceRow>)
    modifies db, paypal
    ensures IssueOutcome(userId, b, auth, iso, d, stripHtml, paypal.createdHref, fails,
                         old(paypal.calls), paypal.calls, old(db.invoices), db.invoices, r, row)
    ensures db.quoteStatus == old(db.quoteStatus) && db.commissions == old(db.commissions)
    ensures db.notifications == old(db.notifications) && db.requests == old(db.requests)
    ensures db.settings == old(db.settings) && db.clients == old(db.clients)
  {
    var day := DueDay(b.dueDate, iso);
    if day.None? {
      return Response(500, ""), None;
    }
    var payload := InvoicePayload(b.client, ItemName, b.title, b.amount, b.memo, day.value, d, stripHtml);
    var href := paypal.Create(auth, payload);
    if href.None? {
      return Response(500, ""), None;
    }
    var invoiceId := InvoiceIdFromHref(href.value);
    if invoiceId == "" {
      return Response(500, ""), None;
    }
    paypal.Send(auth, invoiceId);
    if InsertInvoice in fails {
      return Response(500, ""), None;
    }
    var local := LocalRow(userId, b, invoiceId);
    db.invoices := db.invoices + [local];
    return Response(200, ""), Some(local);
  }

  /** `POST /api/invoices/create-paypal` as written. */
  method CreatePayPalInvoiceAsWritten(db: Db, paypal: PayPalApi, userId: string, envId: Option<string>,
                                      envSecret: Option<string>, b: PayPalBody, iso: int -> string,
                                      stripHtml: string -> string, fails: set<Call>)
    returns (r: Response, row: Option<InvoiceRow>)
    modifies db, paypal
    ensures var settings := SettingsRowOf(old(db.settings), userId, ReadSettings in fails);
            var c := Credentials(settings, envId, envSecret);
            (!(Truthy(c.0) && Truthy(c.1)) ==>
               r == Response(400, NoKeys) && row.None? && unchanged(db) && paypal.calls == old(paypal.calls)) &&
            // the environment's credentials pass the credentials guard, and the missing row is then dereferenced
            (Truthy(c.0) && Truthy(c.1) && settings.None? ==>
               r == Crash && row.None? && unchanged(db) && paypal.calls == old(paypal.calls)) &&
            (Truthy(c.0) && Truthy(c.1) && settings.Some? ==>
               IssueOutcome(userId, b, BasicCredentials(c.0.value, c.1.value), iso, DetailsOf(settings), stripHtml,
                            paypal.createdHref, fails, old(paypal.calls), paypal.calls, old(db.invoices), db.invoices, r, row))
    ensures db.quoteStatus == old(db.quoteStatus) && db.commissions == old(db.commissions)
    ensures db.notifications == old(db.notifications) && db.requests == old(db.requests)
    ensures db.settings == old(db.settings) && db.clients == old(db.clients)
  {
    var settings := SettingsRowOf(db.settings, userId, ReadSettings in fails);
    var creds := Credentials(settings, envId, envSecret);
    if !Truthy(creds.0) || !Truthy(creds.1) {
      return Response(400, NoKeys), None;
    }
    var token := BasicCredentials(creds.0.value, creds.1.value);
    var details := DetailsAsWritten(settings);
    if details.None? {
      return Crash, None;
    }
    r, row := Issue(db, paypal, userId, token, b, iso, details.value, stripHtml, fails);
  }

  /** `POST /api/invoices/create-paypal` with the presentation fields read as absent when the
      tenant has no settings row, so the environment's credentials can issue invoices. */
  method CreatePayPalInvoice(db: Db, paypal: PayPalApi, userId: string, envId: Option<string>,
                             envSecret: Option<string>, b: PayPalBody, iso: int -> string,
                             stripHtml: string -> string, fails: set<Call>)
    returns (r: Response, row: Option<InvoiceRow>)
    modifies db, paypal
    ensures var settings := SettingsRowOf(old(db.settings), userId, ReadSettings in fails);
            var c := Credentials(settings, envId, envSecret);
            (!(Truthy(c.0) && Truthy(c.1)) ==>
               r == Response(400, NoKeys) && row.None? && unchanged(db) && paypal.calls == old(paypal.calls)) &&
            (Truthy(c.0) && Truthy(c.1) ==>
               IssueOutcome(userId, b, BasicCredentials(c.0.value, c.1.value), iso, DetailsOf(settings), stripHtml,
                            paypal.createdHref, fails, old(paypal.calls), paypal.calls, old(db.invoices), db.invoices, r, row))
    ensures db.quoteStatus == old(db.quoteStatus) && db.commissions == old(db.commissions)
    ensures db.notifications == old(db.notifications) && db.requests == old(db.requests)
    ensures db.settings == old(db.settings) && db.clients == old(db.clients)
  {
    var settings := SettingsRowOf(db.settings, userId, ReadSettings in fails);
    var creds := Credentials(settings, envId, envSecret);
    if !Truthy(creds.0) || !Truthy(creds.1) {
      return Response(400, NoKeys), None;
    }
    var token := BasicCredentials(creds.0.value, creds.1.value);
    r, row := Issue(db, paypal, userId, token, b, iso, DetailsOf(settings), stripHtml, fails);
  }
}
