// Issuing a Stripe invoice (app/api/invoices/create/route.js): the secret key comes from the
// tenant's settings row or, without one, from the environment; the request is checked before
// Stripe is called; a customer is found or created by e-mail; the invoice, its one line item,
// finalisation and sending follow; a local row records it.
module StripeInvoice {
  import opened Wrappers
  import opened Calendar
  import opened ListPipeline
  import opened Store

  const NoKey := "No Stripe key found"
  const NoClient := "Please select a client"
  const NoEmail := "The client you selected must have an email attached to them"
  const NoAmount := "Please enter an amount"
  const NotMade := "New invoice could not be made!"

  /** The default term when no due date is given: 30 days, in milliseconds. */
  const DefaultTermMs := 30 * DayMs

  /** What the route sends to Stripe, in the order it sends it. */
  datatype StripeOp =
    | SearchCustomers(email: string)
    | CreateCustomer(email: string, name: string)
    | CreateInvoice(customer: string, dueDate: int, currency: string, description: string, clientId: string)
    | CreateItem(customer: string, amount: real, currency: string, description: string, invoice: string)
    | Finalize(invoice: string)
    | Send(invoice: string)

  /** A call made with a secret key. */
  datatype StripeCall = StripeCall(key: string, op: StripeOp)

  /** The Stripe account as the route sees it: fixed answers, and the calls received. */
  class StripeApi {
    /** Existing customers' ids by e-mail, as a search returns them. */
    const customers: map<string, seq<string>>
    const createdCustomerId: string
    const createdInvoiceId: string
    const hostedUrl: string
    var calls: seq<StripeCall>

    constructor (customers: map<string, seq<string>>, createdCustomerId: string,
                 createdInvoiceId: string, hostedUrl: string)
      ensures this.customers == customers && this.createdCustomerId == createdCustomerId
      ensures this.createdInvoiceId == createdInvoiceId && this.hostedUrl == hostedUrl
      ensures calls == []
    {
      this.customers := customers;
      this.createdCustomerId := createdCustomerId;
      this.createdInvoiceId := createdInvoiceId;
      this.hostedUrl := hostedUrl;
      calls := [];
    }

    function Matching(email: string): seq<string>
    {
      if email in customers then customers[email] else []
    }

    /** Records one call and answers it. */
    method Call(key: string, op: StripeOp) returns (answer: string)
      modifies this
      ensures calls == old(calls) + [StripeCall(key, op)]
      ensures op.CreateCustomer? ==> answer == createdCustomerId
      ensures op.CreateInvoice? ==> answer == createdInvoiceId
      ensures op.Finalize? || op.Send? ==> answer == op.invoice
    {
      calls := calls + [StripeCall(key, op)];
      match op
      case CreateCustomer(_, _) => answer := createdCustomerId;
      case CreateInvoice(_, _, _, _, _) => answer := createdInvoiceId;
      case Finalize(invoice) => answer := invoice;
      case Send(invoice) => answer := invoice;
      case _ => answer := "";
    }

    method Search(key: string, email: string) returns (ids: seq<string>)
      modifies this
      ensures calls == old(calls) + [StripeCall(key, SearchCustomers(email))]
      ensures ids == Matching(email)
    {
      calls := calls + [StripeCall(key, SearchCustomers(email))];
      ids := Matching(email);
    }
  }

  /** The client the form sends: its id, e-mail (empty when it has none) and username. */
  datatype InvoiceClient = InvoiceClient(id: string, email: string, username: string)

  datatype InvoiceBody = InvoiceBody(amount: Option<real>, dueDate: Option<int>, title: string,
                                     memo: string, client: Option<InvoiceClient>)

  /** The key `new Stripe(...)` gets: the tenant's stored `sk` when its settings row was read,
      the environment's otherwise. */
  function StripeKey(rows: seq<SettingsRow>, userId: string, readFailed: bool, envKey: Option<string>): Option<string>
  {
    var k := FindIndex(rows, SettingsId, userId);
    if readFailed || k == -1 then envKey else rows[k].sk
  }

  /** The environment key stands in only for a missing or unreadable row: a tenant whose row
      holds no key gets none, whatever the environment holds. */
  lemma StoredRowWithoutKeyHasNoKey(rows: seq<SettingsRow>, userId: string, envKey: Option<string>)
    requires exists i :: 0 <= i < |rows| && rows[i].id == userId
    requires forall i :: 0 <= i < |rows| && rows[i].id == userId ==> rows[i].sk.None?
    ensures StripeKey(rows, userId, false, envKey).None?
  {
  }

  predicate Truthy(s: Option<string>) { s.Some? && s.value != "" }

  /** The first check the request fails, in the route's order, or `None`. */
  function FirstProblem(key: Option<string>, b: InvoiceBody): Option<string>
  {
    if !Truthy(key) then Some(NoKey)
    else if b.client.None? then Some(NoClient)
    else if b.client.value.email == "" then Some(NoEmail)
    else if b.amount.None? || b.amount.value == 0.0 then Some(NoAmount)
    else None
  }

  /** `amount * 100`: the line item's amount in cents, which is the amount again once divided
      back by a hundred. */
  function Cents(amount: real): (c: real)
    ensures c / 100.0 == amount
    ensures amount > 0.0 <==> c > 0.0
  {
    amount * 100.0
  }

  /** An amount in whole cents is sent as that whole number: 12.34 as 1234. */
  lemma WholeCents(c: int)
    ensures Cents(c as real / 100.0) == c as real
    ensures Cents(12.34) == 1234.0
  {
  }

  /** `Math.floor(new Date(due_date || Date.now() + 30 days).getTime() / 1000)` */
  function DueSeconds(dueDate: Option<int>, now: int): (s: int)
    ensures var ms := if dueDate.Some? then dueDate.value else now + DefaultTermMs;
            s * 1000 <= ms < s * 1000 + 1000
  {
    (if dueDate.Some? then dueDate.value else now + DefaultTermMs) / 1000
  }

  /** `update({ stripe_id }).eq('panel_id', tenant).eq('id', client)` */
  function SetStripeId(rows: seq<ClientRow>, panelId: string, clientId: string, stripeId: string): (r: seq<ClientRow>)
    ensures |r| == |rows|
    ensures forall i :: 0 <= i < |rows| ==>
              r[i] == if rows[i].panelId == panelId && rows[i].id == clientId then rows[i].(stripeId := Some(stripeId)) else rows[i]
  {
    seq(|rows|, i requires 0 <= i < |rows| =>
      if rows[i].panelId == panelId && rows[i].id == clientId then rows[i].(stripeId := Some(stripeId)) else rows[i])
  }

  function LocalRow(userId: string, b: InvoiceBody, client: InvoiceClient, link: string, sentId: string): InvoiceRow
    requires b.amount.Some?
  {
    InvoiceRow(userId, client.id, b.title, b.memo, b.amount.value, b.dueDate, "unpaid", link, sentId, "stripe")
  }

  /** The invoice, its one line item in cents, finalisation and sending, for one customer. */
  method Issue(stripe: StripeApi, key: string, customer: string, dueSeconds: int, amount: real,
               title: string, memo: string, clientId: string) returns (sent: string)
    modifies stripe
    ensures sent == stripe.createdInvoiceId
    ensures stripe.calls == old(stripe.calls) +
              [StripeCall(key, CreateInvoice(customer, dueSeconds, "usd", memo, clientId)),
               StripeCall(key, CreateItem(customer, Cents(amount), "usd", title, sent)),
               StripeCall(key, Finalize(sent)),
               StripeCall(key, Send(sent))]
  {
    var invoice := stripe.Call(key, CreateInvoice(customer, dueSeconds, "usd", memo, clientId));
    var _ := stripe.Call(key, CreateItem(customer, Cents(amount), "usd", title, invoice));
    var finalized := stripe.Call(key, Finalize(invoice));
    sent := stripe.Call(key, Send(finalized));
  }

  /** The customer with the client's e-mail, or a new one, whose id is then written to the
      tenant's client row unless that update fails. */
  method FindOrCreateCustomer(db: Db, stripe: StripeApi, userId: string, key: string,
                              client: InvoiceClient, fails: set<Call>) returns (customer: string)
    modifies db, stripe
    ensures var existing := stripe.Matching(client.email);
            customer == (if |existing| < 1 then stripe.createdCustomerId else existing[0]) &&
            stripe.calls == old(stripe.calls) + [StripeCall(key, SearchCustomers(client.email))] +
              (if |existing| < 1 then [StripeCall(key, CreateCustomer(client.email, client.username))] else []) &&
            db.clients == (if |existing| < 1 && UpdateClient !in fails
                           then SetStripeId(old(db.clients), userId, client.id, stripe.createdCustomerId)
                           else old(db.clients))
    ensures db.quoteStatus == old(db.quoteStatus) && db.commissions == old(db.commissions)
    ensures db.notifications == old(db.notifications) && db.requests == old(db.requests)
    ensures db.settings == old(db.settings) && db.invoices == old(db.invoices)
  {
    var customers := stripe.Search(key, client.email);
    if |customers| < 1 {
      customer := stripe.Call(key, CreateCustomer(client.email, client.username));
      if UpdateClient !in fails {
        db.clients := SetStripeId(db.clients, userId, client.id, customer);
      }
    } else {
      customer := customers[0];
    }
  }

  /** `POST /api/invoices/create` for the signed-in tenant `userId` at time `now`. */
  method CreateStripeInvoice(db: Db, stripe: StripeApi, userId: string, envKey: Option<string>,
                             b: InvoiceBody, now: int, fails: set<Call>)
    returns (r: Response, row: Option<InvoiceRow>)
    modifies db, stripe
    // every check happens before Stripe is called, and a failed one writes nothing
    ensures var key := StripeKey(old(db.settings), userId, ReadSettings in fails, envKey);
            FirstProblem(key, b).Some? ==>
              r == Response(400, FirstProblem(key, b).value) && row.None? &&
              unchanged(db) && stripe.calls == old(stripe.calls)
    ensures var key := StripeKey(old(db.settings), userId, ReadSettings in fails, envKey);
            FirstProblem(key, b).None? ==>
              var k := key.value;
              var client := b.client.value;
              var existing := stripe.Matching(client.email);
              var customer := if |existing| < 1 then stripe.createdCustomerId else existing[0];
              var invoice := stripe.createdInvoiceId;
              var local := LocalRow(userId, b, client, stripe.hostedUrl, invoice);
              // a new customer is created only when none has the e-mail, and then remembered
              stripe.calls == old(stripe.calls) + [StripeCall(k, SearchCustomers(client.email))] +
                (if |existing| < 1 then [StripeCall(k, CreateCustomer(client.email, client.username))] else []) +
                [StripeCall(k, CreateInvoice(customer, DueSeconds(b.dueDate, now), "usd", b.memo, client.id)),
                 StripeCall(k, CreateItem(customer, Cents(b.amount.value), "usd", b.title, invoice)),
                 StripeCall(k, Finalize(invoice)),
                 StripeCall(k, Send(invoice))] &&
              db.clients == (if |existing| < 1 && UpdateClient !in fails
                             then SetStripeId(old(db.clients), userId, client.id, stripe.createdCustomerId)
                             else old(db.clients)) &&
              (InsertInvoice in fails ==> r == Response(400, NotMade) && row.None? && db.invoices == old(db.invoices)) &&
              (InsertInvoice !in fails ==> r.status == 200 && row == Some(local) && db.invoices == old(db.invoices) + [local])
    ensures db.quoteStatus == old(db.quoteStatus) && db.commissions == old(db.commissions)
    ensures db.notifications == old(db.notifications) && db.requests == old(db.requests)
    ensures db.settings == old(db.settings)
  {
    var stripeKey := StripeKey(db.settings, userId, ReadSettings in fails, envKey);
    var problem := FirstProblem(stripeKey, b);
    if problem.Some? {
      return Response(400, problem.value), None;
    }
    var key := stripeKey.value;
    var client := b.client.value;
    var customer := FindOrCreateCustomer(db, stripe, userId, key, client, fails);
    var sent := Issue(stripe, key, customer, DueSeconds(b.dueDate, now), b.amount.value, b.title, b.memo, client.id);
    var local := LocalRow(userId, b, client, stripe.hostedUrl, sent);
    if InsertInvoice in fails {
      return Response(400, NotMade), None;
    }
    db.invoices := db.invoices + [local];
    return Response(200, ""), Some(local);
  }
}
