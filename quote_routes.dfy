// The client-facing quote decisions (app/api/quote/accept/route.js and
// app/api/quote/reject/route.js): a quote leaves "pending" once, to "accepted" or "rejected",
// and each decision is followed by writes that are not undone when a later one fails.
module QuoteRoutes {
  import opened Wrappers
  import opened Store

  const MissingFields := "Missing required fields"
  const MustAcceptTos := "You must accept the freelancer's terms of service!"
  const AlreadyDecided := "This quote has already been accepted or rejected!"
  const CommissionFailed := "An unexpected error occurred when creating the commission!"
  const Unexpected := "An unexpected error occurred!"

  /** The JSON body of an accept; an absent field is `None`, and `client` stands for `client.id`. */
  datatype AcceptBody = AcceptBody(quoteId: Option<string>, acceptedTos: Option<bool>,
                                   client: Option<string>, proposedAmount: real, deadline: int,
                                   title: string, panelId: string)

  datatype RejectBody = RejectBody(panelId: string, client: string, quoteId: Option<string>)

  function QuotesLink(quoteId: string): string
  {
    "/quotes?sort=start_date&descending=false&page=1&search=" + quoteId
  }

  function AcceptNotice(b: AcceptBody, quoteId: string, clientId: string): Notification
  {
    Notification(b.panelId, "Quote accepted", "%subject_username% has accepted quote " + quoteId + "!",
                 clientId, QuotesLink(quoteId))
  }

  function RejectNotice(b: RejectBody, quoteId: string): Notification
  {
    Notification(b.panelId, "Quote rejected", "%subject_username% has rejected quote " + quoteId + "!",
                 b.client, QuotesLink(quoteId))
  }

  /** The commission an accepted quote turns into; the store picks its id and tracking id. */
  function AcceptedCommission(b: AcceptBody, clientId: string, newId: string, newTracking: string): CommissionRow
  {
    CommissionRow(newId, newTracking, clientId, b.proposedAmount, b.deadline, b.title, "not_started", b.panelId)
  }

  /** `!quoteId || acceptedTos === undefined` */
  predicate AcceptMissing(b: AcceptBody)
  {
    b.quoteId.None? || b.quoteId.value == "" || b.acceptedTos.None?
  }

  /** The quote's status is readable: the read succeeded and the row exists. */
  predicate Readable(statuses: map<string, string>, id: string, fails: set<Call>)
  {
    ReadQuote !in fails && id in statuses
  }

  /** Every quote keeps its status except pending ones moving to `to`. */
  predicate OnlyPendingMoves(before: map<string, string>, after: map<string, string>, to: string)
  {
    after.Keys == before.Keys &&
    forall q :: q in after ==> after[q] == before[q] || (before[q] == "pending" && after[q] == to)
  }

  /** `POST /api/quote/accept` */
  method Accept(db: Db, b: AcceptBody, newId: string, newTracking: string, fails: set<Call>) returns (r: Response)
    modifies db
    // the body checks come first and read nothing
    ensures AcceptMissing(b) ==> r == Response(400, MissingFields) && unchanged(db)
    ensures !AcceptMissing(b) && !b.acceptedTos.value ==> r == Response(400, MustAcceptTos) && unchanged(db)
    // a quote that cannot be read is dereferenced anyway: the route throws before writing
    ensures !AcceptMissing(b) && b.acceptedTos.value && !Readable(old(db.quoteStatus), b.quoteId.value, fails) ==>
              r == Crash && unchanged(db)
    // only a pending quote is accepted
    ensures !AcceptMissing(b) && b.acceptedTos.value && Readable(old(db.quoteStatus), b.quoteId.value, fails) &&
            old(db.quoteStatus)[b.quoteId.value] != "pending" ==>
              r == Response(400, AlreadyDecided) && unchanged(db)
    ensures !AcceptMissing(b) && b.acceptedTos.value && Readable(old(db.quoteStatus), b.quoteId.value, fails) &&
            old(db.quoteStatus)[b.quoteId.value] == "pending" ==>
              var id := b.quoteId.value;
              // the status is written first and stays written whatever follows
              db.quoteStatus == (if UpdateQuote in fails then old(db.quoteStatus) else old(db.quoteStatus)[id := "accepted"]) &&
              db.commissions == old(db.commissions) +
                (if b.client.Some? && InsertCommission !in fails
                 then [AcceptedCommission(b, b.client.value, newId, newTracking)] else []) &&
              db.notifications == old(db.notifications) +
                (if b.client.Some? && InsertCommission !in fails && UpdateQuote !in fails && InsertNotification !in fails
                 then [AcceptNotice(b, id, b.client.value)] else []) &&
              (b.client.None? ==> r == Crash) &&
              (b.client.Some? && InsertCommission in fails ==> r == Response(500, CommissionFailed)) &&
              (b.client.Some? && InsertCommission !in fails && UpdateQuote in fails ==> r == Response(500, Unexpected)) &&
              (b.client.Some? && InsertCommission !in fails && UpdateQuote !in fails ==>
                 r == Response(200, "You have accepted quote " + id + "!"))
    ensures OnlyPendingMoves(old(db.quoteStatus), db.quoteStatus, "accepted")
    ensures db.requests == old(db.requests) && db.settings == old(db.settings)
    ensures db.clients == old(db.clients) && db.invoices == old(db.invoices)
  {
    if b.quoteId.None? || b.quoteId.value == "" || b.acceptedTos.None? {
      return Response(400, MissingFields);
    }
    if !b.acceptedTos.value {
      return Response(400, MustAcceptTos);
    }
    var quoteId := b.quoteId.value;
    if ReadQuote in fails || quoteId !in db.quoteStatus {
      return Crash;
    }
    if db.quoteStatus[quoteId] != "pending" {
      return Response(400, AlreadyDecided);
    }
    r := RecordAcceptance(db, b, quoteId, newId, newTracking, fails);
  }

  /** The accept route's writes for a pending quote: the status, the commission, then the
      notification; a failed write does not undo the earlier ones. */
  method RecordAcceptance(db: Db, b: AcceptBody, quoteId: string, newId: string, newTracking: string,
                          fails: set<Call>) returns (r: Response)
    requires quoteId in db.quoteStatus && db.quoteStatus[quoteId] == "pending"
    modifies db
    ensures db.quoteStatus == (if UpdateQuote in fails then old(db.quoteStatus) else old(db.quoteStatus)[quoteId := "accepted"])
    ensures db.commissions == old(db.commissions) +
              (if b.client.Some? && InsertCommission !in fails
               then [AcceptedCommission(b, b.client.value, newId, newTracking)] else [])
    ensures db.notifications == old(db.notifications) +
              (if b.client.Some? && InsertCommission !in fails && UpdateQuote !in fails && InsertNotification !in fails
               then [AcceptNotice(b, quoteId, b.client.value)] else [])
    ensures b.client.None? ==> r == Crash
    ensures b.client.Some? && InsertCommission in fails ==> r == Response(500, CommissionFailed)
    ensures b.client.Some? && InsertCommission !in fails && UpdateQuote in fails ==> r == Response(500, Unexpected)
    ensures b.client.Some? && InsertCommission !in fails && UpdateQuote !in fails ==>
              r == Response(200, "You have accepted quote " + quoteId + "!")
    ensures OnlyPendingMoves(old(db.quoteStatus), db.quoteStatus, "accepted")
    ensures db.requests == old(db.requests) && db.settings == old(db.settings)
    ensures db.clients == old(db.clients) && db.invoices == old(db.invoices)
  {
    var updateFailed := UpdateQuote in fails;
    if !updateFailed {
      db.quoteStatus := db.quoteStatus[quoteId := "accepted"];
    }
    if b.client.None? {
      return Crash;
    }
    var clientId := b.client.value;
    if InsertCommission in fails {
      return Response(500, CommissionFailed);
    }
    db.commissions := db.commissions + [AcceptedCommission(b, clientId, newId, newTracking)];
    if updateFailed {
      return Response(500, Unexpected);
    }
    if InsertNotification !in fails {
      db.notifications := db.notifications + [AcceptNotice(b, quoteId, clientId)];
    }
    return Response(200, "You have accepted quote " + quoteId + "!");
  }

  /** `POST /api/quote/reject` */
  method Reject(db: Db, b: RejectBody, fails: set<Call>) returns (r: Response)
    modifies db
    // only an absent id is refused up front; an empty one goes on to the lookup
    ensures b.quoteId.None? ==> r == Response(400, MissingFields) && unchanged(db)
    ensures b.quoteId.Some? && !Readable(old(db.quoteStatus), b.quoteId.value, fails) ==> r == Crash && unchanged(db)
    ensures b.quoteId.Some? && Readable(old(db.quoteStatus), b.quoteId.value, fails) &&
            old(db.quoteStatus)[b.quoteId.value] != "pending" ==>
              r == Response(400, AlreadyDecided) && unchanged(db)
    ensures b.quoteId.Some? && Readable(old(db.quoteStatus), b.quoteId.value, fails) &&
            old(db.quoteStatus)[b.quoteId.value] == "pending" ==>
              var id := b.quoteId.value;
              (UpdateQuote in fails ==> r == Response(500, Unexpected) && unchanged(db)) &&
              (UpdateQuote !in fails ==>
                 r == Response(200, "You have rejected quote " + id + "!") &&
                 db.quoteStatus == old(db.quoteStatus)[id := "rejected"] &&
                 db.notifications == old(db.notifications) +
                   (if InsertNotification in fails then [] else [RejectNotice(b, id)]))
    ensures OnlyPendingMoves(old(db.quoteStatus), db.quoteStatus, "rejected")
    ensures db.commissions == old(db.commissions) && db.requests == old(db.requests)
    ensures db.settings == old(db.settings) && db.clients == old(db.clients) && db.invoices == old(db.invoices)
  {
    if b.quoteId.None? {
      return Response(400, MissingFields);
    }
    var quoteId := b.quoteId.value;
    if ReadQuote in fails || quoteId !in db.quoteStatus {
      return Crash;
    }
    if db.quoteStatus[quoteId] != "pending" {
      return Response(400, AlreadyDecided);
    }
    r := RecordRejection(db, b, quoteId, fails);
  }

  /** The reject route's writes for a pending quote: the status, then the notification. */
  method RecordRejection(db: Db, b: RejectBody, quoteId: string, fails: set<Call>) returns (r: Response)
    requires quoteId in db.quoteStatus && db.quoteStatus[quoteId] == "pending"
    modifies db
    ensures UpdateQuote in fails ==> r == Response(500, Unexpected) && unchanged(db)
    ensures UpdateQuote !in fails ==>
              r == Response(200, "You have rejected quote " + quoteId + "!") &&
              db.quoteStatus == old(db.quoteStatus)[quoteId := "rejected"] &&
              db.notifications == old(db.notifications) +
                (if InsertNotification in fails then [] else [RejectNotice(b, quoteId)])
    ensures OnlyPendingMoves(old(db.quoteStatus), db.quoteStatus, "rejected")
    ensures db.commissions == old(db.commissions) && db.requests == old(db.requests)
    ensures db.settings == old(db.settings) && db.clients == old(db.clients) && db.invoices == old(db.invoices)
  {
    if UpdateQuote in fails {
      return Response(500, Unexpected);
    }
    db.quoteStatus := db.quoteStatus[quoteId := "rejected"];
    if InsertNotification !in fails {
      db.notifications := db.notifications + [RejectNotice(b, quoteId)];
    }
    return Response(200, "You have rejected quote " + quoteId + "!");
  }

  /** A pending quote that is rejected cannot be accepted afterwards: the accept fails its
      guard, writes nothing, and the quote stays rejected. */
  method RejectThenAccept(db: Db, reject: RejectBody, accept: AcceptBody, newId: string, newTracking: string)
    returns (first: Response, second: Response)
    requires reject.quoteId.Some? && accept.quoteId == reject.quoteId && reject.quoteId.value != ""
    requires accept.acceptedTos == Some(true)
    requires reject.quoteId.value in db.quoteStatus && db.quoteStatus[reject.quoteId.value] == "pending"
    modifies db
    ensures first.status == 200 && second == Response(400, AlreadyDecided)
    ensures db.quoteStatus == old(db.quoteStatus)[reject.quoteId.value := "rejected"]
    ensures db.commissions == old(db.commissions)
  {
    first := Reject(db, reject, {});
    second := Accept(db, accept, newId, newTracking, {});
  }
}
