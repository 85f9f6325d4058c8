// A client submitting a change request from the tracking page (app/api/request/insert/route.js):
// the commission must be found by its id and tracking id together before anything is written.
module RequestInsert {
  import opened Wrappers
  import opened Store

  const NoMatch := "The tracking ID does not match the commission ID!"
  /** The body of a 500 carries the store's own error text, which the model does not know. */
  const StoreError := "store error"
  const Inserted := "Request inserted successfully!"

  datatype InsertBody = InsertBody(trackingId: string, commissionId: string, panelId: string,
                                   description: string, offeredAmount: real, deadline: int,
                                   clientId: string)

  /** Some commission has both this id and this tracking id. */
  predicate Tracks(rows: seq<CommissionRow>, trackingId: string, commissionId: string)
  {
    exists i | 0 <= i < |rows| :: rows[i].id == commissionId && rows[i].trackingId == trackingId
  }

  /** The inserted row: the body's fields and no status, which the store defaults. */
  function NewRequest(b: InsertBody): RequestRow
  {
    RequestRow(b.panelId, Some(b.commissionId), Some(b.description), Some(b.offeredAmount), Some(b.deadline), None)
  }

  function RequestNotice(b: InsertBody): Notification
  {
    Notification(b.panelId, "New change request", "%subject_username% submitted a new change request!",
                 b.clientId, "/requests?page=1&sort=deadline&descending=false")
  }

  /** `POST /api/request/insert` */
  method Insert(db: Db, b: InsertBody, fails: set<Call>) returns (r: Response, data: Option<RequestRow>)
    modifies db
    ensures ReadCommission in fails ==> r == Response(500, StoreError) && data.None? && unchanged(db)
    ensures ReadCommission !in fails && !Tracks(old(db.commissions), b.trackingId, b.commissionId) ==>
              r == Response(400, NoMatch) && data.None? && unchanged(db)
    ensures ReadCommission !in fails && Tracks(old(db.commissions), b.trackingId, b.commissionId) ==>
              (InsertRequest in fails ==> r == Response(500, StoreError) && data.None? && unchanged(db)) &&
              (InsertRequest !in fails ==>
                 // answered 200 with the row even when the notification was not written
                 r == Response(200, Inserted) && data == Some(NewRequest(b)) &&
                 db.requests == old(db.requests) + [NewRequest(b)] &&
                 db.notifications == old(db.notifications) +
                   (if InsertNotification in fails then [] else [RequestNotice(b)]))
    ensures db.quoteStatus == old(db.quoteStatus) && db.commissions == old(db.commissions)
    ensures db.settings == old(db.settings) && db.clients == old(db.clients) && db.invoices == old(db.invoices)
  {
    if ReadCommission in fails {
      return Response(500, StoreError), None;
    } else if !Tracks(db.commissions, b.trackingId, b.commissionId) {
      return Response(400, NoMatch), None;
    }
    if InsertRequest in fails {
      return Response(500, StoreError), None;
    }
    var row := NewRequest(b);
    db.requests := db.requests + [row];
    if InsertNotification !in fails {
      db.notifications := db.notifications + [RequestNotice(b)];
    }
    return Response(200, Inserted), Some(row);
  }
}
