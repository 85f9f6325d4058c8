// The hosted database as the API routes see it: one field per table, updated in place.
// Which calls fail is not something the routes decide: every handler takes the set of its
// store calls that report an error, and a failed call writes nothing.
module Store {
  import opened Wrappers

  /** The store calls the routes make, each of which may report an error. */
  datatype Call =
    | ReadQuote | UpdateQuote | InsertCommission | InsertNotification
    | ReadCommission | InsertRequest
    | ReadApiKey | UpdateUses | SelectClients
    | ReadSettings | UpdateClient | InsertInvoice

  /** A row of `panel_commissions`. */
  datatype CommissionRow = CommissionRow(
    id: string, trackingId: string, client: string, totalValue: real, deadline: int,
    title: string, status: string, panelId: string)

  /** A row of `notifications`; `subject` is the client whose username fills the template. */
  datatype Notification = Notification(panelId: string, title: string, message: string,
                                       subject: string, link: string)

  /** A row of `panel_requests`; a field the insert does not send is `None`. */
  datatype RequestRow = RequestRow(panelId: string, commission: Option<string>,
                                   description: Option<string>, offeredAmount: Option<real>,
                                   deadline: Option<int>, status: Option<string>)

  /** The PayPal credentials a tenant may store. */
  datatype PayPalKeys = PayPalKeys(clientId: string, clientSecret: string)

  /** A row of `panel_settings`, keyed by the tenant's id. */
  datatype SettingsRow = SettingsRow(
    id: string, apiKey: string, licenseActive: bool, apiUsesLeft: int,
    sk: Option<string>, psk: Option<PayPalKeys>, terms: string, logo: string, displayName: string)

  /** A row of `panel_clients`; `columns` holds the plain text columns by name. */
  datatype ClientRow = ClientRow(id: string, panelId: string, stripeId: Option<string>,
                                 columns: map<string, string>)

  /** A row of `panel_invoices`. */
  datatype InvoiceRow = InvoiceRow(
    panelId: string, client: string, title: string, memo: string, amount: real,
    dueDate: Option<int>, status: string, link: string, providerInvoiceId: string, kind: string)

  /** An HTTP answer: its status code and the message of its body. */
  datatype Response = Response(status: int, message: string)

  /** What Next.js answers when a route throws. */
  const Crash := Response(500, "Internal Server Error")

  class Db {
    var quoteStatus: map<string, string>
    var commissions: seq<CommissionRow>
    var notifications: seq<Notification>
    var requests: seq<RequestRow>
    var settings: seq<SettingsRow>
    var clients: seq<ClientRow>
    var invoices: seq<InvoiceRow>

    constructor (quoteStatus: map<string, string>, commissions: seq<CommissionRow>,
                 settings: seq<SettingsRow>, clients: seq<ClientRow>)
      ensures this.quoteStatus == quoteStatus && this.commissions == commissions
      ensures this.settings == settings && this.clients == clients
      ensures notifications == [] && requests == [] && invoices == []
    {
      this.quoteStatus := quoteStatus;
      this.commissions := commissions;
      this.settings := settings;
      this.clients := clients;
      notifications := [];
      requests := [];
      invoices := [];
    }
  }

  function SettingsId(r: SettingsRow): string { r.id }
}
