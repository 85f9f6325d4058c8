// Rows of the hosted store as the dashboard reads them.
// Ids are strings (UUIDs); amounts on commissions, quotes and requests are exact numbers
// (`real`), invoice amounts whole numbers; deadlines and other instants are milliseconds,
// while `created_at` of a commission keeps its local calendar fields (see module Calendar).
module Entities {
  import opened Wrappers
  import opened Calendar

  datatype ClientRef = ClientRef(id: string, username: string, avatarUrl: string)

  datatype Product = Product(id: string, description: string)

  datatype Commission = Commission(
    id: string, title: string, trackingId: string, client: ClientRef,
    totalValue: real, totalPaid: real, status: string, deadline: int,
    createdAt: DateTime, product: Option<Product>, pinned: bool, notes: string)

  datatype Invoice = Invoice(
    id: string, title: string, client: ClientRef, amount: int, status: string,
    createdAt: int, dueDate: int, paidAt: Option<int>, pinned: bool)

  datatype Quote = Quote(
    id: string, title: string, client: ClientRef, startDate: int, deadline: int,
    proposedAmount: real, paymentTerms: string, status: string)

  /** The commission a change request belongs to, as joined into the request row. */
  datatype RequestCommission = RequestCommission(title: string, client: ClientRef)

  datatype ChangeRequest = ChangeRequest(
    id: string, description: string, commission: RequestCommission, deadline: int,
    offeredAmount: real, status: string, paid: bool)

  /** What the clients page reads of each of a client's commissions. */
  datatype CommissionSummary = CommissionSummary(totalPaid: real, status: string)

  datatype Client = Client(
    id: string, username: string, email: string, discord: string, avatarUrl: string, createdAt: int,
    commissions: seq<CommissionSummary>, totalCommissions: int, totalRevenue: real)

  /** `parseInt` applied to a number: the integer part, truncated toward zero. */
  function Trunc(x: real): (n: int)
    ensures x >= 0.0 ==> n as real <= x < n as real + 1.0
    ensures x < 0.0 ==> n as real - 1.0 < x <= n as real
  {
    if x >= 0.0 then x.Floor else -((-x).Floor)
  }

  /** `a.localeCompare(b)` under a collation that ranks every string: its sign only. */
  function LocaleCompare(collate: string -> int, a: string, b: string): (c: int)
    ensures c < 0 <==> collate(a) < collate(b)
    ensures c == 0 <==> collate(a) == collate(b)
    ensures c > 0 <==> collate(a) > collate(b)
  {
    if collate(a) < collate(b) then -1 else if collate(a) > collate(b) then 1 else 0
  }

  /** The sort and filter controls of a list page. */
  datatype ListView = ListView(search: string, sort: string, sortOrder: string,
                               filterClient: string, filterStatus: string)

  /** A pop-up notification shown to the tenant (`notifications.show`). */
  datatype Toast = Toast(title: string, message: string, color: string)

  const SomethingWrong := Toast("Error!", "Something went wrong!", "red")
}
