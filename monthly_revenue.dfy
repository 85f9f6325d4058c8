// Twelve months of revenue (utils/chartdata/monthlyRevenue.js): one bucket per month, oldest
// first and ending with the current month, each adding up the total_paid of the commissions
// created in that month. A month is named by its index `12 * year + (month - 1)`; the
// locale label the source uses names each month once, so equal labels are equal indices.
module MonthlyRevenue {
  import opened Calendar
  import opened Entities

  function MonthIndex(d: Date): int
  {
    12 * d.year + (d.month - 1)
  }

  /** The index of the oldest of the twelve months ending with the month of `now`. */
  function FirstMonth(now: Date): int
  {
    MonthIndex(now) - 11
  }

  datatype MonthRevenue = MonthRevenue(month: int, revenue: real)

  /** The total_paid of the commissions created in month `m`. */
  function MonthTotal(data: seq<Commission>, m: int): real
  {
    if data == [] then 0.0
    else
      var c := data[|data| - 1];
      MonthTotal(data[..|data| - 1], m) + (if MonthIndex(c.createdAt.date) == m then c.totalPaid else 0.0)
  }

  /** The total_paid of the commissions created in the twelve months from `first`. */
  function WindowTotal(data: seq<Commission>, first: int): real
  {
    if data == [] then 0.0
    else
      var c := data[|data| - 1];
      var k := MonthIndex(c.createdAt.date) - first;
      WindowTotal(data[..|data| - 1], first) + (if 0 <= k < 12 then c.totalPaid else 0.0)
  }

  function TotalRevenue(rows: seq<MonthRevenue>): real
  {
    if rows == [] then 0.0 else rows[0].revenue + TotalRevenue(rows[1..])
  }

  /** Raising one bucket raises the total by the same amount. */
  lemma {:induction false} TotalRevenueRaise(rows: seq<MonthRevenue>, k: int, v: real)
    requires 0 <= k < |rows|
    ensures TotalRevenue(rows[k := rows[k].(revenue := rows[k].revenue + v)]) == TotalRevenue(rows) + v
    decreases |rows|
  {
    var raised := rows[k := rows[k].(revenue := rows[k].revenue + v)];
    if k == 0 {
      assert raised[1..] == rows[1..];
    } else {
      assert raised[1..] == rows[1..][k - 1 := rows[k].(revenue := rows[k].revenue + v)];
      TotalRevenueRaise(rows[1..], k - 1, v);
    }
  }

  lemma TotalRevenueZero(rows: seq<MonthRevenue>)
    requires forall j :: 0 <= j < |rows| ==> rows[j].revenue == 0.0
    ensures TotalRevenue(rows) == 0.0
  {
  }

  /** The buckets after the commissions `seen`, for the twelve months from `first`. */
  function Buckets(seen: seq<Commission>, first: int): (rows: seq<MonthRevenue>)
    ensures |rows| == 12
    decreases |seen|
  {
    if seen == [] then seq(12, (j: int) => MonthRevenue(first + j, 0.0))
    else
      var rows := Buckets(seen[..|seen| - 1], first);
      var c := seen[|seen| - 1];
      var k := MonthIndex(c.createdAt.date) - first;
      if 0 <= k < 12 then rows[k := rows[k].(revenue := rows[k].revenue + c.totalPaid)] else rows
  }

  /** Each bucket holds its month's total, and together they hold the window's total. */
  lemma {:induction false} BucketsHoldTotals(seen: seq<Commission>, first: int)
    ensures forall j :: 0 <= j < 12 ==> Buckets(seen, first)[j] == MonthRevenue(first + j, MonthTotal(seen, first + j))
    ensures TotalRevenue(Buckets(seen, first)) == WindowTotal(seen, first)
    decreases |seen|
  {
    if seen == [] {
      TotalRevenueZero(Buckets(seen, first));
    } else {
      var init, c := seen[..|seen| - 1], seen[|seen| - 1];
      BucketsHoldTotals(init, first);
      var k := MonthIndex(c.createdAt.date) - first;
      if 0 <= k < 12 {
        TotalRevenueRaise(Buckets(init, first), k, c.totalPaid);
      }
    }
  }

  /** `calculateMonthlyRevenue(commissions)` with the current date passed in. */
  method CalculateMonthlyRevenue(data: seq<Commission>, now: Date) returns (result: seq<MonthRevenue>)
    ensures |result| == 12
    ensures forall j :: 0 <= j < 12 ==>
              result[j] == MonthRevenue(FirstMonth(now) + j, MonthTotal(data, FirstMonth(now) + j))
    ensures result[11].month == MonthIndex(now)
    ensures TotalRevenue(result) == WindowTotal(data, FirstMonth(now))
  {
    var first := FirstMonth(now);
    var buckets := seq(12, (j: int) => MonthRevenue(first + j, 0.0));
    var i := 0;
    while i < |data|
      invariant 0 <= i <= |data|
      invariant buckets == Buckets(data[..i], first)
    {
      assert data[..i + 1][..i] == data[..i];
      var c := data[i];
      var k := MonthIndex(c.createdAt.date) - first;
      if 0 <= k < 12 {
        buckets := buckets[k := buckets[k].(revenue := buckets[k].revenue + c.totalPaid)];
      }
      i := i + 1;
    }
    assert data[..i] == data;
    result := buckets;
    BucketsHoldTotals(data, first);
  }

  /** A commission from outside the window changes no bucket. */
  lemma OutsideWindowChangesNothing(data: seq<Commission>, c: Commission, now: Date)
    requires MonthIndex(c.createdAt.date) < FirstMonth(now) || MonthIndex(c.createdAt.date) > MonthIndex(now)
    ensures WindowTotal(data + [c], FirstMonth(now)) == WindowTotal(data, FirstMonth(now))
    ensures forall m :: FirstMonth(now) <= m <= MonthIndex(now) ==> MonthTotal(data + [c], m) == MonthTotal(data, m)
  {
    assert (data + [c])[..|data + [c]| - 1] == data;
  }

  /** January's window starts in February of the year before. */
  lemma WindowCrossesYear(y: int)
    ensures FirstMonth(Date(y, 1, 15)) == MonthIndex(Date(y - 1, 2, 1))
  {
  }
}
