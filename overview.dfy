// The four headline figures of the overview page (components/Overview.jsx), over the fetched
// commissions and change-request statuses. Amounts are exact numbers, so the order in which
// `reduce` adds them does not matter here.
module Overview {
  import opened Entities
  import opened ListPipeline

  /** `rows.reduce((total, c) => total + f(c), 0)` */
  function SumOf(rows: seq<Commission>, f: Commission -> real): real
  {
    if rows == [] then 0.0 else f(rows[0]) + SumOf(rows[1..], f)
  }

  function Paid(c: Commission): real { c.totalPaid }
  function Value(c: Commission): real { c.totalValue }
  function Owed(c: Commission): real { c.totalValue - c.totalPaid }

  /** "Total revenue": what has been paid on all commissions. */
  function TotalRevenue(commissions: seq<Commission>): real
  {
    SumOf(commissions, Paid)
  }

  predicate IsCompleted(c: Commission) { c.status == "completed" }

  /** "Total completed commissions" */
  function CompletedCount(commissions: seq<Commission>): nat
  {
    |Filter(commissions, IsCompleted)|
  }

  /** "Total owed": value minus paid, added up over all commissions. */
  function TotalOwed(commissions: seq<Commission>): real
  {
    SumOf(commissions, Owed)
  }

  predicate IsOpen(status: string)
  {
    status != "completed" && status != "cancelled" && status != "rejected"
  }

  /** "Open change requests" */
  function OpenRequests(statuses: seq<string>): nat
  {
    |Filter(statuses, IsOpen)|
  }

  /** What is owed is the total value less the revenue. */
  lemma {:induction false} OwedIsValueLessRevenue(commissions: seq<Commission>)
    ensures TotalOwed(commissions) == SumOf(commissions, Value) - TotalRevenue(commissions)
    decreases |commissions|
  {
    if commissions != [] {
      OwedIsValueLessRevenue(commissions[1..]);
    }
  }

  /** While every commission is paid between nothing and its value, revenue and what is owed
      are both between zero and the total value. */
  lemma {:induction false} FiguresWithinValue(commissions: seq<Commission>)
    requires forall i :: 0 <= i < |commissions| ==> 0.0 <= commissions[i].totalPaid <= commissions[i].totalValue
    ensures 0.0 <= TotalRevenue(commissions) <= SumOf(commissions, Value)
    ensures 0.0 <= TotalOwed(commissions) <= SumOf(commissions, Value)
    decreases |commissions|
  {
    if commissions != [] {
      FiguresWithinValue(commissions[1..]);
      OwedIsValueLessRevenue(commissions);
      OwedIsValueLessRevenue(commissions[1..]);
    }
  }

  /** An overpaid commission makes what is owed negative: nothing clamps it. */
  lemma OverpaidOwesNegative(c: Commission)
    requires c.totalPaid > c.totalValue
    ensures TotalOwed([c]) < 0.0
  {
    assert [c][1..] == [];
    assert TotalOwed([c]) == Owed(c) + SumOf([], Owed);
  }

  /** A sum splits over the rows a test keeps and the rows it drops. */
  lemma {:induction false} SumSplits(rows: seq<Commission>, f: Commission -> real, p: Commission -> bool)
    ensures SumOf(rows, f) == SumOf(Filter(rows, p), f) + SumOf(Filter(rows, Not(p)), f)
    decreases |rows|
  {
    if rows != [] {
      SumSplits(rows[1..], f, p);
      var kept, dropped := Filter(rows[1..], p), Filter(rows[1..], Not(p));
      if p(rows[0]) {
        assert !Not(p)(rows[0]);
        assert Filter(rows, p) == [rows[0]] + kept && Filter(rows, Not(p)) == dropped;
        assert ([rows[0]] + kept)[1..] == kept;
        assert SumOf([rows[0]] + kept, f) == f(rows[0]) + SumOf(kept, f);
      } else {
        assert Not(p)(rows[0]);
        assert Filter(rows, Not(p)) == [rows[0]] + dropped && Filter(rows, p) == kept;
        assert ([rows[0]] + dropped)[1..] == dropped;
        assert SumOf([rows[0]] + dropped, f) == f(rows[0]) + SumOf(dropped, f);
      }
    }
  }

  /** Every row is either kept or dropped by a test. */
  lemma {:induction false} CountSplits<T>(rows: seq<T>, p: T -> bool)
    ensures |Filter(rows, p)| + |Filter(rows, Not(p))| == |rows|
    decreases |rows|
  {
    if rows != [] {
      CountSplits(rows[1..], p);
    }
  }

  /** Completed and not-completed commissions make up all of them; the open requests and the
      completed, cancelled or rejected ones make up all requests. */
  lemma HeadlineCounts(commissions: seq<Commission>, statuses: seq<string>)
    ensures CompletedCount(commissions) + |Filter(commissions, Not(IsCompleted))| == |commissions|
    ensures OpenRequests(statuses) + |Filter(statuses, Not(IsOpen))| == |statuses|
  {
    CountSplits(commissions, IsCompleted);
    CountSplits(statuses, IsOpen);
  }

  /** One more request adds one to the open count exactly when its status is not closed. */
  lemma OpenRequestsStep(statuses: seq<string>, status: string)
    ensures OpenRequests(statuses + [status]) == OpenRequests(statuses) + (if IsOpen(status) then 1 else 0)
  {
    FilterAppend(statuses, [status], IsOpen);
    assert [status][1..] == [];
  }
}
