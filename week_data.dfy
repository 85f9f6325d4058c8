// Two weeks of revenue side by side (utils/chartdata/overallChart.js): seven rows, Sunday
// first, each holding the total_value of the commissions created on that weekday of the
// current week and of the week before. Weeks start on Sunday at local midnight; the weekday
// label the source prints is left out and each row carries its weekday index instead.
module WeekData {
  import opened Calendar
  import opened Entities

  /** `getStartOfWeek(now)`: the day number of the Sunday on or before `now`. */
  function StartOfWeek(now: Date): (start: int)
    requires 1 <= now.month <= 12
    ensures start <= DayOf(now) < start + 7
    ensures Weekday(start) == 0
  {
    DayOf(now) - Weekday(DayOf(now))
  }

  /** `addDays(date, days)` on a day number. */
  function AddDays(day: int, days: int): int
  {
    day + days
  }

  /** Counting days from a Sunday, the weekday is the number of days since it. */
  lemma IndexIsDayOffset(start: int, day: int)
    requires Weekday(start) == 0
    requires start <= day < start + 7
    ensures Weekday(day) == day - start
  {
    WeekdayShift(start, day - start);
  }

  /** Comparing a creation instant with the midnights that bound a week is comparing day numbers. */
  lemma InstantInWeek(t: DateTime, first: int)
    requires ValidDateTime(t)
    ensures first * DayMs <= Instant(t) < (first + 7) * DayMs <==> first <= DayOf(t.date) < first + 7
  {
    var d := DayOf(t.date);
    if d < first {
      assert d * DayMs + t.msOfDay < (d + 1) * DayMs <= first * DayMs;
    } else if d >= first + 7 {
      assert (first + 7) * DayMs <= d * DayMs;
    } else {
      assert first * DayMs <= d * DayMs;
      assert d * DayMs + t.msOfDay < (d + 1) * DayMs <= (first + 7) * DayMs;
    }
  }

  predicate ValidDates(data: seq<Commission>)
  {
    forall i :: 0 <= i < |data| ==> ValidDateTime(data[i].createdAt)
  }

  function CreatedDay(c: Commission): int
    requires ValidDateTime(c.createdAt)
  {
    DayOf(c.createdAt.date)
  }

  /** The total_value of the commissions created on weekday `w` of the week starting on `first`. */
  function WeekdayTotal(data: seq<Commission>, first: int, w: int): real
    requires ValidDates(data)
  {
    if data == [] then 0.0
    else
      var c := data[|data| - 1];
      var d := CreatedDay(c);
      WeekdayTotal(data[..|data| - 1], first, w) +
      (if first <= d < first + 7 && Weekday(d) == w then c.totalValue else 0.0)
  }

  datatype DayRevenue = DayRevenue(weekday: int, currentWeek: real, previousWeek: real)

  /** Row `j` holds weekday `j`'s totals of `seen` in the weeks starting on `current` and `previous`. */
  predicate Totals(rows: seq<DayRevenue>, seen: seq<Commission>, current: int, previous: int)
    requires ValidDates(seen)
  {
    |rows| == 7 &&
    forall j :: 0 <= j < 7 ==> rows[j] == DayRevenue(j, WeekdayTotal(seen, current, j), WeekdayTotal(seen, previous, j))
  }

  /** A commission of the current week adds its value to its weekday's current total. */
  lemma AddToCurrent(rows: seq<DayRevenue>, seen: seq<Commission>, c: Commission, current: int)
    requires ValidDates(seen) && ValidDateTime(c.createdAt) && Totals(rows, seen, current, current - 7)
    requires Weekday(current) == 0 && current <= CreatedDay(c) < current + 7
    ensures ValidDates(seen + [c])
    ensures var w := Weekday(CreatedDay(c));
            Totals(rows[w := rows[w].(currentWeek := rows[w].currentWeek + c.totalValue)], seen + [c], current, current - 7)
  {
    assert (seen + [c])[..|seen|] == seen;
    IndexIsDayOffset(current, CreatedDay(c));
  }

  /** A commission of the week before adds its value to its weekday's previous total. */
  lemma AddToPrevious(rows: seq<DayRevenue>, seen: seq<Commission>, c: Commission, current: int)
    requires ValidDates(seen) && ValidDateTime(c.createdAt) && Totals(rows, seen, current, current - 7)
    requires Weekday(current) == 0 && current - 7 <= CreatedDay(c) < current
    ensures ValidDates(seen + [c])
    ensures var w := Weekday(CreatedDay(c));
            Totals(rows[w := rows[w].(previousWeek := rows[w].previousWeek + c.totalValue)], seen + [c], current, current - 7)
  {
    assert (seen + [c])[..|seen|] == seen;
    WeekdayShift(current, -7);
    IndexIsDayOffset(current - 7, CreatedDay(c));
  }

  /** A commission outside both weeks changes no row. */
  lemma AddToNeither(rows: seq<DayRevenue>, seen: seq<Commission>, c: Commission, current: int)
    requires ValidDates(seen) && ValidDateTime(c.createdAt) && Totals(rows, seen, current, current - 7)
    requires !(current - 7 <= CreatedDay(c) < current + 7)
    ensures ValidDates(seen + [c])
    ensures Totals(rows, seen + [c], current, current - 7)
  {
    assert (seen + [c])[..|seen|] == seen;
  }

  /** The `forEach` callback on rows `rows`, for a commission of value `value` created on day
      `d`: the current week's total of its weekday, or the previous week's, or nothing grows. */
  function Tally(rows: seq<DayRevenue>, d: int, value: real, current: int): (r: seq<DayRevenue>)
    requires |rows| == 7
    ensures |r| == 7
  {
    var w := Weekday(d);
    if current <= d < current + 7 then rows[w := rows[w].(currentWeek := rows[w].currentWeek + value)]
    else if current - 7 <= d < current then rows[w := rows[w].(previousWeek := rows[w].previousWeek + value)]
    else rows
  }

  /** `revenueData` after the commissions `seen`, for the week starting on `current` and the
      one before it. */
  function Rows(seen: seq<Commission>, current: int): (rows: seq<DayRevenue>)
    requires ValidDates(seen)
    ensures |rows| == 7
    decreases |seen|
  {
    if seen == [] then seq(7, (j: int) => DayRevenue(j, 0.0, 0.0))
    else
      var c := seen[|seen| - 1];
      Tally(Rows(seen[..|seen| - 1], current), CreatedDay(c), c.totalValue, current)
  }

  /** After any prefix, each row holds its weekday's totals of that prefix in both weeks. */
  lemma {:induction false} RowsTotal(seen: seq<Commission>, current: int)
    requires ValidDates(seen) && Weekday(current) == 0
    ensures Totals(Rows(seen, current), seen, current, current - 7)
    decreases |seen|
  {
    if seen != [] {
      var init, c := seen[..|seen| - 1], seen[|seen| - 1];
      assert seen == init + [c];
      RowsTotal(init, current);
      var d := CreatedDay(c);
      if current <= d < current + 7 {
        AddToCurrent(Rows(init, current), init, c, current);
      } else if current - 7 <= d < current {
        AddToPrevious(Rows(init, current), init, c, current);
      } else {
        AddToNeither(Rows(init, current), init, c, current);
      }
    }
  }

  /** The `forEach` callback: the commission's value is added to its weekday's row, in the
      current week's column or the previous week's, when it falls in one of them. */
  method AddCommission(rows: seq<DayRevenue>, item: Commission, currentWeekStart: int) returns (next: seq<DayRevenue>)
    requires |rows| == 7 && ValidDateTime(item.createdAt)
    ensures next == Tally(rows, CreatedDay(item), item.totalValue, currentWeekStart)
  {
    var created := CreatedDay(item);
    var totalPaid := item.totalValue;
    var previousWeekStart := AddDays(currentWeekStart, -7);
    next := rows;
    if currentWeekStart <= created < AddDays(currentWeekStart, 7) {
      var dayIndex := Weekday(created);
      next := next[dayIndex := next[dayIndex].(currentWeek := next[dayIndex].currentWeek + totalPaid)];
    } else if previousWeekStart <= created < currentWeekStart {
      var dayIndex := Weekday(created);
      next := next[dayIndex := next[dayIndex].(previousWeek := next[dayIndex].previousWeek + totalPaid)];
    }
  }

  /** `getWeekData(initialData)` with the current date passed in. */
  method GetWeekData(data: seq<Commission>, now: Date) returns (result: seq<DayRevenue>)
    requires ValidDates(data) && 1 <= now.month <= 12
    ensures |result| == 7
    ensures forall j :: 0 <= j < 7 ==>
              result[j] == DayRevenue(j, WeekdayTotal(data, StartOfWeek(now), j),
                                      WeekdayTotal(data, AddDays(StartOfWeek(now), -7), j))
  {
    var currentWeekStart := StartOfWeek(now);
    var revenueData := seq(7, (j: int) => DayRevenue(j, 0.0, 0.0));
    var i := 0;
    while i < |data|
      invariant 0 <= i <= |data|
      invariant ValidDates(data[..i])
      invariant revenueData == Rows(data[..i], currentWeekStart)
    {
      assert data[..i + 1][..i] == data[..i];
      revenueData := AddCommission(revenueData, data[i], currentWeekStart);
      i := i + 1;
    }
    assert data[..i] == data;
    result := revenueData;
    RowsTotal(data, currentWeekStart);
  }

  /** A commission created outside the fourteen days changes neither series. */
  lemma OutsideSpanChangesNothing(data: seq<Commission>, c: Commission, now: Date)
    requires ValidDates(data) && ValidDateTime(c.createdAt) && 1 <= now.month <= 12
    requires CreatedDay(c) < StartOfWeek(now) - 7 || CreatedDay(c) >= StartOfWeek(now) + 7
    ensures ValidDates(data + [c])
    ensures forall w :: WeekdayTotal(data + [c], StartOfWeek(now), w) == WeekdayTotal(data, StartOfWeek(now), w)
    ensures forall w :: WeekdayTotal(data + [c], AddDays(StartOfWeek(now), -7), w) == WeekdayTotal(data, AddDays(StartOfWeek(now), -7), w)
  {
    assert (data + [c])[..|data + [c]| - 1] == data;
  }

  /** A commission of the current week lands in the current series at its offset from Sunday,
      and in no other row of either series. */
  lemma CurrentWeekLandsAtOffset(data: seq<Commission>, c: Commission, now: Date, w: int)
    requires ValidDates(data) && ValidDateTime(c.createdAt) && 1 <= now.month <= 12
    requires StartOfWeek(now) <= CreatedDay(c) < StartOfWeek(now) + 7
    ensures ValidDates(data + [c])
    ensures WeekdayTotal(data + [c], StartOfWeek(now), w) ==
            WeekdayTotal(data, StartOfWeek(now), w) + (if w == CreatedDay(c) - StartOfWeek(now) then c.totalValue else 0.0)
    ensures WeekdayTotal(data + [c], AddDays(StartOfWeek(now), -7), w) == WeekdayTotal(data, AddDays(StartOfWeek(now), -7), w)
  {
    assert (data + [c])[..|data + [c]| - 1] == data;
    IndexIsDayOffset(StartOfWeek(now), CreatedDay(c));
  }
}
