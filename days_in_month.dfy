// The Monday-first month grid of the calendar view (utils/daysInMonth.js).
// Cells carry day numbers (see module Calendar) instead of `Date` objects.
module MonthGrid {
  import opened Calendar

  datatype Cell = Cell(day: int, notInMonth: bool)

  /** Days shown before the 1st: its weekday counted from Monday (Sunday is 6). */
  function LeadingDays(first: int): (n: int)
    ensures 0 <= n <= 6
    ensures Weekday(first - n) == 1
    ensures n == (Weekday(first) + 6) % 7
  {
    WeekdayShift(first, -(if Weekday(first) == 0 then 6 else Weekday(first) - 1));
    if Weekday(first) == 0 then 6 else Weekday(first) - 1
  }

  /** Days shown after the last day, up to the Sunday that closes its week. */
  function TrailingDays(last: int): (n: int)
    ensures 0 <= n <= 6
    ensures Weekday(last + n) == 0
    ensures n == (7 - Weekday(last)) % 7
  {
    WeekdayShift(last, 7 - (if Weekday(last) == 0 then 7 else Weekday(last)));
    7 - (if Weekday(last) == 0 then 7 else Weekday(last))
  }

  /** A week that opens on a Monday and a later week end on a Sunday span whole weeks. */
  lemma WholeWeeks(start: int, end: int)
    requires Weekday(start) == 1 && Weekday(end) == 0 && start <= end + 1
    ensures (end - start + 1) % 7 == 0
  {
    WeekdayShift(start, end - start + 1);
  }

  /** `grid` holds consecutive days from `start`, those at positions `lo` to `hi - 1` marked as
      in the month and the others as outside it. */
  predicate Run(grid: seq<Cell>, start: int, lo: int, hi: int)
  {
    forall k :: 0 <= k < |grid| ==> grid[k] == Cell(start + k, !(lo <= k < hi))
  }

  /** The grid the calendar shows for the month of `date`: the leading and trailing days the
      month's first and last weekdays call for, and one run of consecutive days. */
  predicate ShownMonth(date: Date, grid: seq<Cell>)
    requires 1 <= date.month <= 12
  {
    var first := DayNumber(date.year, date.month, 1);
    var len := MonthLength(date.year, date.month);
    var lead := LeadingDays(first);
    |grid| == lead + len + TrailingDays(first + len - 1) && Run(grid, first - lead, lead, lead + len)
  }

  /** A shown month: leading days of the previous month, every day of the month in order, then
      trailing days of the next month, all consecutive, from a Monday to a Sunday, whole weeks. */
  lemma ShownMonthShape(date: Date, grid: seq<Cell>)
    requires 1 <= date.month <= 12 && ShownMonth(date, grid)
    ensures var first := DayNumber(date.year, date.month, 1);
            var len := MonthLength(date.year, date.month);
            var lead := LeadingDays(first);
            (forall k :: 0 <= k < lead ==> grid[k] == Cell(first - lead + k, true)) &&
            (forall d :: 1 <= d <= len ==> grid[lead + d - 1] == Cell(DayNumber(date.year, date.month, d), false)) &&
            (forall k :: lead + len <= k < |grid| ==> grid[k] == Cell(first - lead + k, true))
    ensures forall k :: 0 <= k < |grid| ==> grid[k].day == grid[0].day + k
    ensures Weekday(grid[0].day) == 1 && Weekday(grid[|grid| - 1].day) == 0
    ensures |grid| % 7 == 0
  {
    var first := DayNumber(date.year, date.month, 1);
    var len := MonthLength(date.year, date.month);
    var lead, trail := LeadingDays(first), TrailingDays(first + len - 1);
    assert grid[0].day == first - lead;
    assert grid[|grid| - 1].day == first + len - 1 + trail;
    WholeWeeks(first - lead, first + len - 1 + trail);
  }

  /** `daysInMonth(date)`: the three loops push the leading days, the month's days and the
      trailing days. */
  method DaysInMonth(date: Date) returns (grid: seq<Cell>)
    requires 1 <= date.month <= 12
    ensures ShownMonth(date, grid)
  {
    var year, month := date.year, date.month;
    var first := DayNumber(year, month, 1);
    var lead := if Weekday(first) == 0 then 6 else Weekday(first) - 1;
    assert lead == LeadingDays(first);
    var len := MonthLength(year, month);
    grid := [];
    var i := lead;
    while i > 0
      invariant 0 <= i <= lead
      invariant |grid| == lead - i
      invariant Run(grid, first - lead, lead, lead + len)
    {
      grid := grid + [Cell(first - i, true)];
      i := i - 1;
    }
    var day := 1;
    while day <= len
      invariant 1 <= day <= len + 1
      invariant |grid| == lead + day - 1
      invariant Run(grid, first - lead, lead, lead + len)
    {
      grid := grid + [Cell(DayNumber(year, month, day), false)];
      day := day + 1;
    }
    var last := DayNumber(year, month, len);
    var trail := 7 - (if Weekday(last) == 0 then 7 else Weekday(last));
    assert trail == TrailingDays(first + len - 1);
    i := 1;
    while i <= trail
      invariant 1 <= i <= trail + 1
      invariant |grid| == lead + len + i - 1
      invariant Run(grid, first - lead, lead, lead + len)
    {
      grid := grid + [Cell(last + i, true)];
      i := i + 1;
    }
  }
}
