/** The proleptic Gregorian calendar as the dashboards use it: year-month
    values, calendar dates, month arithmetic the way JavaScript's `Date`
    constructor normalises an out-of-range month and the way SQL Server's
    DATEADD/EOMONTH/DATEFROMPARTS compute, and the inclusive date ranges the
    queries filter on. */
module Calendar {

  /** A calendar month number, January = 1. */
  type MonthNumber = m: int | 1 <= m <= 12 witness 1

  datatype YearMonth = YearMonth(year: int, month: MonthNumber)

  /** A calendar date; `ValidDate` says whether the day exists. */
  datatype Date = Date(year: int, month: MonthNumber, day: int)

  predicate IsLeapYear(y: int) {
    y % 4 == 0 && (y % 100 != 0 || y % 400 == 0)
  }

  /** The day number of the last day of a month. */
  function DaysInMonth(y: int, m: MonthNumber): int {
    if m == 2 then (if IsLeapYear(y) then 29 else 28)
    else if m == 4 || m == 6 || m == 9 || m == 11 then 30
    else 31
  }

  predicate ValidDate(d: Date) {
    1 <= d.day <= DaysInMonth(d.year, d.month)
  }

  function MonthOf(d: Date): YearMonth {
    YearMonth(d.year, d.month)
  }

  /** Months counted from January of year 0; consecutive months have
      consecutive indices. */
  function MonthIndex(ym: YearMonth): int {
    ym.year * 12 + (ym.month - 1)
  }

  /** The month with a given index. This is also how `new Date(y, m, 1)`
      normalises an out-of-range zero-based month `m`: it is the month with
      index `12 * y + m`. */
  function FromMonthIndex(i: int): (ym: YearMonth)
    ensures MonthIndex(ym) == i
  {
    YearMonth(i / 12, i % 12 + 1)
  }

  /** The month index determines the month. */
  lemma MonthIndexInjective(a: YearMonth, b: YearMonth)
    requires MonthIndex(a) == MonthIndex(b)
    ensures a == b
  {
  }

  lemma FromMonthIndexOfIndex(ym: YearMonth)
    ensures FromMonthIndex(MonthIndex(ym)) == ym
  {
    MonthIndexInjective(FromMonthIndex(MonthIndex(ym)), ym);
  }

  /** The month `k` months after `ym` (before it when `k` is negative). */
  function AddMonths(ym: YearMonth, k: int): (r: YearMonth)
    ensures MonthIndex(r) == MonthIndex(ym) + k
  {
    FromMonthIndex(MonthIndex(ym) + k)
  }

  /** Stepping back one month keeps the year except in January, where the
      year rolls back and the month becomes December. */
  lemma PreviousMonth(ym: YearMonth)
    ensures AddMonths(ym, -1) ==
      if ym.month == 1 then YearMonth(ym.year - 1, 12) else YearMonth(ym.year, ym.month - 1)
  {
    var p := if ym.month == 1 then YearMonth(ym.year - 1, 12) else YearMonth(ym.year, ym.month - 1);
    MonthIndexInjective(AddMonths(ym, -1), p);
  }

  lemma AddMonthsCompose(ym: YearMonth, j: int, k: int)
    ensures AddMonths(AddMonths(ym, j), k) == AddMonths(ym, j + k)
  {
    MonthIndexInjective(AddMonths(AddMonths(ym, j), k), AddMonths(ym, j + k));
  }

  function FirstDay(ym: YearMonth): Date {
    Date(ym.year, ym.month, 1)
  }

  function LastDay(ym: YearMonth): Date {
    Date(ym.year, ym.month, DaysInMonth(ym.year, ym.month))
  }

  /** The calendar day before `d`. */
  function DayBefore(d: Date): Date {
    if d.day > 1 then Date(d.year, d.month, d.day - 1)
    else LastDay(AddMonths(MonthOf(d), -1))
  }

  /** `new Date(y, m + 1, 0)`: day 0 of the following month, which JavaScript
      normalises to the day before the first of that month. */
  function DayZeroOfNextMonth(ym: YearMonth): Date {
    DayBefore(FirstDay(AddMonths(ym, 1)))
  }

  /** The day-0 idiom lands on the last day of the month itself, leap years
      included. */
  lemma DayZeroIsLastDay(ym: YearMonth)
    ensures DayZeroOfNextMonth(ym) == LastDay(ym)
    ensures ValidDate(DayZeroOfNextMonth(ym))
  {
    AddMonthsCompose(ym, 1, -1);
    FromMonthIndexOfIndex(ym);
  }

  /** Chronological order on dates. */
  predicate DateLe(a: Date, b: Date) {
    a.year < b.year
    || (a.year == b.year && (a.month < b.month || (a.month == b.month && a.day <= b.day)))
  }

  /** The inclusive range test the SQL queries write as
      `RefDate >= @lo AND RefDate <= @hi`. */
  predicate InRange(d: Date, lo: Date, hi: Date) {
    DateLe(lo, d) && DateLe(d, hi)
  }

  /** Month order is index order. */
  lemma MonthOrder(a: YearMonth, b: YearMonth)
    ensures MonthIndex(a) <= MonthIndex(b) <==>
      (a.year < b.year || (a.year == b.year && a.month <= b.month))
  {
    if a.year < b.year {
      assert MonthIndex(a) <= a.year * 12 + 11 < b.year * 12 <= MonthIndex(b);
    } else if b.year < a.year {
      assert MonthIndex(b) <= b.year * 12 + 11 < a.year * 12 <= MonthIndex(a);
    }
  }

  /** A valid date lies between the first day of month `lo` and the last day
      of month `hi` exactly when its own month lies between them. */
  lemma MonthSpan(d: Date, lo: YearMonth, hi: YearMonth)
    requires ValidDate(d)
    ensures InRange(d, FirstDay(lo), LastDay(hi)) <==>
      MonthIndex(lo) <= MonthIndex(MonthOf(d)) <= MonthIndex(hi)
  {
    MonthOrder(lo, MonthOf(d));
    MonthOrder(MonthOf(d), hi);
  }

  /** A valid date is in the range of its own month and of no other. */
  lemma InMonthRange(d: Date, ym: YearMonth)
    requires ValidDate(d)
    ensures InRange(d, FirstDay(ym), LastDay(ym)) <==> MonthOf(d) == ym
  {
    MonthSpan(d, ym, ym);
    if MonthIndex(MonthOf(d)) == MonthIndex(ym) {
      MonthIndexInjective(MonthOf(d), ym);
    }
  }

  /** SQL Server `DATEFROMPARTS(YEAR(d), MONTH(d), 1)`. */
  function StartOfMonth(d: Date): Date {
    FirstDay(MonthOf(d))
  }

  /** SQL Server `EOMONTH(d)`. */
  function EndOfMonth(d: Date): Date {
    LastDay(MonthOf(d))
  }

  /** SQL Server `DATEADD(MONTH, k, d)`: the day is kept, clamped to the
      length of the target month. */
  function SqlAddMonths(d: Date, k: int): Date {
    var ym := AddMonths(MonthOf(d), k);
    var last := DaysInMonth(ym.year, ym.month);
    Date(ym.year, ym.month, if d.day <= last then d.day else last)
  }

  /** Moving the first of a month by whole months lands on the first of the
      target month. */
  lemma SqlAddMonthsFirstDay(ym: YearMonth, k: int)
    ensures SqlAddMonths(FirstDay(ym), k) == FirstDay(AddMonths(ym, k))
  {
  }

  /** An inclusive start/end date pair for one month. */
  datatype DateRange = DateRange(start: Date, end: Date)

  /** `getMonthDateRange` in server.js: day 1 of the month and
      `new Date(year, month + 1, 0)`. */
  function MonthDateRange(ym: YearMonth): (r: DateRange)
    ensures r.start == FirstDay(ym) && r.end == LastDay(ym)
    ensures ValidDate(r.start) && ValidDate(r.end)
    ensures forall d :: ValidDate(d) ==> (InRange(d, r.start, r.end) <==> MonthOf(d) == ym)
  {
    DayZeroIsLastDay(ym);
    forall d | ValidDate(d)
      ensures InRange(d, FirstDay(ym), LastDay(ym)) <==> MonthOf(d) == ym
    {
      InMonthRange(d, ym);
    }
    DateRange(FirstDay(ym), DayZeroOfNextMonth(ym))
  }

  /** `n` consecutive months going backwards from `ym`, one step of
      `setMonth(getMonth() - 1)` at a time: entry `k` is month `-k`. */
  function MonthsBack(ym: YearMonth, n: nat): (r: seq<YearMonth>)
    ensures |r| == n
    ensures forall k :: 0 <= k < n ==> MonthIndex(r[k]) == MonthIndex(ym) - k
    decreases n
  {
    if n == 0 then [] else [ym] + MonthsBack(AddMonths(ym, -1), n - 1)
  }

  /** Entry `k` of `MonthsBack` is exactly the month `k` months earlier. */
  lemma MonthsBackEntry(ym: YearMonth, n: nat, k: int)
    requires 0 <= k < n
    ensures MonthsBack(ym, n)[k] == AddMonths(ym, -k)
  {
    MonthIndexInjective(MonthsBack(ym, n)[k], AddMonths(ym, -k));
  }

  /** Adjacent entries of `MonthsBack` step back one month, rolling the year
      back after January. */
  lemma MonthsBackSteps(ym: YearMonth, n: nat, k: int)
    requires 0 <= k < n - 1
    ensures var r := MonthsBack(ym, n);
      r[k + 1] == if r[k].month == 1 then YearMonth(r[k].year - 1, 12)
                  else YearMonth(r[k].year, r[k].month - 1)
  {
    var r := MonthsBack(ym, n);
    PreviousMonth(r[k]);
    MonthIndexInjective(r[k + 1], AddMonths(r[k], -1));
  }

  /** `getDateRanges`: the ranges of `n` consecutive months going backwards
      from `ym`; entry `k` is month `-k`. */
  function MonthRangesBack(ym: YearMonth, n: nat): (r: seq<DateRange>)
    ensures |r| == n
    ensures forall k :: 0 <= k < n ==> r[k] == MonthDateRange(AddMonths(ym, -k))
  {
    var months := MonthsBack(ym, n);
    forall k | 0 <= k < n ensures months[k] == AddMonths(ym, -k) {
      MonthsBackEntry(ym, n, k);
    }
    seq(n, k requires 0 <= k < n => MonthDateRange(months[k]))
  }

  /** The ranges tile the calendar backwards: each one ends on the day
      before the previous one starts, so no day is skipped or counted
      twice. */
  lemma MonthRangesAdjacent(ym: YearMonth, n: nat, k: int)
    requires 0 <= k < n - 1
    ensures var r := MonthRangesBack(ym, n);
      DayBefore(r[k].start) == r[k + 1].end && ValidDate(r[k + 1].end)
  {
    var m := AddMonths(ym, -k);
    AddMonthsCompose(ym, -k, -1);
    assert MonthOf(FirstDay(m)) == m;
  }
}
