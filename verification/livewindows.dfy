/** The date bounds the live queries declare from today's date. The CEO
    server and the main server use different conventions for the trailing
    windows; both are written out here so that the difference can be stated
    and proved. */
module LiveWindows {
  import opened Calendar

  /** The bounds one live query declares: the current month, the 3-month
      and 6-month averaging windows. Rows are fetched from `l6Start` through
      `end`. */
  datatype Windows = Windows(
    start: Date, end: Date,
    l3Start: Date, l3End: Date,
    l6Start: Date, l6End: Date)

  predicate InCurrent(w: Windows, d: Date) { InRange(d, w.start, w.end) }
  predicate InLast3(w: Windows, d: Date) { InRange(d, w.l3Start, w.l3End) }
  predicate InLast6(w: Windows, d: Date) { InRange(d, w.l6Start, w.l6End) }

  /** The rows a live query fetches at all (`RefDate >= @L6Start AND
      RefDate <= @EndDate`). */
  predicate Covered(w: Windows, d: Date) { InRange(d, w.l6Start, w.end) }

  /** How many months before today's month the date `d` falls. */
  function MonthsAgo(today: Date, d: Date): int {
    MonthIndex(MonthOf(today)) - MonthIndex(MonthOf(d))
  }

  lemma FirstDayMonth(ym: YearMonth)
    ensures MonthOf(FirstDay(ym)) == ym && ValidDate(FirstDay(ym))
  {
  }

  /** The CEO server's bounds: `@StartDate = DATEFROMPARTS(...)`,
      `@L3Start = DATEADD(MONTH, -4, @StartDate)`,
      `@L3End = EOMONTH(DATEADD(MONTH, 2, @L3Start))`, and the same with -7
      and 5 for the 6-month window. */
  function CeoWindows(today: Date): (w: Windows)
    ensures var cur := MonthOf(today);
      && w.start == FirstDay(cur) && w.end == LastDay(cur)
      && w.l3Start == FirstDay(AddMonths(cur, -4)) && w.l3End == LastDay(AddMonths(cur, -2))
      && w.l6Start == FirstDay(AddMonths(cur, -7)) && w.l6End == LastDay(AddMonths(cur, -2))
  {
    var cur := MonthOf(today);
    var start := StartOfMonth(today);
    var l3Start := SqlAddMonths(start, -4);
    var l6Start := SqlAddMonths(start, -7);
    SqlAddMonthsFirstDay(cur, -4);
    SqlAddMonthsFirstDay(cur, -7);
    SqlAddMonthsFirstDay(AddMonths(cur, -4), 2);
    SqlAddMonthsFirstDay(AddMonths(cur, -7), 5);
    AddMonthsCompose(cur, -4, 2);
    AddMonthsCompose(cur, -7, 5);
    FirstDayMonth(AddMonths(cur, -2));
    Windows(start, EndOfMonth(start),
            l3Start, EndOfMonth(SqlAddMonths(l3Start, 2)),
            l6Start, EndOfMonth(SqlAddMonths(l6Start, 5)))
  }

  /** The main server's bounds: both windows end on
      `@PrevMonthEnd = DATEADD(DAY, -1, @MonthStart)` and start 3 and 6
      months before the current month. */
  function MainWindows(today: Date): (w: Windows)
    ensures var cur := MonthOf(today);
      && w.start == FirstDay(cur) && w.end == LastDay(cur)
      && w.l3Start == FirstDay(AddMonths(cur, -3)) && w.l3End == LastDay(AddMonths(cur, -1))
      && w.l6Start == FirstDay(AddMonths(cur, -6)) && w.l6End == LastDay(AddMonths(cur, -1))
  {
    var cur := MonthOf(today);
    var start := StartOfMonth(today);
    var prevMonthEnd := DayBefore(start);
    SqlAddMonthsFirstDay(cur, -3);
    SqlAddMonthsFirstDay(cur, -6);
    Windows(start, EndOfMonth(start),
            SqlAddMonths(start, -3), prevMonthEnd,
            SqlAddMonths(start, -6), prevMonthEnd)
  }

  /** Which months each CEO window holds: the current month; months -2..-4;
      months -2..-7; and rows are fetched for months 0..-7. */
  lemma CeoWindowMonths(today: Date, d: Date)
    requires ValidDate(d)
    ensures var w := CeoWindows(today);
      && (InCurrent(w, d) <==> MonthsAgo(today, d) == 0)
      && (InLast3(w, d) <==> 2 <= MonthsAgo(today, d) <= 4)
      && (InLast6(w, d) <==> 2 <= MonthsAgo(today, d) <= 7)
      && (Covered(w, d) <==> 0 <= MonthsAgo(today, d) <= 7)
  {
    var cur := MonthOf(today);
    MonthSpan(d, cur, cur);
    MonthSpan(d, AddMonths(cur, -4), AddMonths(cur, -2));
    MonthSpan(d, AddMonths(cur, -7), AddMonths(cur, -2));
    MonthSpan(d, AddMonths(cur, -7), cur);
  }

  /** Which months each main-server window holds: the current month;
      months -1..-3; months -1..-6; rows are fetched for months 0..-6. */
  lemma MainWindowMonths(today: Date, d: Date)
    requires ValidDate(d)
    ensures var w := MainWindows(today);
      && (InCurrent(w, d) <==> MonthsAgo(today, d) == 0)
      && (InLast3(w, d) <==> 1 <= MonthsAgo(today, d) <= 3)
      && (InLast6(w, d) <==> 1 <= MonthsAgo(today, d) <= 6)
      && (Covered(w, d) <==> 0 <= MonthsAgo(today, d) <= 6)
  {
    var cur := MonthOf(today);
    MonthSpan(d, cur, cur);
    MonthSpan(d, AddMonths(cur, -3), AddMonths(cur, -1));
    MonthSpan(d, AddMonths(cur, -6), AddMonths(cur, -1));
    MonthSpan(d, AddMonths(cur, -6), cur);
  }

  /** Within either server's bounds the 3-month window lies inside the
      6-month window, neither touches the current month, and all three lie
      inside the fetched range. The CEO windows also leave out month -1. */
  lemma WindowsNest(today: Date, d: Date)
    requires ValidDate(d)
    ensures forall w :: w == CeoWindows(today) || w == MainWindows(today) ==>
      && (InLast3(w, d) ==> InLast6(w, d))
      && !(InLast6(w, d) && InCurrent(w, d))
      && (InCurrent(w, d) || InLast6(w, d) ==> Covered(w, d))
    ensures MonthsAgo(today, d) == 1 ==>
      !InLast3(CeoWindows(today), d) && !InLast6(CeoWindows(today), d)
  {
    CeoWindowMonths(today, d);
    MainWindowMonths(today, d);
  }

  /** The two conventions disagree: the first day of month -1 is averaged
      by the main server only, the first day of month -4 by the CEO
      server's 3-month window only, and the first day of month -7 by the
      CEO server's 6-month window only. */
  lemma WindowsDiverge(today: Date)
    ensures var cur := MonthOf(today);
      var ceo, main := CeoWindows(today), MainWindows(today);
      && InLast3(main, FirstDay(AddMonths(cur, -1))) && !InLast3(ceo, FirstDay(AddMonths(cur, -1)))
      && InLast6(main, FirstDay(AddMonths(cur, -1))) && !InLast6(ceo, FirstDay(AddMonths(cur, -1)))
      && InLast3(ceo, FirstDay(AddMonths(cur, -4))) && !InLast3(main, FirstDay(AddMonths(cur, -4)))
      && InLast6(ceo, FirstDay(AddMonths(cur, -7))) && !InLast6(main, FirstDay(AddMonths(cur, -7)))
  {
    var cur := MonthOf(today);
    FirstDayMonth(AddMonths(cur, -1));
    FirstDayMonth(AddMonths(cur, -4));
    FirstDayMonth(AddMonths(cur, -7));
    CeoWindowMonths(today, FirstDay(AddMonths(cur, -1)));
    MainWindowMonths(today, FirstDay(AddMonths(cur, -1)));
    CeoWindowMonths(today, FirstDay(AddMonths(cur, -4)));
    MainWindowMonths(today, FirstDay(AddMonths(cur, -4)));
    CeoWindowMonths(today, FirstDay(AddMonths(cur, -7)));
    MainWindowMonths(today, FirstDay(AddMonths(cur, -7)));
  }
}
