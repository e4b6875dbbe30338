/** The aggregation every live query performs over its common table
    expression: for a set of selected rows, the current-month total, the
    3-month and 6-month window sums divided by 3 and 6, and the current-month
    quantity. Also: how these sums split over a partition of the rows, and
    how a window sum splits into the sums of the months it spans. */
module LiveTally {
  import opened Basics
  import opened Calendar
  import opened Averages
  import opened LiveWindows

  /** One row of a live query's common table expression: the key it is
      grouped by (purchase type or account), its date, amount and quantity. */
  datatype LiveLine = LiveLine(key: string, date: Date, amount: real, qty: real)

  /** The column a sum adds up. */
  datatype Measure = Amount | Qty

  function Value(l: LiveLine, m: Measure): real {
    match m
    case Amount => l.amount
    case Qty => l.qty
  }

  /** `LEFT(Account, 3)`. */
  function AccountGroup(a: string): (g: string)
    ensures |a| >= 3 ==> |g| == 3 && g == a[..3]
    ensures |a| < 3 ==> g == a
  {
    if |a| >= 3 then a[..3] else a
  }

  /** A line's grouping value: its key, or the key's 3-character group. */
  function ClassOf(l: LiveLine, byGroup: bool): string {
    if byGroup then AccountGroup(l.key) else l.key
  }

  /** The lines one output row aggregates: all of them, those of one key or
      group, or those whose key or group is among several. */
  datatype Selector = All | Is(byGroup: bool, v: string) | Among(byGroup: bool, vs: seq<string>)

  predicate Selects(s: Selector, l: LiveLine) {
    match s
    case All => true
    case Is(byGroup, v) => ClassOf(l, byGroup) == v
    case Among(byGroup, vs) => ClassOf(l, byGroup) in vs
  }

  /** `COALESCE(SUM(CASE WHEN RefDate >= lo AND RefDate <= hi THEN col END), 0)`
      over the selected lines. */
  function WindowSum(lines: seq<LiveLine>, s: Selector, m: Measure, lo: Date, hi: Date): real {
    SumBy(lines, l => if Selects(s, l) && InRange(l.date, lo, hi) then Value(l, m) else 0.0)
  }

  /** The figures of one output row: `Total`, `Last3M_Avg`, `Last6M_Avg`,
      `ConsumedQty`. */
  datatype Figures = Figures(total: real, last3Avg: real, last6Avg: real, consumedQty: real)

  const NoFigures: Figures := Figures(0.0, 0.0, 0.0, 0.0)

  function Plus(a: Figures, b: Figures): Figures {
    Figures(a.total + b.total, a.last3Avg + b.last3Avg, a.last6Avg + b.last6Avg, a.consumedQty + b.consumedQty)
  }

  /** The row figures of the selected lines under the given bounds: each
      average is the window's sum over 3 or 6 whatever the data covers. */
  function FiguresOf(lines: seq<LiveLine>, w: Windows, s: Selector): Figures {
    Figures(
      WindowSum(lines, s, Amount, w.start, w.end),
      WindowSum(lines, s, Amount, w.l3Start, w.l3End) / 3.0,
      WindowSum(lines, s, Amount, w.l6Start, w.l6End) / 6.0,
      WindowSum(lines, s, Qty, w.start, w.end))
  }

  /** The figures are additive: each one is a sum over the lines. */
  lemma FiguresOfConcat(xs: seq<LiveLine>, ys: seq<LiveLine>, w: Windows, s: Selector)
    ensures FiguresOf(xs + ys, w, s) == Plus(FiguresOf(xs, w, s), FiguresOf(ys, w, s))
  {
    SumByConcat(xs, ys, l => if Selects(s, l) && InRange(l.date, w.start, w.end) then Value(l, Amount) else 0.0);
    SumByConcat(xs, ys, l => if Selects(s, l) && InRange(l.date, w.l3Start, w.l3End) then Value(l, Amount) else 0.0);
    SumByConcat(xs, ys, l => if Selects(s, l) && InRange(l.date, w.l6Start, w.l6End) then Value(l, Amount) else 0.0);
    SumByConcat(xs, ys, l => if Selects(s, l) && InRange(l.date, w.start, w.end) then Value(l, Qty) else 0.0);
  }

  /** Two selectors that pick the same lines give the same figures. */
  lemma SelectorsAgree(lines: seq<LiveLine>, w: Windows, s: Selector, t: Selector)
    requires forall l :: l in lines ==> (Selects(s, l) <==> Selects(t, l))
    ensures FiguresOf(lines, w, s) == FiguresOf(lines, w, t)
  {
    SumByAgree(lines,
      l => if Selects(s, l) && InRange(l.date, w.start, w.end) then Value(l, Amount) else 0.0,
      l => if Selects(t, l) && InRange(l.date, w.start, w.end) then Value(l, Amount) else 0.0);
    SumByAgree(lines,
      l => if Selects(s, l) && InRange(l.date, w.l3Start, w.l3End) then Value(l, Amount) else 0.0,
      l => if Selects(t, l) && InRange(l.date, w.l3Start, w.l3End) then Value(l, Amount) else 0.0);
    SumByAgree(lines,
      l => if Selects(s, l) && InRange(l.date, w.l6Start, w.l6End) then Value(l, Amount) else 0.0,
      l => if Selects(t, l) && InRange(l.date, w.l6Start, w.l6End) then Value(l, Amount) else 0.0);
    SumByAgree(lines,
      l => if Selects(s, l) && InRange(l.date, w.start, w.end) then Value(l, Qty) else 0.0,
      l => if Selects(t, l) && InRange(l.date, w.start, w.end) then Value(l, Qty) else 0.0);
  }

  /** Selecting no value selects no line. */
  lemma FiguresOfNothing(lines: seq<LiveLine>, w: Windows, byGroup: bool)
    ensures FiguresOf(lines, w, Among(byGroup, [])) == NoFigures
  {
    SumByZero(lines, l => if Selects(Among(byGroup, []), l) && InRange(l.date, w.start, w.end) then Value(l, Amount) else 0.0);
    SumByZero(lines, l => if Selects(Among(byGroup, []), l) && InRange(l.date, w.l3Start, w.l3End) then Value(l, Amount) else 0.0);
    SumByZero(lines, l => if Selects(Among(byGroup, []), l) && InRange(l.date, w.l6Start, w.l6End) then Value(l, Amount) else 0.0);
    SumByZero(lines, l => if Selects(Among(byGroup, []), l) && InRange(l.date, w.start, w.end) then Value(l, Qty) else 0.0);
  }

  lemma WindowSumSplit(lines: seq<LiveLine>, byGroup: bool, v: string, vs: seq<string>, m: Measure, lo: Date, hi: Date)
    requires v !in vs
    ensures WindowSum(lines, Among(byGroup, [v] + vs), m, lo, hi)
         == WindowSum(lines, Is(byGroup, v), m, lo, hi) + WindowSum(lines, Among(byGroup, vs), m, lo, hi)
  {
    SumByAdd(lines,
      l => if Selects(Is(byGroup, v), l) && InRange(l.date, lo, hi) then Value(l, m) else 0.0,
      l => if Selects(Among(byGroup, vs), l) && InRange(l.date, lo, hi) then Value(l, m) else 0.0,
      l => if Selects(Among(byGroup, [v] + vs), l) && InRange(l.date, lo, hi) then Value(l, m) else 0.0);
  }

  /** The figures of each value in `vs`, added up. */
  function FiguresOver(lines: seq<LiveLine>, w: Windows, byGroup: bool, vs: seq<string>): Figures
    decreases |vs|
  {
    if |vs| == 0 then NoFigures
    else Plus(FiguresOf(lines, w, Is(byGroup, vs[0])), FiguresOver(lines, w, byGroup, vs[1..]))
  }

  predicate Distinct(vs: seq<string>) {
    forall i, j :: 0 <= i < j < |vs| ==> vs[i] != vs[j]
  }

  /** Splitting one value off the front of a list of values. */
  lemma FiguresSplit(lines: seq<LiveLine>, w: Windows, byGroup: bool, v: string, vs: seq<string>)
    requires v !in vs
    ensures FiguresOf(lines, w, Among(byGroup, [v] + vs))
         == Plus(FiguresOf(lines, w, Is(byGroup, v)), FiguresOf(lines, w, Among(byGroup, vs)))
  {
    WindowSumSplit(lines, byGroup, v, vs, Amount, w.start, w.end);
    WindowSumSplit(lines, byGroup, v, vs, Amount, w.l3Start, w.l3End);
    WindowSumSplit(lines, byGroup, v, vs, Amount, w.l6Start, w.l6End);
    WindowSumSplit(lines, byGroup, v, vs, Qty, w.start, w.end);
  }

  lemma DistinctTail(vs: seq<string>)
    requires |vs| > 0 && Distinct(vs)
    ensures vs[0] !in vs[1..] && Distinct(vs[1..])
  {
  }

  /** Rows grouped by distinct values add up to the row of all those values:
      no line is counted twice or lost. */
  lemma {:induction false} FiguresPartition(lines: seq<LiveLine>, w: Windows, byGroup: bool, vs: seq<string>)
    requires Distinct(vs)
    ensures FiguresOver(lines, w, byGroup, vs) == FiguresOf(lines, w, Among(byGroup, vs))
    decreases |vs|
  {
    if |vs| == 0 {
      FiguresOfNothing(lines, w, byGroup);
    } else {
      DistinctTail(vs);
      FiguresPartition(lines, w, byGroup, vs[1..]);
      FiguresSplit(lines, w, byGroup, vs[0], vs[1..]);
      assert vs == [vs[0]] + vs[1..];
    }
  }

  /** When the values cover every line, the rows add up to the figures of
      all lines. */
  lemma FiguresCover(lines: seq<LiveLine>, w: Windows, byGroup: bool, vs: seq<string>)
    requires Distinct(vs)
    requires forall l :: l in lines ==> ClassOf(l, byGroup) in vs
    ensures FiguresOver(lines, w, byGroup, vs) == FiguresOf(lines, w, All)
  {
    FiguresPartition(lines, w, byGroup, vs);
    SelectorsAgree(lines, w, Among(byGroup, vs), All);
  }

  // ---------------------------------------------------------------------
  // Window sums as sums of calendar months

  /** The selected lines' sum over one calendar month. */
  function MonthSum(lines: seq<LiveLine>, s: Selector, m: Measure, ym: YearMonth): real {
    WindowSum(lines, s, m, FirstDay(ym), LastDay(ym))
  }

  /** The month sums of `lo` and the `n` months after it. */
  function SpanMonths(lines: seq<LiveLine>, s: Selector, m: Measure, lo: YearMonth, n: nat): real
    decreases n
  {
    if n == 0 then MonthSum(lines, s, m, lo)
    else SpanMonths(lines, s, m, lo, n - 1) + MonthSum(lines, s, m, AddMonths(lo, n))
  }

  predicate DatesValid(lines: seq<LiveLine>) {
    forall l :: l in lines ==> ValidDate(l.date)
  }

  /** A window from the first day of one month to the last day of a later
      month sums exactly the month sums in between. */
  lemma {:induction false} SpanSum(lines: seq<LiveLine>, s: Selector, m: Measure, lo: YearMonth, n: nat)
    requires DatesValid(lines)
    ensures WindowSum(lines, s, m, FirstDay(lo), LastDay(AddMonths(lo, n))) == SpanMonths(lines, s, m, lo, n)
    decreases n
  {
    if n == 0 {
      FromMonthIndexOfIndex(lo);
    } else {
      SpanSum(lines, s, m, lo, n - 1);
      var prev := AddMonths(lo, n - 1);
      var last := AddMonths(lo, n);
      forall l | l in lines
        ensures InRange(l.date, FirstDay(lo), LastDay(last))
            <==> InRange(l.date, FirstDay(lo), LastDay(prev)) || InRange(l.date, FirstDay(last), LastDay(last))
        ensures !(InRange(l.date, FirstDay(lo), LastDay(prev)) && InRange(l.date, FirstDay(last), LastDay(last)))
      {
        MonthSpan(l.date, lo, last);
        MonthSpan(l.date, lo, prev);
        MonthSpan(l.date, last, last);
      }
      SumByAdd(lines,
        l => if Selects(s, l) && InRange(l.date, FirstDay(lo), LastDay(prev)) then Value(l, m) else 0.0,
        l => if Selects(s, l) && InRange(l.date, FirstDay(last), LastDay(last)) then Value(l, m) else 0.0,
        l => if Selects(s, l) && InRange(l.date, FirstDay(lo), LastDay(last)) then Value(l, m) else 0.0);
    }
  }

  /** Month sums going backwards: entry `k` is month `-k` from `ym`. */
  function MonthlyColumn(lines: seq<LiveLine>, s: Selector, ym: YearMonth, n: nat): (r: seq<real>)
    ensures |r| == n
    ensures forall k :: 0 <= k < n ==> r[k] == MonthSum(lines, s, Amount, AddMonths(ym, -k))
    decreases n
  {
    if n == 0 then []
    else MonthlyColumn(lines, s, ym, n - 1) + [MonthSum(lines, s, Amount, AddMonths(ym, -(n - 1)))]
  }

  /** The month sum `k` months back, through two steps of month arithmetic. */
  lemma MonthBack(lines: seq<LiveLine>, s: Selector, ym: YearMonth, j: int, k: int)
    ensures MonthSum(lines, s, Amount, AddMonths(AddMonths(ym, j), k))
         == MonthSum(lines, s, Amount, AddMonths(ym, j + k))
  {
    AddMonthsCompose(ym, j, k);
  }

  /** The CEO server's averages are the client's averages of the same
      monthly sums: `Last3M_Avg` is the L3MA of the month column (months
      -2..-4), and against the CEO page's history (entry `k` is month
      `-(k + 1)`) both averages are its `slice(1, 4)` and `slice(1, 7)`
      means. `Total` is the current month's sum. */
  lemma CeoFiguresAreMonthlyMeans(lines: seq<LiveLine>, today: Date, s: Selector)
    requires DatesValid(lines)
    ensures var f := FiguresOf(lines, CeoWindows(today), s);
      var cur := MonthOf(today);
      && f.total == MonthlyColumn(lines, s, cur, 5)[0]
      && f.last3Avg == TrailingL3(MonthlyColumn(lines, s, cur, 5))
      && f.last3Avg == CeoLast3(MonthlyColumn(lines, s, AddMonths(cur, -1), 7))
      && f.last6Avg == CeoLast6(MonthlyColumn(lines, s, AddMonths(cur, -1), 7))
  {
    var cur := MonthOf(today);
    var w := CeoWindows(today);
    FromMonthIndexOfIndex(cur);
    assert AddMonths(cur, -0) == cur;
    SpanSum(lines, s, Amount, AddMonths(cur, -4), 2);
    SpanSum(lines, s, Amount, AddMonths(cur, -7), 5);
    AddMonthsCompose(cur, -4, 2);
    AddMonthsCompose(cur, -7, 5);
    AddMonthsCompose(cur, -4, 1);
    AddMonthsCompose(cur, -7, 1);
    AddMonthsCompose(cur, -7, 2);
    AddMonthsCompose(cur, -7, 3);
    AddMonthsCompose(cur, -7, 4);
    AddMonthsCompose(cur, -1, -1);
    AddMonthsCompose(cur, -1, -2);
    AddMonthsCompose(cur, -1, -3);
    AddMonthsCompose(cur, -1, -4);
    AddMonthsCompose(cur, -1, -5);
    AddMonthsCompose(cur, -1, -6);
  }

  /** The main server's averages are means of months -1..-3 and -1..-6 of
      the same monthly column. */
  lemma MainFiguresAreMonthlyMeans(lines: seq<LiveLine>, today: Date, s: Selector)
    requires DatesValid(lines)
    ensures var f := FiguresOf(lines, MainWindows(today), s);
      var col := MonthlyColumn(lines, s, MonthOf(today), 7);
      && f.total == col[0]
      && f.last3Avg == (col[1] + col[2] + col[3]) / 3.0
      && f.last6Avg == (col[1] + col[2] + col[3] + col[4] + col[5] + col[6]) / 6.0
  {
    var cur := MonthOf(today);
    FromMonthIndexOfIndex(cur);
    assert AddMonths(cur, -0) == cur;
    SpanSum(lines, s, Amount, AddMonths(cur, -3), 2);
    SpanSum(lines, s, Amount, AddMonths(cur, -6), 5);
    AddMonthsCompose(cur, -3, 2);
    AddMonthsCompose(cur, -6, 5);
    AddMonthsCompose(cur, -3, 1);
    AddMonthsCompose(cur, -6, 1);
    AddMonthsCompose(cur, -6, 2);
    AddMonthsCompose(cur, -6, 3);
    AddMonthsCompose(cur, -6, 4);
  }
}
