/** The live endpoints of both servers: which ledger records become lines of
    which purchase type or account, the rows the endpoints return, and how
    their current-month figures relate to the monthly endpoints. */
module LiveEndpoints {
  import opened Basics
  import opened Calendar
  import opened Ledger
  import opened LiveWindows
  import opened LiveTally
  import opened LiveReport
  import opened Summaries

  /** The lines a query's `WHERE` keeps: one per record that has a line, in
      record order. */
  function LinesOf<T(!new)>(xs: seq<T>, line: T -> Option<LiveLine>): (r: seq<LiveLine>)
    ensures forall l :: l in r <==> exists x :: x in xs && line(x) == Some(l)
    decreases |xs|
  {
    if |xs| == 0 then []
    else
      var rest := LinesOf(xs[1..], line);
      assert forall x :: x in xs <==> x == xs[0] || x in xs[1..];
      match line(xs[0])
      case None => rest
      case Some(l) => [l] + rest
  }

  /** What one record adds to a window sum: the value of its line when it
      has one that the selector picks and the window holds. */
  function Contribution(ol: Option<LiveLine>, s: Selector, m: Measure, lo: Date, hi: Date): real {
    match ol
    case None => 0.0
    case Some(l) => if Selects(s, l) && InRange(l.date, lo, hi) then Value(l, m) else 0.0
  }

  /** A window sum over the kept lines is a sum over the source records. */
  lemma {:induction false} LinesOfWindowSum<T(!new)>(xs: seq<T>, line: T -> Option<LiveLine>, s: Selector, m: Measure, lo: Date, hi: Date, g: T -> real)
    requires forall x :: x in xs ==> g(x) == Contribution(line(x), s, m, lo, hi)
    ensures WindowSum(LinesOf(xs, line), s, m, lo, hi) == SumBy(xs, g)
    decreases |xs|
  {
    if |xs| > 0 {
      assert forall x :: x in xs[1..] ==> x in xs;
      LinesOfWindowSum(xs[1..], line, s, m, lo, hi, g);
      var rest := LinesOf(xs[1..], line);
      match line(xs[0])
      case None =>
      case Some(l) =>
        assert ([l] + rest)[1..] == rest;
    }
  }

  lemma WindowSumConcat(xs: seq<LiveLine>, ys: seq<LiveLine>, s: Selector, m: Measure, lo: Date, hi: Date)
    ensures WindowSum(xs + ys, s, m, lo, hi) == WindowSum(xs, s, m, lo, hi) + WindowSum(ys, s, m, lo, hi)
  {
    SumByConcat(xs, ys, l => if Selects(s, l) && InRange(l.date, lo, hi) then Value(l, m) else 0.0);
  }

  /** Lines of another purchase type add nothing to a type's sums. */
  lemma OtherTypeIgnored<T(!new)>(xs: seq<T>, line: T -> Option<LiveLine>, v: string, m: Measure, lo: Date, hi: Date)
    requires forall x :: x in xs ==> line(x).None? || line(x).value.key != v
    ensures WindowSum(LinesOf(xs, line), Is(false, v), m, lo, hi) == 0.0
  {
    LinesOfWindowSum(xs, line, Is(false, v), m, lo, hi, x => 0.0);
    SumByZero(xs, x => 0.0);
  }

  /** Lines with no quantity add nothing to a quantity sum. */
  lemma NoQuantity<T(!new)>(xs: seq<T>, line: T -> Option<LiveLine>, s: Selector, lo: Date, hi: Date)
    requires forall x :: x in xs ==> line(x).None? || line(x).value.qty == 0.0
    ensures WindowSum(LinesOf(xs, line), s, Qty, lo, hi) == 0.0
  {
    LinesOfWindowSum(xs, line, s, Qty, lo, hi, x => 0.0);
    SumByZero(xs, x => 0.0);
  }

  // ---------------------------------------------------------------------
  // Raw-material lines

  const TrayType: string := "XPET TRAY PURCHASES"
  const RollType: string := "XPET ROLL PURCHASES"
  const PadType: string := "XPET PAD PURCHASES"
  const IzmirRawType: string := "Raw Mat. (+40%)"
  const UrfaRawType: string := "Raw Mat. (+20%)"
  const FlexRawType: string := "Raw Material"

  /** A tray purchase in the fetched range: debit less credit, no quantity. */
  function TrayLine(w: Windows, j: JournalLine): Option<LiveLine> {
    if IsTrayPurchase(j) && Covered(w, j.refDate)
    then Some(LiveLine(TrayType, j.refDate, j.debit - j.credit, 0.0))
    else None
  }

  /** A roll purchase: credit less debit net of 20% VAT, no quantity. */
  function RollLine(w: Windows, j: JournalLine): Option<LiveLine> {
    if IsRollPurchase(j) && Covered(w, j.refDate)
    then Some(LiveLine(RollType, j.refDate, (j.credit - j.debit) / 1.2, 0.0))
    else None
  }

  /** A pad purchase: credit less debit net of 20% VAT, no quantity. */
  function PadLine(w: Windows, j: JournalLine): Option<LiveLine> {
    if IsPadPurchase(j) && Covered(w, j.refDate)
    then Some(LiveLine(PadType, j.refDate, (j.credit - j.debit) / 1.2, 0.0))
    else None
  }

  /** A raw-material issue from a warehouse of branch `b`: its local cost
      with the branch's surcharge, and its quantity (a NULL quantity is 0 in
      both sums). */
  function IssueLine(w: Windows, b: int, kind: string, markup: real, m: InventoryMove): Option<LiveLine> {
    if IsRawMaterialIssue(m) && m.warehouseBranch == Some(b) && Covered(w, m.docDate)
    then Some(LiveLine(kind, m.docDate, LineCost(m) * markup, m.outQty.GetOr(0.0)))
    else None
  }

  /** A FLEX raw-material posting: debit less credit. The query has no
      quantity column. */
  function FlexLine(w: Windows, j: JournalLine): Option<LiveLine> {
    if IsFlexRawMaterial(j) && Covered(w, j.refDate)
    then Some(LiveLine(FlexRawType, j.refDate, j.debit - j.credit, 0.0))
    else None
  }

  /** The IZMIR query's `UNION ALL` of tray, roll and pad purchases and the
      branch's raw-material issues. */
  function IzmirRawLines(journal: seq<JournalLine>, moves: seq<InventoryMove>, w: Windows): seq<LiveLine> {
    LinesOf(journal, j => TrayLine(w, j))
    + LinesOf(journal, j => RollLine(w, j))
    + LinesOf(journal, j => PadLine(w, j))
    + LinesOf(moves, m => IssueLine(w, Izmir, IzmirRawType, IzmirMarkup, m))
  }

  function UrfaRawLines(moves: seq<InventoryMove>, w: Windows): seq<LiveLine> {
    LinesOf(moves, m => IssueLine(w, Urfa, UrfaRawType, UrfaMarkup, m))
  }

  function FlexRawLines(journal: seq<JournalLine>, w: Windows): seq<LiveLine> {
    LinesOf(journal, j => FlexLine(w, j))
  }

  /** A raw-material row without the `ConsumedQty` column, as the FLEX
      queries and all of the main server's raw-material queries return it. */
  datatype AverageRow = AverageRow(purchaseType: string, total: real, last3Avg: real, last6Avg: real)

  function WithoutQty(rows: seq<PurchaseRow>): (r: seq<AverageRow>)
    ensures |r| == |rows|
    ensures forall i :: 0 <= i < |r| ==>
      r[i] == AverageRow(rows[i].purchaseType, rows[i].figures.total, rows[i].figures.last3Avg, rows[i].figures.last6Avg)
  {
    seq(|rows|, i requires 0 <= i < |rows| =>
      AverageRow(rows[i].purchaseType, rows[i].figures.total, rows[i].figures.last3Avg, rows[i].figures.last6Avg))
  }

  /** `/api/live-raw-materials` on the CEO server. */
  function CeoIzmirRawMaterials(today: Date, journal: seq<JournalLine>, moves: seq<InventoryMove>): seq<PurchaseRow> {
    PurchaseSummary(IzmirRawLines(journal, moves, CeoWindows(today)), CeoWindows(today))
  }

  /** `/api/live-raw-materials-urfa` on the CEO server. */
  function CeoUrfaRawMaterials(today: Date, moves: seq<InventoryMove>): seq<PurchaseRow> {
    PurchaseSummary(UrfaRawLines(moves, CeoWindows(today)), CeoWindows(today))
  }

  /** `/api/live-raw-materials-flex` on the CEO server. */
  function CeoFlexRawMaterials(today: Date, journal: seq<JournalLine>): seq<AverageRow> {
    WithoutQty(PurchaseSummary(FlexRawLines(journal, CeoWindows(today)), CeoWindows(today)))
  }

  /** `/api/live-raw-materials` on the main server. */
  function MainIzmirRawMaterials(today: Date, journal: seq<JournalLine>, moves: seq<InventoryMove>): seq<AverageRow> {
    WithoutQty(PurchaseSummary(IzmirRawLines(journal, moves, MainWindows(today)), MainWindows(today)))
  }

  /** `/api/live-raw-materials-urfa` on the main server. */
  function MainUrfaRawMaterials(today: Date, moves: seq<InventoryMove>): seq<AverageRow> {
    WithoutQty(PurchaseSummary(UrfaRawLines(moves, MainWindows(today)), MainWindows(today)))
  }

  /** `/api/live-raw-materials-flex` on the main server. */
  function MainFlexRawMaterials(today: Date, journal: seq<JournalLine>): seq<AverageRow> {
    WithoutQty(PurchaseSummary(FlexRawLines(journal, MainWindows(today)), MainWindows(today)))
  }

  /** Lines made by a function that always gives key `k` all have key `k`. */
  lemma LinesOfKey<T(!new)>(xs: seq<T>, line: T -> Option<LiveLine>, k: string)
    requires forall x :: x in xs && line(x).Some? ==> line(x).value.key == k
    ensures forall l :: l in LinesOf(xs, line) ==> l.key == k
  {
    forall l | l in LinesOf(xs, line) ensures l.key == k {
      var x :| x in xs && line(x) == Some(l);
    }
  }

  /** Each part of the IZMIR union has its own purchase type. */
  lemma IzmirLineKeys(journal: seq<JournalLine>, moves: seq<InventoryMove>, w: Windows)
    ensures forall l :: l in LinesOf(journal, j => TrayLine(w, j)) ==> l.key == TrayType
    ensures forall l :: l in LinesOf(journal, j => RollLine(w, j)) ==> l.key == RollType
    ensures forall l :: l in LinesOf(journal, j => PadLine(w, j)) ==> l.key == PadType
    ensures forall l :: l in LinesOf(moves, m => IssueLine(w, Izmir, IzmirRawType, IzmirMarkup, m)) ==>
      l.key == IzmirRawType
  {
    LinesOfKey(journal, j => TrayLine(w, j), TrayType);
    LinesOfKey(journal, j => RollLine(w, j), RollType);
    LinesOfKey(journal, j => PadLine(w, j), PadType);
    LinesOfKey(moves, m => IssueLine(w, Izmir, IzmirRawType, IzmirMarkup, m), IzmirRawType);
  }

  /** The IZMIR rows are of the four IZMIR purchase types only. */
  lemma IzmirRowTypes(journal: seq<JournalLine>, moves: seq<InventoryMove>, w: Windows)
    ensures forall row :: row in PurchaseSummary(IzmirRawLines(journal, moves, w), w) ==>
      row.purchaseType in {TrayType, RollType, PadType, IzmirRawType}
  {
    var lines := IzmirRawLines(journal, moves, w);
    var r := PurchaseSummary(lines, w);
    IzmirLineKeys(journal, moves, w);
    forall row | row in r ensures row.purchaseType in {TrayType, RollType, PadType, IzmirRawType} {
      var i :| 0 <= i < |r| && r[i] == row;
      assert row.purchaseType in Keys(lines);
      var l :| l in lines && l.key == row.purchaseType;
    }
  }

  // ---------------------------------------------------------------------
  // The current month against the monthly endpoints

  /** Bounds whose current month is the calendar month `ym` and lies inside
      the fetched range. */
  ghost predicate CurrentMonthBounds(w: Windows, ym: YearMonth) {
    && w.start == FirstDay(ym) && w.end == LastDay(ym)
    && forall d :: ValidDate(d) && InCurrent(w, d) ==> Covered(w, d)
  }

  /** Both servers' bounds have today's month as their current month. */
  lemma BothServersCurrentMonth(today: Date)
    ensures CurrentMonthBounds(CeoWindows(today), MonthOf(today))
    ensures CurrentMonthBounds(MainWindows(today), MonthOf(today))
  {
    forall d | ValidDate(d)
      ensures InCurrent(CeoWindows(today), d) ==> Covered(CeoWindows(today), d)
      ensures InCurrent(MainWindows(today), d) ==> Covered(MainWindows(today), d)
    {
      WindowsNest(today, d);
    }
  }

  /** The purchase lines carry no quantity. */
  lemma PurchaseLinesNoQuantity(journal: seq<JournalLine>, w: Windows, s: Selector, lo: Date, hi: Date)
    ensures WindowSum(LinesOf(journal, j => TrayLine(w, j)), s, Qty, lo, hi) == 0.0
    ensures WindowSum(LinesOf(journal, j => RollLine(w, j)), s, Qty, lo, hi) == 0.0
    ensures WindowSum(LinesOf(journal, j => PadLine(w, j)), s, Qty, lo, hi) == 0.0
  {
    NoQuantity(journal, j => TrayLine(w, j), s, lo, hi);
    NoQuantity(journal, j => RollLine(w, j), s, lo, hi);
    NoQuantity(journal, j => PadLine(w, j), s, lo, hi);
  }

  /** One move's contribution to the current-month sums of its branch's
      issue lines: what the monthly endpoint adds for it. */
  lemma IssueContribution(m: InventoryMove, w: Windows, ym: YearMonth, b: int, kind: string, markup: real)
    requires CurrentMonthBounds(w, ym)
    requires ValidDate(m.docDate)
    ensures var inMonth := IsIssueIn(m, MonthDateRange(ym)) && m.warehouseBranch == Some(b);
      && Contribution(IssueLine(w, b, kind, markup, m), Is(false, kind), Amount, w.start, w.end)
           == markup * (if inMonth then LineCost(m) else 0.0)
      && Contribution(IssueLine(w, b, kind, markup, m), Is(false, kind), Qty, w.start, w.end)
           == (if inMonth then m.outQty.GetOr(0.0) else 0.0)
      && Contribution(IssueLine(w, b, kind, markup, m), All, Qty, w.start, w.end)
           == (if inMonth then m.outQty.GetOr(0.0) else 0.0)
  {
    var range := MonthDateRange(ym);
    var inMonth := IsIssueIn(m, range) && m.warehouseBranch == Some(b);
    var line := IssueLine(w, b, kind, markup, m);
    assert InRange(m.docDate, w.start, w.end) <==> InRange(m.docDate, range.start, range.end);
    assert InCurrent(w, m.docDate) ==> Covered(w, m.docDate);
    if inMonth {
      var c := LineCost(m);
      assert IsRawMaterialIssue(m);
      assert InCurrent(w, m.docDate);
      assert Covered(w, m.docDate);
      assert line.Some?;
      assert line.value.amount == c * markup;
      assert c * markup == markup * c;
    } else {
      assert markup * 0.0 == 0.0;
    }
  }

  /** The cost the monthly endpoint counts for one move of branch `b`. */
  function IssueCost(range: DateRange, b: int, m: InventoryMove): real {
    if IsIssueIn(m, range) && m.warehouseBranch == Some(b) then LineCost(m) else 0.0
  }

  /** The surcharged cost of branch `b`'s issues, move by move. */
  function MarkedUpTotal(moves: seq<InventoryMove>, range: DateRange, b: int, markup: real): real {
    SumBy(moves, m => markup * IssueCost(range, b, m))
  }

  /** Summed over the moves, the surcharged cost is the surcharge times
      the monthly endpoint's cost. */
  lemma MarkedUpCost(moves: seq<InventoryMove>, range: DateRange, b: int, markup: real)
    ensures MarkedUpTotal(moves, range, b, markup) == markup * CostOfConsumed(moves, range, Some(b))
  {
    var cost := m => IssueCost(range, b, m);
    SumByScale(moves, cost, markup, m => markup * IssueCost(range, b, m));
    SumByAgree(moves, cost, m => if IsIssueIn(m, range) && m.warehouseBranch == Some(b) then LineCost(m) else 0.0);
  }

  lemma IssueAmounts(moves: seq<InventoryMove>, w: Windows, ym: YearMonth, b: int, kind: string, markup: real)
    requires CurrentMonthBounds(w, ym)
    requires forall m :: m in moves ==> ValidDate(m.docDate)
    ensures forall m :: m in moves ==>
      markup * IssueCost(MonthDateRange(ym), b, m)
        == Contribution(IssueLine(w, b, kind, markup, m), Is(false, kind), Amount, w.start, w.end)
  {
    forall m | m in moves
      ensures markup * IssueCost(MonthDateRange(ym), b, m)
        == Contribution(IssueLine(w, b, kind, markup, m), Is(false, kind), Amount, w.start, w.end)
    {
      IssueContribution(m, w, ym, b, kind, markup);
    }
  }

  /** The amounts of a branch's issue lines, restricted to the current
      month, add up to the surcharged costs the monthly endpoint counts. */
  lemma IssueAmountsSum(moves: seq<InventoryMove>, w: Windows, ym: YearMonth, b: int, kind: string, markup: real)
    requires CurrentMonthBounds(w, ym)
    requires forall m :: m in moves ==> ValidDate(m.docDate)
    ensures WindowSum(LinesOf(moves, m => IssueLine(w, b, kind, markup, m)), Is(false, kind), Amount, w.start, w.end)
         == MarkedUpTotal(moves, MonthDateRange(ym), b, markup)
  {
    IssueAmounts(moves, w, ym, b, kind, markup);
    LinesOfWindowSum(moves, m => IssueLine(w, b, kind, markup, m), Is(false, kind), Amount, w.start, w.end,
      m => markup * IssueCost(MonthDateRange(ym), b, m));
  }

  /** The amounts of a branch's issue lines, restricted to the current
      month, add up to the surcharge times the monthly endpoint's cost of
      that branch's consumption. */
  lemma IssuesAmountMatchesMonthly(moves: seq<InventoryMove>, w: Windows, ym: YearMonth, b: int, kind: string, markup: real)
    requires CurrentMonthBounds(w, ym)
    requires forall m :: m in moves ==> ValidDate(m.docDate)
    ensures WindowSum(LinesOf(moves, m => IssueLine(w, b, kind, markup, m)), Is(false, kind), Amount, w.start, w.end)
         == markup * CostOfConsumed(moves, MonthDateRange(ym), Some(b))
  {
    IssueAmountsSum(moves, w, ym, b, kind, markup);
    MarkedUpCost(moves, MonthDateRange(ym), b, markup);
  }

  /** The quantities of a branch's issue lines, restricted to the current
      month, add up to the monthly endpoint's consumption of that branch,
      whether or not the row type is selected. */
  lemma IssuesQtyMatchesMonthly(moves: seq<InventoryMove>, w: Windows, ym: YearMonth, b: int, kind: string, markup: real)
    requires CurrentMonthBounds(w, ym)
    requires forall m :: m in moves ==> ValidDate(m.docDate)
    ensures WindowSum(LinesOf(moves, m => IssueLine(w, b, kind, markup, m)), Is(false, kind), Qty, w.start, w.end)
         == Consumed(moves, MonthDateRange(ym), Some(b))
    ensures WindowSum(LinesOf(moves, m => IssueLine(w, b, kind, markup, m)), All, Qty, w.start, w.end)
         == Consumed(moves, MonthDateRange(ym), Some(b))
  {
    var qty := m => if IsIssueIn(m, MonthDateRange(ym)) && m.warehouseBranch == Some(b) then m.outQty.GetOr(0.0) else 0.0;
    forall m | m in moves
      ensures qty(m) == Contribution(IssueLine(w, b, kind, markup, m), Is(false, kind), Qty, w.start, w.end)
      ensures qty(m) == Contribution(IssueLine(w, b, kind, markup, m), All, Qty, w.start, w.end)
    {
      IssueContribution(m, w, ym, b, kind, markup);
    }
    LinesOfWindowSum(moves, m => IssueLine(w, b, kind, markup, m), Is(false, kind), Qty, w.start, w.end, qty);
    LinesOfWindowSum(moves, m => IssueLine(w, b, kind, markup, m), All, Qty, w.start, w.end, qty);
  }

  /** IZMIR's live raw-material row, this month: its total is 1.40 times the
      monthly endpoint's cost of IZMIR's consumption, and its quantity (and
      the quantity over all IZMIR rows) is that consumption. */
  lemma IzmirRawMatchesMonthly(journal: seq<JournalLine>, moves: seq<InventoryMove>, w: Windows, ym: YearMonth)
    requires CurrentMonthBounds(w, ym)
    requires forall m :: m in moves ==> ValidDate(m.docDate)
    ensures var lines := IzmirRawLines(journal, moves, w);
      && FiguresOf(lines, w, Is(false, IzmirRawType)).total
           == IzmirMarkup * CostOfConsumed(moves, MonthDateRange(ym), Some(Izmir))
      && FiguresOf(lines, w, Is(false, IzmirRawType)).consumedQty
           == Consumed(moves, MonthDateRange(ym), Some(Izmir))
      && FiguresOf(lines, w, All).consumedQty == Consumed(moves, MonthDateRange(ym), Some(Izmir))
  {
    IzmirRawOnlyIssues(journal, moves, w, Amount);
    IzmirRawOnlyIssues(journal, moves, w, Qty);
    IzmirQtyOnlyIssues(journal, moves, w);
    IssuesAmountMatchesMonthly(moves, w, ym, Izmir, IzmirRawType, IzmirMarkup);
    IssuesQtyMatchesMonthly(moves, w, ym, Izmir, IzmirRawType, IzmirMarkup);
  }

  /** Of the IZMIR union only the issue lines carry the raw-material type. */
  lemma IzmirRawOnlyIssues(journal: seq<JournalLine>, moves: seq<InventoryMove>, w: Windows, measure: Measure)
    ensures WindowSum(IzmirRawLines(journal, moves, w), Is(false, IzmirRawType), measure, w.start, w.end)
         == WindowSum(LinesOf(moves, m => IssueLine(w, Izmir, IzmirRawType, IzmirMarkup, m)), Is(false, IzmirRawType), measure, w.start, w.end)
  {
    var a := LinesOf(journal, j => TrayLine(w, j));
    var b := LinesOf(journal, j => RollLine(w, j));
    var c := LinesOf(journal, j => PadLine(w, j));
    var d := LinesOf(moves, m => IssueLine(w, Izmir, IzmirRawType, IzmirMarkup, m));
    var s := Is(false, IzmirRawType);
    WindowSumConcat(a, b, s, measure, w.start, w.end);
    WindowSumConcat(a + b, c, s, measure, w.start, w.end);
    WindowSumConcat(a + b + c, d, s, measure, w.start, w.end);
    OtherTypeIgnored(journal, j => TrayLine(w, j), IzmirRawType, measure, w.start, w.end);
    OtherTypeIgnored(journal, j => RollLine(w, j), IzmirRawType, measure, w.start, w.end);
    OtherTypeIgnored(journal, j => PadLine(w, j), IzmirRawType, measure, w.start, w.end);
  }

  /** Over all IZMIR rows, only the issue lines carry a quantity. */
  lemma IzmirQtyOnlyIssues(journal: seq<JournalLine>, moves: seq<InventoryMove>, w: Windows)
    ensures WindowSum(IzmirRawLines(journal, moves, w), All, Qty, w.start, w.end)
         == WindowSum(LinesOf(moves, m => IssueLine(w, Izmir, IzmirRawType, IzmirMarkup, m)), All, Qty, w.start, w.end)
  {
    var a := LinesOf(journal, j => TrayLine(w, j));
    var b := LinesOf(journal, j => RollLine(w, j));
    var c := LinesOf(journal, j => PadLine(w, j));
    var d := LinesOf(moves, m => IssueLine(w, Izmir, IzmirRawType, IzmirMarkup, m));
    WindowSumConcat(a, b, All, Qty, w.start, w.end);
    WindowSumConcat(a + b, c, All, Qty, w.start, w.end);
    WindowSumConcat(a + b + c, d, All, Qty, w.start, w.end);
    PurchaseLinesNoQuantity(journal, w, All, w.start, w.end);
  }

  /** URFA's live row, this month: 1.20 times the monthly cost of URFA's
      consumption, and that consumption as its quantity. */
  lemma UrfaRawMatchesMonthly(moves: seq<InventoryMove>, w: Windows, ym: YearMonth)
    requires CurrentMonthBounds(w, ym)
    requires forall m :: m in moves ==> ValidDate(m.docDate)
    ensures var lines := UrfaRawLines(moves, w);
      && FiguresOf(lines, w, Is(false, UrfaRawType)).total
           == UrfaMarkup * CostOfConsumed(moves, MonthDateRange(ym), Some(Urfa))
      && FiguresOf(lines, w, Is(false, UrfaRawType)).consumedQty
           == Consumed(moves, MonthDateRange(ym), Some(Urfa))
  {
    IssuesAmountMatchesMonthly(moves, w, ym, Urfa, UrfaRawType, UrfaMarkup);
    IssuesQtyMatchesMonthly(moves, w, ym, Urfa, UrfaRawType, UrfaMarkup);
  }

  /** The tray row's current total is the monthly tray endpoint's figure. */
  lemma TrayMatchesMonthly(journal: seq<JournalLine>, moves: seq<InventoryMove>, w: Windows, ym: YearMonth)
    requires CurrentMonthBounds(w, ym)
    requires forall j :: j in journal ==> ValidDate(j.refDate)
    ensures FiguresOf(IzmirRawLines(journal, moves, w), w, Is(false, TrayType)).total
         == TrayPurchases(journal, MonthDateRange(ym))
  {
    TrayOnly(journal, moves, w);
    TrayLinesMatchMonthly(journal, w, ym);
  }

  /** Of the IZMIR union only the tray lines carry the tray type. */
  lemma TrayOnly(journal: seq<JournalLine>, moves: seq<InventoryMove>, w: Windows)
    ensures WindowSum(IzmirRawLines(journal, moves, w), Is(false, TrayType), Amount, w.start, w.end)
         == WindowSum(LinesOf(journal, j => TrayLine(w, j)), Is(false, TrayType), Amount, w.start, w.end)
  {
    var a := LinesOf(journal, j => TrayLine(w, j));
    var b := LinesOf(journal, j => RollLine(w, j));
    var c := LinesOf(journal, j => PadLine(w, j));
    var d := LinesOf(moves, m => IssueLine(w, Izmir, IzmirRawType, IzmirMarkup, m));
    var s := Is(false, TrayType);
    WindowSumConcat(a, b, s, Amount, w.start, w.end);
    WindowSumConcat(a + b, c, s, Amount, w.start, w.end);
    WindowSumConcat(a + b + c, d, s, Amount, w.start, w.end);
    OtherTypeIgnored(journal, j => RollLine(w, j), TrayType, Amount, w.start, w.end);
    OtherTypeIgnored(journal, j => PadLine(w, j), TrayType, Amount, w.start, w.end);
    OtherTypeIgnored(moves, m => IssueLine(w, Izmir, IzmirRawType, IzmirMarkup, m), TrayType, Amount, w.start, w.end);
  }

  /** The tray lines, restricted to the current month, add up to the
      monthly endpoint's tray purchases. */
  lemma TrayLinesMatchMonthly(journal: seq<JournalLine>, w: Windows, ym: YearMonth)
    requires CurrentMonthBounds(w, ym)
    requires forall j :: j in journal ==> ValidDate(j.refDate)
    ensures WindowSum(LinesOf(journal, j => TrayLine(w, j)), Is(false, TrayType), Amount, w.start, w.end)
         == TrayPurchases(journal, MonthDateRange(ym))
  {
    var range := MonthDateRange(ym);
    var s := Is(false, TrayType);
    var g := j => if IsTrayPurchase(j) && InRange(j.refDate, MonthDateRange(ym).start, MonthDateRange(ym).end)
                  then j.debit - j.credit else 0.0;
    forall j | j in journal ensures g(j) == Contribution(TrayLine(w, j), s, Amount, w.start, w.end) {
      assert InRange(j.refDate, w.start, w.end) <==> InRange(j.refDate, range.start, range.end);
    }
    LinesOfWindowSum(journal, j => TrayLine(w, j), s, Amount, w.start, w.end, g);
  }

  /** The roll row's current total is the monthly roll endpoint's figure. */
  lemma RollMatchesMonthly(journal: seq<JournalLine>, moves: seq<InventoryMove>, w: Windows, ym: YearMonth)
    requires CurrentMonthBounds(w, ym)
    requires forall j :: j in journal ==> ValidDate(j.refDate)
    ensures FiguresOf(IzmirRawLines(journal, moves, w), w, Is(false, RollType)).total
         == RollPurchases(journal, MonthDateRange(ym))
  {
    RollOnly(journal, moves, w);
    RollLinesMatchMonthly(journal, w, ym);
  }

  /** Of the IZMIR union only the roll lines carry the roll type. */
  lemma RollOnly(journal: seq<JournalLine>, moves: seq<InventoryMove>, w: Windows)
    ensures WindowSum(IzmirRawLines(journal, moves, w), Is(false, RollType), Amount, w.start, w.end)
         == WindowSum(LinesOf(journal, j => RollLine(w, j)), Is(false, RollType), Amount, w.start, w.end)
  {
    var a := LinesOf(journal, j => TrayLine(w, j));
    var b := LinesOf(journal, j => RollLine(w, j));
    var c := LinesOf(journal, j => PadLine(w, j));
    var d := LinesOf(moves, m => IssueLine(w, Izmir, IzmirRawType, IzmirMarkup, m));
    var s := Is(false, RollType);
    WindowSumConcat(a, b, s, Amount, w.start, w.end);
    WindowSumConcat(a + b, c, s, Amount, w.start, w.end);
    WindowSumConcat(a + b + c, d, s, Amount, w.start, w.end);
    OtherTypeIgnored(journal, j => TrayLine(w, j), RollType, Amount, w.start, w.end);
    OtherTypeIgnored(journal, j => PadLine(w, j), RollType, Amount, w.start, w.end);
    OtherTypeIgnored(moves, m => IssueLine(w, Izmir, IzmirRawType, IzmirMarkup, m), RollType, Amount, w.start, w.end);
  }

  /** The roll lines, restricted to the current month, add up to the
      monthly endpoint's roll purchases. */
  lemma RollLinesMatchMonthly(journal: seq<JournalLine>, w: Windows, ym: YearMonth)
    requires CurrentMonthBounds(w, ym)
    requires forall j :: j in journal ==> ValidDate(j.refDate)
    ensures WindowSum(LinesOf(journal, j => RollLine(w, j)), Is(false, RollType), Amount, w.start, w.end)
         == RollPurchases(journal, MonthDateRange(ym))
  {
    var range := MonthDateRange(ym);
    var s := Is(false, RollType);
    var g := j => if IsRollPurchase(j) && InRange(j.refDate, MonthDateRange(ym).start, MonthDateRange(ym).end)
                  then (j.credit - j.debit) / 1.2 else 0.0;
    forall j | j in journal ensures g(j) == Contribution(RollLine(w, j), s, Amount, w.start, w.end) {
      assert InRange(j.refDate, w.start, w.end) <==> InRange(j.refDate, range.start, range.end);
    }
    LinesOfWindowSum(journal, j => RollLine(w, j), s, Amount, w.start, w.end, g);
    RollPurchasesPerLine(journal, MonthDateRange(ym));
  }

  /** The pad row's current total is the monthly pad endpoint's figure. */
  lemma PadMatchesMonthly(journal: seq<JournalLine>, moves: seq<InventoryMove>, w: Windows, ym: YearMonth)
    requires CurrentMonthBounds(w, ym)
    requires forall j :: j in journal ==> ValidDate(j.refDate)
    ensures FiguresOf(IzmirRawLines(journal, moves, w), w, Is(false, PadType)).total
         == PadPurchases(journal, MonthDateRange(ym))
  {
    PadOnly(journal, moves, w);
    PadLinesMatchMonthly(journal, w, ym);
  }

  /** Of the IZMIR union only the pad lines carry the pad type. */
  lemma PadOnly(journal: seq<JournalLine>, moves: seq<InventoryMove>, w: Windows)
    ensures WindowSum(IzmirRawLines(journal, moves, w), Is(false, PadType), Amount, w.start, w.end)
         == WindowSum(LinesOf(journal, j => PadLine(w, j)), Is(false, PadType), Amount, w.start, w.end)
  {
    var a := LinesOf(journal, j => TrayLine(w, j));
    var b := LinesOf(journal, j => RollLine(w, j));
    var c := LinesOf(journal, j => PadLine(w, j));
    var d := LinesOf(moves, m => IssueLine(w, Izmir, IzmirRawType, IzmirMarkup, m));
    var s := Is(false, PadType);
    WindowSumConcat(a, b, s, Amount, w.start, w.end);
    WindowSumConcat(a + b, c, s, Amount, w.start, w.end);
    WindowSumConcat(a + b + c, d, s, Amount, w.start, w.end);
    OtherTypeIgnored(journal, j => TrayLine(w, j), PadType, Amount, w.start, w.end);
    OtherTypeIgnored(journal, j => RollLine(w, j), PadType, Amount, w.start, w.end);
    OtherTypeIgnored(moves, m => IssueLine(w, Izmir, IzmirRawType, IzmirMarkup, m), PadType, Amount, w.start, w.end);
  }

  /** The pad lines, restricted to the current month, add up to the
      monthly endpoint's pad purchases. */
  lemma PadLinesMatchMonthly(journal: seq<JournalLine>, w: Windows, ym: YearMonth)
    requires CurrentMonthBounds(w, ym)
    requires forall j :: j in journal ==> ValidDate(j.refDate)
    ensures WindowSum(LinesOf(journal, j => PadLine(w, j)), Is(false, PadType), Amount, w.start, w.end)
         == PadPurchases(journal, MonthDateRange(ym))
  {
    var range := MonthDateRange(ym);
    var s := Is(false, PadType);
    var g := j => if IsPadPurchase(j) && InRange(j.refDate, MonthDateRange(ym).start, MonthDateRange(ym).end)
                  then (j.credit - j.debit) / 1.2 else 0.0;
    forall j | j in journal ensures g(j) == Contribution(PadLine(w, j), s, Amount, w.start, w.end) {
      assert InRange(j.refDate, w.start, w.end) <==> InRange(j.refDate, range.start, range.end);
    }
    LinesOfWindowSum(journal, j => PadLine(w, j), s, Amount, w.start, w.end, g);
    PadPurchasesPerLine(journal, MonthDateRange(ym));
  }

  /** FLEX's live row, this month, is the monthly FLEX raw-material figure. */
  lemma FlexMatchesMonthly(journal: seq<JournalLine>, w: Windows, ym: YearMonth)
    requires CurrentMonthBounds(w, ym)
    requires forall j :: j in journal ==> ValidDate(j.refDate)
    ensures FiguresOf(FlexRawLines(journal, w), w, Is(false, FlexRawType)).total
         == FlexRawMaterial(journal, MonthDateRange(ym))
  {
    var range := MonthDateRange(ym);
    var s := Is(false, FlexRawType);
    var g := j => if IsFlexRawMaterial(j) && InRange(j.refDate, MonthDateRange(ym).start, MonthDateRange(ym).end)
                  then j.debit - j.credit else 0.0;
    forall j | j in journal ensures g(j) == Contribution(FlexLine(w, j), s, Amount, w.start, w.end) {
      assert InRange(j.refDate, w.start, w.end) <==> InRange(j.refDate, range.start, range.end);
    }
    LinesOfWindowSum(journal, j => FlexLine(w, j), s, Amount, w.start, w.end, g);
  }

  // ---------------------------------------------------------------------
  // Live expenses

  /** The account classes of the live expense reports. */
  const LiveExpensePrefixes: seq<string> := ["720-", "730-", "760-", "770-"]

  /** The depreciation accounts the CEO server leaves out. */
  const AmortisationAccounts: seq<string> := ["730-01-0010", "770-01-0026"]

  /** A journal line of the report's base set: an expense account of the
      chart (the inner join with OACT), posted at branch `b`, and, when
      `excludeAmortisation` holds, not a depreciation account. Neither
      server applies the `'-3'` or `-8` exclusions here. */
  predicate IsLiveExpense(j: JournalLine, b: int, chart: map<string, string>, excludeAmortisation: bool) {
    && HasAnyPrefix(j.account, LiveExpensePrefixes)
    && j.account in chart
    && j.branch == b
    && !(excludeAmortisation && j.account in AmortisationAccounts)
  }

  function ExpenseLine(w: Windows, b: int, chart: map<string, string>, excludeAmortisation: bool, j: JournalLine): Option<LiveLine> {
    if IsLiveExpense(j, b, chart, excludeAmortisation) && Covered(w, j.refDate)
    then Some(LiveLine(j.account, j.refDate, j.debit - j.credit, 0.0))
    else None
  }

  function ExpenseLines(journal: seq<JournalLine>, w: Windows, b: int, chart: map<string, string>, excludeAmortisation: bool): seq<LiveLine> {
    LinesOf(journal, j => ExpenseLine(w, b, chart, excludeAmortisation, j))
  }

  /** `/api/live-expenses`, `-urfa` and `-flex` on the CEO server (branch 1,
      3 or 4): depreciation excluded. */
  function CeoLiveExpenses(today: Date, journal: seq<JournalLine>, chart: map<string, string>, b: int): seq<ReportLine> {
    Report(ExpenseLines(journal, CeoWindows(today), b, chart, true), CeoWindows(today), chart)
  }

  /** The same endpoints on the main server: depreciation included. */
  function MainLiveExpenses(today: Date, journal: seq<JournalLine>, chart: map<string, string>, b: int): seq<ReportLine> {
    Report(ExpenseLines(journal, MainWindows(today), b, chart, false), MainWindows(today), chart)
  }

  /** Some journal line of the base set in the fetched range is posted to
      account `a`. */
  predicate PostedExpense(journal: seq<JournalLine>, w: Windows, b: int, chart: map<string, string>, excludeAmortisation: bool, a: string) {
    exists j :: j in journal && IsLiveExpense(j, b, chart, excludeAmortisation) && Covered(w, j.refDate) && j.account == a
  }

  /** The keys of the expense lines are the accounts of the base set's
      journal lines in the fetched range. */
  lemma ExpenseKeys(journal: seq<JournalLine>, w: Windows, b: int, chart: map<string, string>, excludeAmortisation: bool, a: string)
    ensures a in Keys(ExpenseLines(journal, w, b, chart, excludeAmortisation)) <==>
      PostedExpense(journal, w, b, chart, excludeAmortisation, a)
  {
    var lines := ExpenseLines(journal, w, b, chart, excludeAmortisation);
    if a in Keys(lines) {
      var l :| l in lines && l.key == a;
      var j :| j in journal && ExpenseLine(w, b, chart, excludeAmortisation, j) == Some(l);
    }
    if exists j :: j in journal && IsLiveExpense(j, b, chart, excludeAmortisation) && Covered(w, j.refDate) && j.account == a {
      var j :| j in journal && IsLiveExpense(j, b, chart, excludeAmortisation) && Covered(w, j.refDate) && j.account == a;
      var l := ExpenseLine(w, b, chart, excludeAmortisation, j).value;
      assert l in lines;
    }
  }

  /** The accounts with a Detail line are exactly the accounts of the base
      set's journal lines in the fetched range. */
  lemma ExpenseReportAccounts(journal: seq<JournalLine>, w: Windows, b: int, chart: map<string, string>, excludeAmortisation: bool)
    ensures var r := Report(ExpenseLines(journal, w, b, chart, excludeAmortisation), w, chart);
      forall a :: HasDetail(r, a) <==> PostedExpense(journal, w, b, chart, excludeAmortisation, a)
  {
    var lines := ExpenseLines(journal, w, b, chart, excludeAmortisation);
    var r := Report(lines, w, chart);
    forall a ensures HasDetail(r, a) <==> PostedExpense(journal, w, b, chart, excludeAmortisation, a)
    {
      ReportAccount(lines, w, chart, a);
      ExpenseKeys(journal, w, b, chart, excludeAmortisation, a);
    }
  }

  /** Every Detail line names an expense account of the chart, with the
      chart's name for it. */
  lemma ExpenseDetailsNamed(journal: seq<JournalLine>, w: Windows, b: int, chart: map<string, string>, excludeAmortisation: bool)
    ensures var r := Report(ExpenseLines(journal, w, b, chart, excludeAmortisation), w, chart);
      forall i :: 0 <= i < |r| && r[i].lineType == Detail ==>
        && r[i].account.Some? && r[i].account.value in chart
        && HasAnyPrefix(r[i].account.value, LiveExpensePrefixes)
        && r[i].accountName == Some(chart[r[i].account.value])
  {
    var lines := ExpenseLines(journal, w, b, chart, excludeAmortisation);
    var r := Report(lines, w, chart);
    ReportDetails(lines, w, chart);
    forall i | 0 <= i < |r| && r[i].lineType == Detail
      ensures r[i].account.Some? && r[i].account.value in chart
      ensures HasAnyPrefix(r[i].account.value, LiveExpensePrefixes)
      ensures r[i].accountName == Some(chart[r[i].account.value])
    {
      var a := r[i].account.value;
      assert a in Keys(lines);
      ExpenseKeys(journal, w, b, chart, excludeAmortisation, a);
    }
  }

  /** The CEO server never reports a depreciation account. */
  lemma CeoExcludesAmortisation(today: Date, journal: seq<JournalLine>, chart: map<string, string>, b: int)
    ensures var r := CeoLiveExpenses(today, journal, chart, b);
      forall i :: 0 <= i < |r| && r[i].lineType == Detail ==>
        r[i].account.Some? && r[i].account.value !in AmortisationAccounts
  {
    var w := CeoWindows(today);
    var lines := ExpenseLines(journal, w, b, chart, true);
    var r := Report(lines, w, chart);
    ReportDetails(lines, w, chart);
    forall i | 0 <= i < |r| && r[i].lineType == Detail
      ensures r[i].account.Some? && r[i].account.value !in AmortisationAccounts
    {
      var a := r[i].account.value;
      assert a in Keys(lines);
      ExpenseKeys(journal, w, b, chart, true, a);
      var j :| j in journal && IsLiveExpense(j, b, chart, true) && Covered(w, j.refDate) && j.account == a;
    }
  }

  /** The main server does report one: a depreciation posting of this month
      gives its account a Detail line. */
  lemma MainKeepsAmortisation(today: Date, journal: seq<JournalLine>, chart: map<string, string>, j: JournalLine)
    requires j in journal && ValidDate(j.refDate) && MonthOf(j.refDate) == MonthOf(today)
    requires j.account == "730-01-0010" && j.account in chart && j.branch in {1, 3, 4}
    ensures var r := MainLiveExpenses(today, journal, chart, j.branch);
      exists i :: 0 <= i < |r| && r[i].lineType == Detail && r[i].account == Some("730-01-0010")
  {
    MainWindowMonths(today, j.refDate);
    assert StartsWith(j.account, LiveExpensePrefixes[1]);
    assert IsLiveExpense(j, j.branch, chart, false) && Covered(MainWindows(today), j.refDate);
    var lines := ExpenseLines(journal, MainWindows(today), j.branch, chart, false);
    ExpenseKeys(journal, MainWindows(today), j.branch, chart, false, j.account);
    assert j.account in Keys(lines);
    ReportDetails(lines, MainWindows(today), chart);
    var r := Report(lines, MainWindows(today), chart);
    assert r == MainLiveExpenses(today, journal, chart, j.branch);
    var i :| 0 <= i < |r| && r[i].lineType == Detail && r[i].account == Some(j.account);
  }
}
