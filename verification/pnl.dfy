/** The profit-and-loss page (pnl.js): five months of figures from the
    monthly endpoints, each branch's expenses and profit, the month totals,
    the trailing three-month averages, and the variance highlighting of the
    per-branch tables. */
module Pnl {
  import opened Basics
  import opened Calendar
  import opened Ledger
  import opened Summaries
  import opened Averages

  // ---------------------------------------------------------------------
  // Inputs

  /** The responses the page holds for one month, one per endpoint it
      calls. A branch key that is absent stands for a missing or falsy
      entry. */
  datatype MonthFetch = MonthFetch(
    income: map<int, real>,
    expense720: map<int, real>,
    expense730: map<int, real>,
    expense760: map<int, real>,
    expense770: map<int, real>,
    rawMaterials: map<Option<int>, RawMaterialFigures>,
    flexRawMaterial: map<int, real>,
    trayPurchases: map<int, real>,
    rollPurchases: map<int, real>,
    padPurchases: map<int, real>)

  /** The five month ranges the page requests: the selected month and the
      four before it, each from its first to its last day. */
  function PnlDateRanges(selected: YearMonth): (r: seq<DateRange>)
    ensures |r| == 5
    ensures forall k :: 0 <= k < 5 ==> r[k] == MonthDateRange(AddMonths(selected, -k))
    ensures forall k :: 0 <= k < 4 ==> DayBefore(r[k].start) == r[k + 1].end
  {
    forall k | 0 <= k < 4 ensures DayBefore(MonthRangesBack(selected, 5)[k].start) == MonthRangesBack(selected, 5)[k + 1].end {
      MonthRangesAdjacent(selected, 5, k);
    }
    MonthRangesBack(selected, 5)
  }

  // ---------------------------------------------------------------------
  // One branch in one month

  /** The fixed 780 expense the page books for every branch and month. */
  const Expense780: real := 350000.0

  /** `data[b] ? Math.abs(data[b]) : 0`. */
  function Magnitude(m: map<int, real>, b: int): (r: real)
    ensures r >= 0.0
    ensures b !in m ==> r == 0.0
  {
    if b in m then Abs(m[b]) else 0.0
  }

  /** The raw-material cost charged to a branch. It is read only when the
      raw-material response has an entry for the branch: IZMIR's cost of
      consumption with its 40% surcharge, URFA's with 20%, and for FLEX the
      magnitude of the separate FLEX figure instead of its own entry. */
  function RawMaterialCost(f: MonthFetch, b: int): real {
    if Some(b) in f.rawMaterials then
      var base := f.rawMaterials[Some(b)].costOfConsumed;
      if b == Izmir then base * IzmirMarkup
      else if b == Urfa then base * UrfaMarkup
      else if b == Flex then Magnitude(f.flexRawMaterial, Flex)
      else base
    else 0.0
  }

  /** The three cases of the raw-material cost, and its default. */
  lemma RawMaterialCostCases(f: MonthFetch, b: int)
    ensures Some(b) !in f.rawMaterials ==> RawMaterialCost(f, b) == 0.0
    ensures Some(Izmir) in f.rawMaterials ==>
      RawMaterialCost(f, Izmir) == 1.4 * f.rawMaterials[Some(Izmir)].costOfConsumed
    ensures Some(Urfa) in f.rawMaterials ==>
      RawMaterialCost(f, Urfa) == 1.2 * f.rawMaterials[Some(Urfa)].costOfConsumed
    ensures Some(Flex) in f.rawMaterials ==>
      RawMaterialCost(f, Flex) == Abs(Lookup(f.flexRawMaterial, Flex)) && RawMaterialCost(f, Flex) >= 0.0
  {
  }

  /** One row of a branch table: the turnover, the nine expense columns,
      their total and the profit. */
  datatype BranchMonth = BranchMonth(
    turnover: real,
    expense720: real, expense730: real, expense760: real, expense770: real, expense780: real,
    rawMaterialCost: real,
    trayPurchases: real, rollPurchases: real, padPurchases: real,
    totalExpenses: real,
    pnl: real)

  /** The nine expense columns in table order: 720, 730, 760, 770, 780,
      raw material, tray, roll and pad purchases. */
  function Components(d: BranchMonth): (r: seq<real>)
    ensures |r| == 9
  {
    [d.expense720, d.expense730, d.expense760, d.expense770, d.expense780,
     d.rawMaterialCost, d.trayPurchases, d.rollPurchases, d.padPurchases]
  }

  /** Index of the raw-material column in `Components`. */
  const RawMaterialColumn: int := 5

  lemma SumOfNine(xs: seq<real>)
    requires |xs| == 9
    ensures Sum(xs) == xs[0] + xs[1] + xs[2] + xs[3] + xs[4] + xs[5] + xs[6] + xs[7] + xs[8]
  {
    assert Sum(xs[8..]) == xs[8] + Sum(xs[9..]);
    assert Sum(xs[7..]) == xs[7] + Sum(xs[8..]);
    assert Sum(xs[6..]) == xs[6] + Sum(xs[7..]);
    assert Sum(xs[5..]) == xs[5] + Sum(xs[6..]);
    assert Sum(xs[4..]) == xs[4] + Sum(xs[5..]);
    assert Sum(xs[3..]) == xs[3] + Sum(xs[4..]);
    assert Sum(xs[2..]) == xs[2] + Sum(xs[3..]);
    assert Sum(xs[1..]) == xs[1] + Sum(xs[2..]);
  }

  /** A branch's figures for one month: the turnover is the income entry
      (0 when missing), every expense column but the raw-material one is a
      magnitude and so never negative, 780 is the fixed amount, the total is
      the sum of the nine columns and the profit is turnover less total. */
  function BranchFigures(f: MonthFetch, b: int): (d: BranchMonth)
    ensures d.turnover == Lookup(f.income, b)
    ensures d.totalExpenses == Sum(Components(d))
    ensures d.pnl + d.totalExpenses == d.turnover
    ensures d.expense780 == Expense780
    ensures d.rawMaterialCost == RawMaterialCost(f, b)
    ensures forall k :: 0 <= k < 9 && k != RawMaterialColumn ==> Components(d)[k] >= 0.0
    ensures d.totalExpenses - d.rawMaterialCost >= Expense780
  {
    var e720 := Magnitude(f.expense720, b);
    var e730 := Magnitude(f.expense730, b);
    var e760 := Magnitude(f.expense760, b);
    var e770 := Magnitude(f.expense770, b);
    var raw := RawMaterialCost(f, b);
    var tray := Magnitude(f.trayPurchases, b);
    var roll := Magnitude(f.rollPurchases, b);
    var pad := Magnitude(f.padPurchases, b);
    var total := e720 + e730 + e760 + e770 + Expense780 + raw + tray + roll + pad;
    var d := BranchMonth(Lookup(f.income, b), e720, e730, e760, e770, Expense780, raw,
                         tray, roll, pad, total, Lookup(f.income, b) - total);
    SumOfNine(Components(d));
    d
  }

  // ---------------------------------------------------------------------
  // What the server sends

  /** The month the main server's monthly endpoints answer for `range`. */
  function ServedMonth(journal: seq<JournalLine>, moves: seq<InventoryMove>, range: DateRange): MonthFetch {
    MonthFetch(
      IncomeSummary(journal, range),
      ExpenseSummary(journal, range, "720-"),
      ExpenseSummary(journal, range, "730-"),
      ExpenseSummary(journal, range, "760-"),
      ExpenseSummary(journal, range, "770-"),
      RawMaterialsCost(moves, range),
      OnlyBranch(Flex, FlexRawMaterial(journal, range)),
      OnlyBranch(Izmir, TrayPurchases(journal, range)),
      OnlyBranch(Izmir, RollPurchases(journal, range)),
      OnlyBranch(Izmir, PadPurchases(journal, range)))
  }

  /** Read through the server's answers, a branch's turnover is its net
      income and each expense column the magnitude of that category's
      ledger total. */
  lemma ServedIncomeAndExpenses(journal: seq<JournalLine>, moves: seq<InventoryMove>, range: DateRange, b: int)
    requires b in {1, 3, 4}
    ensures var d := BranchFigures(ServedMonth(journal, moves, range), b);
      && d.turnover == NetIncome(journal, range, b)
      && d.expense720 == Abs(ExpenseTotal(journal, range, "720-", b))
      && d.expense730 == Abs(ExpenseTotal(journal, range, "730-", b))
      && d.expense760 == Abs(ExpenseTotal(journal, range, "760-", b))
      && d.expense770 == Abs(ExpenseTotal(journal, range, "770-", b))
  {
    var f := ServedMonth(journal, moves, range);
    BranchFiguresFields(f, b);
    assert Lookup(f.income, b) == NetIncome(journal, range, b);
    assert Magnitude(f.expense720, b) == Abs(ExpenseTotal(journal, range, "720-", b));
    assert Magnitude(f.expense730, b) == Abs(ExpenseTotal(journal, range, "730-", b));
    assert Magnitude(f.expense760, b) == Abs(ExpenseTotal(journal, range, "760-", b));
    assert Magnitude(f.expense770, b) == Abs(ExpenseTotal(journal, range, "770-", b));
  }

  /** Read through the server's answers, the raw-material column is IZMIR's
      and URFA's cost of consumption with their surcharges, and FLEX's
      separate raw-material balance. */
  lemma ServedRawMaterial(journal: seq<JournalLine>, moves: seq<InventoryMove>, range: DateRange, b: int)
    requires b in {1, 3, 4}
    ensures BranchFigures(ServedMonth(journal, moves, range), b).rawMaterialCost
         == if b == Izmir then 1.4 * CostOfConsumed(moves, range, Some(Izmir))
            else if b == Urfa then 1.2 * CostOfConsumed(moves, range, Some(Urfa))
            else Abs(FlexRawMaterial(journal, range))
  {
    var f := ServedMonth(journal, moves, range);
    BranchFiguresFields(f, b);
    RawMaterialCostCases(f, b);
    assert Some(b) in f.rawMaterials;
    var cost := CostOfConsumed(moves, range, Some(b));
    assert f.rawMaterials[Some(b)].costOfConsumed == cost;
    if b == Izmir {
      assert BranchFigures(f, b).rawMaterialCost == 1.4 * CostOfConsumed(moves, range, Some(Izmir));
    } else if b == Urfa {
      assert BranchFigures(f, b).rawMaterialCost == 1.2 * CostOfConsumed(moves, range, Some(Urfa));
    } else {
      assert Lookup(f.flexRawMaterial, Flex) == FlexRawMaterial(journal, range);
      assert BranchFigures(f, b).rawMaterialCost == Abs(FlexRawMaterial(journal, range));
    }
  }

  /** Read through the server's answers, the three XPET purchase columns
      are IZMIR's only. */
  lemma ServedPurchases(journal: seq<JournalLine>, moves: seq<InventoryMove>, range: DateRange, b: int)
    requires b in {1, 3, 4}
    ensures var d := BranchFigures(ServedMonth(journal, moves, range), b);
      && d.trayPurchases == (if b == Izmir then Abs(TrayPurchases(journal, range)) else 0.0)
      && d.rollPurchases == (if b == Izmir then Abs(RollPurchases(journal, range)) else 0.0)
      && d.padPurchases == (if b == Izmir then Abs(PadPurchases(journal, range)) else 0.0)
  {
    var f := ServedMonth(journal, moves, range);
    BranchFiguresFields(f, b);
    assert Magnitude(f.trayPurchases, b) == if b == Izmir then Abs(TrayPurchases(journal, range)) else 0.0;
    assert Magnitude(f.rollPurchases, b) == if b == Izmir then Abs(RollPurchases(journal, range)) else 0.0;
    assert Magnitude(f.padPurchases, b) == if b == Izmir then Abs(PadPurchases(journal, range)) else 0.0;
  }

  /** The columns of a branch row, read off the month's responses. */
  lemma BranchFiguresFields(f: MonthFetch, b: int)
    ensures var d := BranchFigures(f, b);
      && d.turnover == Lookup(f.income, b)
      && d.expense720 == Magnitude(f.expense720, b)
      && d.expense730 == Magnitude(f.expense730, b)
      && d.expense760 == Magnitude(f.expense760, b)
      && d.expense770 == Magnitude(f.expense770, b)
      && d.rawMaterialCost == RawMaterialCost(f, b)
      && d.trayPurchases == Magnitude(f.trayPurchases, b)
      && d.rollPurchases == Magnitude(f.rollPurchases, b)
      && d.padPurchases == Magnitude(f.padPurchases, b)
  {
  }

  // ---------------------------------------------------------------------
  // The summary table

  /** One month of the summary table: the three branches' profits and
      their total. */
  datatype PnlRow = PnlRow(month: YearMonth, izmir: real, urfa: real, flex: real, total: real)

  /** `processAndDisplayPnlTable`: row `k` is month `-k`; it records each
      branch's figures and the month's profits, whose total is the sum of
      the three branches'. */
  method PnlTable(current: YearMonth, fetches: seq<MonthFetch>)
    returns (rows: seq<PnlRow>, izmir: seq<BranchMonth>, urfa: seq<BranchMonth>, flex: seq<BranchMonth>)
    ensures |rows| == |izmir| == |urfa| == |flex| == |fetches|
    ensures forall k :: 0 <= k < |fetches| ==>
      && izmir[k] == BranchFigures(fetches[k], Izmir)
      && urfa[k] == BranchFigures(fetches[k], Urfa)
      && flex[k] == BranchFigures(fetches[k], Flex)
    ensures forall k :: 0 <= k < |fetches| ==>
      && rows[k].month == AddMonths(current, -k)
      && rows[k].izmir == izmir[k].turnover - izmir[k].totalExpenses
      && rows[k].urfa == urfa[k].turnover - urfa[k].totalExpenses
      && rows[k].flex == flex[k].turnover - flex[k].totalExpenses
      && rows[k].total == rows[k].izmir + rows[k].urfa + rows[k].flex
  {
    izmir := BranchSeries(fetches, Izmir);
    urfa := BranchSeries(fetches, Urfa);
    flex := BranchSeries(fetches, Flex);
    rows := ProfitRows(current, Profits(izmir), Profits(urfa), Profits(flex));
  }

  /** The summary rows from the three branches' monthly profits: row `k` is
      month `-k` and its total is the sum of the branches' profits, added up
      in the order the page adds them. */
  method ProfitRows(current: YearMonth, izmir: seq<real>, urfa: seq<real>, flex: seq<real>)
    returns (rows: seq<PnlRow>)
    requires |izmir| == |urfa| == |flex|
    ensures |rows| == |izmir|
    ensures forall k :: 0 <= k < |rows| ==>
      && rows[k].month == AddMonths(current, -k)
      && rows[k].izmir == izmir[k] && rows[k].urfa == urfa[k] && rows[k].flex == flex[k]
      && rows[k].total == izmir[k] + urfa[k] + flex[k]
  {
    rows := [];
    var i := 0;
    while i < |izmir|
      invariant 0 <= i <= |izmir|
      invariant |rows| == i
      invariant forall k :: 0 <= k < i ==>
        && rows[k].month == AddMonths(current, -k)
        && rows[k].izmir == izmir[k] && rows[k].urfa == urfa[k] && rows[k].flex == flex[k]
        && rows[k].total == izmir[k] + urfa[k] + flex[k]
    {
      var monthTotal := 0.0;
      monthTotal := monthTotal + izmir[i];
      monthTotal := monthTotal + urfa[i];
      monthTotal := monthTotal + flex[i];
      rows := rows + [PnlRow(AddMonths(current, -i), izmir[i], urfa[i], flex[i], monthTotal)];
      i := i + 1;
    }
  }

  /** The profit column of a branch table. */
  function Profits(ds: seq<BranchMonth>): (r: seq<real>)
    ensures |r| == |ds|
    ensures forall k :: 0 <= k < |ds| ==> r[k] == ds[k].pnl
  {
    seq(|ds|, k requires 0 <= k < |ds| => ds[k].pnl)
  }

  /** Branch `b`'s row for each month fetched, in order. */
  function BranchSeries(fetches: seq<MonthFetch>, b: int): (r: seq<BranchMonth>)
    ensures |r| == |fetches|
    ensures forall k :: 0 <= k < |fetches| ==> r[k] == BranchFigures(fetches[k], b)
  {
    seq(|fetches|, k requires 0 <= k < |fetches| => BranchFigures(fetches[k], b))
  }

  /** A column of the summary table. */
  datatype Column = BranchColumn(branch: int) | TotalColumn

  function Cell(row: PnlRow, c: Column): real {
    match c
    case TotalColumn => row.total
    case BranchColumn(b) =>
      if b == Izmir then row.izmir else if b == Urfa then row.urfa else row.flex
  }

  function ColumnOf(rows: seq<PnlRow>, c: Column): (r: seq<real>)
    ensures |r| == |rows|
    ensures forall k :: 0 <= k < |rows| ==> r[k] == Cell(rows[k], c)
  {
    seq(|rows|, k requires 0 <= k < |rows| => Cell(rows[k], c))
  }

  /** The L3MA row under the summary table. */
  datatype L3maRow = L3maRow(izmir: real, urfa: real, flex: real, total: real)

  /** The L3MA row: with at least five months, each column's mean over rows
      2..4 (months -2..-4, skipping month -1); all zeros otherwise. When each
      row's total is its branches' sum, so is the L3MA total. */
  method PnlL3ma(rows: seq<PnlRow>) returns (l: L3maRow)
    ensures l.izmir == TrailingL3(ColumnOf(rows, BranchColumn(Izmir)))
    ensures l.urfa == TrailingL3(ColumnOf(rows, BranchColumn(Urfa)))
    ensures l.flex == TrailingL3(ColumnOf(rows, BranchColumn(Flex)))
    ensures l.total == TrailingL3(ColumnOf(rows, TotalColumn))
    ensures |rows| < 5 ==> l == L3maRow(0.0, 0.0, 0.0, 0.0)
    ensures (forall k :: 0 <= k < |rows| ==> rows[k].total == rows[k].izmir + rows[k].urfa + rows[k].flex)
            ==> l.total == l.izmir + l.urfa + l.flex
  {
    var s1, s3, s4, st := 0.0, 0.0, 0.0, 0.0;
    if |rows| >= 5 {
      var i := 2;
      while i < 5
        invariant 2 <= i <= 5
        invariant s1 == SumRows(rows, BranchColumn(Izmir), i)
        invariant s3 == SumRows(rows, BranchColumn(Urfa), i)
        invariant s4 == SumRows(rows, BranchColumn(Flex), i)
        invariant st == SumRows(rows, TotalColumn, i)
      {
        s1 := s1 + rows[i].izmir;
        s3 := s3 + rows[i].urfa;
        s4 := s4 + rows[i].flex;
        st := st + rows[i].total;
        i := i + 1;
      }
      s1, s3, s4, st := s1 / 3.0, s3 / 3.0, s4 / 3.0, st / 3.0;
    }
    l := L3maRow(s1, s3, s4, st);
    if forall k :: 0 <= k < |rows| ==> rows[k].total == rows[k].izmir + rows[k].urfa + rows[k].flex {
      TrailingL3Additive(ColumnOf(rows, BranchColumn(Izmir)), ColumnOf(rows, BranchColumn(Urfa)),
                         ColumnOf(rows, BranchColumn(Flex)), ColumnOf(rows, TotalColumn));
    }
  }

  /** The sum of column `c` over rows 2 up to (not including) `i`. */
  function SumRows(rows: seq<PnlRow>, c: Column, i: int): real
    requires 2 <= i <= |rows|
    decreases i
  {
    if i == 2 then 0.0 else SumRows(rows, c, i - 1) + Cell(rows[i - 1], c)
  }

  // ---------------------------------------------------------------------
  // Branch tables and highlighting

  /** The expense columns a branch table shows: the first six, and for
      IZMIR the three XPET purchase columns too. */
  function ShownColumns(b: int): nat {
    if b == Izmir then 9 else 6
  }

  /** The mean of column `k` over rows 2..4 of a branch table. */
  function ColumnAverage(details: seq<BranchMonth>, k: int): real
    requires |details| >= 5 && 0 <= k < 9
  {
    (Components(details[2])[k] + Components(details[3])[k] + Components(details[4])[k]) / 3.0
  }

  /** The per-column averages: defined only when the table has five rows or
      more, and then the mean of rows 2, 3 and 4. */
  function CategoryAverages(details: seq<BranchMonth>): (r: seq<Option<real>>)
    ensures |r| == 9
    ensures forall k :: 0 <= k < 9 ==> (r[k].Some? <==> |details| >= 5)
    ensures |details| >= 5 ==> forall k :: 0 <= k < 9 ==>
      r[k].value == Mean([Components(details[2])[k], Components(details[3])[k], Components(details[4])[k]])
  {
    if |details| >= 5 then
      forall k | 0 <= k < 9
        ensures ColumnAverage(details, k)
             == Mean([Components(details[2])[k], Components(details[3])[k], Components(details[4])[k]])
      {
        SumOfThree([Components(details[2])[k], Components(details[3])[k], Components(details[4])[k]]);
      }
      seq(9, k requires 0 <= k < 9 => Some(ColumnAverage(details, k)))
    else
      seq(9, k => None)
  }

  datatype Highlight = Plain | Red | Green

  /** The class of one expense cell in row `i` of an `n`-row table. */
  function HighlightOf(value: real, avg: Option<real>, i: nat, n: nat): Highlight {
    if n >= 4 && i > 0 && avg.Some? && avg.value > 0.0 then
      if value > avg.value * 1.15 then Red
      else if value < avg.value * 0.85 then Green
      else Plain
    else Plain
  }

  /** The highlighting of a whole branch table, row by shown column. */
  function BranchHighlights(details: seq<BranchMonth>, b: int): (r: seq<seq<Highlight>>)
    ensures |r| == |details|
    ensures forall i :: 0 <= i < |r| ==> |r[i]| == ShownColumns(b)
  {
    var avgs := CategoryAverages(details);
    seq(|details|, i requires 0 <= i < |details| =>
      seq(ShownColumns(b), k requires 0 <= k < ShownColumns(b) =>
        HighlightOf(Components(details[i])[k], avgs[k], i, |details|)))
  }

  /** The variance rule in full: a cell is red exactly when it is not in
      the current month's row, the table has five rows or more, the column's
      average over months -2..-4 is positive and the value exceeds it by more
      than 15%; green exactly when, under the same conditions, it falls more
      than 15% short. The boundaries themselves stay plain. */
  lemma HighlightRule(details: seq<BranchMonth>, b: int, i: int, k: int)
    requires 0 <= i < |details| && 0 <= k < ShownColumns(b)
    ensures var h := BranchHighlights(details, b)[i][k];
      var v := Components(details[i])[k];
      && (h == Red <==> i > 0 && |details| >= 5 && ColumnAverage(details, k) > 0.0
                        && v > 1.15 * ColumnAverage(details, k))
      && (h == Green <==> i > 0 && |details| >= 5 && ColumnAverage(details, k) > 0.0
                          && v < 0.85 * ColumnAverage(details, k))
  {
  }

  /** Tables of four rows or fewer are never highlighted (with exactly four
      the highlighting is enabled but no average exists), nor is the
      current month's row. */
  lemma NoHighlightWithoutAverage(details: seq<BranchMonth>, b: int)
    ensures var r := BranchHighlights(details, b);
      && (|details| > 0 ==> forall k :: 0 <= k < ShownColumns(b) ==> r[0][k] == Plain)
      && (|details| < 5 ==> forall i, k :: 0 <= i < |r| && 0 <= k < ShownColumns(b) ==> r[i][k] == Plain)
  {
  }

  /** The rule at work with an average of 100: 116 is red, 114 and the
      boundary 115 are plain, 84 is green, 86 and the boundary 85 plain. */
  lemma HighlightExamples()
    ensures HighlightOf(116.0, Some(100.0), 1, 5) == Red
    ensures HighlightOf(115.0, Some(100.0), 1, 5) == Plain
    ensures HighlightOf(114.0, Some(100.0), 1, 5) == Plain
    ensures HighlightOf(84.0, Some(100.0), 1, 5) == Green
    ensures HighlightOf(85.0, Some(100.0), 1, 5) == Plain
    ensures HighlightOf(86.0, Some(100.0), 1, 5) == Plain
    ensures HighlightOf(116.0, Some(100.0), 0, 5) == Plain
    ensures HighlightOf(116.0, None, 1, 4) == Plain
  {
  }
}
