/** The income and expense page (script.js): one table per category with the
    magnitudes of the branches' monthly figures, their totals and L3MA, and
    the raw-materials table whose cost columns can be re-priced by hand from
    a dollar price per kilogram and the month's average USD rate. */
module SummaryTables {
  import opened Basics
  import opened Calendar
  import opened IsoDates
  import opened Ledger
  import opened Summaries
  import opened Averages

  /** `getDateRanges`: the selected month and the nine before it. Only the
      first five are requested. */
  function TableDateRanges(selected: YearMonth): (r: seq<DateRange>)
    ensures |r| == 10
    ensures forall k :: 0 <= k < 10 ==> r[k] == MonthDateRange(AddMonths(selected, -k))
    ensures forall k :: 0 <= k < 9 ==> DayBefore(r[k].start) == r[k + 1].end
  {
    forall k | 0 <= k < 9
      ensures DayBefore(MonthRangesBack(selected, 10)[k].start) == MonthRangesBack(selected, 10)[k + 1].end
    {
      MonthRangesAdjacent(selected, 10, k);
    }
    MonthRangesBack(selected, 10)
  }

  // ---------------------------------------------------------------------
  // Category tables

  /** The table kind whose June-2025 row is booked negatively. */
  const Expense780Kind: string := "expense780"

  /** The kinds the page renders category tables with: the income table and
      the four expense tables. */
  const RenderedKinds: seq<string> := ["income", "expense", "expense", "expense", "expense"]

  const SpecialMonth: YearMonth := YearMonth(2025, 6)

  predicate IsSpecialCase(kind: string, ym: YearMonth) {
    kind == Expense780Kind && ym == SpecialMonth
  }

  /** A branch cell: the magnitude shown and whether it carries the `(*)`
      mark of the special case. */
  datatype Cell = Cell(value: real, special: bool)

  datatype CategoryRow = CategoryRow(
    month: YearMonth, izmir: Cell, urfa: Cell, flex: Cell, total: real, isSpecialMonth: bool)

  /** One month of a category table. Each cell is the magnitude of the
      branch's figure (0 when missing); the total adds the cells, except in
      the special case where it subtracts them. */
  function CategoryRowOf(kind: string, ym: YearMonth, data: map<int, real>): (r: CategoryRow)
    ensures r.month == ym
    ensures r.izmir.value == Abs(Lookup(data, Izmir))
    ensures r.urfa.value == Abs(Lookup(data, Urfa))
    ensures r.flex.value == Abs(Lookup(data, Flex))
    ensures r.izmir.special == r.urfa.special == r.flex.special == IsSpecialCase(kind, ym)
    ensures r.isSpecialMonth <==> ym == SpecialMonth
    ensures !IsSpecialCase(kind, ym) ==> r.total == r.izmir.value + r.urfa.value + r.flex.value
    ensures IsSpecialCase(kind, ym) ==> r.total == -(r.izmir.value + r.urfa.value + r.flex.value)
  {
    var special := IsSpecialCase(kind, ym);
    var a1 := Abs(Lookup(data, Izmir));
    var a3 := Abs(Lookup(data, Urfa));
    var a4 := Abs(Lookup(data, Flex));
    var t1 := if special then 0.0 - a1 else 0.0 + a1;
    var t3 := if special then t1 - a3 else t1 + a3;
    var t4 := if special then t3 - a4 else t3 + a4;
    CategoryRow(ym, Cell(a1, special), Cell(a3, special), Cell(a4, special), t4, ym == SpecialMonth)
  }

  /** The tables the page renders never take the special case: every cell
      is unmarked and every total is the sum of its cells, hence never
      negative. */
  lemma RenderedTablesUnflagged(kind: string, ym: YearMonth, data: map<int, real>)
    requires kind in RenderedKinds
    ensures var r := CategoryRowOf(kind, ym, data);
      && !r.izmir.special && !r.urfa.special && !r.flex.special
      && r.total == r.izmir.value + r.urfa.value + r.flex.value
      && r.total >= 0.0
  {
  }

  /** The special case does fire for a 780 table in June 2025: the row
      total is minus the sum of the magnitudes. */
  lemma SpecialCaseExample()
    ensures var r := CategoryRowOf(Expense780Kind, YearMonth(2025, 6), map[1 := -100.0, 3 := 50.0]);
      r.total == -150.0 && r.izmir.special && r.izmir.value == 100.0 && r.flex.value == 0.0
  {
  }

  /** `processAndDisplayTable`: row `k` is month `-k`. */
  method CategoryTable(kind: string, current: YearMonth, monthly: seq<map<int, real>>)
    returns (rows: seq<CategoryRow>)
    ensures |rows| == |monthly|
    ensures forall k :: 0 <= k < |rows| ==> rows[k] == CategoryRowOf(kind, AddMonths(current, -k), monthly[k])
  {
    rows := [];
    var i := 0;
    while i < |monthly|
      invariant 0 <= i <= |monthly|
      invariant |rows| == i
      invariant forall k :: 0 <= k < i ==> rows[k] == CategoryRowOf(kind, AddMonths(current, -k), monthly[k])
    {
      rows := rows + [CategoryRowOf(kind, AddMonths(current, -i), monthly[i])];
      i := i + 1;
    }
  }

  /** A column of a category table: a branch's cell values, or the totals. */
  function CategoryColumn(rows: seq<CategoryRow>, b: Option<int>): (r: seq<real>)
    ensures |r| == |rows|
  {
    seq(|rows|, k requires 0 <= k < |rows| =>
      match b
      case None => rows[k].total
      case Some(x) => if x == Izmir then rows[k].izmir.value
                      else if x == Urfa then rows[k].urfa.value else rows[k].flex.value)
  }

  datatype CategoryL3ma = CategoryL3ma(izmir: real, urfa: real, flex: real, total: real)

  /** The L3MA row of a category table: each column's mean over rows 2..4
      (zero below five rows). Whenever each row's total is the sum of its
      cells, as in every table the page renders, the footer total is the
      sum of the branch footers. */
  method CategoryTableL3ma(rows: seq<CategoryRow>) returns (l: CategoryL3ma)
    ensures l.izmir == TrailingL3(CategoryColumn(rows, Some(Izmir)))
    ensures l.urfa == TrailingL3(CategoryColumn(rows, Some(Urfa)))
    ensures l.flex == TrailingL3(CategoryColumn(rows, Some(Flex)))
    ensures l.total == TrailingL3(CategoryColumn(rows, None))
    ensures (forall k :: 0 <= k < |rows| ==> rows[k].total == rows[k].izmir.value + rows[k].urfa.value + rows[k].flex.value)
            ==> l.total == l.izmir + l.urfa + l.flex
  {
    var columns := [CategoryColumn(rows, Some(Izmir)), CategoryColumn(rows, Some(Urfa)),
                    CategoryColumn(rows, Some(Flex)), CategoryColumn(rows, None)];
    var avgs := ColumnsL3ma(columns, |rows|);
    l := CategoryL3ma(avgs[0], avgs[1], avgs[2], avgs[3]);
    if forall k :: 0 <= k < |rows| ==> rows[k].total == rows[k].izmir.value + rows[k].urfa.value + rows[k].flex.value {
      TrailingL3Additive(columns[0], columns[1], columns[2], columns[3]);
    }
  }

  // ---------------------------------------------------------------------
  // Raw-materials table

  datatype RawMaterialsRow = RawMaterialsRow(
    month: YearMonth,
    kgIzmir: real, sapCostIzmir: real,
    kgUrfa: real, sapCostUrfa: real,
    manualRmUsd: real, avgUsdRate: real,
    totalCost: real)

  /** A row's total is the sum of its two cost columns. */
  predicate TotalsConsistent(rows: seq<RawMaterialsRow>) {
    forall k :: 0 <= k < |rows| ==> rows[k].totalCost == rows[k].sapCostIzmir + rows[k].sapCostUrfa
  }

  /** One month as first shown: IZMIR's and URFA's consumption and cost
      (0 for a branch without an entry), no manual price, the month's rate
      looked up under its `YYYY-MM` key (0 when missing), and the two costs
      added up. */
  function RawMaterialsRowOf(ym: YearMonth, data: map<Option<int>, RawMaterialFigures>, rates: map<string, real>): (r: RawMaterialsRow)
    ensures r.month == ym && r.manualRmUsd == 0.0
    ensures r.kgIzmir == FiguresFor(data, Izmir).consumed && r.sapCostIzmir == FiguresFor(data, Izmir).costOfConsumed
    ensures r.kgUrfa == FiguresFor(data, Urfa).consumed && r.sapCostUrfa == FiguresFor(data, Urfa).costOfConsumed
    ensures r.avgUsdRate == Lookup(rates, ClientMonthKey(ym))
    ensures r.totalCost == r.sapCostIzmir + r.sapCostUrfa
  {
    var izmir := FiguresFor(data, Izmir);
    var urfa := FiguresFor(data, Urfa);
    RawMaterialsRow(ym, izmir.consumed, izmir.costOfConsumed, urfa.consumed, urfa.costOfConsumed,
                    0.0, Lookup(rates, ClientMonthKey(ym)), izmir.costOfConsumed + urfa.costOfConsumed)
  }

  /** Read through the server's answers, a row shows the inventory's own
      figures: each branch's consumption and its cost, and the mean of the
      month's recent USD rates. */
  lemma ServedRawMaterialsRow(moves: seq<InventoryMove>, range: DateRange, rateRecords: seq<RateRecord>, since: Date, ym: YearMonth)
    requires RateYearsFit(rateRecords)
    requires 1000 <= ym.year <= 9999
    ensures var r := RawMaterialsRowOf(ym, RawMaterialsCost(moves, range), AvgUsdRates(rateRecords, since));
      && r.kgIzmir == Consumed(moves, range, Some(Izmir))
      && r.sapCostIzmir == CostOfConsumed(moves, range, Some(Izmir))
      && r.kgUrfa == Consumed(moves, range, Some(Urfa))
      && r.sapCostUrfa == CostOfConsumed(moves, range, Some(Urfa))
      && r.avgUsdRate == Mean(RatesInMonth(rateRecords, since, ym))
  {
    RateLookup(rateRecords, since, ym);
  }

  /** `processAndDisplayRawMaterialsTable`: row `k` is month `-k`, and
      every row's total starts as the sum of its costs. */
  method RawMaterialsTable(current: YearMonth, monthly: seq<map<Option<int>, RawMaterialFigures>>, rates: map<string, real>)
    returns (rows: seq<RawMaterialsRow>)
    ensures |rows| == |monthly|
    ensures forall k :: 0 <= k < |rows| ==> rows[k] == RawMaterialsRowOf(AddMonths(current, -k), monthly[k], rates)
    ensures TotalsConsistent(rows)
  {
    rows := [];
    var i := 0;
    while i < |monthly|
      invariant 0 <= i <= |monthly|
      invariant |rows| == i
      invariant forall k :: 0 <= k < i ==> rows[k] == RawMaterialsRowOf(AddMonths(current, -k), monthly[k], rates)
      invariant TotalsConsistent(rows)
    {
      var row := RawMaterialsRowOf(AddMonths(current, -i), monthly[i], rates);
      rows := rows + [row];
      i := i + 1;
    }
  }

  /** `recalculateRawMaterialsRow` after a manual price is entered for row
      `r`: both costs are re-priced as kilograms times the dollar price
      times the month's rate, and the total is their sum. */
  function EditManualRm(rows: seq<RawMaterialsRow>, r: int, manual: real): (edited: seq<RawMaterialsRow>)
    requires 0 <= r < |rows|
    ensures |edited| == |rows|
    ensures forall k :: 0 <= k < |rows| && k != r ==> edited[k] == rows[k]
    ensures edited[r].month == rows[r].month && edited[r].avgUsdRate == rows[r].avgUsdRate
    ensures edited[r].kgIzmir == rows[r].kgIzmir && edited[r].kgUrfa == rows[r].kgUrfa
    ensures edited[r].manualRmUsd == manual
    ensures edited[r].sapCostIzmir == rows[r].kgIzmir * manual * rows[r].avgUsdRate
    ensures edited[r].sapCostUrfa == rows[r].kgUrfa * manual * rows[r].avgUsdRate
    ensures edited[r].totalCost == edited[r].sapCostIzmir + edited[r].sapCostUrfa
    ensures edited[r].totalCost == manual * rows[r].avgUsdRate * (rows[r].kgIzmir + rows[r].kgUrfa)
    ensures TotalsConsistent(rows) ==> TotalsConsistent(edited)
  {
    var row := rows[r];
    var izmir := row.kgIzmir * manual * row.avgUsdRate;
    var urfa := row.kgUrfa * manual * row.avgUsdRate;
    rows[r := row.(manualRmUsd := manual, sapCostIzmir := izmir, sapCostUrfa := urfa, totalCost := izmir + urfa)]
  }

  /** The last price entered for a row wins: re-pricing never reads the
      costs it replaces. */
  lemma LastEditWins(rows: seq<RawMaterialsRow>, r: int, first: real, second: real)
    requires 0 <= r < |rows|
    ensures EditManualRm(EditManualRm(rows, r, first), r, second) == EditManualRm(rows, r, second)
  {
    var twice := EditManualRm(EditManualRm(rows, r, first), r, second);
    var once := EditManualRm(rows, r, second);
    assert twice[r] == once[r];
    assert forall k :: 0 <= k < |rows| ==> twice[k] == once[k];
  }

  /** Edits of different rows do not interfere. */
  lemma EditsCommute(rows: seq<RawMaterialsRow>, r: int, a: real, s: int, b: real)
    requires 0 <= r < |rows| && 0 <= s < |rows| && r != s
    ensures EditManualRm(EditManualRm(rows, r, a), s, b) == EditManualRm(EditManualRm(rows, s, b), r, a)
  {
    var rs := EditManualRm(EditManualRm(rows, r, a), s, b);
    var sr := EditManualRm(EditManualRm(rows, s, b), r, a);
    assert rs[r] == sr[r] && rs[s] == sr[s];
    assert forall k :: 0 <= k < |rows| ==> rs[k] == sr[k];
  }

  /** A column of the raw-materials table. */
  datatype RawField = KgIzmir | SapCostIzmir | KgUrfa | SapCostUrfa | AvgUsdRate | TotalCost

  function FieldOf(row: RawMaterialsRow, f: RawField): real {
    match f
    case KgIzmir => row.kgIzmir
    case SapCostIzmir => row.sapCostIzmir
    case KgUrfa => row.kgUrfa
    case SapCostUrfa => row.sapCostUrfa
    case AvgUsdRate => row.avgUsdRate
    case TotalCost => row.totalCost
  }

  function RawColumn(rows: seq<RawMaterialsRow>, f: RawField): (r: seq<real>)
    ensures |r| == |rows|
    ensures forall k :: 0 <= k < |rows| ==> r[k] == FieldOf(rows[k], f)
  {
    seq(|rows|, k requires 0 <= k < |rows| => FieldOf(rows[k], f))
  }

  datatype RawMaterialsL3ma = RawMaterialsL3ma(
    kgIzmir: real, sapCostIzmir: real, kgUrfa: real, sapCostUrfa: real, avgUsdRate: real, totalCost: real)

  /** `updateRawMaterialsL3MA`, run when the table is built and after every
      edit: each column's mean over rows 2..4 (zero below five rows); while
      every total is the sum of its costs, so is the footer's. */
  method RawMaterialsTableL3ma(rows: seq<RawMaterialsRow>) returns (l: RawMaterialsL3ma)
    ensures l.kgIzmir == TrailingL3(RawColumn(rows, KgIzmir))
    ensures l.sapCostIzmir == TrailingL3(RawColumn(rows, SapCostIzmir))
    ensures l.kgUrfa == TrailingL3(RawColumn(rows, KgUrfa))
    ensures l.sapCostUrfa == TrailingL3(RawColumn(rows, SapCostUrfa))
    ensures l.avgUsdRate == TrailingL3(RawColumn(rows, AvgUsdRate))
    ensures l.totalCost == TrailingL3(RawColumn(rows, TotalCost))
    ensures TotalsConsistent(rows) ==> l.totalCost == l.sapCostIzmir + l.sapCostUrfa
  {
    var columns := [RawColumn(rows, KgIzmir), RawColumn(rows, SapCostIzmir), RawColumn(rows, KgUrfa),
                    RawColumn(rows, SapCostUrfa), RawColumn(rows, AvgUsdRate), RawColumn(rows, TotalCost)];
    var avgs := ColumnsL3ma(columns, |rows|);
    l := RawMaterialsL3ma(avgs[0], avgs[1], avgs[2], avgs[3], avgs[4], avgs[5]);
    if TotalsConsistent(rows) {
      var zeros := seq(|rows|, k => 0.0);
      TrailingL3Additive(columns[1], columns[3], zeros, columns[5]);
    }
  }

  /** Re-pricing a row outside the averaging window (the current month,
      month -1, or older than month -4) leaves every footer value as it
      was. */
  lemma EditOutsideWindowKeepsL3ma(rows: seq<RawMaterialsRow>, r: int, manual: real, f: RawField)
    requires 0 <= r < |rows| && (r < 2 || r > 4)
    ensures TrailingL3(RawColumn(EditManualRm(rows, r, manual), f)) == TrailingL3(RawColumn(rows, f))
  {
    var before := RawColumn(rows, f);
    var after := RawColumn(EditManualRm(rows, r, manual), f);
    if |rows| >= 5 {
      assert after[2] == before[2] && after[3] == before[3] && after[4] == before[4];
      TrailingL3Window(after, before);
    }
  }

  /** Re-pricing a row inside the window moves the footer total by a third
      of the change in that row's total. */
  lemma EditInsideWindowMovesL3ma(rows: seq<RawMaterialsRow>, r: int, manual: real)
    requires |rows| >= 5 && 2 <= r <= 4
    ensures var edited := EditManualRm(rows, r, manual);
      TrailingL3(RawColumn(edited, TotalCost))
        == TrailingL3(RawColumn(rows, TotalCost)) + (edited[r].totalCost - rows[r].totalCost) / 3.0
  {
  }
}
