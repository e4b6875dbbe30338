/** The CEO dashboard page: for each branch, the CEO server's live
    raw-material rows, a row estimating the month's expenses, and the
    turnover, total and profit rows the page works out itself. */
module CeoDashboard {
  import opened Basics
  import opened Calendar
  import opened IsoDates
  import opened Ledger
  import opened Summaries
  import opened Averages
  import opened LiveWindows
  import opened LiveTally
  import opened LiveReport
  import opened LiveEndpoints

  // ---------------------------------------------------------------------
  // Turnover

  /** The query the page sends for one month: `${year}-${MM}-01` and
      `${year}-${MM}-${lastDay}`, the last day printed without padding. */
  function MonthRequest(ym: YearMonth): Request {
    var prefix := YearText(ym.year) + "-" + Pad2(ym.month) + "-";
    Request(Some(prefix + "01"), Some(prefix + DecimalString(DaysInMonth(ym.year, ym.month))))
  }

  /** For a four-digit year the page's two dates are the ISO dates of the
      month's first and last day, so the income endpoint reads them back as
      exactly that month. */
  lemma MonthRequestIsMonthRange(ym: YearMonth)
    requires 1000 <= ym.year <= 9999
    ensures var range := MonthDateRange(ym);
      && MonthRequest(ym) == Request(Some(FormatDate(range.start)), Some(FormatDate(range.end)))
      && RequestRange(MonthRequest(ym)) == Ok(range)
  {
    DecimalStringOfTwoDigits(DaysInMonth(ym.year, ym.month));
    assert Pad2(1) == "01";
    MonthRequestRoundTrip(ym);
  }

  /** `data[branchId] || 0` from a successful reply; 0 when the reply is not
      OK or the request failed. */
  function TurnoverFrom(reply: Reply<map<int, real>>, b: int): real {
    if reply.Ok? then Lookup(reply.body, b) else 0.0
  }

  /** `fetchHistoricalTurnover(branchId, months)`: entry `k` is the turnover
      of month `-(k + 1)`, asked of `income` one month at a time. */
  method FetchHistoricalTurnover(current: YearMonth, b: int, months: nat, income: Request -> Reply<map<int, real>>)
    returns (turnovers: seq<real>)
    ensures |turnovers| == months
    ensures forall k :: 0 <= k < months ==>
      turnovers[k] == TurnoverFrom(income(MonthRequest(AddMonths(current, -(k + 1)))), b)
  {
    turnovers := [];
    var i := 0;
    while i < months
      invariant 0 <= i <= months
      invariant |turnovers| == i
      invariant forall k :: 0 <= k < i ==> turnovers[k] == TurnoverBack(income, current, b, k)
    {
      // the source counts i from 1 and asks for month -i
      var reply := income(MonthRequest(AddMonths(current, -(i + 1))));
      var t := if reply.Ok? then Lookup(reply.body, b) else 0.0;
      assert t == TurnoverBack(income, current, b, i);
      turnovers := turnovers + [t];
      i := i + 1;
    }
  }

  /** The turnover `income` reports for month `-(k + 1)`. */
  function TurnoverBack(income: Request -> Reply<map<int, real>>, current: YearMonth, b: int, k: int): real {
    TurnoverFrom(income(MonthRequest(AddMonths(current, -(k + 1)))), b)
  }

  /** A month at most a year back is in this year or the one before. */
  lemma RecentYear(current: YearMonth, k: int)
    requires 0 <= k <= 12
    ensures current.year - 1 <= AddMonths(current, -k).year <= current.year
  {
  }

  /** Branch `b`'s net income in month `-k`. */
  function NetIncomeMonthsBack(journal: seq<JournalLine>, current: YearMonth, k: int, b: int): real {
    NetIncome(journal, MonthDateRange(AddMonths(current, -k)), b)
  }

  /** Asked of the income endpoint, the month requests for the current month
      and for every month of the history come back with that month's net
      income. */
  lemma {:induction false} TurnoverFromLedger(journal: seq<JournalLine>, current: YearMonth, k: int, b: int)
    requires b in BranchOrder
    requires 0 <= k <= 12
    requires 1001 <= current.year <= 9999
    ensures TurnoverFrom(IncomeEndpoint(MonthRequest(AddMonths(current, -k)), journal), b)
      == NetIncomeMonthsBack(journal, current, k, b)
  {
    var ym := AddMonths(current, -k);
    RecentYear(current, k);
    MonthRequestIsMonthRange(ym);
    assert IncomeEndpoint(MonthRequest(ym), journal) == Ok(IncomeSummary(journal, MonthDateRange(ym)));
  }

  /** The current month's request comes back with the month's net income. */
  lemma CurrentTurnoverFromLedger(journal: seq<JournalLine>, current: YearMonth, b: int)
    requires b in BranchOrder
    requires 1001 <= current.year <= 9999
    ensures TurnoverFrom(IncomeEndpoint(MonthRequest(current), journal), b)
      == NetIncomeMonthsBack(journal, current, 0, b)
  {
    TurnoverFromLedger(journal, current, 0, b);
    FromMonthIndexOfIndex(current);
    assert AddMonths(current, -0) == current;
  }

  /** With the income endpoint answering, the page's "Last 3M Avg." and
      "Last 6M Avg." turnover are the means of the branch's net income over
      months -2..-4 and -2..-7: month -1 is fetched and then skipped. */
  lemma {:induction false} TurnoverAveragesFromLedger(journal: seq<JournalLine>, current: YearMonth, b: int, history: seq<real>)
    requires b in BranchOrder
    requires 1001 <= current.year <= 9999
    requires |history| == 7
    requires forall k :: 0 <= k < 7 ==>
      history[k] == TurnoverFrom(IncomeEndpoint(MonthRequest(AddMonths(current, -(k + 1))), journal), b)
    ensures CeoLast3(history) ==
      (NetIncomeMonthsBack(journal, current, 2, b) + NetIncomeMonthsBack(journal, current, 3, b)
       + NetIncomeMonthsBack(journal, current, 4, b)) / 3.0
    ensures CeoLast6(history) ==
      (NetIncomeMonthsBack(journal, current, 2, b) + NetIncomeMonthsBack(journal, current, 3, b)
       + NetIncomeMonthsBack(journal, current, 4, b) + NetIncomeMonthsBack(journal, current, 5, b)
       + NetIncomeMonthsBack(journal, current, 6, b) + NetIncomeMonthsBack(journal, current, 7, b)) / 6.0
  {
    forall k | 1 <= k < 7
      ensures history[k] == NetIncomeMonthsBack(journal, current, k + 1, b)
    {
      TurnoverFromLedger(journal, current, k + 1, b);
    }
  }

  // ---------------------------------------------------------------------
  // The expense estimate

  /** `expensesData.find(item => item.LineType === 'Grand Total')`. */
  function FindGrandTotal(report: seq<ReportLine>): (r: Option<ReportLine>)
    ensures r.Some? <==> exists i :: 0 <= i < |report| && report[i].lineType == GrandTotal
    ensures r.Some? ==>
      exists i :: 0 <= i < |report| && report[i] == r.value && r.value.lineType == GrandTotal
        && forall j :: 0 <= j < i ==> report[j].lineType != GrandTotal
    decreases |report|
  {
    if |report| == 0 then None
    else if report[0].lineType == GrandTotal then Some(report[0])
    else
      var r := FindGrandTotal(report[1..]);
      assert forall i :: 1 <= i < |report| ==> report[i] == report[1..][i - 1];
      if r.Some? then
        var i :| 0 <= i < |report[1..]| && report[1..][i] == r.value
          && r.value.lineType == GrandTotal
          && forall j :: 0 <= j < i ==> report[1..][j].lineType != GrandTotal;
        assert report[i + 1] == r.value;
        r
      else
        r
  }

  /** The grand total's current month, 3-month and 6-month figures, each 0
      when the report has no Grand Total line. */
  datatype ExpenseEstimate = ExpenseEstimate(current: real, last3Avg: real, last6Avg: real)

  /** `(grandTotal && grandTotal.X) ? grandTotal.X : 0` for each figure; a
      figure of 0 reads as 0 either way. */
  function ExpenseEstimateOf(report: seq<ReportLine>): ExpenseEstimate {
    match FindGrandTotal(report)
    case None => ExpenseEstimate(0.0, 0.0, 0.0)
    case Some(l) => ExpenseEstimate(l.figures.total, l.figures.last3Avg, l.figures.last6Avg)
  }

  /** Read from the CEO server's live-expenses report, the estimate is the
      figures of all of the branch's expense lines: this month's total and
      the means over months -2..-4 and -2..-7. */
  lemma ExpenseEstimateFromServer(today: Date, journal: seq<JournalLine>, chart: map<string, string>, b: int)
    ensures var f := FiguresOf(ExpenseLines(journal, CeoWindows(today), b, chart, true), CeoWindows(today), All);
      ExpenseEstimateOf(CeoLiveExpenses(today, journal, chart, b)) == ExpenseEstimate(f.total, f.last3Avg, f.last6Avg)
  {
    var lines := ExpenseLines(journal, CeoWindows(today), b, chart, true);
    var r := Report(lines, CeoWindows(today), chart);
    ReportGrandTotal(lines, CeoWindows(today), chart);
    var g := FindGrandTotal(r);
    var i :| 0 <= i < |r| && r[i] == g.value && g.value.lineType == GrandTotal
      && forall j :: 0 <= j < i ==> r[j].lineType != GrandTotal;
    assert i == |r| - 1;
  }

  // ---------------------------------------------------------------------
  // The branch table

  /** An element of a raw-materials reply as the page reads it. The FLEX
      rows have no `ConsumedQty` field. */
  datatype Item = Item(purchaseType: string, total: real, last3Avg: real, last6Avg: real, consumedQty: Option<real>)

  /** The IZMIR and URFA replies of the CEO server. */
  function ItemsOfPurchaseRows(rows: seq<PurchaseRow>): (items: seq<Item>)
    ensures |items| == |rows|
    ensures forall i :: 0 <= i < |rows| ==>
      items[i] == Item(rows[i].purchaseType, rows[i].figures.total, rows[i].figures.last3Avg,
                       rows[i].figures.last6Avg, Some(rows[i].figures.consumedQty))
  {
    seq(|rows|, i requires 0 <= i < |rows| =>
      Item(rows[i].purchaseType, rows[i].figures.total, rows[i].figures.last3Avg, rows[i].figures.last6Avg,
           Some(rows[i].figures.consumedQty)))
  }

  /** The FLEX reply. */
  function ItemsOfAverageRows(rows: seq<AverageRow>): (items: seq<Item>)
    ensures |items| == |rows|
    ensures forall i :: 0 <= i < |rows| ==>
      items[i] == Item(rows[i].purchaseType, rows[i].total, rows[i].last3Avg, rows[i].last6Avg, None)
  {
    seq(|rows|, i requires 0 <= i < |rows| =>
      Item(rows[i].purchaseType, rows[i].total, rows[i].last3Avg, rows[i].last6Avg, None))
  }

  datatype RowLabel =
    | ItemLabel(purchaseType: string, kg: Option<real>)
    | ExpensesEstimateLabel
    | TurnoverLabel
    | TotalLabel
    | ProfitLabel

  /** A table row: its heading and the "Current Month Total", "Last 3M Avg."
      and "Last 6M Avg." cells. */
  datatype TableRow = TableRow(heading: RowLabel, current: real, last3Avg: real, last6Avg: real)

  /** A raw-material row of IZMIR or URFA shows its consumed weight, unless
      the weight is missing or 0. */
  predicate ShowsKg(item: Item) {
    && (item.purchaseType == IzmirRawType || item.purchaseType == UrfaRawType)
    && item.consumedQty.Some? && item.consumedQty.value != 0.0
  }

  function ItemRow(item: Item): TableRow {
    TableRow(ItemLabel(item.purchaseType, if ShowsKg(item) then item.consumedQty else None),
             item.total, item.last3Avg, item.last6Avg)
  }

  function ItemRows(items: seq<Item>): (rows: seq<TableRow>)
    ensures |rows| == |items|
    ensures forall i :: 0 <= i < |items| ==> rows[i] == ItemRow(items[i])
  {
    seq(|items|, i requires 0 <= i < |items| => ItemRow(items[i]))
  }

  /** The first row whose text is 'XPET TRAY PURCHASES'. A weight is only
      ever appended to raw-material rows, so this is the first tray item. */
  function FirstTray(items: seq<Item>): (r: Option<nat>)
    ensures r.Some? <==> exists i :: 0 <= i < |items| && items[i].purchaseType == TrayType
    ensures r.Some? ==>
      && r.value < |items| && items[r.value].purchaseType == TrayType
      && forall j :: 0 <= j < r.value ==> items[j].purchaseType != TrayType
    decreases |items|
  {
    if |items| == 0 then None
    else if items[0].purchaseType == TrayType then Some(0)
    else
      assert forall i :: 1 <= i < |items| ==> items[i] == items[1..][i - 1];
      match FirstTray(items[1..])
      case None => None
      case Some(i) => Some(i + 1)
  }

  /** Where the expense row goes among the item rows: right after the first
      tray row on IZMIR, after the last row on the other branches, and
      nowhere when that anchor row does not exist. */
  function ExpenseSlot(branch: int, items: seq<Item>): (p: Option<nat>)
    ensures p.Some? ==> p.value <= |items|
  {
    if branch == Izmir then
      match FirstTray(items)
      case None => None
      case Some(i) => Some(i + 1)
    else if |items| > 0 then Some(|items|)
    else None
  }

  /** "Expenses (6M Avg. Estimate)": the 6-month mean stands in for the
      current month. */
  function ExpenseRow(e: ExpenseEstimate): TableRow {
    TableRow(ExpensesEstimateLabel, e.last6Avg, e.last3Avg, e.last6Avg)
  }

  /** The figures a branch table is built from besides the raw-material
      reply. */
  datatype PageFigures = PageFigures(expenses: ExpenseEstimate, liveTurnover: real, turnoverLast3: real, turnoverLast6: real)

  datatype Column = CurrentColumn | Last3Column | Last6Column

  function CellOf(row: TableRow, c: Column): real {
    match c
    case CurrentColumn => row.current
    case Last3Column => row.last3Avg
    case Last6Column => row.last6Avg
  }

  function ColumnTotal(rows: seq<TableRow>, c: Column): real {
    SumBy(rows, r => CellOf(r, c))
  }

  /** The rows above Turnover: the item rows with the expense row in its
      slot. */
  function BodyRows(branch: int, items: seq<Item>, e: ExpenseEstimate): seq<TableRow> {
    match ExpenseSlot(branch, items)
    case None => ItemRows(items)
    case Some(p) => ItemRows(items)[..p] + [ExpenseRow(e)] + ItemRows(items)[p..]
  }

  /** What `populateRawMaterialsTable` leaves in the table: the rows above
      Turnover, then Turnover, then Total, whose cells add up every row above
      Turnover, then Profit, turnover less that total. */
  predicate IsBranchTable(rows: seq<TableRow>, branch: int, items: seq<Item>, fig: PageFigures) {
    && |rows| >= 3
    && var n := |rows|;
    && var body := rows[..n - 3];
    && body == BodyRows(branch, items, fig.expenses)
    && rows[n - 3] == TableRow(TurnoverLabel, fig.liveTurnover, fig.turnoverLast3, fig.turnoverLast6)
    && rows[n - 2] == TableRow(TotalLabel, ColumnTotal(body, CurrentColumn),
                               ColumnTotal(body, Last3Column), ColumnTotal(body, Last6Column))
    && rows[n - 1] == TableRow(ProfitLabel, fig.liveTurnover - rows[n - 2].current,
                               fig.turnoverLast3 - rows[n - 2].last3Avg, fig.turnoverLast6 - rows[n - 2].last6Avg)
  }

  lemma ColumnTotalAppend(rows: seq<TableRow>, row: TableRow)
    ensures forall c :: ColumnTotal(rows + [row], c) == ColumnTotal(rows, c) + CellOf(row, c)
  {
    forall c ensures ColumnTotal(rows + [row], c) == ColumnTotal(rows, c) + CellOf(row, c) {
      SumByConcat(rows, [row], r => CellOf(r, c));
    }
  }

  /** Inserting a row anywhere adds its cells to the column totals. */
  lemma ColumnTotalInsert(rows: seq<TableRow>, p: nat, row: TableRow)
    requires p <= |rows|
    ensures forall c :: ColumnTotal(rows[..p] + [row] + rows[p..], c) == ColumnTotal(rows, c) + CellOf(row, c)
  {
    forall c ensures ColumnTotal(rows[..p] + [row] + rows[p..], c) == ColumnTotal(rows, c) + CellOf(row, c) {
      var f := r => CellOf(r, c);
      SumByConcat(rows[..p] + [row], rows[p..], f);
      SumByConcat(rows[..p], [row], f);
      SumByConcat(rows[..p], rows[p..], f);
      assert rows[..p] + rows[p..] == rows;
    }
  }

  /** `populateRawMaterialsTable`: one row per item, keeping running column
      totals; then the expense row in its slot, added to the totals; then
      Turnover, Total and Profit. */
  method PopulateTable(branch: int, items: seq<Item>, fig: PageFigures) returns (rows: seq<TableRow>)
    ensures IsBranchTable(rows, branch, items, fig)
  {
    var current, last3, last6 := 0.0, 0.0, 0.0;
    var body: seq<TableRow> := [];
    var i := 0;
    while i < |items|
      invariant 0 <= i <= |items|
      invariant body == ItemRows(items)[..i]
      invariant current == ColumnTotal(body, CurrentColumn)
      invariant last3 == ColumnTotal(body, Last3Column)
      invariant last6 == ColumnTotal(body, Last6Column)
    {
      var row := ItemRow(items[i]);
      ColumnTotalAppend(body, row);
      assert ItemRows(items)[..i + 1] == body + [row];
      body := body + [row];
      current := current + items[i].total;
      last3 := last3 + items[i].last3Avg;
      last6 := last6 + items[i].last6Avg;
      i := i + 1;
    }
    assert body == ItemRows(items);
    var slot := ExpenseSlot(branch, items);
    if slot.Some? {
      var e := ExpenseRow(fig.expenses);
      ColumnTotalInsert(body, slot.value, e);
      body := body[..slot.value] + [e] + body[slot.value..];
      current := current + fig.expenses.last6Avg;
      last3 := last3 + fig.expenses.last3Avg;
      last6 := last6 + fig.expenses.last6Avg;
    }
    var turnover := TableRow(TurnoverLabel, fig.liveTurnover, fig.turnoverLast3, fig.turnoverLast6);
    var total := TableRow(TotalLabel, current, last3, last6);
    var profit := TableRow(ProfitLabel, fig.liveTurnover - current, fig.turnoverLast3 - last3, fig.turnoverLast6 - last6);
    rows := body + [turnover, total, profit];
    assert rows[..|rows| - 3] == body;
  }

  /** Sum of one figure over the items. */
  function ItemsTotal(items: seq<Item>, c: Column): real {
    SumBy(items, it => CellOf(ItemRow(it), c))
  }

  lemma {:induction false} ItemRowsTotal(items: seq<Item>, c: Column)
    ensures ColumnTotal(ItemRows(items), c) == ItemsTotal(items, c)
    decreases |items|
  {
    if |items| > 0 {
      ItemRowsTotal(items[1..], c);
      assert ItemRows(items)[1..] == ItemRows(items[1..]);
    }
  }

  /** Among the rows above Turnover the expense row appears exactly when it
      has a slot, and then in that slot, below the item rows before it. */
  lemma BodyPlacement(branch: int, items: seq<Item>, e: ExpenseEstimate)
    ensures var body := BodyRows(branch, items, e);
      (exists i :: 0 <= i < |body| && body[i].heading == ExpensesEstimateLabel) <==> ExpenseSlot(branch, items).Some?
    ensures var body := BodyRows(branch, items, e);
      var slot := ExpenseSlot(branch, items);
      slot.Some? ==>
        && slot.value < |body| && body[slot.value] == ExpenseRow(e)
        && forall i :: 0 <= i < slot.value ==> body[i] == ItemRow(items[i])
  {
    var body := BodyRows(branch, items, e);
    var item := ItemRows(items);
    match ExpenseSlot(branch, items)
    case None =>
      assert body == item;
    case Some(p) =>
      assert body[p] == ExpenseRow(e);
      assert forall i :: 0 <= i < p ==> body[i] == item[i];
  }

  /** The expense row has a slot on IZMIR when some item is a tray purchase,
      right below the first one; on the other branches when there is any
      item. */
  lemma SlotAnchor(branch: int, items: seq<Item>)
    ensures ExpenseSlot(branch, items).Some? <==>
      if branch == Izmir then exists i :: 0 <= i < |items| && items[i].purchaseType == TrayType
      else |items| > 0
    ensures branch == Izmir && FirstTray(items).Some? ==>
      ExpenseSlot(branch, items) == Some(FirstTray(items).value + 1)
    ensures branch != Izmir && |items| > 0 ==> ExpenseSlot(branch, items) == Some(|items|)
  {
  }

  /** A table ends with its Turnover, Total and Profit rows, and no other
      row of those three comes before them. */
  lemma RowsAboveTurnover(rows: seq<TableRow>, body: seq<TableRow>)
    requires |rows| >= 3 && rows[..|rows| - 3] == body
    requires rows[|rows| - 3].heading == TurnoverLabel && rows[|rows| - 2].heading == TotalLabel
    requires rows[|rows| - 1].heading == ProfitLabel
    ensures (exists i :: 0 <= i < |rows| && rows[i].heading == ExpensesEstimateLabel) <==>
      (exists i :: 0 <= i < |body| && body[i].heading == ExpensesEstimateLabel)
    ensures forall i :: 0 <= i < |body| ==> rows[i] == body[i]
  {
    var n := |rows|;
    if exists i :: 0 <= i < n && rows[i].heading == ExpensesEstimateLabel {
      var i :| 0 <= i < n && rows[i].heading == ExpensesEstimateLabel;
      assert i < n - 3;
      assert body[i] == rows[i];
    }
  }

  /** On IZMIR the expense row sits right below the first tray row. */
  lemma ExpenseBelowTray(rows: seq<TableRow>, body: seq<TableRow>, items: seq<Item>, e: ExpenseEstimate)
    requires body == BodyRows(Izmir, items, e) && FirstTray(items).Some?
    requires |body| <= |rows| && forall i :: 0 <= i < |body| ==> rows[i] == body[i]
    ensures var t := FirstTray(items).value;
      rows[t].heading.ItemLabel? && rows[t].heading.purchaseType == TrayType
      && rows[t + 1] == ExpenseRow(e)
  {
    var t := FirstTray(items).value;
    BodyPlacement(Izmir, items, e);
    assert ExpenseSlot(Izmir, items) == Some(t + 1);
    assert rows[t] == body[t] == ItemRow(items[t]);
    assert rows[t + 1] == body[t + 1];
  }

  /** On the other branches the expense row is the last row of the body. */
  lemma ExpenseAboveTurnover(rows: seq<TableRow>, body: seq<TableRow>, branch: int, items: seq<Item>, e: ExpenseEstimate)
    requires branch != Izmir && |items| > 0 && body == BodyRows(branch, items, e)
    requires |rows| == |body| + 3 && forall i :: 0 <= i < |body| ==> rows[i] == body[i]
    ensures rows[|rows| - 4] == ExpenseRow(e)
  {
    BodyPlacement(branch, items, e);
    assert ExpenseSlot(branch, items) == Some(|items|);
    assert |body| == |items| + 1;
    assert rows[|rows| - 4] == body[|items|];
  }

  /** The expense row is in the table exactly when its anchor exists: on
      IZMIR when some item is a tray purchase, and then right below the
      first tray row; on the other branches when there is any item, and then
      as the last row above Turnover. */
  lemma ExpenseRowPlacement(rows: seq<TableRow>, branch: int, items: seq<Item>, fig: PageFigures)
    requires IsBranchTable(rows, branch, items, fig)
    ensures (exists i :: 0 <= i < |rows| && rows[i].heading == ExpensesEstimateLabel) <==>
      if branch == Izmir then exists i :: 0 <= i < |items| && items[i].purchaseType == TrayType
      else |items| > 0
    ensures branch == Izmir && FirstTray(items).Some? ==>
      var t := FirstTray(items).value;
      rows[t].heading.ItemLabel? && rows[t].heading.purchaseType == TrayType
      && rows[t + 1] == ExpenseRow(fig.expenses)
    ensures branch != Izmir && |items| > 0 ==>
      rows[|rows| - 4] == ExpenseRow(fig.expenses)
  {
    var body := BodyRows(branch, items, fig.expenses);
    RowsAboveTurnover(rows, body);
    BodyPlacement(branch, items, fig.expenses);
    SlotAnchor(branch, items);
    if branch == Izmir && FirstTray(items).Some? {
      ExpenseBelowTray(rows, body, items, fig.expenses);
    } else if branch != Izmir && |items| > 0 {
      ExpenseAboveTurnover(rows, body, branch, items, fig.expenses);
    }
  }

  /** The Total row adds up the items and, when it is shown, the expense
      estimate (its 6-month mean in the current-month column); Profit is
      turnover less that. */
  lemma TableTotals(rows: seq<TableRow>, branch: int, items: seq<Item>, fig: PageFigures)
    requires IsBranchTable(rows, branch, items, fig)
    ensures var n := |rows|;
      var shown := ExpenseSlot(branch, items).Some?;
      && rows[n - 2].current == ItemsTotal(items, CurrentColumn) + (if shown then fig.expenses.last6Avg else 0.0)
      && rows[n - 2].last3Avg == ItemsTotal(items, Last3Column) + (if shown then fig.expenses.last3Avg else 0.0)
      && rows[n - 2].last6Avg == ItemsTotal(items, Last6Column) + (if shown then fig.expenses.last6Avg else 0.0)
      && rows[n - 1].current == fig.liveTurnover - rows[n - 2].current
      && rows[n - 1].last3Avg == fig.turnoverLast3 - rows[n - 2].last3Avg
      && rows[n - 1].last6Avg == fig.turnoverLast6 - rows[n - 2].last6Avg
  {
    ItemRowsTotal(items, CurrentColumn);
    ItemRowsTotal(items, Last3Column);
    ItemRowsTotal(items, Last6Column);
    match ExpenseSlot(branch, items)
    case None =>
    case Some(p) =>
      ColumnTotalInsert(ItemRows(items), p, ExpenseRow(fig.expenses));
  }

  // ---------------------------------------------------------------------
  // One branch

  /** The branch panel: the table, or the error message that replaces it. */
  datatype Panel = Failed | Shown(rows: seq<TableRow>)

  /** `fetchBranchData`: the expenses reply, this month's turnover, the
      seven-month history and the raw-material reply, in that order; a reply
      that is not OK for expenses, this month's turnover or raw materials
      puts the error message in place of the table, while a failed history
      month counts as 0. The history is returned alongside the panel. */
  method FetchBranchData(branch: int, current: YearMonth, expensesReply: Reply<seq<ReportLine>>,
                         income: Request -> Reply<map<int, real>>, rawReply: Reply<seq<Item>>)
    returns (panel: Panel, history: seq<real>)
    ensures panel.Shown? <==> expensesReply.Ok? && income(MonthRequest(current)).Ok? && rawReply.Ok?
    ensures panel.Shown? ==>
      && |history| == 7
      && (forall k :: 0 <= k < 7 ==>
            history[k] == TurnoverFrom(income(MonthRequest(AddMonths(current, -(k + 1)))), branch))
      && IsBranchTable(panel.rows, branch, rawReply.body,
           PageFigures(ExpenseEstimateOf(expensesReply.body), Lookup(income(MonthRequest(current)).body, branch),
                       CeoLast3(history), CeoLast6(history)))
  {
    history := [];
    if !expensesReply.Ok? {
      return Failed, history;
    }
    var expenses := ExpenseEstimateOf(expensesReply.body);
    var turnoverReply := income(MonthRequest(current));
    if !turnoverReply.Ok? {
      return Failed, history;
    }
    var liveTurnover := Lookup(turnoverReply.body, branch);
    history := FetchHistoricalTurnover(current, branch, 7, income);
    var fig := PageFigures(expenses, liveTurnover, CeoLast3(history), CeoLast6(history));
    if !rawReply.Ok? {
      return Failed, history;
    }
    var rows := PopulateTable(branch, rawReply.body, fig);
    panel := Shown(rows);
  }

  // ---------------------------------------------------------------------
  // The IZMIR panel against the ledger

  /** The IZMIR lines hold a tray purchase exactly when the journal has a
      tray purchase in the fetched range: no other line has the tray type. */
  lemma TrayKey(journal: seq<JournalLine>, moves: seq<InventoryMove>, w: Windows)
    ensures TrayType in Keys(IzmirRawLines(journal, moves, w)) <==>
      exists j :: j in journal && TrayLine(w, j).Some?
  {
    var lines := IzmirRawLines(journal, moves, w);
    if TrayType in Keys(lines) {
      var l :| l in lines && l.key == TrayType;
      IzmirLineKeys(journal, moves, w);
      assert l in LinesOf(journal, j => TrayLine(w, j));
      var j :| j in journal && TrayLine(w, j) == Some(l);
    }
    if exists j :: j in journal && TrayLine(w, j).Some? {
      var j :| j in journal && TrayLine(w, j).Some?;
      var l := TrayLine(w, j).value;
      assert l in LinesOf(journal, j => TrayLine(w, j));
      assert l in lines;
    }
  }

  /** On IZMIR the expense row is shown exactly when the CEO server's fetched
      range holds a tray purchase. */
  lemma IzmirExpenseRowShown(today: Date, journal: seq<JournalLine>, moves: seq<InventoryMove>)
    ensures var items := ItemsOfPurchaseRows(CeoIzmirRawMaterials(today, journal, moves));
      ExpenseSlot(Izmir, items).Some? <==>
        exists j :: j in journal && TrayLine(CeoWindows(today), j).Some?
  {
    var w := CeoWindows(today);
    var lines := IzmirRawLines(journal, moves, w);
    var rows := PurchaseSummary(lines, w);
    assert (exists i :: 0 <= i < |rows| && rows[i].purchaseType == TrayType) <==> TrayType in Keys(lines);
    TraySlot(rows);
    TrayKey(journal, moves, w);
  }

  /** On IZMIR the expense row has a place exactly when a row is of the tray
      type. */
  lemma TraySlot(rows: seq<PurchaseRow>)
    ensures ExpenseSlot(Izmir, ItemsOfPurchaseRows(rows)).Some? <==>
      exists i :: 0 <= i < |rows| && rows[i].purchaseType == TrayType
  {
    var items := ItemsOfPurchaseRows(rows);
    assert (exists i :: 0 <= i < |items| && items[i].purchaseType == TrayType) <==>
      (exists i :: 0 <= i < |rows| && rows[i].purchaseType == TrayType);
  }

  /** The item rows of a CEO-server reply add up to the reply's figures. */
  lemma {:induction false} PurchaseItemsTotal(rows: seq<PurchaseRow>)
    ensures var items := ItemsOfPurchaseRows(rows);
      var t := RowsTotal(rows);
      && ItemsTotal(items, CurrentColumn) == t.total
      && ItemsTotal(items, Last3Column) == t.last3Avg
      && ItemsTotal(items, Last6Column) == t.last6Avg
    decreases |rows|
  {
    if |rows| > 0 {
      PurchaseItemsTotal(rows[1..]);
      assert ItemsOfPurchaseRows(rows)[1..] == ItemsOfPurchaseRows(rows[1..]);
    }
  }

  /** What the IZMIR panel is built from, against the ledger: the item rows
      add up to the figures of all IZMIR raw-material lines, the expense row
      has a place exactly when a tray purchase is in range, the estimate is
      the figures of IZMIR's expense lines, and the turnover cells are the
      month's net income and the mean over months -2..-4. */
  lemma IzmirPageFromLedger(today: Date, journal: seq<JournalLine>, moves: seq<InventoryMove>,
                            chart: map<string, string>, history: seq<real>)
    requires 1001 <= MonthOf(today).year <= 9999
    requires |history| == 7
    requires forall k :: 0 <= k < 7 ==>
      history[k] == TurnoverFrom(IncomeEndpoint(MonthRequest(AddMonths(MonthOf(today), -(k + 1))), journal), Izmir)
    ensures var w := CeoWindows(today);
      var cur := MonthOf(today);
      var items := ItemsOfPurchaseRows(CeoIzmirRawMaterials(today, journal, moves));
      var fig := PageFigures(ExpenseEstimateOf(CeoLiveExpenses(today, journal, chart, Izmir)),
                             TurnoverFrom(IncomeEndpoint(MonthRequest(cur), journal), Izmir),
                             CeoLast3(history), CeoLast6(history));
      var raw := FiguresOf(IzmirRawLines(journal, moves, w), w, All);
      var exp := FiguresOf(ExpenseLines(journal, w, Izmir, chart, true), w, All);
      && ItemsTotal(items, CurrentColumn) == raw.total
      && ItemsTotal(items, Last3Column) == raw.last3Avg
      && (ExpenseSlot(Izmir, items).Some? <==> exists j :: j in journal && TrayLine(w, j).Some?)
      && fig.expenses == ExpenseEstimate(exp.total, exp.last3Avg, exp.last6Avg)
      && fig.liveTurnover == NetIncomeMonthsBack(journal, cur, 0, Izmir)
      && fig.turnoverLast3 ==
           (NetIncomeMonthsBack(journal, cur, 2, Izmir) + NetIncomeMonthsBack(journal, cur, 3, Izmir)
            + NetIncomeMonthsBack(journal, cur, 4, Izmir)) / 3.0
  {
    var w := CeoWindows(today);
    var lines := IzmirRawLines(journal, moves, w);
    PurchaseItemsTotal(PurchaseSummary(lines, w));
    PurchaseSummaryTotal(lines, w);
    IzmirExpenseRowShown(today, journal, moves);
    ExpenseEstimateFromServer(today, journal, chart, Izmir);
    CurrentTurnoverFromLedger(journal, MonthOf(today), Izmir);
    TurnoverAveragesFromLedger(journal, MonthOf(today), Izmir, history);
  }

  /** The IZMIR panel against the ledger: its Total is the figures of all
      IZMIR raw-material lines plus, when a tray purchase is in range, the
      expense estimate; its Profit is the month's net income less that
      total, and over months -2..-4 their mean net income less the
      3-month column. */
  lemma IzmirPanelFromLedger(today: Date, journal: seq<JournalLine>, moves: seq<InventoryMove>,
                             chart: map<string, string>, rows: seq<TableRow>, history: seq<real>)
    requires 1001 <= MonthOf(today).year <= 9999
    requires |history| == 7
    requires forall k :: 0 <= k < 7 ==>
      history[k] == TurnoverFrom(IncomeEndpoint(MonthRequest(AddMonths(MonthOf(today), -(k + 1))), journal), Izmir)
    requires IsBranchTable(rows, Izmir, ItemsOfPurchaseRows(CeoIzmirRawMaterials(today, journal, moves)),
      PageFigures(ExpenseEstimateOf(CeoLiveExpenses(today, journal, chart, Izmir)),
                  TurnoverFrom(IncomeEndpoint(MonthRequest(MonthOf(today)), journal), Izmir),
                  CeoLast3(history), CeoLast6(history)))
    ensures var w := CeoWindows(today);
      var cur := MonthOf(today);
      var raw := FiguresOf(IzmirRawLines(journal, moves, w), w, All);
      var exp := FiguresOf(ExpenseLines(journal, w, Izmir, chart, true), w, All);
      var shown := exists j :: j in journal && TrayLine(w, j).Some?;
      var n := |rows|;
      && rows[n - 2].current == raw.total + (if shown then exp.last6Avg else 0.0)
      && rows[n - 2].last3Avg == raw.last3Avg + (if shown then exp.last3Avg else 0.0)
      && rows[n - 1].current == NetIncomeMonthsBack(journal, cur, 0, Izmir) - rows[n - 2].current
      && rows[n - 1].last3Avg ==
           (NetIncomeMonthsBack(journal, cur, 2, Izmir) + NetIncomeMonthsBack(journal, cur, 3, Izmir)
            + NetIncomeMonthsBack(journal, cur, 4, Izmir)) / 3.0 - rows[n - 2].last3Avg
  {
    var items := ItemsOfPurchaseRows(CeoIzmirRawMaterials(today, journal, moves));
    var fig := PageFigures(ExpenseEstimateOf(CeoLiveExpenses(today, journal, chart, Izmir)),
                           TurnoverFrom(IncomeEndpoint(MonthRequest(MonthOf(today)), journal), Izmir),
                           CeoLast3(history), CeoLast6(history));
    IzmirPageFromLedger(today, journal, moves, chart, history);
    TableTotals(rows, Izmir, items, fig);
  }
}
