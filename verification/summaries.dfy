/** The monthly endpoints of the main API server: request validation, the
    per-branch income and expense sums, raw-material consumption and cost,
    FLEX raw material, the three XPET purchase figures, and the monthly
    average USD rate. Each response object starts from zeros for the three
    branches and is overwritten by the rows the grouped query returns, which
    is modelled as a map union. */
module Summaries {
  import opened Basics
  import opened Calendar
  import opened IsoDates
  import opened Ledger
  import opened Averages

  /** The query string of a dated request; either parameter may be absent. */
  datatype Request = Request(startDate: Option<string>, endDate: Option<string>)

  /** What an endpoint answers: status 400, status 500, or a JSON body. */
  datatype Reply<T> = BadRequest | ServerError | Ok(body: T)

  /** JavaScript truthiness of a query-string value: absent and empty are
      both falsy. */
  predicate Given(p: Option<string>) {
    p.Some? && |p.value| > 0
  }

  /** The date range a request asks for. A missing or empty parameter is
      rejected with 400 before any query runs; a parameter that is not a
      date makes `new Date(x).toISOString()` throw inside the handler, which
      answers 500. */
  function RequestRange(req: Request): (r: Reply<DateRange>)
    ensures r.BadRequest? <==> !Given(req.startDate) || !Given(req.endDate)
    ensures r.Ok? <==>
      Given(req.startDate) && Given(req.endDate)
      && ParseDate(req.startDate.value).Some? && ParseDate(req.endDate.value).Some?
    ensures r.Ok? ==>
      r.body == DateRange(ParseDate(req.startDate.value).value, ParseDate(req.endDate.value).value)
  {
    if !Given(req.startDate) || !Given(req.endDate) then BadRequest
    else
      match (ParseDate(req.startDate.value), ParseDate(req.endDate.value))
      case (Some(s), Some(e)) => Ok(DateRange(s, e))
      case _ => ServerError
  }

  /** The dates a client formats for one month are read back as exactly that
      month's range. */
  lemma MonthRequestRoundTrip(ym: YearMonth)
    requires FourDigitYear(ym.year)
    ensures var range := MonthDateRange(ym);
      RequestRange(Request(Some(FormatDate(range.start)), Some(FormatDate(range.end)))) == Ok(range)
  {
    var range := MonthDateRange(ym);
    ParseFormatDate(range.start);
    ParseFormatDate(range.end);
  }

  /** A dated endpoint: validation first, then the answer for the range. */
  function Serve<T>(req: Request, answer: DateRange -> T): (r: Reply<T>)
    ensures r.BadRequest? <==> RequestRange(req).BadRequest?
    ensures r.ServerError? <==> RequestRange(req).ServerError?
    ensures r.Ok? ==> RequestRange(req).Ok? && r.body == answer(RequestRange(req).body)
  {
    match RequestRange(req)
    case BadRequest => BadRequest
    case ServerError => ServerError
    case Ok(range) => Ok(answer(range))
  }

  /** The response object every per-branch endpoint starts from. */
  const ZeroTotals: map<int, real> := map[1 := 0.0, 3 := 0.0, 4 := 0.0]

  // ---------------------------------------------------------------------
  // Income

  function IncomePart(j: JournalLine, range: DateRange, b: int): real {
    if CountsInPeriod(j, range) && j.branch == b && HasAnyPrefix(j.account, IncomePrefixes)
    then j.credit - j.debit else 0.0
  }

  function DiscountPart(j: JournalLine, range: DateRange, b: int): real {
    if CountsInPeriod(j, range) && j.branch == b && HasAnyPrefix(j.account, DiscountPrefixes)
    then j.debit - j.credit else 0.0
  }

  /** Revenue less discounts of one branch over the range. */
  function NetIncome(journal: seq<JournalLine>, range: DateRange, b: int): real {
    SumBy(journal, j => IncomePart(j, range, b)) - SumBy(journal, j => DiscountPart(j, range, b))
  }

  /** A line the income query reads at all. */
  predicate IsIncomeLine(j: JournalLine, range: DateRange) {
    CountsInPeriod(j, range)
    && (HasAnyPrefix(j.account, IncomePrefixes) || HasAnyPrefix(j.account, DiscountPrefixes))
  }

  /** Since discounts are subtracted as debit minus credit, net income is the
      plain credit-minus-debit balance of every revenue and discount line. */
  lemma NetIncomeIsBalance(journal: seq<JournalLine>, range: DateRange, b: int)
    ensures NetIncome(journal, range, b) ==
      SumBy(journal, j => if IsIncomeLine(j, range) && j.branch == b then j.credit - j.debit else 0.0)
  {
    var f := j => IncomePart(j, range, b);
    var g := j => DiscountPart(j, range, b);
    var h := j => if IsIncomeLine(j, range) && j.branch == b then j.credit - j.debit else 0.0;
    forall j | j in journal ensures h(j) == f(j) - g(j) {
      IncomeAndDiscountDisjoint(j.account);
    }
    SumBySub(journal, f, g, h);
  }

  /** The branches the grouped income query returns a row for. */
  function IncomeGroups(journal: seq<JournalLine>, range: DateRange): set<int> {
    set j | j in journal && IsIncomeLine(j, range) :: j.branch
  }

  /** `/api/income-summary` for a valid range: every branch's net income,
      0 for a branch the query returns no row for. */
  function IncomeSummary(journal: seq<JournalLine>, range: DateRange): (r: map<int, real>)
    ensures r.Keys == {1, 3, 4}
    ensures forall b :: b in r ==> r[b] == NetIncome(journal, range, b)
  {
    forall b | b in ZeroTotals && b !in IncomeGroups(journal, range)
      ensures NetIncome(journal, range, b) == 0.0
    {
      SumByZero(journal, j => IncomePart(j, range, b));
      SumByZero(journal, j => DiscountPart(j, range, b));
    }
    ZeroTotals + map b | b in IncomeGroups(journal, range) :: NetIncome(journal, range, b)
  }

  /** The income endpoint answers 400 for a missing parameter whatever the
      ledger holds, and otherwise every branch's net income. */
  function IncomeEndpoint(req: Request, journal: seq<JournalLine>): (r: Reply<map<int, real>>)
    ensures r.BadRequest? <==> !Given(req.startDate) || !Given(req.endDate)
    ensures r.Ok? ==> RequestRange(req).Ok? && forall b :: b in {1, 3, 4} ==>
      b in r.body && r.body[b] == NetIncome(journal, RequestRange(req).body, b)
  {
    Serve(req, range => IncomeSummary(journal, range))
  }

  // ---------------------------------------------------------------------
  // Expenses

  /** The five expense categories (`LIKE '720-%'` and so on). */
  const ExpensePrefixes: seq<string> := ["720-", "730-", "760-", "770-", "780-"]

  /** Distinct expense categories never share an account. */
  lemma ExpenseCategoriesDisjoint(account: string, i: int, k: int)
    requires 0 <= i < |ExpensePrefixes| && 0 <= k < |ExpensePrefixes| && i != k
    ensures !(StartsWith(account, ExpensePrefixes[i]) && StartsWith(account, ExpensePrefixes[k]))
  {
    DistinctPrefixesExclusive(account, ExpensePrefixes[i], ExpensePrefixes[k]);
  }

  function ExpensePart(j: JournalLine, range: DateRange, prefix: string, b: int): real {
    if CountsInPeriod(j, range) && j.branch == b && StartsWith(j.account, prefix)
    then j.debit - j.credit else 0.0
  }

  /** Debits less credits of one branch's accounts under `prefix`. */
  function ExpenseTotal(journal: seq<JournalLine>, range: DateRange, prefix: string, b: int): real {
    SumBy(journal, j => ExpensePart(j, range, prefix, b))
  }

  function ExpenseGroups(journal: seq<JournalLine>, range: DateRange, prefix: string): set<int> {
    set j | j in journal && CountsInPeriod(j, range) && StartsWith(j.account, prefix) :: j.branch
  }

  /** `fetchExpenseData` for a valid range: each branch's expense total under
      the prefix, 0 for a branch without lines. */
  function ExpenseSummary(journal: seq<JournalLine>, range: DateRange, prefix: string): (r: map<int, real>)
    ensures r.Keys == {1, 3, 4}
    ensures forall b :: b in r ==> r[b] == ExpenseTotal(journal, range, prefix, b)
  {
    forall b | b in ZeroTotals && b !in ExpenseGroups(journal, range, prefix)
      ensures ExpenseTotal(journal, range, prefix, b) == 0.0
    {
      SumByZero(journal, j => ExpensePart(j, range, prefix, b));
    }
    ZeroTotals + map b | b in ExpenseGroups(journal, range, prefix) :: ExpenseTotal(journal, range, prefix, b)
  }

  // ---------------------------------------------------------------------
  // Raw materials

  /** One branch's row of the raw-material cost summary. */
  datatype RawMaterialFigures = RawMaterialFigures(consumed: real, costOfConsumed: real)

  predicate IsIssueIn(m: InventoryMove, range: DateRange) {
    IsRawMaterialIssue(m) && InRange(m.docDate, range.start, range.end)
  }

  /** Kilograms of raw material issued by the warehouses of branch `w` (NULL
      when the warehouse is unknown); a NULL quantity counts as 0. */
  function Consumed(moves: seq<InventoryMove>, range: DateRange, w: Option<int>): real {
    SumBy(moves, m => if IsIssueIn(m, range) && m.warehouseBranch == w then m.outQty.GetOr(0.0) else 0.0)
  }

  /** The local-currency cost of the same issues. */
  function CostOfConsumed(moves: seq<InventoryMove>, range: DateRange, w: Option<int>): real {
    SumBy(moves, m => if IsIssueIn(m, range) && m.warehouseBranch == w then LineCost(m) else 0.0)
  }

  function RawMaterialGroups(moves: seq<InventoryMove>, range: DateRange): set<Option<int>> {
    set m | m in moves && IsIssueIn(m, range) :: m.warehouseBranch
  }

  /** `/api/raw-materials-cost-summary` for a valid range. The query has no
      branch filter, so any warehouse branch that issued raw material gets
      an entry besides the three defaults (a NULL branch becomes the key
      `null`); each entry holds that branch's consumption and cost. */
  function RawMaterialsCost(moves: seq<InventoryMove>, range: DateRange): (r: map<Option<int>, RawMaterialFigures>)
    ensures r.Keys == {Some(1), Some(3), Some(4)} + RawMaterialGroups(moves, range)
    ensures forall w :: w in r ==>
      r[w] == RawMaterialFigures(Consumed(moves, range, w), CostOfConsumed(moves, range, w))
  {
    var zero := RawMaterialFigures(0.0, 0.0);
    forall w | w !in RawMaterialGroups(moves, range)
      ensures Consumed(moves, range, w) == 0.0 && CostOfConsumed(moves, range, w) == 0.0
    {
      SumByZero(moves, m => if IsIssueIn(m, range) && m.warehouseBranch == w then m.outQty.GetOr(0.0) else 0.0);
      SumByZero(moves, m => if IsIssueIn(m, range) && m.warehouseBranch == w then LineCost(m) else 0.0);
    }
    map[Some(1) := zero, Some(3) := zero, Some(4) := zero]
    + map w | w in RawMaterialGroups(moves, range) ::
        RawMaterialFigures(Consumed(moves, range, w), CostOfConsumed(moves, range, w))
  }

  /** The raw-material figures the client reads for a branch: the entry, or
      zeros when it is missing. */
  function FiguresFor(r: map<Option<int>, RawMaterialFigures>, b: int): RawMaterialFigures {
    if Some(b) in r then r[Some(b)] else RawMaterialFigures(0.0, 0.0)
  }

  /** Foreign-currency issues without a usable rate (NULL or zero) cost
      nothing: `NULLIF` turns a zero rate into NULL, and `ISNULL` turns the
      NULL cost into 0. */
  lemma CostIgnoresUnratedForeignMoves(moves: seq<InventoryMove>, range: DateRange, w: Option<int>)
    requires forall m :: m in moves ==> IsForeign(m) && (m.rate.None? || m.rate == Some(0.0))
    ensures CostOfConsumed(moves, range, w) == 0.0
  {
    forall m | m in moves
      ensures (if IsIssueIn(m, range) && m.warehouseBranch == w then LineCost(m) else 0.0) == 0.0
    {
      CurrencyConversion(m, None);
    }
    SumByZero(moves, m => if IsIssueIn(m, range) && m.warehouseBranch == w then LineCost(m) else 0.0);
  }

  // ---------------------------------------------------------------------
  // Single-figure endpoints

  /** A single-branch figure in the three-branch response shape. */
  function OnlyBranch(b: int, total: real): (r: map<int, real>)
    requires b in {1, 3, 4}
    ensures r.Keys == {1, 3, 4} && r[b] == total
    ensures forall c :: c in r && c != b ==> r[c] == 0.0
  {
    ZeroTotals[b := total]
  }

  /** `/api/flex-raw-material`: FLEX's 620-01 and 895-01 balance. The query
      applies neither the `'-3'` nor the `-8` exclusion. */
  function FlexRawMaterial(journal: seq<JournalLine>, range: DateRange): real {
    SumBy(journal, j => if IsFlexRawMaterial(j) && InRange(j.refDate, range.start, range.end)
                        then j.debit - j.credit else 0.0)
  }

  /** `/api/xpet-tray-purchases`: debit less credit of the tray lines. */
  function TrayPurchases(journal: seq<JournalLine>, range: DateRange): real {
    SumBy(journal, j => if IsTrayPurchase(j) && InRange(j.refDate, range.start, range.end)
                        then j.debit - j.credit else 0.0)
  }

  /** `/api/xpet-roll-purchases`: credit less debit of the roll lines, net of
      the 20% VAT (`SUM(...) / 1.20`). No branch filter is applied. */
  function RollPurchases(journal: seq<JournalLine>, range: DateRange): real {
    SumBy(journal, j => if IsRollPurchase(j) && InRange(j.refDate, range.start, range.end)
                        then j.credit - j.debit else 0.0) / 1.2
  }

  /** `/api/xpet-pad-purchases`: the same for pad lines. */
  function PadPurchases(journal: seq<JournalLine>, range: DateRange): real {
    SumBy(journal, j => if IsPadPurchase(j) && InRange(j.refDate, range.start, range.end)
                        then j.credit - j.debit else 0.0) / 1.2
  }

  /** Dividing the sum by 1.20 is dividing every line by 1.20: the roll
      figure is the sum of the lines' net-of-VAT amounts. */
  lemma RollPurchasesPerLine(journal: seq<JournalLine>, range: DateRange)
    ensures RollPurchases(journal, range) ==
      SumBy(journal, j => if IsRollPurchase(j) && InRange(j.refDate, range.start, range.end)
                          then (j.credit - j.debit) / 1.2 else 0.0)
  {
    var f := j => if IsRollPurchase(j) && InRange(j.refDate, range.start, range.end)
                  then j.credit - j.debit else 0.0;
    var h := j => if IsRollPurchase(j) && InRange(j.refDate, range.start, range.end)
                  then (j.credit - j.debit) / 1.2 else 0.0;
    SumByScale(journal, f, 1.0 / 1.2, h);
  }

  lemma PadPurchasesPerLine(journal: seq<JournalLine>, range: DateRange)
    ensures PadPurchases(journal, range) ==
      SumBy(journal, j => if IsPadPurchase(j) && InRange(j.refDate, range.start, range.end)
                          then (j.credit - j.debit) / 1.2 else 0.0)
  {
    var f := j => if IsPadPurchase(j) && InRange(j.refDate, range.start, range.end)
                  then j.credit - j.debit else 0.0;
    var h := j => if IsPadPurchase(j) && InRange(j.refDate, range.start, range.end)
                  then (j.credit - j.debit) / 1.2 else 0.0;
    SumByScale(journal, f, 1.0 / 1.2, h);
  }

  // ---------------------------------------------------------------------
  // Average USD rate

  /** A USD record dated on or after the cut-off. */
  predicate IsRecentUsd(r: RateRecord, since: Date) {
    r.currency == "USD" && DateLe(since, r.rateDate)
  }

  predicate RateYearsFit(rates: seq<RateRecord>) {
    forall i :: 0 <= i < |rates| ==> FourDigitYear(rates[i].rateDate.year)
  }

  /** The non-NULL rates of recent USD records whose `yyyy-MM` text is `key`,
      as `AVG` sees them. */
  function RatesWithKey(rates: seq<RateRecord>, since: Date, key: string): (r: seq<real>)
    requires RateYearsFit(rates)
    ensures |r| <= |rates|
    decreases |rates|
  {
    if |rates| == 0 then []
    else
      var x := rates[0];
      var rest := RatesWithKey(rates[1..], since, key);
      if IsRecentUsd(x, since) && SqlMonthKey(MonthOf(x.rateDate)) == key && x.rate.Some?
      then [x.rate.value] + rest else rest
  }

  /** The non-NULL rates of recent USD records dated in month `ym`. */
  function RatesInMonth(rates: seq<RateRecord>, since: Date, ym: YearMonth): (r: seq<real>)
    ensures |r| <= |rates|
    ensures forall v :: v in r <==>
      exists i :: 0 <= i < |rates| && IsRecentUsd(rates[i], since)
        && MonthOf(rates[i].rateDate) == ym && rates[i].rate == Some(v)
    decreases |rates|
  {
    if |rates| == 0 then []
    else
      var x := rates[0];
      var rest := RatesInMonth(rates[1..], since, ym);
      assert forall i :: 0 < i < |rates| ==> rates[i] == rates[1..][i - 1];
      if IsRecentUsd(x, since) && MonthOf(x.rateDate) == ym && x.rate.Some?
      then [x.rate.value] + rest else rest
  }

  /** Grouping by the month text is grouping by the month. */
  lemma {:induction false} RatesWithKeyIsMonth(rates: seq<RateRecord>, since: Date, ym: YearMonth)
    requires RateYearsFit(rates) && FourDigitYear(ym.year)
    ensures RatesWithKey(rates, since, SqlMonthKey(ym)) == RatesInMonth(rates, since, ym)
    decreases |rates|
  {
    if |rates| > 0 {
      var x := rates[0];
      if SqlMonthKey(MonthOf(x.rateDate)) == SqlMonthKey(ym) {
        SqlMonthKeyInjective(MonthOf(x.rateDate), ym);
      }
      RatesWithKeyIsMonth(rates[1..], since, ym);
    }
  }

  /** The month texts the grouped query returns a row for. */
  function RateKeys(rates: seq<RateRecord>, since: Date): set<string>
    requires RateYearsFit(rates)
  {
    set i | 0 <= i < |rates| && IsRecentUsd(rates[i], since) :: SqlMonthKey(MonthOf(rates[i].rateDate))
  }

  /** `/api/avg-usd-currency` with the cut-off `DATEADD(MONTH, -9, GETDATE())`
      given as `since`: the mean rate of each month, or 0 when all of its
      rates are NULL. */
  function AvgUsdRates(rates: seq<RateRecord>, since: Date): (r: map<string, real>)
    requires RateYearsFit(rates)
    ensures r.Keys == RateKeys(rates, since)
    ensures forall k :: k in r ==> r[k] == Mean(RatesWithKey(rates, since, k))
  {
    map k | k in RateKeys(rates, since) :: Mean(RatesWithKey(rates, since, k))
  }

  /** The client looks a month up under `${year}-${MM}`: for four-digit years
      it finds the mean of that month's recent USD rates, and 0 for a month
      without any. */
  lemma RateLookup(rates: seq<RateRecord>, since: Date, ym: YearMonth)
    requires RateYearsFit(rates)
    requires 1000 <= ym.year <= 9999
    ensures Lookup(AvgUsdRates(rates, since), ClientMonthKey(ym)) == Mean(RatesInMonth(rates, since, ym))
  {
    ClientKeyIsSqlKey(ym);
    RatesWithKeyIsMonth(rates, since, ym);
  }
}
