# ERZE dashboard — financial core in Dafny

This project models the arithmetic at the centre of the ERZE management
dashboards: three plants (branch 1 IZMIR, branch 3 URFA, branch 4 FLEX)
whose SAP Business One ledger is summarised into monthly and "live"
figures.

- **Monthly summary endpoints** (`server.js`). Each one takes a
  `startDate`/`endDate` query and answers with a per-branch map. They cover
  net income, the 720–780 expense groups, the raw materials issued from
  stock (with their currency conversion), the FLEX raw-material accounts,
  the XPET tray/roll/pad purchases, and the average USD rate per month.
- **Live endpoints** (`server-ceo.js` and their older twins in `server.js`).
  Each one returns, per purchase type or per expense account, the current
  month's total with a three-month and a six-month average.
  - The expense reports are SQL `GROUPING SETS` reports: detail,
    subtotal and grand-total lines in a fixed order.
  - The CEO server's averaging windows skip the previous month. The
    server.js windows do not.
- **The P&L page** (`pnl.js`). Five monthly profit-and-loss rows per
  branch, a trailing three-month average (L3MA) over rows 2–4, and
  red/green highlighting of cells more than 15 % above or below that
  average.
- **The summary tables** (`script.js`). Five-month tables per expense group
  with their L3MA rows. `getDateRanges` builds ten adjacent month ranges, but
  the page requests and shows only the first five. The raw-materials table has a user-editable "manual
  RM" price that recomputes the row's total cost and the L3MA.
- **The CEO dashboard** (`ceo-dashboard.js`). Per branch, it reads the
  live raw materials and expenses, computes current and historical
  turnover from the income endpoint, and lays out the panel table. The
  panel puts the expense-estimate row below the XPET tray row (IZMIR) or
  at the end of the items (other branches). It is followed by the
  Turnover, Total and Profit rows.

Modelling conventions:

- The database is a parameter: a sequence of `JournalLine`s (OJDT/JDT1
  rows), of `InventoryMove`s (OINM rows with their item group, warehouse
  branch and currency) and of exchange-rate records.
- Each endpoint is a pure function of those sequences and the request.
- Amounts are `real`. The JavaScript `Number` arithmetic is exact here.
- Dates are proleptic Gregorian `Date` values. Month arithmetic goes
  through a month index.
- The client's `fetch` calls are function parameters (`Request -> Reply<…>`).
  A non-OK reply or a thrown request is a `Reply` constructor.
- "Today" is a parameter wherever the source calls `GETDATE()` or
  `new Date()`.

Modules, in dependency order:

| module | file | concept |
|---|---|---|
| Basics | basics.dfy | `Option`, `Abs`, `Lookup` (JS `x[k] \|\| 0`), sums over sequences |
| Calendar | calendar.dfy | months, day-0 end of month, SQL `DATEADD`/`EOMONTH`, month ranges |
| IsoDates | isodates.dfy | `YYYY-MM-DD` formatting and parsing, `YYYY-MM` month keys |
| StringOrder | stringorder.dfy | the string order of SQL `ORDER BY` and a sorted-distinct list |
| Ledger | ledger.dfy | journal lines, inventory moves, account filters, unit cost |
| Summaries | summaries.dfy | the monthly endpoints of server.js |
| Averages | averages.dfy | mean, L3MA, the CEO history slices |
| LiveWindows | livewindows.dfy | the live endpoints' current/L3/L6 windows on both servers |
| LiveTally | livetally.dfy | conditional window sums (`SUM(CASE WHEN …)`) per type or group |
| LiveReport | livereport.dfy | per-type purchase summaries and the GROUPING SETS expense report |
| LiveEndpoints | liveendpoints.dfy | the live raw-material and expense queries of both servers |
| Pnl | pnl.dfy | the P&L page |
| SummaryTables | summarytables.dfy | the summary and raw-materials tables |
| CeoDashboard | ceodashboard.dfy | the CEO dashboard |

## Model

| member | source | states |
|---|---|---|
| Calendar.AddMonths | pnl.js:317 | `new Date(y, m - i, 1)` moves exactly `k` months on the year·12+month index, carrying into the year |
| Calendar.PreviousMonth | pnl.js:202-212 | one step back from January is December of the previous year; otherwise the same year, one month earlier |
| Calendar.AddMonthsCompose | pnl.js:199-212 | stepping back month by month (`setMonth(getMonth() - 1)` repeated) equals one jump of the summed offset |
| Calendar.DayZeroIsLastDay | pnl.js:222 | day 0 of the following month is the last valid day of the month, leap Februaries included |
| Calendar.InMonthRange | server.js:163-164 | a valid date lies between a month's first and last day exactly when it belongs to that month |
| Calendar.MonthSpan | server-ceo.js:55-61 | a date lies between the first day of month `lo` and the last day of month `hi` exactly when its month index is between theirs |
| Calendar.SqlAddMonthsFirstDay | server-ceo.js:58-61 | `DATEADD(MONTH, k, first day)` is the first day of the month `k` months away |
| Calendar.MonthDateRange | pnl.js:218-232 | a month's range starts on day 1, ends on its last day, and contains exactly the dates of that month |
| Calendar.MonthsBack | script.js:174-219 | the list of months going back has the requested length, and entry `k` is `k` months before the start |
| Calendar.MonthsBackSteps | script.js:174-219 | consecutive entries step back one calendar month, with January stepping to December |
| Calendar.MonthRangesBack | script.js:174-219 | range `k` of the list is the month range `k` months back |
| Calendar.MonthRangesAdjacent | pnl.js:196-216 | consecutive ranges are adjacent: the day before one range's start is the next range's end |
| IsoDates.FormatDate | ceo-dashboard.js:57-58 | the formatted date is ten characters with dashes at positions 4 and 7 |
| IsoDates.ParseFormatDate | server.js:182-183 | parsing a formatted valid date gives the date back |
| IsoDates.FormatParseDate | server.js:182-183 | any string the parser accepts is exactly the formatting of what it parsed (canonical form) |
| IsoDates.FormatDateInjective | ceo-dashboard.js:57-58 | different dates format differently |
| IsoDates.Pad2Value | ceo-dashboard.js:57 | `padStart(2, '0')` keeps the value: the two digits read back as the number |
| IsoDates.Pad4Value | ceo-dashboard.js:57 | four zero-padded digits read back as the number |
| IsoDates.DecimalStringOfFourDigits | ceo-dashboard.js:57 | the plain decimal rendering of a four-digit year equals its zero-padded rendering |
| IsoDates.ParseSqlMonthKey | server.js:917-927 | the `YYYY-MM` key of the rate query parses back to its month |
| IsoDates.SqlMonthKeyInjective | server.js:917-927 | different months get different `YYYY-MM` keys |
| IsoDates.ClientKeyIsSqlKey | script.js:467-470 | the key the client builds to look up a month's rate equals the key the server groups by, for four-digit years |
| StringOrder.LessTransitive | server-ceo.js:137 | the `ORDER BY` string order is transitive |
| StringOrder.LessTotal | server-ceo.js:137 | any two different strings are ordered one way or the other |
| StringOrder.SortedDistinct | server-ceo.js:129-137 | the sorted key list is strictly ascending and holds exactly the input's elements, like `GROUP BY … ORDER BY` |
| Ledger.IncomeAndDiscountDisjoint | server.js:47-73 | no account is both an income account (600/601/602) and a discount account (610/612) |
| Ledger.UnitCost | server.js:170-175 | unit cost is price × rate for a non-TRY currency with a non-zero rate, 0 for a missing or zero rate, and the price otherwise; a missing price costs 0 |
| Ledger.CurrencyConversion | server.js:170-175 | a local-currency line's cost ignores its rate; a foreign line costs qty × price × rate, or nothing without a usable rate |
| Summaries.RequestRange | server.js:36-38 | a request missing either date is a 400; an unparseable date is a server error; otherwise the parsed range |
| Summaries.MonthRequestRoundTrip | server.js:33-106 | a request built from a month's formatted first and last day is answered for exactly that month |
| Summaries.Serve | server.js:213-261 | every endpoint answers 400, 500 or its computed body exactly as its date validation does |
| Summaries.NetIncomeIsBalance | server.js:47-73 | a branch's net income is the sum of credit − debit over its income lines in the range, discounts counted negatively |
| Summaries.IncomeSummary | server.js:86-95 | the income map has exactly branches 1, 3 and 4, each holding that branch's net income (0 without lines) |
| Summaries.IncomeEndpoint | server.js:33-106 | the endpoint is 400 exactly when a date is missing, and an OK answer holds each branch's net income for the requested range |
| Summaries.ExpenseCategoriesDisjoint | server.js:109-132 | no account starts with two different expense prefixes, so the five expense groups never share a line |
| Summaries.ExpenseSummary | server.js:213-261 | the expense map has exactly branches 1, 3 and 4, each holding the branch's debit − credit over the prefix's counted lines |
| Summaries.RawMaterialsCost | server.js:145-198 | the map holds branches 1, 3, 4 and every other warehouse branch with issues in range, each with that branch's consumed quantity and converted cost |
| Summaries.CostIgnoresUnratedForeignMoves | server.js:170-175 | foreign-currency issues without a usable rate add nothing to the cost |
| Summaries.OnlyBranch | server.js:319-356 | a single-branch purchase endpoint reports its total under that branch and 0 under the two others |
| Summaries.RollPurchasesPerLine | server.js:358-394 | roll purchases are the sum of (credit − debit) / 1.20 over the matching lines in range |
| Summaries.PadPurchasesPerLine | server.js:396-432 | pad purchases are the sum of (credit − debit) / 1.20 over the supplier's lines in range |
| Summaries.RatesInMonth | server.js:917-927 | a value is among a month's rates exactly when some recent USD record of that month has that rate |
| Summaries.RatesWithKeyIsMonth | server.js:917-937 | grouping rates by their `YYYY-MM` key gives the same rates as grouping by calendar month |
| Summaries.AvgUsdRates | server.js:934-937 | the rate map has one key per month with rates, each holding the mean of that month's rates |
| Summaries.RateLookup | script.js:467-471 | the rate the client looks up for a month is the mean of that month's recent USD rates |
| Averages.Mean | ceo-dashboard.js:133-137 | the mean of nothing is 0; otherwise mean × count equals the sum |
| Averages.MeanBounds | ceo-dashboard.js:133-137 | the mean of values within bounds is within the same bounds |
| Averages.Slice | ceo-dashboard.js:71-73 | `slice(a, b)` is clamped to the length and keeps entries `a…` in order |
| Averages.TrailingL3 | pnl.js:401-416 | with fewer than five rows the L3MA is 0; otherwise it is the mean of rows 2, 3 and 4 |
| Averages.TrailingL3Window | pnl.js:404-416 | the L3MA depends only on rows 2–4 |
| Averages.TrailingL3Additive | pnl.js:404-416 | the L3MA of a total column is the sum of the branches' L3MAs |
| Averages.ColumnsL3ma | script.js:371-395 | computing every column's L3MA in one pass gives each column's trailing average |
| Averages.CeoLast3 | ceo-dashboard.js:71 | with at least four history entries, the three-month average is the mean of entries 1–3 |
| Averages.CeoLast6 | ceo-dashboard.js:73 | with at least seven history entries, the six-month average is the mean of entries 1–6 |
| Averages.CeoAndClientAgree | ceo-dashboard.js:69-73 | the dashboard's history average (history one month behind) equals the L3MA of the table rows |
| LiveWindows.CeoWindows | server-ceo.js:55-61 | the CEO windows are the current month, months −4…−2 and months −7…−2 |
| LiveWindows.MainWindows | server.js:442-449 | the server.js windows are the current month, months −3…−1 and months −6…−1 |
| LiveWindows.CeoWindowMonths | server-ceo.js:129-137 | a date counts in the CEO current, L3, L6 and fetched windows exactly when it is 0, 2–4, 2–7 and 0–7 months back |
| LiveWindows.MainWindowMonths | server.js:442-449 | a date counts in the server.js windows exactly when it is 0, 1–3, 1–6 and 0–6 months back |
| LiveWindows.WindowsNest | server-ceo.js:55-61 | on both servers L3 lies inside L6 and neither overlaps the current month; the CEO averages skip the previous month |
| LiveWindows.WindowsDiverge | server-ceo.js:58-61 | the two servers disagree: the previous month only counts on server.js, and months −4 and −7 only on the CEO server |
| LiveTally.AccountGroup | server-ceo.js:290 | `LEFT(Account, 3)` is the first three characters, or the whole account when shorter |
| LiveTally.FiguresOfConcat | server-ceo.js:129-134 | the window sums of a `UNION ALL` are the sums of its parts |
| LiveTally.FiguresPartition | server-ceo.js:129-137 | summing `GROUP BY` classes over distinct keys equals summing over the union of their selectors |
| LiveTally.FiguresCover | server-ceo.js:129-137 | when every line's class is among the keys, the per-class figures add up to the whole |
| LiveTally.SpanSum | server-ceo.js:131-133 | a window spanning whole months sums to the sum of its monthly sums |
| LiveTally.MonthlyColumn | script.js:323-352 | the monthly column has one entry per month back, entry `k` being that month's sum |
| LiveTally.CeoFiguresAreMonthlyMeans | server-ceo.js:129-134 | CEO live figures are the current month's sum, the L3MA of the monthly column, and the dashboard's history averages over months −2…−7 |
| LiveTally.MainFiguresAreMonthlyMeans | server.js:594-686 | server.js live figures are the current month's sum and the means of months −1…−3 and −1…−6 |
| LiveReport.Keys | server-ceo.js:135 | a key is listed exactly when some line has it |
| LiveReport.PurchaseSummary | server-ceo.js:129-137 | one row per purchase type present, in ascending type order, each holding its type's window figures |
| LiveReport.PurchaseSummaryTotal | server-ceo.js:129-137 | the purchase rows add up to the figures of all lines |
| LiveReport.InGroup | server-ceo.js:290 | the accounts of a group are exactly those whose first three characters are the group, in the same order |
| LiveReport.GroupsOf | server-ceo.js:329-334 | a group is listed exactly when some account belongs to it |
| LiveReport.ReportOrdered | server-ceo.js:329-339 | the report lists groups in order, each group's details by account and then its subtotal, with the grand total last |
| LiveReport.ReportSubtotals | server-ceo.js:315-334 | every subtotal line holds the sum of its group's detail lines |
| LiveReport.ReportGrandTotal | server-ceo.js:315-334 | the last line, and only it, is the grand total, and it equals both the sum of the details and the sum of the subtotals |
| LiveReport.ReportAccount | server-ceo.js:308-334 | an account has a detail line exactly when some line posted to it |
| LiveReport.ReportDetails | server-ceo.js:308-334 | each account has at most one detail line, holding its own window figures and chart name |
| LiveReport.GroupsCover | server-ceo.js:329-334 | the subtotals of all groups add up to the figures of all lines |
| LiveEndpoints.LinesOf | server-ceo.js:63-127 | a line is in the extracted `UNION ALL` arm exactly when some source row produces it |
| LiveEndpoints.LinesOfWindowSum | server-ceo.js:129-134 | a window sum over an extracted arm equals the sum of each source row's contribution |
| LiveEndpoints.WithoutQty | server.js:594-686 | the server.js rows carry each type's total and averages with no consumed quantity |
| LiveEndpoints.IzmirRowTypes | server-ceo.js:63-127 | the IZMIR live summary only has XPET tray, roll, pad and raw-material (+40 %) rows |
| LiveEndpoints.BothServersCurrentMonth | server-ceo.js:55-56 | on both servers the current window is exactly today's month |
| LiveEndpoints.PurchaseLinesNoQuantity | server-ceo.js:68-100 | tray, roll and pad lines contribute no consumed quantity |
| LiveEndpoints.IssueContribution | server-ceo.js:103-124 | an issue contributes markup × its converted cost and its out quantity to the current month when it is in the month and the branch's warehouse, otherwise nothing |
| LiveEndpoints.MarkedUpCost | server-ceo.js:106-112 | marking up each line is marking up the branch's cost of consumed materials |
| LiveEndpoints.IssuesAmountMatchesMonthly | server-ceo.js:103-124 | the live raw-material total of a month is the markup times the monthly endpoint's cost of consumed materials |
| LiveEndpoints.IssuesQtyMatchesMonthly | server-ceo.js:103-133 | the live consumed quantity of a month is the monthly endpoint's consumed quantity |
| LiveEndpoints.IzmirRawMatchesMonthly | server-ceo.js:63-133 | IZMIR's live raw-material row equals 1.40 × the monthly cost and the monthly consumed quantity, and all IZMIR rows together consume the same quantity |
| LiveEndpoints.UrfaRawMatchesMonthly | server-ceo.js:154-214 | URFA's live raw-material row equals 1.20 × the monthly cost and the monthly consumed quantity |
| LiveEndpoints.TrayMatchesMonthly | server-ceo.js:64-74 | the live XPET tray total equals the monthly tray-purchases endpoint |
| LiveEndpoints.RollMatchesMonthly | server-ceo.js:78-87 | the live XPET roll total equals the monthly roll-purchases endpoint |
| LiveEndpoints.PadMatchesMonthly | server-ceo.js:91-101 | the live XPET pad total equals the monthly pad-purchases endpoint |
| LiveEndpoints.FlexMatchesMonthly | server-ceo.js:217-267 | the live FLEX raw-material total equals the monthly FLEX raw-material endpoint |
| LiveEndpoints.ExpenseKeys | server-ceo.js:287-307 | an account appears in the expense lines exactly when a counted posting hits it |
| LiveEndpoints.ExpenseReportAccounts | server-ceo.js:287-339 | an account has a detail line in the live expense report exactly when a counted expense was posted to it |
| LiveEndpoints.ExpenseDetailsNamed | server-ceo.js:295-302 | every detail line is a 720/730/760/770 account in the chart of accounts, carrying the chart's name |
| LiveEndpoints.CeoExcludesAmortisation | server-ceo.js:307 | the CEO expense report of any branch never shows the amortisation accounts 730-01-0010 and 770-01-0026 (the same filter is repeated at lines 390 and 473) |
| LiveEndpoints.MainKeepsAmortisation | server.js:436-510 | the server.js report does show an amortisation posting of the current month |
| Pnl.PnlDateRanges | pnl.js:196-216 | the page fetches five month ranges: this month and the four before, each adjacent to the next |
| Pnl.Magnitude | pnl.js:326-329 | a map entry counts as its absolute value, and a missing key as 0 |
| Pnl.RawMaterialCostCases | pnl.js:331-345 | raw-material cost is 1.40 × cost for IZMIR, 1.20 × cost for URFA, and the absolute FLEX raw-material figure for FLEX; nothing without a raw-material entry |
| Pnl.BranchFigures | pnl.js:323-370 | total expenses are the sum of the nine components; turnover − expenses is the P&L; every component except raw material is non-negative and the fixed 780 line is 350 000 |
| Pnl.BranchFiguresFields | pnl.js:324-350 | every expense field is the absolute value of its endpoint's branch entry (0 when missing), turnover is the income entry |
| Pnl.ServedIncomeAndExpenses | pnl.js:324-329 | fed by the endpoints, turnover is the ledger's net income and each expense group is the absolute branch total |
| Pnl.ServedRawMaterial | pnl.js:331-345 | fed by the endpoints, raw-material cost is 1.40 × or 1.20 × the consumed cost, or the FLEX raw-material figure |
| Pnl.ServedPurchases | pnl.js:348-350 | fed by the endpoints, XPET purchases show for IZMIR only |
| Pnl.PnlTable | pnl.js:316-388 | row `k` is month −`k`, each branch cell is that branch's turnover − expenses, and the total is their sum |
| Pnl.ProfitRows | pnl.js:383-387 | the rows carry the month and each branch's P&L, and the row total is their sum |
| Pnl.Profits | pnl.js:352 | the profit series holds each month's P&L |
| Pnl.BranchSeries | pnl.js:356-370 | the branch-detail series holds each fetched month's branch figures |
| Pnl.ColumnOf | pnl.js:390-398 | the column holds each row's cell |
| Pnl.PnlL3ma | pnl.js:401-416 | each column's L3MA is the trailing average of rows 2–4; all zero below five rows; the total's L3MA is the sum of the branches' |
| Pnl.CategoryAverages | pnl.js:503-509 | category averages exist exactly when there are five months, and each is the mean of months 2–4 |
| Pnl.BranchHighlights | pnl.js:512-535 | one highlight per shown column per month: nine for IZMIR, six otherwise |
| Pnl.HighlightRule | pnl.js:526-533 | a cell is red exactly when it is not the current month, an average exists and is positive, and the value exceeds 1.15 × it; green likewise below 0.85 × it |
| Pnl.NoHighlightWithoutAverage | pnl.js:502-509 | the current month and tables with fewer than five months are never highlighted |
| SummaryTables.TableDateRanges | script.js:174-219 | `getDateRanges` builds ten adjacent month ranges starting at the selected month; the page requests only the first five (script.js:91-150) |
| SummaryTables.CategoryRowOf | script.js:330-350 | a row shows each branch's absolute amount; the total is their sum, negated only for the 780 table in June 2025 |
| SummaryTables.RenderedTablesUnflagged | script.js:335-341 | the tables the page renders (720–770) never take the special case, so their totals are non-negative sums |
| SummaryTables.CategoryTable | script.js:323-352 | row `k` is month −`k` built from that month's map |
| SummaryTables.CategoryTableL3ma | script.js:371-395 | the L3MA row holds each column's trailing average, and the total's equals the branches' sum |
| SummaryTables.RawMaterialsRowOf | script.js:450-482 | a raw-materials row shows each branch's kg and SAP cost, the month's USD rate, a zero manual price and total cost = IZMIR + URFA SAP cost |
| SummaryTables.ServedRawMaterialsRow | script.js:450-482 | fed by the endpoints, the row's kg and cost are the ledger's consumed quantity and converted cost, and its rate is the mean of the month's USD rates |
| SummaryTables.RawMaterialsTable | script.js:450-482 | row `k` is month −`k`, and every row's total cost is the sum of its SAP costs |
| SummaryTables.EditManualRm | script.js:503-535 | editing a row's manual price changes only that row: each SAP cost becomes that branch's kg × manual price × rate, the total becomes their sum, and month, rate and kg are kept |
| SummaryTables.LastEditWins | script.js:503-510 | two edits of the same row leave the second value |
| SummaryTables.EditsCommute | script.js:503-510 | edits of different rows commute |
| SummaryTables.RawMaterialsTableL3ma | script.js:538-587 | the L3MA row holds each column's trailing average; with consistent totals, the total's average is the sum of the SAP cost averages |
| SummaryTables.EditOutsideWindowKeepsL3ma | script.js:538-587 | editing row 0, row 1 or any row from 5 on leaves every L3MA unchanged |
| SummaryTables.EditInsideWindowMovesL3ma | script.js:538-587 | editing a row from 2 to 4 moves the total-cost L3MA by a third of the change |
| CeoDashboard.MonthRequestIsMonthRange | ceo-dashboard.js:54-58 | the dashboard's hand-built `YYYY-MM-01`/`YYYY-MM-<last>` request is exactly the month's range |
| CeoDashboard.FetchHistoricalTurnover | ceo-dashboard.js:102-130 | entry `k` is the branch's turnover `k + 1` months back, or 0 when that request failed |
| CeoDashboard.TurnoverFromLedger | ceo-dashboard.js:102-130 | each history entry is the ledger's net income of that month |
| CeoDashboard.TurnoverAveragesFromLedger | ceo-dashboard.js:69-73 | the turnover averages are the mean net income of months −2…−4 and −2…−7 |
| CeoDashboard.FindGrandTotal | ceo-dashboard.js:46 | finds the first grand-total line, and finds one exactly when the report has one |
| CeoDashboard.ExpenseEstimateFromServer | ceo-dashboard.js:46-49 | the estimate taken from the CEO report's grand total is the total and averages of all counted expense lines |
| CeoDashboard.ItemsOfPurchaseRows | ceo-dashboard.js:165-183 | one item per live row, with its type, figures and consumed quantity |
| CeoDashboard.ItemRows | ceo-dashboard.js:165-183 | one table row per item, in order |
| CeoDashboard.FirstTray | ceo-dashboard.js:188-189 | finds the first XPET tray item, and finds one exactly when there is one |
| CeoDashboard.PopulateTable | ceo-dashboard.js:139-245 | the table is the item rows with the expense row inserted, then Turnover, Total (column sums) and Profit (turnover − total) |
| CeoDashboard.ExpenseRowPlacement | ceo-dashboard.js:185-208 | the expense row is shown exactly when IZMIR has a tray item or another branch has any item; it sits right below the tray row (IZMIR) or just above Turnover |
| CeoDashboard.TableTotals | ceo-dashboard.js:165-243 | Total is the items' column sums plus the shown estimate (its 6-month figure in the current column); Profit is turnover minus Total |
| CeoDashboard.FetchBranchData | ceo-dashboard.js:31-99 | a panel is shown exactly when all three requests succeed, and its table is built from the grand total, the current turnover and the history averages |
| CeoDashboard.TrayKey | server-ceo.js:64-74 | IZMIR's summary has a tray row exactly when some tray purchase falls in the fetched window |
| CeoDashboard.IzmirExpenseRowShown | ceo-dashboard.js:188-194 | IZMIR's expense row is shown exactly when the ledger has a tray purchase in the window |
| CeoDashboard.PurchaseItemsTotal | ceo-dashboard.js:165-183 | the item rows' column sums equal the live rows' summed figures |
| CeoDashboard.IzmirPageFromLedger | ceo-dashboard.js:31-99 | the IZMIR panel's inputs, traced to the ledger: raw-material sums, the expense estimate, current turnover and its three-month average |
| CeoDashboard.IzmirPanelFromLedger | ceo-dashboard.js:139-245 | the IZMIR Total and Profit rows, traced to the ledger's raw materials, expenses and net income |

## Left out

- Express routing, sessions and login (`requireAuth`, `/login`, `/logout`), connection pooling and the static pages. They carry no arithmetic.
- The DOM, `innerHTML`, CSS classes and `Intl` formatting (`formatCurrency`, `formatNumber`). Tables are modelled as rows of numbers; month label text and the kg text of item labels are left out.
- The order of the `fetch`/`Promise.all` calls and the loading and error UI. A failed fetch is a `Reply` value.
- Floating point. Amounts are exact reals, and SQL `decimal(19,6)` rounding in the rate average is not modelled.
- `GETDATE()` time of day, time zones and the `toISOString()` shift. The client adds one day before `toISOString()` so that the UTC date is the local first/last day; the model uses the intended first and last day.
- Non-ISO date strings that JavaScript's `Date` would still accept. The model parses `YYYY-MM-DD` only, and any other string is a server error.
- ISO-shaped dates with a day past the month's end, such as `2025-02-30`. JavaScript engines like V8 roll them into the next month (server.js:75-76), so the server answers for a shifted range. The model rejects them as a server error.
- The two RefDate columns and the two TransType columns. `JournalLine.refDate` stands for the line's RefDate, which the income and expense summaries filter on (server.js:60, 229). It also stands for the header's RefDate, which the purchase, FLEX and live queries filter on. Likewise, `JournalLine.transType` stands for the line's TransType (server.js:62, 231) and for the header's TransType (server.js:337, 415, 614, 641). The model assumes each pair agrees, as SAP copies the header's date and type onto the lines.
- SQL collation and parameter-name case. String comparison is plain code-point order.
- live-expenses-flex.js, config.js and the test scripts (simple-test.js, test-endpoint.js, test-queries.js). They are a standalone copy of one endpoint, configuration and manual test drivers.
- The server.js live FLEX endpoints (server.js:749-908) are modelled through the same functions with branch 4 and are not given separate rows.
- Quantities on the server.js live raw-material rows and on the FLEX live rows. Those queries have no quantity column (server.js:594-908, server-ceo.js:217-267), so `AverageRow` has none either. Only the CEO IZMIR and URFA queries return `ConsumedQty` (server-ceo.js:134, 197), and the model keeps it.
- `parseFloat(...) \|\| 0` on a missing `Consumed` value in script.js. The model's figures are always numbers.
- The unused `expensesCurrent` of ceo-dashboard.js:47 and the overall totals script.js computes but never shows.
- The IZMIR tray row is found by its label text (ceo-dashboard.js:189). The model finds it by purchase type, which gives that label.
- IsoDates: formatting and the month keys require four-digit years, and the client-side key equality requires years 1000–9999, because JavaScript does not zero-pad shorter years.
- Pnl.Magnitude: states only that the value is non-negative and 0 for a missing key. `Pnl.BranchFiguresFields` pins it down per field, and its body is `Math.abs`.
