/** The ERP records the queries read, reduced to the columns they use, and
    the row filters and per-row amounts written into the SQL text. */
module Ledger {
  import opened Basics
  import opened Calendar

  /** Branch ids (`BPLId`) in display order: IZMIR, URFA, FLEX. */
  const Izmir: int := 1
  const Urfa: int := 3
  const Flex: int := 4
  const BranchOrder: seq<int> := [1, 3, 4]

  /** The surcharge both front ends and the live queries put on issued raw
      material: 40% at IZMIR, 20% at URFA. */
  const IzmirMarkup: real := 1.4
  const UrfaMarkup: real := 1.2

  /** One journal-entry line (a JDT1 row together with the columns of its
      OJDT header that the queries read). `transType` is the document type as
      text (`'-3'`, `'18'`, `'19'`, ...); `sourceLine` is NULL-able.
      `refDate` and `transType` each stand for both the line's own column
      (read by the income and expense summaries) and the header's column
      (read by every other query); SAP copies the header's date and type onto
      the lines. */
  datatype JournalLine = JournalLine(
    account: string,
    branch: int,
    debit: real,
    credit: real,
    refDate: Date,
    transType: string,
    sourceLine: Option<int>,
    shortName: string,
    contraAccount: string)

  /** One inventory movement (OINM) with the item group of its item (OITB via
      OITM) and the branch of its warehouse (OWHS); the left joins make both
      NULL-able, as are quantity, price, rate and currency. */
  datatype InventoryMove = InventoryMove(
    itemGroup: Option<int>,
    transType: int,
    warehouseBranch: Option<int>,
    docDate: Date,
    outQty: Option<real>,
    price: Option<real>,
    rate: Option<real>,
    currency: Option<string>)

  /** One daily exchange rate (ORTT). */
  datatype RateRecord = RateRecord(currency: string, rateDate: Date, rate: Option<real>)

  /** `s LIKE 'prefix%'` for a prefix without wildcards. */
  predicate StartsWith(s: string, prefix: string) {
    |prefix| <= |s| && s[..|prefix|] == prefix
  }

  predicate HasAnyPrefix(s: string, prefixes: seq<string>) {
    exists i :: 0 <= i < |prefixes| && StartsWith(s, prefixes[i])
  }

  /** Two prefixes of the same length that differ cannot both start `s`. */
  lemma DistinctPrefixesExclusive(s: string, p: string, q: string)
    requires |p| == |q| && p != q
    ensures !(StartsWith(s, p) && StartsWith(s, q))
  {
  }

  /** Revenue accounts (`600-01-%`, `601-01-%`, `602-01-%`). */
  const IncomePrefixes: seq<string> := ["600-01-", "601-01-", "602-01-"]

  /** Sales-discount accounts (`610-01-%`, `612-01-%`). */
  const DiscountPrefixes: seq<string> := ["610-01-", "612-01-"]

  /** No account is both a revenue and a discount account. */
  lemma IncomeAndDiscountDisjoint(s: string)
    ensures !(HasAnyPrefix(s, IncomePrefixes) && HasAnyPrefix(s, DiscountPrefixes))
  {
  }

  /** The filter shared by the monthly income and expense queries: the
      reference date in the inclusive range, not a document of type `'-3'`,
      not a source line `-8` (a NULL source line passes), a reporting branch. */
  predicate CountsInPeriod(j: JournalLine, range: DateRange) {
    && InRange(j.refDate, range.start, range.end)
    && j.transType != "-3"
    && j.sourceLine != Some(-8)
    && (j.branch == 1 || j.branch == 3 || j.branch == 4)
  }

  /** XPET tray purchases: purchase invoices (type 18) posted to account
      153-01-0004 at the IZMIR branch. */
  predicate IsTrayPurchase(j: JournalLine) {
    j.transType == "18" && j.account == "153-01-0004" && j.branch == 1
  }

  /** XPET roll purchases: supplier T012274 on purchase invoices or credit
      notes (types 18 and 19), or supplier T013833 against 891-01-0001. */
  predicate IsRollPurchase(j: JournalLine) {
    (j.shortName == "T012274" && (j.transType == "19" || j.transType == "18"))
    || (j.shortName == "T013833" && j.contraAccount == "891-01-0001")
  }

  /** XPET pad purchases: supplier T010748 on types 18 and 19. */
  predicate IsPadPurchase(j: JournalLine) {
    j.shortName == "T010748" && (j.transType == "19" || j.transType == "18")
  }

  /** FLEX's raw material is booked on the 620-01 and 895-01 accounts. */
  predicate IsFlexRawMaterial(j: JournalLine) {
    j.branch == 4 && (StartsWith(j.account, "620-01") || StartsWith(j.account, "895-01"))
  }

  /** Raw-material consumption: items of group 111 issued by a transaction of
      type 60. */
  predicate IsRawMaterialIssue(m: InventoryMove) {
    m.itemGroup == Some(111) && m.transType == 60
  }

  /** A move is priced in a foreign currency when its currency is present and
      is not `'TRY'`; a NULL currency makes `Currency <> 'TRY'` unknown, so
      the query treats it like the local currency. */
  predicate IsForeign(m: InventoryMove) {
    m.currency.Some? && m.currency.value != "TRY"
  }

  /** `ISNULL(CASE WHEN Currency <> 'TRY' THEN Price * NULLIF(Rate, 0)
      ELSE Price END, 0)`: the unit price in local currency. */
  function UnitCost(m: InventoryMove): (r: real)
    ensures m.price.None? ==> r == 0.0
    ensures IsForeign(m) && (m.rate.None? || m.rate == Some(0.0)) ==> r == 0.0
    ensures IsForeign(m) && m.price.Some? && m.rate.Some? && m.rate.value != 0.0 ==>
      r == m.price.value * m.rate.value
    ensures !IsForeign(m) ==> r == m.price.GetOr(0.0)
  {
    match m.price
    case None => 0.0
    case Some(p) =>
      if IsForeign(m) then
        (match m.rate
         case None => 0.0
         case Some(rate) => if rate == 0.0 then 0.0 else p * rate)
      else p
  }

  /** Quantity times local unit cost; a NULL quantity contributes nothing. */
  function LineCost(m: InventoryMove): real {
    m.outQty.GetOr(0.0) * UnitCost(m)
  }

  /** A local-currency move costs quantity times price whatever rate is
      recorded on it, and a foreign one costs quantity times price times
      rate, or nothing when the rate is missing or zero. */
  lemma CurrencyConversion(m: InventoryMove, otherRate: Option<real>)
    ensures !IsForeign(m) ==>
      LineCost(m) == m.outQty.GetOr(0.0) * m.price.GetOr(0.0)
      && LineCost(m.(rate := otherRate)) == LineCost(m)
    ensures IsForeign(m) && m.rate.Some? && m.rate.value != 0.0 ==>
      LineCost(m) == m.outQty.GetOr(0.0) * m.price.GetOr(0.0) * m.rate.value
    ensures IsForeign(m) && (m.rate.None? || m.rate == Some(0.0)) ==> LineCost(m) == 0.0
  {
    if IsForeign(m) && m.rate.Some? && m.rate.value != 0.0 && m.price.None? {
      assert LineCost(m) == 0.0;
    }
  }
}
