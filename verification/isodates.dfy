/** Date text as the dashboards write and read it: ISO 8601 calendar dates in
    extended format `YYYY-MM-DD` (ISO 8601:2004 section 4.1.2.2), the `YYYY-MM`
    month keys of the exchange-rate map, and JavaScript's unpadded
    `${number}` interpolation that the client uses to build both. */
module IsoDates {
  import opened Basics
  import opened Calendar

  predicate IsDigit(c: char) {
    '0' <= c <= '9'
  }

  function Digit(n: int): (c: char)
    requires 0 <= n <= 9
    ensures IsDigit(c)
  {
    ('0' as int + n) as char
  }

  function DigitValue(c: char): (n: int)
    requires IsDigit(c)
    ensures 0 <= n <= 9
  {
    c as int - '0' as int
  }

  /** A number below 100 as exactly two digits, zero-padded
      (`String(n).padStart(2, '0')`). */
  function Pad2(n: int): (s: string)
    requires 0 <= n <= 99
    ensures |s| == 2 && IsDigit(s[0]) && IsDigit(s[1])
  {
    [Digit(n / 10), Digit(n % 10)]
  }

  /** A number below 10000 as exactly four digits, zero-padded. */
  function Pad4(n: int): (s: string)
    requires 0 <= n <= 9999
    ensures |s| == 4 && forall i :: 0 <= i < 4 ==> IsDigit(s[i])
  {
    [Digit(n / 1000), Digit(n / 100 % 10), Digit(n / 10 % 10), Digit(n % 10)]
  }

  function Pow10(k: nat): (p: nat)
    ensures p >= 1
  {
    if k == 0 then 1 else 10 * Pow10(k - 1)
  }

  /** The value of a string of decimal digits. */
  function DigitsValue(s: string): (n: int)
    requires forall i :: 0 <= i < |s| ==> IsDigit(s[i])
    ensures 0 <= n < Pow10(|s|)
    decreases |s|
  {
    if |s| == 0 then 0 else DigitsValue(s[..|s| - 1]) * 10 + DigitValue(s[|s| - 1])
  }

  lemma Pad2Value(n: int)
    requires 0 <= n <= 99
    ensures DigitsValue(Pad2(n)) == n
  {
    var s := Pad2(n);
    assert s[..1] == [s[0]];
    assert s[..1][..0] == [];
    assert DigitValue(s[0]) == n / 10;
    assert DigitValue(s[1]) == n % 10;
    assert DigitsValue(s[..1]) == n / 10;
  }

  /** Appending a digit: the quotient by ten drops it again. */
  lemma ShiftDigit(q: int, d: int)
    requires 0 <= q && 0 <= d <= 9
    ensures (q * 10 + d) / 10 == q && (q * 10 + d) % 10 == d
  {
  }

  lemma DivideByPowers(n: int)
    requires 0 <= n
    ensures n / 100 == n / 10 / 10 && n / 1000 == n / 10 / 10 / 10
  {
  }

  lemma SplitLastDigit(n: int)
    requires 0 <= n
    ensures n / 10 * 10 + n % 10 == n
  {
  }

  lemma Pad4Value(n: int)
    requires 0 <= n <= 9999
    ensures DigitsValue(Pad4(n)) == n
  {
    var s := Pad4(n);
    assert s[..3] == [s[0], s[1], s[2]];
    assert s[..3][..2] == [s[0], s[1]];
    assert s[..3][..2][..1] == [s[0]];
    assert s[..3][..2][..1][..0] == [];
    DivideByPowers(n);
    SplitLastDigit(n);
    SplitLastDigit(n / 10);
    SplitLastDigit(n / 100);
    assert DigitsValue([s[0]]) == n / 1000;
    assert DigitsValue([s[0], s[1]]) == n / 1000 * 10 + n / 100 % 10 == n / 100;
    assert DigitsValue([s[0], s[1], s[2]]) == n / 100 * 10 + n / 10 % 10 == n / 10;
  }

  lemma Pad2OfValue(s: string)
    requires |s| == 2 && IsDigit(s[0]) && IsDigit(s[1])
    ensures DigitsValue(s) <= 99 && Pad2(DigitsValue(s)) == s
  {
    assert s[..1] == [s[0]];
    assert s[..1][..0] == [];
    assert DigitsValue(s[..1]) == DigitValue(s[0]);
    var n := DigitsValue(s);
    assert n == DigitValue(s[0]) * 10 + DigitValue(s[1]);
    assert Pad2(n)[0] == s[0];
    assert Pad2(n)[1] == s[1];
  }

  lemma FourDigitsValue(s: string)
    requires |s| == 4 && forall i :: 0 <= i < 4 ==> IsDigit(s[i])
    ensures DigitsValue(s)
      == ((DigitValue(s[0]) * 10 + DigitValue(s[1])) * 10 + DigitValue(s[2])) * 10 + DigitValue(s[3])
  {
    assert s[..3] == [s[0], s[1], s[2]];
    assert s[..3][..2] == [s[0], s[1]];
    assert s[..3][..2][..1] == [s[0]];
    assert s[..3][..2][..1][..0] == [];
    var a, b, c := DigitValue(s[0]), DigitValue(s[1]), DigitValue(s[2]);
    assert DigitsValue([s[0]]) == a;
    assert DigitsValue([s[0], s[1]]) == a * 10 + b;
    assert DigitsValue(s[..3]) == (a * 10 + b) * 10 + c;
  }

  lemma FourDigitsSplit(a: int, b: int, c: int, d: int)
    requires 0 <= a <= 9 && 0 <= b <= 9 && 0 <= c <= 9 && 0 <= d <= 9
    ensures var n := ((a * 10 + b) * 10 + c) * 10 + d;
      n / 1000 == a && n / 100 % 10 == b && n / 10 % 10 == c && n % 10 == d
  {
    var ab := a * 10 + b;
    var abc := ab * 10 + c;
    var n := abc * 10 + d;
    ShiftDigit(abc, d);
    ShiftDigit(ab, c);
    ShiftDigit(a, b);
    DivideByPowers(n);
    assert n / 10 == abc;
    assert n / 100 == ab;
    assert n / 1000 == a;
  }

  lemma Pad4OfValue(s: string)
    requires |s| == 4 && forall i :: 0 <= i < 4 ==> IsDigit(s[i])
    ensures DigitsValue(s) <= 9999 && Pad4(DigitsValue(s)) == s
  {
    var a, b, c, d := DigitValue(s[0]), DigitValue(s[1]), DigitValue(s[2]), DigitValue(s[3]);
    FourDigitsValue(s);
    FourDigitsSplit(a, b, c, d);
    var n := DigitsValue(s);
    assert Pad4(n) == [Digit(a), Digit(b), Digit(c), Digit(d)];
    assert Digit(a) == s[0] && Digit(b) == s[1] && Digit(c) == s[2] && Digit(d) == s[3];
    assert s == [s[0], s[1], s[2], s[3]];
  }

  /** JavaScript's `${n}` for a non-negative integer: its decimal digits
      without padding. */
  function DecimalString(n: nat): (s: string)
    ensures |s| >= 1
    decreases n
  {
    if n < 10 then [Digit(n)] else DecimalString(n / 10) + [Digit(n % 10)]
  }

  /** A four-digit year prints the same with or without padding. */
  lemma DecimalStringOfFourDigits(n: nat)
    requires 1000 <= n <= 9999
    ensures DecimalString(n) == Pad4(n)
  {
    assert n / 10 / 10 == n / 100;
    assert n / 100 / 10 == n / 1000;
    assert DecimalString(n / 1000) == [Digit(n / 1000)];
    assert DecimalString(n / 100) == [Digit(n / 1000), Digit(n / 100 % 10)];
    assert DecimalString(n / 10) == [Digit(n / 1000), Digit(n / 100 % 10), Digit(n / 10 % 10)];
  }

  /** A two-digit number prints the same with or without padding. */
  lemma DecimalStringOfTwoDigits(n: nat)
    requires 10 <= n <= 99
    ensures DecimalString(n) == Pad2(n)
  {
  }

  /** Dates whose year fits the four-digit `YYYY` field. */
  predicate FourDigitYear(y: int) {
    0 <= y <= 9999
  }

  /** `YYYY-MM-DD`. */
  function FormatDate(d: Date): (s: string)
    requires FourDigitYear(d.year) && ValidDate(d)
    ensures |s| == 10 && s[4] == '-' && s[7] == '-'
  {
    Pad4(d.year) + "-" + Pad2(d.month) + "-" + Pad2(d.day)
  }

  /** Reads `YYYY-MM-DD`; anything else, or a month or day that does not
      exist, is rejected. */
  function ParseDate(s: string): (r: Option<Date>)
    ensures r.Some? ==> FourDigitYear(r.value.year) && ValidDate(r.value)
  {
    if |s| == 10 && s[4] == '-' && s[7] == '-'
       && (forall i :: 0 <= i < 10 && i != 4 && i != 7 ==> IsDigit(s[i]))
    then
      var y := DigitsValue(s[..4]);
      var m := DigitsValue(s[5..7]);
      var d := DigitsValue(s[8..]);
      if 1 <= m <= 12 && 1 <= d <= DaysInMonth(y, m) then Some(Date(y, m, d)) else None
    else None
  }

  /** Every date with a four-digit year reads back from its text. */
  lemma ParseFormatDate(d: Date)
    requires FourDigitYear(d.year) && ValidDate(d)
    ensures ParseDate(FormatDate(d)) == Some(d)
  {
    var s := FormatDate(d);
    assert s[..4] == Pad4(d.year);
    assert s[5..7] == Pad2(d.month);
    assert s[8..] == Pad2(d.day);
    Pad4Value(d.year);
    Pad2Value(d.month);
    Pad2Value(d.day);
  }

  /** Every text that reads as a date is that date's canonical text. */
  lemma FormatParseDate(s: string)
    requires ParseDate(s).Some?
    ensures FormatDate(ParseDate(s).value) == s
  {
    var d := ParseDate(s).value;
    assert forall i :: 0 <= i < 4 ==> s[..4][i] == s[i];
    assert forall i :: 0 <= i < 2 ==> s[5..7][i] == s[i + 5];
    assert forall i :: 0 <= i < 2 ==> s[8..][i] == s[i + 8];
    Pad4OfValue(s[..4]);
    Pad2OfValue(s[5..7]);
    Pad2OfValue(s[8..]);
    assert s == s[..4] + "-" + s[5..7] + "-" + s[8..];
  }

  /** Distinct dates have distinct texts. */
  lemma FormatDateInjective(a: Date, b: Date)
    requires FourDigitYear(a.year) && ValidDate(a)
    requires FourDigitYear(b.year) && ValidDate(b)
    requires FormatDate(a) == FormatDate(b)
    ensures a == b
  {
    ParseFormatDate(a);
    ParseFormatDate(b);
  }

  /** `CONVERT(char(7), d, 120)`: the `yyyy-MM` prefix of SQL Server's ODBC
      canonical date text. */
  function SqlMonthKey(ym: YearMonth): (s: string)
    requires FourDigitYear(ym.year)
    ensures |s| == 7 && s[4] == '-'
  {
    Pad4(ym.year) + "-" + Pad2(ym.month)
  }

  /** JavaScript's `${year}`: the decimal digits, after a minus sign when
      the year is negative. */
  function YearText(y: int): (s: string)
    ensures 1000 <= y <= 9999 ==> s == Pad4(y)
  {
    if 1000 <= y <= 9999 then DecimalStringOfFourDigits(y); DecimalString(y)
    else if y < 0 then "-" + DecimalString(-y) else DecimalString(y)
  }

  /** The client's lookup key `${year}-${String(month).padStart(2, '0')}`. */
  function ClientMonthKey(ym: YearMonth): string {
    YearText(ym.year) + "-" + Pad2(ym.month)
  }

  /** Reads a `yyyy-MM` key back. */
  function ParseMonthKey(s: string): (r: Option<YearMonth>)
    ensures r.Some? ==> FourDigitYear(r.value.year)
  {
    if |s| == 7 && s[4] == '-' && (forall i :: 0 <= i < 7 && i != 4 ==> IsDigit(s[i]))
    then
      var m := DigitsValue(s[5..]);
      if 1 <= m <= 12 then Some(YearMonth(DigitsValue(s[..4]), m)) else None
    else None
  }

  lemma ParseSqlMonthKey(ym: YearMonth)
    requires FourDigitYear(ym.year)
    ensures ParseMonthKey(SqlMonthKey(ym)) == Some(ym)
  {
    var s := SqlMonthKey(ym);
    assert s[..4] == Pad4(ym.year);
    assert s[5..] == Pad2(ym.month);
    Pad4Value(ym.year);
    Pad2Value(ym.month);
  }

  /** Distinct months have distinct keys, so the exchange-rate map never
      merges two months. */
  lemma SqlMonthKeyInjective(a: YearMonth, b: YearMonth)
    requires FourDigitYear(a.year) && FourDigitYear(b.year)
    requires SqlMonthKey(a) == SqlMonthKey(b)
    ensures a == b
  {
    ParseSqlMonthKey(a);
    ParseSqlMonthKey(b);
  }

  /** For four-digit years the client's key is the server's key. */
  lemma ClientKeyIsSqlKey(ym: YearMonth)
    requires 1000 <= ym.year <= 9999
    ensures ClientMonthKey(ym) == SqlMonthKey(ym)
  {
  }
}
