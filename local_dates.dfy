/**
  Calendar dates as java.time.LocalDate holds them, the strict ISO-8601
  parser the controller applies to the request (LocalDate.parse with the
  ISO_LOCAL_DATE format) and the text LocalDate.toString produces, which is
  that parser's inverse.
*/
module LocalDates {
  import opened Wrappers

  /** A calendar date in the proleptic Gregorian calendar, without time of day or zone. */
  datatype Date = Date(year: int, month: int, day: int)

  predicate IsLeapYear(y: int) {
    y % 4 == 0 && (y % 100 != 0 || y % 400 == 0)
  }

  function DaysInMonth(y: int, m: int): (n: int)
    requires 1 <= m <= 12
    ensures 28 <= n <= 31
    ensures n == 29 <==> m == 2 && IsLeapYear(y)
  {
    if m == 2 then (if IsLeapYear(y) then 29 else 28)
    else if m == 4 || m == 6 || m == 9 || m == 11 then 30
    else 31
  }

  /** The dates the strict resolver accepts: a real month and a day that exists in it. */
  predicate IsValid(d: Date) {
    1 <= d.month <= 12 && 1 <= d.day <= DaysInMonth(d.year, d.month)
  }

  /** Strict calendar order: by year, then month, then day. */
  predicate Before(a: Date, b: Date) {
    a.year < b.year
    || (a.year == b.year && (a.month < b.month || (a.month == b.month && a.day < b.day)))
  }

  /** Any two dates are equal or ordered one way, never two of these at once. */
  lemma BeforeTrichotomy(a: Date, b: Date)
    ensures Before(a, b) || a == b || Before(b, a)
    ensures !(Before(a, b) && Before(b, a))
    ensures !Before(a, a)
  {
  }

  predicate IsDigit(c: char) {
    '0' <= c <= '9'
  }

  predicate AllDigits(s: string) {
    forall i :: 0 <= i < |s| ==> IsDigit(s[i])
  }

  function DigitValue(c: char): (n: int)
    requires IsDigit(c)
    ensures 0 <= n <= 9
  {
    c as int - '0' as int
  }

  function DigitChar(n: int): (c: char)
    requires 0 <= n <= 9
    ensures IsDigit(c) && DigitValue(c) == n
  {
    (n + '0' as int) as char
  }

  function Pow10(w: nat): (p: nat)
    ensures p >= 1
  {
    if w == 0 then 1 else 10 * Pow10(w - 1)
  }

  /** The decimal value of a string of digits, most significant first. */
  function Number(s: string): (n: int)
    requires AllDigits(s)
    ensures 0 <= n < Pow10(|s|)
  {
    if s == [] then 0 else 10 * Number(s[..|s| - 1]) + DigitValue(s[|s| - 1])
  }

  /** The last `width` decimal digits of n, padded with leading zeros. */
  function Padded(n: int, width: nat): (s: string)
    requires 0 <= n
    ensures |s| == width && AllDigits(s)
  {
    if width == 0 then [] else Padded(n / 10, width - 1) + [DigitChar(n % 10)]
  }

  lemma {:induction false} NumberOfPadded(n: int, width: nat)
    requires 0 <= n < Pow10(width)
    ensures Number(Padded(n, width)) == n
  {
    if width > 0 {
      var s := Padded(n, width);
      assert s[..|s| - 1] == Padded(n / 10, width - 1);
      NumberOfPadded(n / 10, width - 1);
    }
  }

  lemma {:induction false} PaddedOfNumber(s: string)
    requires AllDigits(s)
    ensures Padded(Number(s), |s|) == s
  {
    if s != [] {
      var init, last := s[..|s| - 1], s[|s| - 1];
      var n := Number(s);
      assert n / 10 == Number(init) && n % 10 == DigitValue(last);
      PaddedOfNumber(init);
      assert s == init + [last];
    }
  }

  /** Where LocalDate.parse puts the separators and digits of "YYYY-MM-DD". */
  predicate IsIsoShape(s: string) {
    |s| == 10 && s[4] == '-' && s[7] == '-'
    && AllDigits(s[..4]) && AllDigits(s[5..7]) && AllDigits(s[8..])
  }

  /**
    LocalDate.parse: the ISO-8601 extended calendar date "YYYY-MM-DD",
    resolved strictly, so "2023-02-29" and "2021-04-31" are rejected
    rather than rolled over. None stands for DateTimeParseException.
  */
  function ParseIsoDate(s: string): (r: Option<Date>)
    ensures r.Some? ==> IsValid(r.value) && 0 <= r.value.year <= 9999
  {
    if IsIsoShape(s) then
      var d := Date(Number(s[..4]), Number(s[5..7]), Number(s[8..]));
      if IsValid(d) then Some(d) else None
    else None
  }

  /** LocalDate.toString for a year written with four digits. */
  function FormatIsoDate(d: Date): (s: string)
    requires 0 <= d.year <= 9999 && 1 <= d.month <= 12 && 1 <= d.day <= 31
    ensures IsIsoShape(s)
  {
    var s := Padded(d.year, 4) + "-" + Padded(d.month, 2) + "-" + Padded(d.day, 2);
    assert s[..4] == Padded(d.year, 4) && s[5..7] == Padded(d.month, 2) && s[8..] == Padded(d.day, 2);
    s
  }

  /** Every valid four-digit-year date survives printing and parsing. */
  lemma ParseFormat(d: Date)
    requires IsValid(d) && 0 <= d.year <= 9999
    ensures ParseIsoDate(FormatIsoDate(d)) == Some(d)
  {
    var s := FormatIsoDate(d);
    assert s[..4] == Padded(d.year, 4) && s[5..7] == Padded(d.month, 2) && s[8..] == Padded(d.day, 2);
    NumberOfPadded(d.year, 4);
    NumberOfPadded(d.month, 2);
    NumberOfPadded(d.day, 2);
  }

  /** The parser accepts only the canonical text of the date it returns. */
  lemma FormatParse(s: string)
    requires ParseIsoDate(s).Some?
    ensures FormatIsoDate(ParseIsoDate(s).value) == s
  {
    PaddedOfNumber(s[..4]);
    PaddedOfNumber(s[5..7]);
    PaddedOfNumber(s[8..]);
    var t := FormatIsoDate(ParseIsoDate(s).value);
    assert t[..4] == s[..4] && t[4] == s[4] && t[5..7] == s[5..7] && t[7] == s[7] && t[8..] == s[8..];
    assert t == t[..4] + [t[4]] + t[5..7] + [t[7]] + t[8..];
    assert s == s[..4] + [s[4]] + s[5..7] + [s[7]] + s[8..];
  }

  /** The date the controller tests pass for the past branch. */
  lemma ParseExamplePast()
    ensures ParseIsoDate("2020-10-10") == Some(Date(2020, 10, 10))
  {
    ParseFormat(Date(2020, 10, 10));
    assert FormatIsoDate(Date(2020, 10, 10)) == "2020-10-10";
  }

  /** A three-digit year, as in the controller tests' malformed date, is rejected. */
  lemma ParseExampleShortYear()
    ensures ParseIsoDate("202-03-30") == None
  {
  }

  /** The strict resolver accepts the 29th of February in a leap year. */
  lemma ParseExampleLeapDay()
    ensures ParseIsoDate("2024-02-29") == Some(Date(2024, 2, 29))
  {
    ParseFormat(Date(2024, 2, 29));
    assert FormatIsoDate(Date(2024, 2, 29)) == "2024-02-29";
  }

  /** The strict resolver rejects the 29th of February outside leap years instead of rolling it over. */
  lemma ParseExampleNoLeapDay()
    ensures ParseIsoDate("2023-02-29") == None
  {
    var s := "2023-02-29";
    assert s[..4] == Padded(2023, 4) && s[5..7] == Padded(2, 2) && s[8..] == Padded(29, 2);
    NumberOfPadded(2023, 4);
    NumberOfPadded(2, 2);
    NumberOfPadded(29, 2);
    assert !IsLeapYear(2023);
  }
}
