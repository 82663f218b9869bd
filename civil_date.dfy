/**
 * Calendar days in the proleptic Gregorian calendar, their order, the next day, and the
 * `yyyyMMdd` rendering the device uses for its per-day directories.
 */
module CivilDate {
  import opened Wrappers

  datatype Date = Date(year: int, month: int, day: int)

  predicate IsLeapYear(y: int) {
    (y % 4 == 0 && y % 100 != 0) || y % 400 == 0
  }

  function DaysInMonth(y: int, m: int): int
    requires 1 <= m <= 12
  {
    if m == 2 then (if IsLeapYear(y) then 29 else 28)
    else if m == 4 || m == 6 || m == 9 || m == 11 then 30
    else 31
  }

  predicate Valid(d: Date) {
    1 <= d.year && 1 <= d.month <= 12 && 1 <= d.day <= DaysInMonth(d.year, d.month)
  }

  /** Strictly earlier: year, then month, then day. */
  predicate Before(a: Date, b: Date) {
    a.year < b.year || (a.year == b.year && (a.month < b.month || (a.month == b.month && a.day < b.day)))
  }

  predicate NotAfter(a: Date, b: Date) {
    a == b || Before(a, b)
  }

  /** The day after `d`, rolling over the month and the year. */
  function NextDay(d: Date): (n: Date)
    requires Valid(d)
    ensures Valid(n) && Before(d, n)
  {
    if d.day < DaysInMonth(d.year, d.month) then d.(day := d.day + 1)
    else if d.month < 12 then Date(d.year, d.month + 1, 1)
    else Date(d.year + 1, 1, 1)
  }

  /** No valid day lies strictly between a day and the next one. */
  lemma NextDayIsAdjacent(d: Date, e: Date)
    requires Valid(d) && Valid(e) && Before(d, e)
    ensures NotAfter(NextDay(d), e)
  {
  }

  /** Two days are ordered one way or the other. */
  lemma OrderIsTotal(a: Date, b: Date)
    ensures NotAfter(a, b) || Before(b, a)
    ensures !(Before(a, b) && NotAfter(b, a))
  {
  }

  function DigitChar(n: int): char
    requires 0 <= n < 10
  {
    (('0' as int) + n) as char
  }

  predicate IsDigit(c: char) {
    '0' <= c <= '9'
  }

  /** The decimal digits of `n`, without leading zeros ("0" for zero). */
  function Decimal(n: nat): (s: string)
    ensures |s| >= 1 && forall i :: 0 <= i < |s| ==> IsDigit(s[i])
  {
    if n < 10 then [DigitChar(n)] else Decimal(n / 10) + [DigitChar(n % 10)]
  }

  function Zeros(k: nat): (s: string)
    ensures |s| == k && forall i :: 0 <= i < k ==> s[i] == '0'
  {
    seq(k, _ => '0')
  }

  /** `n` left-padded with zeros to at least `width` digits, as a date format field prints it. */
  function Padded(n: nat, width: nat): (s: string)
    ensures |s| >= width && forall i :: 0 <= i < |s| ==> IsDigit(s[i])
  {
    var digits := Decimal(n);
    if |digits| >= width then digits else Zeros(width - |digits|) + digits
  }

  /** The number a string of decimal digits denotes. */
  function ValueOf(s: string): int
    requires forall i :: 0 <= i < |s| ==> IsDigit(s[i])
  {
    if s == [] then 0 else ValueOf(s[..|s| - 1]) * 10 + (s[|s| - 1] as int - '0' as int)
  }

  lemma {:induction false} ValueOfDecimal(n: nat)
    ensures ValueOf(Decimal(n)) == n
  {
    if n >= 10 {
      var s := Decimal(n);
      assert s[..|s| - 1] == Decimal(n / 10);
      ValueOfDecimal(n / 10);
    }
  }

  lemma {:induction false} LeadingZerosDoNotCount(k: nat, s: string)
    requires forall i :: 0 <= i < |s| ==> IsDigit(s[i])
    ensures ValueOf(Zeros(k) + s) == ValueOf(s)
  {
    if s == [] {
      assert Zeros(k) + s == Zeros(k);
      AllZerosIsZero(k);
    } else {
      var t := Zeros(k) + s;
      assert t[..|t| - 1] == Zeros(k) + s[..|s| - 1];
      LeadingZerosDoNotCount(k, s[..|s| - 1]);
    }
  }

  lemma {:induction false} AllZerosIsZero(k: nat)
    ensures ValueOf(Zeros(k)) == 0
  {
    if k > 0 {
      assert Zeros(k)[..k - 1] == Zeros(k - 1);
      AllZerosIsZero(k - 1);
    }
  }

  /** Padding never changes the value a field denotes. */
  lemma PaddedValue(n: nat, width: nat)
    ensures ValueOf(Padded(n, width)) == n
  {
    ValueOfDecimal(n);
    if |Decimal(n)| < width {
      LeadingZerosDoNotCount(width - |Decimal(n)|, Decimal(n));
    }
  }

  function Pow10(w: nat): nat {
    if w == 0 then 1 else 10 * Pow10(w - 1)
  }

  lemma {:induction false} DecimalLength(n: nat, w: nat)
    requires w >= 1 && n < Pow10(w)
    ensures |Decimal(n)| <= w
  {
    if n >= 10 {
      DecimalLength(n / 10, w - 1);
    }
  }

  /** A field below 10^width is printed in exactly `width` digits. */
  lemma PaddedWidth(n: nat, width: nat)
    requires width >= 1 && n < Pow10(width)
    ensures |Padded(n, width)| == width
  {
    DecimalLength(n, width);
  }

  /** `yyyyMMdd`: four-digit year (more digits past 9999), two-digit month and day. */
  function FormatYyyyMMdd(d: Date): (s: string)
    requires Valid(d)
    ensures |s| >= 8 && forall i :: 0 <= i < |s| ==> IsDigit(s[i])
  {
    Padded(d.year, 4) + Padded(d.month, 2) + Padded(d.day, 2)
  }

  /** Reads an eight-digit `yyyyMMdd` string back. */
  function ParseYyyyMMdd(s: string): Option<Date> {
    if |s| == 8 && forall i :: 0 <= i < 8 ==> IsDigit(s[i]) then
      Some(Date(ValueOf(s[..4]), ValueOf(s[4..6]), ValueOf(s[6..])))
    else None
  }

  /** For the years 1 to 9999 the rendering is eight digits and reads back as the same day. */
  lemma FormatRoundTrip(d: Date)
    requires Valid(d) && d.year <= 9999
    ensures |FormatYyyyMMdd(d)| == 8
    ensures ParseYyyyMMdd(FormatYyyyMMdd(d)) == Some(d)
  {
    PaddedWidth(d.year, 4);
    PaddedWidth(d.month, 2);
    PaddedWidth(d.day, 2);
    PaddedValue(d.year, 4);
    PaddedValue(d.month, 2);
    PaddedValue(d.day, 2);
    var s := FormatYyyyMMdd(d);
    assert s[..4] == Padded(d.year, 4);
    assert s[4..6] == Padded(d.month, 2);
    assert s[6..] == Padded(d.day, 2);
  }

  /** Distinct days of the years 1 to 9999 render differently. */
  lemma FormatIsInjective(a: Date, b: Date)
    requires Valid(a) && a.year <= 9999 && Valid(b) && b.year <= 9999
    requires FormatYyyyMMdd(a) == FormatYyyyMMdd(b)
    ensures a == b
  {
    FormatRoundTrip(a);
    FormatRoundTrip(b);
  }
}
