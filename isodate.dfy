/**
 * Calendar dates in the extended format of ISO 8601 (`YYYY-MM-DD`,
 * section 4.1.2.2 of ISO 8601:2004), as Python's `date.fromisoformat` and
 * `date.isoformat` read and write them, with Python's own range of years
 * (1 to 9999) and proleptic Gregorian calendar.
 */
module IsoDate {
  import opened Results
  import opened Text

  datatype Date = Date(year: int, month: int, day: int)

  predicate IsLeap(y: int) {
    y % 4 == 0 && (y % 100 != 0 || y % 400 == 0)
  }

  function DaysInMonth(y: int, m: int): int
    requires 1 <= m <= 12
  {
    if m == 2 then (if IsLeap(y) then 29 else 28)
    else if m == 4 || m == 6 || m == 9 || m == 11 then 30
    else 31
  }

  /** The dates a Python `date` object can hold. */
  predicate ValidDate(d: Date) {
    1 <= d.year <= 9999 && 1 <= d.month <= 12 && 1 <= d.day <= DaysInMonth(d.year, d.month)
  }

  /** Strict calendar order (Python compares dates field by field). */
  predicate Before(a: Date, b: Date) {
    a.year < b.year || (a.year == b.year && (a.month < b.month || (a.month == b.month && a.day < b.day)))
  }

  function Digits4(n: nat): (s: string)
    requires n < 10000
    ensures |s| == 4 && AllDigits(s)
  {
    Digits2(n / 100) + Digits2(n % 100)
  }

  function Digits2(n: nat): (s: string)
    requires n < 100
    ensures |s| == 2 && AllDigits(s)
  {
    [DigitChar(n / 10), DigitChar(n % 10)]
  }

  /** `date.isoformat()`. */
  function FormatDate(d: Date): (s: string)
    requires ValidDate(d)
    ensures |s| == 10 && s[4] == '-' && s[7] == '-'
  {
    Digits4(d.year) + "-" + Digits2(d.month) + "-" + Digits2(d.day)
  }

  function Value4(s: string): nat
    requires |s| == 4 && AllDigits(s)
  {
    100 * Value2(s[..2]) + Value2(s[2..])
  }

  function Value2(s: string): nat
    requires |s| == 2 && AllDigits(s)
  {
    10 * DigitValue(s[0]) + DigitValue(s[1])
  }

  predicate IsoShape(s: string) {
    |s| == 10 && s[4] == '-' && s[7] == '-'
    && AllDigits(s[..4]) && AllDigits(s[5..7]) && AllDigits(s[8..])
  }

  /** `date.fromisoformat(s)`: `None` where Python raises ValueError. */
  function ParseDate(s: string): (r: Option<Date>)
    ensures r.Some? ==> ValidDate(r.value) && IsoShape(s)
  {
    if !IsoShape(s) then None
    else
      var d := Date(Value4(s[..4]), Value2(s[5..7]), Value2(s[8..]));
      if ValidDate(d) then Some(d) else None
  }

  lemma Digits4Value(n: nat)
    requires n < 10000
    ensures Value4(Digits4(n)) == n
  {
    var s := Digits4(n);
    assert s[..2] == Digits2(n / 100) && s[2..] == Digits2(n % 100);
  }

  lemma DivMod100(n: int, q: int, r: int)
    requires 0 <= r < 100 && n == 100 * q + r
    ensures n / 100 == q && n % 100 == r
  {
  }

  lemma Value4Digits(s: string)
    requires |s| == 4 && AllDigits(s)
    ensures Value4(s) < 10000 && Digits4(Value4(s)) == s
  {
    Value2Digits(s[..2]);
    Value2Digits(s[2..]);
    DivMod100(Value4(s), Value2(s[..2]), Value2(s[2..]));
    assert s == s[..2] + s[2..];
  }

  lemma Value2Digits(s: string)
    requires |s| == 2 && AllDigits(s)
    ensures Value2(s) < 100 && Digits2(Value2(s)) == s
  {
  }

  /** Every date reads back from the text `isoformat` writes for it. */
  lemma FormatThenParse(d: Date)
    requires ValidDate(d)
    ensures ParseDate(FormatDate(d)) == Some(d)
  {
    var s := FormatDate(d);
    assert s[..4] == Digits4(d.year);
    assert s[5..7] == Digits2(d.month);
    assert s[8..] == Digits2(d.day);
    Digits4Value(d.year);
  }

  /** A string that parses is exactly the `isoformat` text of its date. */
  lemma ParseThenFormat(s: string)
    requires ParseDate(s).Some?
    ensures FormatDate(ParseDate(s).value) == s
  {
    var d := ParseDate(s).value;
    Value4Digits(s[..4]);
    Value2Digits(s[5..7]);
    Value2Digits(s[8..]);
    assert s == s[..4] + "-" + s[5..7] + "-" + s[8..];
  }

  /** `date.toordinal()`: day 1 is 0001-01-01. */
  function DaysBeforeYear(y: int): int {
    var p := y - 1;
    365 * p + p / 4 - p / 100 + p / 400
  }

  function DaysBeforeMonth(y: int, m: int): int
    requires 1 <= m <= 12
  {
    var table := [0, 31, 59, 90, 120, 151, 181, 212, 243, 273, 304, 334];
    table[m - 1] + (if m > 2 && IsLeap(y) then 1 else 0)
  }

  function Ordinal(d: Date): int
    requires ValidDate(d)
  {
    DaysBeforeYear(d.year) + DaysBeforeMonth(d.year, d.month) + d.day
  }

  const MicrosPerDay: int := 86_400_000_000

  /** A naive `datetime`: a date and the microseconds elapsed since its midnight. */
  datatype DateTime = DateTime(date: Date, micros: int)

  predicate ValidDateTime(t: DateTime) {
    ValidDate(t.date) && 0 <= t.micros < MicrosPerDay
  }

  /** `a > b` on naive datetimes (field-by-field comparison). */
  predicate Later(a: DateTime, b: DateTime) {
    Before(b.date, a.date) || (a.date == b.date && a.micros > b.micros)
  }

  /** `hasta - desde` in microseconds (a `timedelta`). */
  function SpanMicros(desde: DateTime, hasta: DateTime): int
    requires ValidDateTime(desde) && ValidDateTime(hasta)
  {
    (Ordinal(hasta.date) - Ordinal(desde.date)) * MicrosPerDay + (hasta.micros - desde.micros)
  }
}
