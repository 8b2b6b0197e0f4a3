/**
 * Calendar dates as `st.date_input` returns them, and the two text forms the
 * scripts send: `str(date)` ("YYYY-MM-DD") and
 * `datetime.combine(date, time(0, 0)).isoformat()` ("YYYY-MM-DDT00:00:00").
 * Both forms are proved to read back to the date they were made from.
 */
module IsoDate {
  import opened Optional

  datatype Date = Date(year: int, month: int, day: int)

  /** Gregorian leap years, as Python's `datetime` uses them. */
  predicate IsLeapYear(y: int) {
    y % 4 == 0 && (y % 100 != 0 || y % 400 == 0)
  }

  function DaysInMonth(y: int, m: int): (r: int)
    requires 1 <= m <= 12
    ensures 28 <= r <= 31
  {
    if m == 2 then (if IsLeapYear(y) then 29 else 28)
    else if m == 4 || m == 6 || m == 9 || m == 11 then 30
    else 31
  }

  /** A `datetime.date`: year between MINYEAR 1 and MAXYEAR 9999, a real day of a real month. */
  predicate ValidDate(d: Date) {
    && 1 <= d.year <= 9999
    && 1 <= d.month <= 12
    && 1 <= d.day <= DaysInMonth(d.year, d.month)
  }

  /** A `datetime.date` value, the only kind `st.date_input` hands back. */
  type PyDate = d: Date | ValidDate(d) witness Date(2000, 1, 1)

  function Pow10(n: nat): (r: nat)
    ensures r >= 1
  {
    if n == 0 then 1 else 10 * Pow10(n - 1)
  }

  predicate IsDigit(c: char) {
    '0' <= c <= '9'
  }

  predicate AllDigits(s: string) {
    forall i :: 0 <= i < |s| ==> IsDigit(s[i])
  }

  function DigitChar(n: nat): (c: char)
    requires n < 10
    ensures IsDigit(c)
  {
    ('0' as int + n) as char
  }

  function DigitValue(c: char): (n: nat)
    requires IsDigit(c)
    ensures n < 10 && DigitChar(n) == c
  {
    c as int - '0' as int
  }

  /** The decimal value of a string of digits. */
  function ValueOf(s: string): (n: nat)
    requires AllDigits(s)
    ensures n < Pow10(|s|)
  {
    if |s| == 0 then 0 else ValueOf(s[..|s| - 1]) * 10 + DigitValue(s[|s| - 1])
  }

  /** `"%0*d" % (width, n)`: `n` in exactly `width` decimal digits, zero-padded on the left. */
  function Pad(n: nat, width: nat): (r: string)
    requires n < Pow10(width)
    ensures |r| == width
    ensures AllDigits(r)
    ensures ValueOf(r) == n
  {
    if width == 0 then ""
    else
      var r := Pad(n / 10, width - 1) + [DigitChar(n % 10)];
      assert r[..|r| - 1] == Pad(n / 10, width - 1);
      r
  }

  /** Padding is the only digit string of its width with its value. */
  lemma {:induction false} PadValueOf(s: string)
    requires AllDigits(s)
    ensures Pad(ValueOf(s), |s|) == s
  {
    if |s| > 0 {
      var init := s[..|s| - 1];
      assert AllDigits(init);
      PadValueOf(init);
      assert ValueOf(s) / 10 == ValueOf(init);
      assert ValueOf(s) % 10 == DigitValue(s[|s| - 1]);
      assert s == init + [s[|s| - 1]];
    }
  }

  /** `str(d)`, which is `d.isoformat()`: "%04d-%02d-%02d". */
  function DateString(d: Date): (r: string)
    requires ValidDate(d)
    ensures |r| == 10 && r[4] == '-' && r[7] == '-'
    ensures AllDigits(r[..4]) && AllDigits(r[5..7]) && AllDigits(r[8..])
    ensures ValueOf(r[..4]) == d.year && ValueOf(r[5..7]) == d.month && ValueOf(r[8..]) == d.day
  {
    var r := Pad(d.year, 4) + "-" + Pad(d.month, 2) + "-" + Pad(d.day, 2);
    assert r[..4] == Pad(d.year, 4);
    assert r[5..7] == Pad(d.month, 2);
    assert r[8..] == Pad(d.day, 2);
    r
  }

  /** The time of day every stored record carries. */
  const Midnight: string := "T00:00:00"

  /** `datetime.combine(d, time(0, 0)).isoformat()`: no microseconds and no
      time zone, so nothing follows the seconds. */
  function MidnightIso(d: Date): (r: string)
    requires ValidDate(d)
    ensures |r| == 19
    ensures r[..10] == DateString(d) && r[10..] == Midnight
  {
    DateString(d) + Midnight
  }

  /** Reads "YYYY-MM-DD" back, refusing anything that is not a valid date. */
  function ParseDate(s: string): (r: Option<Date>)
    ensures r.Some? ==> ValidDate(r.value)
  {
    if |s| == 10 && s[4] == '-' && s[7] == '-'
       && AllDigits(s[..4]) && AllDigits(s[5..7]) && AllDigits(s[8..])
    then
      var d := Date(ValueOf(s[..4]), ValueOf(s[5..7]), ValueOf(s[8..]));
      if ValidDate(d) then Some(d) else None
    else None
  }

  /** Reads "YYYY-MM-DDT00:00:00" back. */
  function ParseMidnightIso(s: string): (r: Option<Date>)
    ensures r.Some? ==> ValidDate(r.value)
  {
    if |s| == 19 && s[10..] == Midnight then ParseDate(s[..10]) else None
  }

  /** `str(d)` loses nothing. */
  lemma ParseDateString(d: Date)
    requires ValidDate(d)
    ensures ParseDate(DateString(d)) == Some(d)
  {
  }

  /** A string that reads back as a date has the "YYYY-MM-DD" shape and spells its fields. */
  lemma ParseDateShape(s: string, d: Date)
    requires ParseDate(s) == Some(d)
    ensures |s| == 10 && s[4] == '-' && s[7] == '-'
    ensures AllDigits(s[..4]) && AllDigits(s[5..7]) && AllDigits(s[8..])
    ensures d == Date(ValueOf(s[..4]), ValueOf(s[5..7]), ValueOf(s[8..]))
  {
  }

  lemma SplitDateText(s: string)
    requires |s| == 10 && s[4] == '-' && s[7] == '-'
    ensures s == s[..4] + "-" + s[5..7] + "-" + s[8..]
  {
  }

  /** A string that reads back as a date is exactly that date's `str`. */
  lemma {:induction false} DateStringOfParse(s: string, d: Date)
    requires ParseDate(s) == Some(d)
    ensures DateString(d) == s
  {
    ParseDateShape(s, d);
    PadValueOf(s[..4]);
    PadValueOf(s[5..7]);
    PadValueOf(s[8..]);
    SplitDateText(s);
  }

  /** The stored `brewed_at` text reads back as the chosen date. */
  lemma ParseMidnightIsoRoundTrip(d: Date)
    requires ValidDate(d)
    ensures ParseMidnightIso(MidnightIso(d)) == Some(d)
  {
  }

  /** Only a date's own midnight timestamp reads back as that date. */
  lemma {:induction false} MidnightIsoOfParse(s: string, d: Date)
    requires ParseMidnightIso(s) == Some(d)
    ensures MidnightIso(d) == s
  {
    DateStringOfParse(s[..10], d);
    assert s == s[..10] + s[10..];
  }
}
