/** Calendar values and the one concrete `strptime` the model instantiates: exact-width
    digit strings under the formats `%Y%m%d` and `%Y%m%d%H`, with Gregorian validity. */
module DateTimes {
  import opened Wrappers

  /** A naive `datetime` down to the second (microseconds are never produced here). */
  datatype DateTime = DateTime(year: int, month: int, day: int, hour: int, minute: int, second: int)

  /** `datetime.MINYEAR` and `datetime.MAXYEAR`. */
  const MinYear: int := 1
  const MaxYear: int := 9999

  predicate IsLeapYear(y: int)
  {
    y % 4 == 0 && (y % 100 != 0 || y % 400 == 0)
  }

  function DaysInMonth(y: int, m: int): (d: int)
    requires 1 <= m <= 12
    ensures 28 <= d <= 31
    ensures d == 29 <==> m == 2 && IsLeapYear(y)
  {
    if m == 2 then (if IsLeapYear(y) then 29 else 28)
    else if m == 4 || m == 6 || m == 9 || m == 11 then 30
    else 31
  }

  /** The fields a `datetime` constructor accepts without raising `ValueError`. */
  predicate Valid(dt: DateTime)
  {
    && MinYear <= dt.year <= MaxYear
    && 1 <= dt.month <= 12
    && 1 <= dt.day <= DaysInMonth(dt.year, dt.month)
    && 0 <= dt.hour < 24
    && 0 <= dt.minute < 60
    && 0 <= dt.second < 60
  }

  // ---------------------------------------------------------------------------
  // Decimal digit strings

  predicate IsDigit(c: char)
  {
    '0' <= c <= '9'
  }

  predicate AllDigits(s: string)
  {
    forall i :: 0 <= i < |s| ==> IsDigit(s[i])
  }

  function DigitValue(c: char): (d: nat)
    requires IsDigit(c)
    ensures d < 10
  {
    (c as int - '0' as int) as nat
  }

  function DigitChar(d: nat): (c: char)
    requires d < 10
    ensures IsDigit(c) && DigitValue(c) == d
  {
    ('0' as int + d) as char
  }

  function Pow10(w: nat): (p: nat)
    ensures p >= 1
  {
    if w == 0 then 1 else 10 * Pow10(w - 1)
  }

  /** The number a string of decimal digits denotes, most significant digit first. */
  function DigitsValue(s: string): (n: nat)
    requires AllDigits(s)
    ensures n < Pow10(|s|)
  {
    if s == [] then 0 else DigitsValue(s[..|s| - 1]) * 10 + DigitValue(s[|s| - 1])
  }

  /** The lowest `w` decimal digits of `n`, zero-padded on the left. */
  function Pad(n: nat, w: nat): (s: string)
    ensures |s| == w && AllDigits(s)
  {
    if w == 0 then [] else Pad(n / 10, w - 1) + [DigitChar(n % 10)]
  }

  lemma {:induction false} ValueOfPad(n: nat, w: nat)
    requires n < Pow10(w)
    ensures DigitsValue(Pad(n, w)) == n
  {
    if w > 0 {
      var s := Pad(n, w);
      assert s[..|s| - 1] == Pad(n / 10, w - 1);
      ValueOfPad(n / 10, w - 1);
    }
  }

  lemma {:induction false} PadOfValue(s: string)
    requires AllDigits(s)
    ensures Pad(DigitsValue(s), |s|) == s
  {
    if s != [] {
      var init, last := s[..|s| - 1], s[|s| - 1];
      var n := DigitsValue(s);
      assert n / 10 == DigitsValue(init) && n % 10 == DigitValue(last);
      PadOfValue(init);
      assert DigitChar(DigitValue(last)) == last;
      assert init + [last] == s;
    }
  }

  // ---------------------------------------------------------------------------
  // Fixed-width strptime/strftime for the two formats the configuration uses

  datatype FixedFormat = Ymd | YmdH

  /** The format string each fixed format stands for. */
  function Directives(f: FixedFormat): string
  {
    match f
    case Ymd => "%Y%m%d"
    case YmdH => "%Y%m%d%H"
  }

  function Width(f: FixedFormat): nat
  {
    match f
    case Ymd => 8
    case YmdH => 10
  }

  /** A date a fixed format can express: a valid date with no finer fields than the format has. */
  predicate Representable(dt: DateTime, f: FixedFormat)
  {
    Valid(dt) && dt.minute == 0 && dt.second == 0 && (f == Ymd ==> dt.hour == 0)
  }

  /** `datetime.strptime(s, Directives(f))` for strings of exactly `Width(f)` digits;
      anything else is refused. */
  function ParseFixed(s: string, f: FixedFormat): (r: Option<DateTime>)
    ensures r.Some? ==> Representable(r.value, f) && |s| == Width(f) && AllDigits(s)
  {
    if |s| != Width(f) || !AllDigits(s) then None
    else if Valid(Fields(s, f)) then Some(Fields(s, f))
    else None
  }

  /** The fields read from a digit string of the format's width, before validation. */
  function Fields(s: string, f: FixedFormat): DateTime
    requires |s| == Width(f) && AllDigits(s)
  {
    DateTime(DigitsValue(s[..4]), DigitsValue(s[4..6]), DigitsValue(s[6..8]),
             if f == YmdH then DigitsValue(s[8..10]) else 0, 0, 0)
  }

  /** `dt.strftime(Directives(f))`. */
  function FormatFixed(dt: DateTime, f: FixedFormat): (s: string)
    requires Representable(dt, f)
    ensures |s| == Width(f) && AllDigits(s)
  {
    Pad(dt.year, 4) + Pad(dt.month, 2) + Pad(dt.day, 2) + (if f == YmdH then Pad(dt.hour, 2) else "")
  }

  /** Every date the format can express is read back from its own rendering. */
  lemma ParseFormatRoundTrip(dt: DateTime, f: FixedFormat)
    requires Representable(dt, f)
    ensures ParseFixed(FormatFixed(dt, f), f) == Some(dt)
  {
    FieldsOfRendering(dt, f);
  }

  /** The fields read from a rendering are the rendered date's. */
  lemma FieldsOfRendering(dt: DateTime, f: FixedFormat)
    requires Representable(dt, f)
    ensures Fields(FormatFixed(dt, f), f) == dt
  {
    var s := FormatFixed(dt, f);
    RenderingSlices(dt, f);
    ValueOfPad(dt.year, 4);
    ValueOfPad(dt.month, 2);
    ValueOfPad(dt.day, 2);
    if f == YmdH {
      ValueOfPad(dt.hour, 2);
    }
  }

  /** Where each field sits in a rendering. */
  lemma RenderingSlices(dt: DateTime, f: FixedFormat)
    requires Representable(dt, f)
    ensures var s := FormatFixed(dt, f);
            && s[..4] == Pad(dt.year, 4) && s[4..6] == Pad(dt.month, 2) && s[6..8] == Pad(dt.day, 2)
            && (f == YmdH ==> s[8..10] == Pad(dt.hour, 2))
  {
    var s := FormatFixed(dt, f);
    var y, m, d := Pad(dt.year, 4), Pad(dt.month, 2), Pad(dt.day, 2);
    var h := if f == YmdH then Pad(dt.hour, 2) else "";
    var rest := m + d + h;
    assert s == y + rest;
    assert s[..4] == y && s[4..] == rest;
    assert rest[..2] == m && rest[2..] == d + h;
    assert s[4..6] == m by { assert s[4..6] == s[4..][..2]; }
    assert s[6..8] == d by { assert s[6..8] == s[4..][2..][..2]; }
    if f == YmdH {
      assert s[8..10] == h by { assert s[8..10] == s[4..][2..][2..]; }
    }
  }

  /** A string the parser accepts is exactly the rendering of the date it yields. */
  lemma FormatParseRoundTrip(s: string, f: FixedFormat)
    requires ParseFixed(s, f).Some?
    ensures FormatFixed(ParseFixed(s, f).value, f) == s
  {
    assert ParseFixed(s, f).value == Fields(s, f);
    RenderFields(s, f);
  }

  lemma RenderFields(s: string, f: FixedFormat)
    requires |s| == Width(f) && AllDigits(s) && Representable(Fields(s, f), f)
    ensures FormatFixed(Fields(s, f), f) == s
  {
    var dt := Fields(s, f);
    var y, m, d := s[..4], s[4..6], s[6..8];
    assert AllDigits(y) && AllDigits(m) && AllDigits(d);
    PadOfValue(y);
    PadOfValue(m);
    PadOfValue(d);
    if f == YmdH {
      var h := s[8..10];
      assert AllDigits(h);
      PadOfValue(h);
      assert s == y + m + d + h;
    } else {
      assert s == y + m + d;
    }
  }

  /** The `strptime` instance: the two fixed formats; every other format string is refused. */
  function FixedWidthStrptime(s: string, format: string): (r: Option<DateTime>)
    ensures r.Some? ==> Valid(r.value) && AllDigits(s)
    ensures r.Some? ==> (format == Directives(Ymd) && |s| == 8) || (format == Directives(YmdH) && |s| == 10)
  {
    if format == Directives(Ymd) then ParseFixed(s, Ymd)
    else if format == Directives(YmdH) then ParseFixed(s, YmdH)
    else None
  }
}
