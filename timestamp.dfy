/**
 * The timestamp token the wrapper names its outputs with: Go's
 * `time.Time.Format("20060102_150405")`, that is a four-digit year, then
 * month, day, `_`, hour (24-hour clock), minute and second, each of the last
 * five as two digits. The wall clock is an input: a `DateTime` record.
 */
module Timestamp {
  import opened Basics

  /** A local wall-clock reading with second resolution. */
  datatype DateTime = DateTime(year: nat, month: nat, day: nat, hour: nat, minute: nat, second: nat)
  {
    /** The ranges Go's `time.Time` keeps its calendar fields in. */
    predicate Valid() {
      1 <= month <= 12 && 1 <= day <= 31 && hour < 24 && minute < 60 && second < 60
    }
  }

  /** The layout the source formats with. */
  const Layout: string := "20060102_150405"

  predicate IsDigit(c: char) {
    '0' <= c <= '9'
  }

  function DigitChar(d: nat): (c: char)
    requires d < 10
    ensures IsDigit(c)
  {
    ('0' as int + d) as char
  }

  function DigitValue(c: char): nat
    requires IsDigit(c)
  {
    c as int - '0' as int
  }

  /** Decimal digits of `n`, without leading zeros. */
  function Decimal(n: nat): (r: string)
    ensures |r| >= 1 && forall k :: 0 <= k < |r| ==> IsDigit(r[k])
  {
    if n < 10 then [DigitChar(n)] else Decimal(n / 10) + [DigitChar(n % 10)]
  }

  /** `n` as exactly two digits (layout elements `01`, `02`, `15`, `04`, `05`). */
  function TwoDigits(n: nat): (r: string)
    requires n < 100
  {
    [DigitChar(n / 10), DigitChar(n % 10)]
  }

  /**
   * The year, zero-padded to four digits (layout element `2006`); Go writes
   * the years past 9999 with all their digits.
   */
  function YearDigits(y: nat): (r: string)
  {
    if y < 10000 then [DigitChar(y / 10 / 10 / 10), DigitChar(y / 10 / 10 % 10), DigitChar(y / 10 % 10), DigitChar(y % 10)]
    else Decimal(y)
  }

  /** True of the tokens this layout produces for years up to 9999. */
  predicate IsToken(s: string) {
    && |s| == |Layout|
    && s[8] == '_'
    && forall k :: 0 <= k < |s| && k != 8 ==> IsDigit(s[k])
  }

  /**
   * Go's `t.Format("20060102_150405")`. For years up to 9999 the token has
   * the layout's shape: fifteen characters, `_` at index 8, digits elsewhere.
   */
  function Format(t: DateTime): (r: string)
    requires t.Valid()
    ensures t.year < 10000 ==> IsToken(r)
  {
    YearDigits(t.year) + TwoDigits(t.month) + TwoDigits(t.day) + "_"
      + TwoDigits(t.hour) + TwoDigits(t.minute) + TwoDigits(t.second)
  }

  function TwoDigitValue(s: string, at: nat): nat
    requires at + 2 <= |s| && IsDigit(s[at]) && IsDigit(s[at + 1])
  {
    DigitValue(s[at]) * 10 + DigitValue(s[at + 1])
  }

  /** Reads a token back; the inverse of `Format` on the years it writes with four digits. */
  function Parse(s: string): (r: Option<DateTime>)
  {
    if !IsToken(s) then None
    else
      var t := DateTime(
        ((DigitValue(s[0]) * 10 + DigitValue(s[1])) * 10 + DigitValue(s[2])) * 10 + DigitValue(s[3]),
        TwoDigitValue(s, 4), TwoDigitValue(s, 6),
        TwoDigitValue(s, 9), TwoDigitValue(s, 11), TwoDigitValue(s, 13));
      if t.Valid() then Some(t) else None
  }

  lemma DigitRoundTrip(d: nat)
    requires d < 10
    ensures DigitValue(DigitChar(d)) == d
  {
  }

  lemma YearDigitsRoundTrip(y: nat, s: string)
    requires y < 10000 && |s| >= 4 && s[..4] == YearDigits(y)
    ensures IsDigit(s[0]) && IsDigit(s[1]) && IsDigit(s[2]) && IsDigit(s[3])
    ensures ((DigitValue(s[0]) * 10 + DigitValue(s[1])) * 10 + DigitValue(s[2])) * 10 + DigitValue(s[3]) == y
  {
    var yd := YearDigits(y);
    assert s[0] == yd[0] && s[1] == yd[1] && s[2] == yd[2] && s[3] == yd[3];
    var y1 := y / 10;
    var y2 := y1 / 10;
    assert y2 / 10 < 10;
    DigitRoundTrip(y2 / 10);
    DigitRoundTrip(y2 % 10);
    DigitRoundTrip(y1 % 10);
    DigitRoundTrip(y % 10);
    assert y2 == y2 / 10 * 10 + y2 % 10;
    assert y1 == y2 * 10 + y1 % 10;
    assert y == y1 * 10 + y % 10;
  }

  lemma TwoDigitsRoundTrip(n: nat, s: string, at: nat)
    requires n < 100 && at + 2 <= |s| && s[at..at + 2] == TwoDigits(n)
    ensures IsDigit(s[at]) && IsDigit(s[at + 1]) && TwoDigitValue(s, at) == n
  {
    assert s[at] == TwoDigits(n)[0] && s[at + 1] == TwoDigits(n)[1];
    DigitRoundTrip(n / 10);
    DigitRoundTrip(n % 10);
  }

  /** Parsing a formatted timestamp gives back the clock reading. */
  lemma ParseFormat(t: DateTime)
    requires t.Valid() && t.year < 10000
    ensures Parse(Format(t)) == Some(t)
  {
    var s := Format(t);
    assert s[..4] == YearDigits(t.year);
    assert s[4..6] == TwoDigits(t.month);
    assert s[6..8] == TwoDigits(t.day);
    assert s[9..11] == TwoDigits(t.hour);
    assert s[11..13] == TwoDigits(t.minute);
    assert s[13..15] == TwoDigits(t.second);
    TwoDigitsRoundTrip(t.month, s, 4);
    TwoDigitsRoundTrip(t.day, s, 6);
    TwoDigitsRoundTrip(t.hour, s, 9);
    TwoDigitsRoundTrip(t.minute, s, 11);
    TwoDigitsRoundTrip(t.second, s, 13);
    YearDigitsRoundTrip(t.year, s);
  }

  /**
   * Two readings give the same token exactly when they fall in the same
   * second: the only source of output-name collisions.
   */
  lemma FormatCollision(t1: DateTime, t2: DateTime)
    requires t1.Valid() && t2.Valid() && t1.year < 10000 && t2.year < 10000
    ensures Format(t1) == Format(t2) <==> t1 == t2
  {
    if Format(t1) == Format(t2) {
      ParseFormat(t1);
      ParseFormat(t2);
    }
  }
}
