/**
  The duration formatter of src/utils/getProgress.ts: seconds to
  "[HH:]MM:SS", hours dropped when they are zero and wrapped at one day.

  The source computes each field as `Math.abs(parseInt(String(x % n)))`
  on a JavaScript number. For a finite duration whose fractional parts
  print in positional notation, truncating a remainder of `d` (or of
  `d / 60`, `d / 3600`) is the same as taking the remainder of the whole
  seconds, and the absolute value makes a negative duration format as its
  magnitude; the model therefore works on `Whole(d)`.
 */
module Duration {

  /** The whole seconds the formatter sees: the magnitude of `d`, truncated. */
  function Whole(d: real): nat {
    if d >= 0.0 then d.Floor else (-d).Floor
  }

  function Seconds(w: nat): nat { w % 60 }
  function Minutes(w: nat): nat { (w / 60) % 60 }
  function Hours(w: nat): nat { (w / 3600) % 24 }

  predicate IsDigit(c: char) { '0' <= c <= '9' }

  function DigitChar(x: nat): (c: char)
    requires x < 10
    ensures IsDigit(c) && (c as int) - ('0' as int) == x
  {
    ((x + '0' as int) as char)
  }

  function DigitValue(c: char): nat
    requires IsDigit(c)
  {
    (c as int) - ('0' as int)
  }

  /** The number a string of decimal digits denotes. */
  function DecimalValue(s: string): nat
    requires forall i :: 0 <= i < |s| ==> IsDigit(s[i])
  {
    if s == [] then 0 else 10 * DecimalValue(s[..|s| - 1]) + DigitValue(s[|s| - 1])
  }

  /** `n.toString()` for a non-negative integer: its decimal digits, without leading zeros. */
  function NatToString(n: nat): (r: string)
    ensures |r| >= 1
    ensures forall i :: 0 <= i < |r| ==> IsDigit(r[i])
    ensures DecimalValue(r) == n
    ensures r[0] == '0' ==> n == 0
    ensures n < 10 <==> |r| == 1
  {
    if n < 10 then [DigitChar(n)]
    else
      var r := NatToString(n / 10) + [DigitChar(n % 10)];
      assert r[..|r| - 1] == NatToString(n / 10);
      r
  }

  /** `x < 10 ? '0' + x : x.toString()`. */
  function Pad(x: nat): string {
    if x < 10 then "0" + NatToString(x) else NatToString(x)
  }

  /** Below one hundred the padded form is exactly two digits, denoting `x`. */
  lemma PadTwoDigits(x: nat)
    requires x < 100
    ensures var p := Pad(x);
      |p| == 2 && IsDigit(p[0]) && IsDigit(p[1]) && 10 * DigitValue(p[0]) + DigitValue(p[1]) == x
  {
    var p := NatToString(x);
    if x >= 10 {
      assert p == NatToString(x / 10) + [DigitChar(x % 10)];
      assert NatToString(x / 10) == [DigitChar(x / 10)];
    }
  }

  /** `"00"` is the padded form of zero only. */
  lemma PadZero(x: nat)
    requires x < 100
    ensures Pad(x) == "00" <==> x == 0
  {
    PadTwoDigits(x);
    if Pad(x) == "00" {
      assert DigitValue('0') == 0;
    }
  }

  /** The formatted duration. */
  function FormatDuration(d: real): string {
    Clock(Whole(d))
  }

  /** The clock string of `w` whole seconds. */
  function Clock(w: nat): string {
    var hoursString := Pad(Hours(w));
    (if hoursString != "00" then hoursString + ":" else "") + Pad(Minutes(w)) + ":" + Pad(Seconds(w))
  }

  /** The value of the two digits at `i` and `i + 1`. */
  function TwoDigits(s: string, i: nat): nat
    requires i + 1 < |s| && IsDigit(s[i]) && IsDigit(s[i + 1])
  {
    10 * DigitValue(s[i]) + DigitValue(s[i + 1])
  }

  /** Reads "HH:MM:SS" or "MM:SS" back to seconds; anything else reads as zero. */
  function ParseClock(s: string): nat {
    if |s| == 8 && IsDigit(s[0]) && IsDigit(s[1]) && s[2] == ':' && IsDigit(s[3]) && IsDigit(s[4])
       && s[5] == ':' && IsDigit(s[6]) && IsDigit(s[7]) then
      3600 * TwoDigits(s, 0) + 60 * TwoDigits(s, 3) + TwoDigits(s, 6)
    else if |s| == 5 && IsDigit(s[0]) && IsDigit(s[1]) && s[2] == ':' && IsDigit(s[3]) && IsDigit(s[4]) then
      60 * TwoDigits(s, 0) + TwoDigits(s, 3)
    else 0
  }

  /** The shape of the output: "HH:MM:SS" exactly when the hour field is non-zero, "MM:SS" otherwise. */
  lemma FormatShape(d: real)
    ensures var r := FormatDuration(d); var w := Whole(d);
      && (|r| == 8 <==> Hours(w) != 0)
      && (|r| == 5 <==> Hours(w) == 0)
      && r[|r| - 3] == ':' && (|r| == 8 ==> r[2] == ':')
      && forall i :: 0 <= i < |r| && i != |r| - 3 && (|r| == 8 ==> i != 2) ==> IsDigit(r[i])
  {
    var w := Whole(d);
    PadTwoDigits(Hours(w));
    PadTwoDigits(Minutes(w));
    PadTwoDigits(Seconds(w));
    PadZero(Hours(w));
  }

  /** Splitting a day's seconds into hours, minutes and seconds. */
  lemma DayDecomposition(w: nat)
    ensures w % 86400 == 3600 * Hours(w) + 60 * Minutes(w) + Seconds(w)
    ensures Hours(w) < 24 && Minutes(w) < 60 && Seconds(w) < 60
  {
    var q := w / 60;
    assert w == 60 * q + w % 60;
    assert q == 60 * (q / 60) + q % 60;
    assert w / 3600 == q / 60 by {
      assert w == 3600 * (q / 60) + (60 * (q % 60) + w % 60);
      assert 0 <= 60 * (q % 60) + w % 60 < 3600;
    }
    var h := w / 3600;
    assert h == 24 * (h / 24) + h % 24;
    assert w == 86400 * (h / 24) + (3600 * (h % 24) + 60 * (q % 60) + w % 60);
    assert 0 <= 3600 * (h % 24) + 60 * (q % 60) + w % 60 < 86400;
  }

  /** Reading the clock back gives the duration's whole seconds within the day. */
  lemma ParseFormat(d: real)
    ensures ParseClock(FormatDuration(d)) == Whole(d) % 86400
  {
    var w := Whole(d);
    FormatShape(d);
    PadTwoDigits(Hours(w));
    PadTwoDigits(Minutes(w));
    PadTwoDigits(Seconds(w));
    PadZero(Hours(w));
    DayDecomposition(w);
    var r := FormatDuration(d);
    if Hours(w) != 0 {
      assert r == Pad(Hours(w)) + ":" + Pad(Minutes(w)) + ":" + Pad(Seconds(w));
      assert TwoDigits(r, 0) == Hours(w);
      assert TwoDigits(r, 3) == Minutes(w);
      assert TwoDigits(r, 6) == Seconds(w);
    } else {
      assert r == Pad(Minutes(w)) + ":" + Pad(Seconds(w));
      assert TwoDigits(r, 0) == Minutes(w);
      assert TwoDigits(r, 3) == Seconds(w);
    }
  }

  /** Durations a whole number of days apart format alike. */
  lemma FormatDayWrap(d: real, e: real)
    requires Whole(d) % 86400 == Whole(e) % 86400
    ensures FormatDuration(d) == FormatDuration(e)
  {
    var w, v := Whole(d), Whole(e);
    DayDecomposition(w);
    DayDecomposition(v);
    ClockFieldsUnique(Hours(w), Minutes(w), Seconds(w), Hours(v), Minutes(v), Seconds(v));
  }

  /** Hours, minutes and seconds in range are determined by the seconds they add up to. */
  lemma ClockFieldsUnique(h1: nat, m1: nat, s1: nat, h2: nat, m2: nat, s2: nat)
    requires m1 < 60 && s1 < 60 && m2 < 60 && s2 < 60
    requires 3600 * h1 + 60 * m1 + s1 == 3600 * h2 + 60 * m2 + s2
    ensures h1 == h2 && m1 == m2 && s1 == s2
  {
    assert h1 == h2;
  }

  /** A duration and its negation format alike. */
  lemma FormatSymmetric(d: real)
    ensures FormatDuration(-d) == FormatDuration(d)
  {
    assert Whole(-d) == Whole(d);
  }

  /** Below one day, reducing modulo a day changes nothing: the step from `ParseFormat` to injectivity. */
  lemma DayRemainderBelowDay(w: nat)
    requires w < 86400
    ensures w % 86400 == w
  {
  }

  /** Under one day no information is lost: distinct whole seconds give distinct strings. */
  lemma FormatInjectiveWithinDay(d: real, e: real)
    requires Whole(d) < 86400 && Whole(e) < 86400
    requires FormatDuration(d) == FormatDuration(e)
    ensures Whole(d) == Whole(e)
  {
    ParseFormat(d);
    ParseFormat(e);
    DayRemainderBelowDay(Whole(d));
    DayRemainderBelowDay(Whole(e));
  }
}
