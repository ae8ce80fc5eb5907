/**
 * The `m:ss` time label of the player (renderer.js, `formatTime`): whole
 * minutes, a colon, and the remaining whole seconds padded to two digits.
 *
 * A playback time is what the audio element reports: `NaN` before the
 * metadata is known (modelled as `None`) and otherwise a non-negative number
 * of seconds (modelled as a `real`).
 */
module TimeFormat {
  import opened Wrappers

  // ---------------------------------------------------------------------
  // Decimal digits, as Number.prototype.toString writes a non-negative integer
  // ---------------------------------------------------------------------

  predicate IsDigit(c: char) {
    '0' <= c <= '9'
  }

  predicate IsDigits(s: string) {
    forall i :: 0 <= i < |s| ==> IsDigit(s[i])
  }

  function DigitChar(d: nat): (c: char)
    requires d < 10
    ensures IsDigit(c)
  {
    ('0' as int + d) as char
  }

  function DigitValue(c: char): (d: nat)
    requires IsDigit(c)
    ensures d < 10 && DigitChar(d) == c
  {
    c as int - '0' as int
  }

  /** The value of a string of decimal digits (the empty string reads as 0). */
  function DigitsValue(s: string): nat
    requires IsDigits(s)
  {
    if s == [] then 0 else DigitsValue(s[..|s| - 1]) * 10 + DigitValue(s[|s| - 1])
  }

  /** The decimal rendering of `n`: digits only, and no leading zero. */
  function NatToString(n: nat): (s: string)
    ensures |s| >= 1 && IsDigits(s)
    ensures |s| > 1 ==> s[0] != '0'
    ensures n < 10 <==> |s| == 1
  {
    if n < 10 then [DigitChar(n)] else NatToString(n / 10) + [DigitChar(n % 10)]
  }

  /** Reading the rendering back gives the number: NatToString is injective. */
  lemma {:induction false} NatToStringRoundTrip(n: nat)
    ensures DigitsValue(NatToString(n)) == n
  {
    if n >= 10 {
      var s := NatToString(n);
      assert s[..|s| - 1] == NatToString(n / 10);
      NatToStringRoundTrip(n / 10);
    }
  }

  /** `s.padStart(2, '0')`: at least two characters, `s` at the end, zeros before it. */
  function PadStart2(s: string): (r: string)
    ensures |r| == if |s| >= 2 then |s| else 2
    ensures r[|r| - |s|..] == s
    ensures forall i :: 0 <= i < |r| - |s| ==> r[i] == '0'
  {
    if |s| >= 2 then s
    else if |s| == 1 then ['0'] + s
    else "00"
  }

  /** Leading zeros do not change the value of a digit string. */
  lemma {:induction false} LeadingZerosValue(z: string, s: string)
    requires forall i :: 0 <= i < |z| ==> z[i] == '0'
    requires IsDigits(s)
    ensures IsDigits(z + s) && DigitsValue(z + s) == DigitsValue(s)
  {
    if s == [] {
      assert z + s == z;
      ZerosValue(z);
    } else {
      var t := z + s;
      assert t[..|t| - 1] == z + s[..|s| - 1];
      LeadingZerosValue(z, s[..|s| - 1]);
    }
  }

  lemma {:induction false} ZerosValue(z: string)
    requires forall i :: 0 <= i < |z| ==> z[i] == '0'
    ensures IsDigits(z) && DigitsValue(z) == 0
  {
    if z != [] {
      ZerosValue(z[..|z| - 1]);
    }
  }

  /** Padding a number's rendering keeps its value and, below 100, gives exactly two digits. */
  lemma PaddedValue(n: nat)
    ensures IsDigits(PadStart2(NatToString(n)))
    ensures DigitsValue(PadStart2(NatToString(n))) == n
    ensures n < 100 ==> |PadStart2(NatToString(n))| == 2
  {
    var s := NatToString(n);
    var r := PadStart2(s);
    assert r == r[..|r| - |s|] + s;
    LeadingZerosValue(r[..|r| - |s|], s);
    NatToStringRoundTrip(n);
    if n < 100 {
      if n >= 10 {
        assert NatToString(n / 10) == [DigitChar(n / 10)];
      }
    }
  }

  // ---------------------------------------------------------------------
  // The label
  // ---------------------------------------------------------------------

  /** A time the player may be asked to format: NaN, or non-negative seconds. */
  predicate IsPlaybackTime(seconds: Option<real>) {
    seconds.Some? ==> seconds.value >= 0.0
  }

  /**
   * `formatTime(seconds)`: "0:00" when `seconds` is NaN or zero; otherwise
   * `Math.floor(seconds / 60)`, ":", and `Math.floor(seconds % 60)` padded to
   * two digits. It renders only the whole seconds: the result is Clock of the
   * floor of the input, and NaN renders as zero seconds.
   */
  function FormatTime(seconds: Option<real>): (r: string)
    requires IsPlaybackTime(seconds)
    ensures r == Clock(if seconds.None? then 0 else seconds.value.Floor)
  {
    if seconds.None? || seconds.value == 0.0 then
      assert Clock(0) == "0:00" by {
        assert NatToString(0) == "0";
        assert PadStart2("0") == "00";
      }
      "0:00"
    else NatToString(Minutes(seconds.value)) + ":" + PadStart2(NatToString(SecondsOfMinute(seconds.value)))
  }

  /** `Math.floor(s / 60)`: the whole minutes of the whole seconds of `s`. */
  function Minutes(s: real): (m: nat)
    requires s >= 0.0
    ensures m == s.Floor / 60
  {
    FloorOfMinutes(s);
    (s / 60.0).Floor
  }

  /**
   * `Math.floor(s % 60)`, where JavaScript's `s % 60` is `s - 60 * Math.floor(s / 60)`
   * for a non-negative `s`: the seconds left over from the whole minutes.
   */
  function SecondsOfMinute(s: real): (r: nat)
    requires s >= 0.0
    ensures r == s.Floor % 60
  {
    FloorOfMinutes(s);
    (s - 60.0 * (s / 60.0).Floor as real).Floor
  }

  /** Reference definition: the label of a whole number of seconds. */
  function Clock(total: nat): string {
    NatToString(total / 60) + ":" + PadStart2(NatToString(total % 60))
  }

  /**
   * Reads a label back: minutes in decimal, a colon, exactly two digits of
   * seconds below 60; the result is the total number of seconds.
   */
  function ParseClock(text: string): Option<nat> {
    if |text| >= 4 && text[|text| - 3] == ':'
       && IsDigits(text[..|text| - 3]) && IsDigits(text[|text| - 2..])
    then
      var minutes := DigitsValue(text[..|text| - 3]);
      var seconds := DigitsValue(text[|text| - 2..]);
      if seconds < 60 then Some(minutes * 60 + seconds) else None
    else None
  }

  /** A label made of minute digits, a colon and two second digits below 60 parses. */
  lemma ParseClockOf(ms: string, ss: string)
    requires |ms| >= 1 && IsDigits(ms)
    requires |ss| == 2 && IsDigits(ss) && DigitsValue(ss) < 60
    ensures ParseClock(ms + ":" + ss) == Some(DigitsValue(ms) * 60 + DigitsValue(ss))
  {
    var text := ms + ":" + ss;
    assert text[..|text| - 3] == ms;
    assert text[|text| - 2..] == ss;
    assert text[|text| - 3] == ':';
  }

  /** Every label Clock writes reads back as the same number of seconds. */
  lemma ClockRoundTrip(total: nat)
    ensures ParseClock(Clock(total)) == Some(total)
  {
    var m, sec := total / 60, total % 60;
    var ms, ss := NatToString(m), PadStart2(NatToString(sec));
    assert Clock(total) == ms + ":" + ss;
    PaddedValue(sec);
    NatToStringRoundTrip(m);
    assert DigitsValue(ms) == m && DigitsValue(ss) == sec && |ss| == 2;
    ParseClockOf(ms, ss);
    assert m * 60 + sec == total;
  }

  /** Floor-division facts that tie JavaScript's float arithmetic to whole seconds. */
  lemma FloorOfMinutes(s: real)
    requires s >= 0.0
    ensures (s / 60.0).Floor == s.Floor / 60
    ensures (s - 60.0 * ((s / 60.0).Floor) as real).Floor == s.Floor % 60
  {
  }

  /**
   * The seconds field of a label is always two digits below 60, and the
   * label reads back as the whole number of seconds of the input.
   */
  lemma FormatTimeRoundTrip(seconds: Option<real>)
    requires IsPlaybackTime(seconds)
    ensures ParseClock(FormatTime(seconds)) == Some(if seconds.None? then 0 else seconds.value.Floor)
  {
    ClockRoundTrip(if seconds.None? then 0 else seconds.value.Floor);
  }

  /** Two times get the same label exactly when they have the same whole seconds. */
  lemma FormatTimeSameLabel(a: real, b: real)
    requires a >= 0.0 && b >= 0.0
    ensures FormatTime(Some(a)) == FormatTime(Some(b)) <==> a.Floor == b.Floor
  {
    ClockRoundTrip(a.Floor);
    ClockRoundTrip(b.Floor);
  }

  /** The labels the player shows for NaN, zero and 65 seconds. */
  lemma FormatTimeExamples()
    ensures FormatTime(None) == "0:00"
    ensures FormatTime(Some(0.0)) == "0:00"
    ensures FormatTime(Some(65.0)) == "1:05"
  {
    assert 65.0.Floor == 65;
    assert Clock(65) == "1:05" by {
      assert 65 / 60 == 1 && 65 % 60 == 5;
      assert NatToString(1) == "1" && NatToString(5) == "5";
      assert PadStart2("5") == "05";
    }
  }
}
