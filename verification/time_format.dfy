/** The `minutes:seconds` text shown in the video player's elapsed and total
    time readouts (`formatTime` in script.js), over whole seconds. */
module TimeFormat {
  import opened Options

  /** The decimal digit character for `d`. */
  function DigitChar(d: nat): (c: char)
    requires d < 10
    ensures '0' <= c <= '9'
    ensures (c as int) - ('0' as int) == d
  {
    (('0' as int) + d) as char
  }

  /** The value of a digit character. */
  function DigitValue(c: char): (d: nat)
    requires '0' <= c <= '9'
    ensures d < 10
    ensures DigitChar(d) == c
  {
    (c as int) - ('0' as int)
  }

  predicate IsDigits(s: string) {
    forall i :: 0 <= i < |s| ==> '0' <= s[i] <= '9'
  }

  /** The number a string of decimal digits denotes (most significant first). */
  function DigitsValue(s: string): nat
    requires IsDigits(s)
  {
    if |s| == 0 then 0
    else 10 * DigitsValue(s[..|s| - 1]) + DigitValue(s[|s| - 1])
  }

  /** The decimal rendering of a non-negative integer: no sign and no leading
      zeros. It agrees with JavaScript's rendering of whole numbers below
      10^21, above which JavaScript switches to exponent notation. */
  function NatToString(n: nat): (r: string)
    ensures |r| > 0 && IsDigits(r)
    ensures |r| == 1 <==> n < 10
    ensures |r| > 1 ==> r[0] != '0'
    ensures DigitsValue(r) == n
  {
    if n < 10 then [DigitChar(n)]
    else
      var r := NatToString(n / 10) + [DigitChar(n % 10)];
      assert r[..|r| - 1] == NatToString(n / 10);
      r
  }

  /** The seconds field as `formatTime` builds it: a `'0'` prefix when the
      value is below ten, then the value itself. */
  function SecondsField(secs: nat): string {
    (if secs < 10 then "0" else "") + NatToString(secs)
  }

  /** `formatTime(seconds)` for a whole, non-negative number of seconds. */
  function FormatTime(seconds: nat): (r: string)
    ensures r == NatToString(seconds / 60) + ":" + Pad2(seconds % 60)
  {
    SecondsPadded(seconds % 60);
    NatToString(seconds / 60) + ":" + SecondsField(seconds % 60)
  }

  /** Reference definition of the two-character seconds field: the tens
      digit followed by the units digit. */
  function Pad2(secs: nat): (r: string)
    requires secs < 100
  {
    [DigitChar(secs / 10), DigitChar(secs % 10)]
  }

  /** The field `formatTime` builds is always the two-digit rendering. */
  lemma SecondsPadded(secs: nat)
    requires secs < 100
    ensures SecondsField(secs) == Pad2(secs)
  {
    if secs >= 10 {
      var r := NatToString(secs);
      assert NatToString(secs / 10) == [DigitChar(secs / 10)];
    }
  }

  /** Position of the first `':'` in `t`, if any. */
  function FindColon(t: string): (r: Option<nat>)
    ensures r.Some? ==> r.value < |t| && t[r.value] == ':'
    ensures r.Some? ==> forall j :: 0 <= j < r.value ==> t[j] != ':'
    ensures r.None? ==> forall j :: 0 <= j < |t| ==> t[j] != ':'
  {
    if |t| == 0 then None
    else if t[0] == ':' then Some(0)
    else
      match FindColon(t[1..])
      case None => None
      case Some(k) => Some(k + 1)
  }

  /** Reads back a `minutes:seconds` readout: one or more minute digits, a
      colon, and exactly two second digits below 60. */
  function ParseTime(t: string): Option<nat> {
    match FindColon(t)
    case None => None
    case Some(k) =>
      var mins, secs := t[..k], t[k + 1..];
      if |mins| > 0 && IsDigits(mins) && |secs| == 2 && IsDigits(secs) && DigitsValue(secs) < 60
      then Some(DigitsValue(mins) * 60 + DigitsValue(secs))
      else None
  }

  lemma Pad2Value(secs: nat)
    requires secs < 100
    ensures IsDigits(Pad2(secs)) && DigitsValue(Pad2(secs)) == secs
  {
    var p := Pad2(secs);
    assert p[..1] == [DigitChar(secs / 10)];
    assert DigitsValue(p[..1]) == secs / 10 by {
      assert p[..1][..0] == [];
    }
  }

  /** Every readout `formatTime` produces reads back as the number of
      seconds it was made from. */
  lemma {:induction false} FormatTimeRoundTrip(seconds: nat)
    ensures ParseTime(FormatTime(seconds)) == Some(seconds)
  {
    var m, p := NatToString(seconds / 60), Pad2(seconds % 60);
    var t := FormatTime(seconds);
    assert t == m + ":" + p;
    assert FindColon(t) == Some(|m|) by {
      ColonAt(m, p);
    }
    assert t[..|m|] == m;
    assert t[|m| + 1..] == p;
    Pad2Value(seconds % 60);
  }

  lemma {:induction false} ColonAt(m: string, rest: string)
    requires IsDigits(m)
    ensures FindColon(m + ":" + rest) == Some(|m|)
  {
    if |m| > 0 {
      assert (m + ":" + rest)[1..] == m[1..] + ":" + rest;
      ColonAt(m[1..], rest);
    }
  }

  /** Distinct numbers of seconds are shown as distinct readouts. */
  lemma FormatTimeInjective(a: nat, b: nat)
    requires FormatTime(a) == FormatTime(b)
    ensures a == b
  {
    FormatTimeRoundTrip(a);
    FormatTimeRoundTrip(b);
  }

  /** The seconds field is always two characters and reads as a value in
      00..59. */
  lemma SecondsFieldInRange(seconds: nat)
    ensures var f := SecondsField(seconds % 60);
      |f| == 2 && IsDigits(f) && '0' <= f[0] <= '5' && DigitsValue(f) == seconds % 60
  {
    SecondsPadded(seconds % 60);
    Pad2Value(seconds % 60);
  }

  /** The readouts listed for `formatTime`: 0, 65, 599 and 3600 seconds. */
  lemma FormatTimeExamples()
    ensures FormatTime(0) == "0:00"
    ensures FormatTime(65) == "1:05"
    ensures FormatTime(599) == "9:59"
    ensures FormatTime(3600) == "60:00"
  {
    assert NatToString(60) == NatToString(6) + [DigitChar(0)];
  }
}
