/**
 * `formatDuration` of src/lib/utils.ts: a number of seconds shown as
 * `minutes:ss`, minutes unpadded and seconds left-padded with '0' to two
 * characters. The input is modelled as an integer number of seconds.
 */
module Duration {
  import opened Wrappers

  /** The character of a decimal digit. */
  function DigitChar(d: nat): char
    requires d < 10
  {
    ('0' as int + d) as char
  }

  /** The value of a decimal digit character. */
  function DigitValue(c: char): Option<nat>
  {
    if '0' <= c <= '9' then Some(c as int - '0' as int) else None
  }

  predicate IsDigit(c: char)
  {
    '0' <= c <= '9'
  }

  /**
   * Decimal notation of a natural number. For a safe integer (below 2^53)
   * this is what `Number.prototype.toString()` writes; larger numbers lose
   * precision in JavaScript and from 10^21 on are written with an exponent,
   * which this function does not model.
   */
  function NatToString(n: nat): (s: string)
    ensures |s| >= 1
    ensures forall i :: 0 <= i < |s| ==> IsDigit(s[i])
    ensures (s[0] == '0') == (n == 0)
  {
    if n < 10 then [DigitChar(n)] else NatToString(n / 10) + [DigitChar(n % 10)]
  }

  /** Decimal notation of an integer: a '-' before the magnitude when negative. */
  function IntToString(i: int): string
  {
    if i < 0 then "-" + NatToString(-i) else NatToString(i)
  }

  /** `s.padStart(width, fill)` for a one-character `fill`. */
  function PadStart(s: string, width: nat, fill: char): (r: string)
    ensures |r| == if |s| >= width then |s| else width
    decreases width - |s|
  {
    if |s| >= width then s else PadStart([fill] + s, width, fill)
  }

  /** `padStart` keeps `s` as a suffix and fills the front with `fill`. */
  lemma {:induction false} PadStartPads(s: string, width: nat, fill: char)
    ensures var r := PadStart(s, width, fill);
      r[|r| - |s|..] == s && forall i :: 0 <= i < |r| - |s| ==> r[i] == fill
    decreases width - |s|
  {
    if |s| < width {
      PadStartPads([fill] + s, width, fill);
      var r := PadStart(s, width, fill);
      assert r[|r| - |s|..] == ([fill] + s)[1..];
    }
  }

  /** JavaScript's `a % b` for `b > 0`: the remainder has the sign of the dividend. */
  function JsRemainder(a: int, b: int): int
    requires b > 0
  {
    if a >= 0 then a % b else -((-a) % b)
  }

  /**
   * `formatDuration(seconds)`. `Math.floor(seconds / 60)` is Dafny's `/`,
   * which rounds down for a positive divisor.
   */
  function FormatDuration(seconds: int): string
  {
    var minutes := seconds / 60;
    var formattedSeconds := JsRemainder(seconds, 60);
    IntToString(minutes) + ":" + PadStart(IntToString(formattedSeconds), 2, '0')
  }

  // ---------------------------------------------------------------------------
  // Reading a duration back

  /** The value of a non-empty string of decimal digits. */
  function ParseNat(s: string): Option<nat>
  {
    if |s| == 0 then None
    else
      var low := DigitValue(s[|s| - 1]);
      if low.None? then None
      else if |s| == 1 then low
      else
        var high := ParseNat(s[..|s| - 1]);
        if high.None? then None else Some(10 * high.value + low.value)
  }

  /** The index of the first ':' of `s`, if any. */
  function ColonIndex(s: string): (r: Option<nat>)
    ensures r.Some? ==> r.value < |s| && s[r.value] == ':' && forall i :: 0 <= i < r.value ==> s[i] != ':'
    ensures r.None? ==> forall i :: 0 <= i < |s| ==> s[i] != ':'
  {
    if |s| == 0 then None
    else if s[0] == ':' then Some(0)
    else match ColonIndex(s[1..])
      case Some(i) => Some(i + 1)
      case None => None
  }

  /** Reads `m:ss` (minutes, a colon, two digits below 60) back to seconds. */
  function ParseDuration(s: string): Option<nat>
  {
    match ColonIndex(s)
    case None => None
    case Some(c) =>
      if |s| - c - 1 != 2 then None
      else match (ParseNat(s[..c]), ParseNat(s[c + 1..]))
        case (Some(m), Some(ss)) => if ss < 60 then Some(60 * m + ss) else None
        case _ => None
  }

  lemma {:induction false} ParseNatToString(n: nat)
    ensures ParseNat(NatToString(n)) == Some(n)
  {
    if n >= 10 {
      var s := NatToString(n);
      ParseNatToString(n / 10);
      assert s[..|s| - 1] == NatToString(n / 10);
    }
  }

  lemma DigitRoundTrip(d: nat)
    requires d < 10
    ensures IsDigit(DigitChar(d)) && DigitValue(DigitChar(d)) == Some(d)
  {
  }

  lemma ParseTwoDigits(high: char, low: char)
    requires IsDigit(high) && IsDigit(low)
    ensures ParseNat([high, low]) == Some(10 * DigitValue(high).value + DigitValue(low).value)
  {
    assert [high, low][..1] == [high];
  }

  /** The padded text of a number below 60: its two decimal digits. */
  lemma PaddedDigits(r: nat)
    requires r < 60
    ensures PadStart(NatToString(r), 2, '0') == [DigitChar(r / 10), DigitChar(r % 10)]
  {
    if r >= 10 {
      assert NatToString(r / 10) == [DigitChar(r / 10)];
    }
  }

  /** A number below 60, padded to two characters, is two digits that read back as it. */
  lemma PaddedTwoDigits(r: nat)
    requires r < 60
    ensures var part := PadStart(NatToString(r), 2, '0');
      |part| == 2 && IsDigit(part[0]) && IsDigit(part[1]) && ParseNat(part) == Some(r)
  {
    PaddedDigits(r);
    DigitRoundTrip(r / 10);
    DigitRoundTrip(r % 10);
    ParseTwoDigits(DigitChar(r / 10), DigitChar(r % 10));
  }

  /** The seconds part of a non-negative input: exactly two digits with value `seconds % 60`. */
  lemma SecondsPart(seconds: nat)
    ensures var part := PadStart(IntToString(JsRemainder(seconds, 60)), 2, '0');
      |part| == 2 && IsDigit(part[0]) && IsDigit(part[1]) && ParseNat(part) == Some(seconds % 60)
  {
    var r := seconds % 60;
    assert IntToString(JsRemainder(seconds, 60)) == NatToString(r);
    PaddedTwoDigits(r);
  }

  /**
   * `r` reads as `minutes:ss`: one ':' third from the end and decimal digits
   * everywhere else, the left part the unpadded decimal text of `minutes`
   * (a leading '0' only for zero minutes), the right part two digits with
   * value `secs`.
   */
  predicate DurationText(r: string, minutes: nat, secs: nat)
  {
    && |r| >= 4
    && r[|r| - 3] == ':'
    && (forall i :: 0 <= i < |r| && i != |r| - 3 ==> IsDigit(r[i]))
    && ParseNat(r[..|r| - 3]) == Some(minutes)
    && ParseNat(r[|r| - 2..]) == Some(secs)
    && (r[0] == '0' <==> minutes == 0)
  }

  /** Joining the decimal text `m` of `minutes`, ':' and two digits that read as `secs`. */
  lemma JoinShape(r: string, m: string, minutes: nat, part: string, secs: nat)
    requires r == m + ":" + part
    requires |m| >= 1 && (forall i :: 0 <= i < |m| ==> IsDigit(m[i])) && ParseNat(m) == Some(minutes)
    requires m[0] == '0' <==> minutes == 0
    requires |part| == 2 && IsDigit(part[0]) && IsDigit(part[1]) && ParseNat(part) == Some(secs)
    ensures DurationText(r, minutes, secs)
  {
    assert r[..|r| - 3] == m;
    assert r[|r| - 2..] == part;
    JoinDigits(m, part);
  }

  /** Every character of `m + ":" + part` but the colon is a digit when those of `m` and `part` are. */
  lemma JoinDigits(m: string, part: string)
    requires forall i :: 0 <= i < |m| ==> IsDigit(m[i])
    requires |part| == 2 && IsDigit(part[0]) && IsDigit(part[1])
    ensures var r := m + ":" + part;
      forall i :: 0 <= i < |r| && i != |r| - 3 ==> IsDigit(r[i])
  {
    var r := m + ":" + part;
    forall i | 0 <= i < |r| && i != |r| - 3
      ensures IsDigit(r[i])
    {
      if i < |m| {
        assert r[i] == m[i];
      } else {
        assert r[i] == part[i - |m| - 1];
      }
    }
  }

  /** The output of a non-negative input: the minutes in decimal, ':', and the padded seconds. */
  lemma FormatDurationJoin(seconds: nat)
    ensures FormatDuration(seconds) == NatToString(seconds / 60) + ":" + PadStart(NatToString(seconds % 60), 2, '0')
  {
    assert IntToString(seconds / 60) == NatToString(seconds / 60);
    assert IntToString(JsRemainder(seconds, 60)) == NatToString(seconds % 60);
  }

  /**
   * For a non-negative number of seconds the output is the minutes in
   * decimal without padding, one ':', and the seconds as exactly two digits;
   * the two parts read back as `seconds / 60` and `seconds % 60`.
   */
  lemma FormatDurationShape(seconds: nat)
    ensures DurationText(FormatDuration(seconds), seconds / 60, seconds % 60)
  {
    FormatDurationJoin(seconds);
    PaddedTwoDigits(seconds % 60);
    ParseNatToString(seconds / 60);
    JoinShape(FormatDuration(seconds), NatToString(seconds / 60), seconds / 60,
              PadStart(NatToString(seconds % 60), 2, '0'), seconds % 60);
  }

  /** Any `minutes:ss` text reads back as `60 * minutes + secs`. */
  lemma ParseDurationText(r: string, minutes: nat, secs: nat)
    requires DurationText(r, minutes, secs) && secs < 60
    ensures ParseDuration(r) == Some(60 * minutes + secs)
  {
    var c := ColonIndex(r);
    assert r[|r| - 3] == ':';
    assert c.Some? && c.value == |r| - 3;
  }

  /** Round trip: reading the output back as `m:ss` gives `60 * m + ss == seconds`. */
  lemma FormatDurationRoundTrip(seconds: nat)
    ensures ParseDuration(FormatDuration(seconds)) == Some(seconds)
  {
    FormatDurationShape(seconds);
    ParseDurationText(FormatDuration(seconds), seconds / 60, seconds % 60);
  }

  /** The minutes are not padded: 5 seconds give "0:05" and 600 give "10:00". */
  lemma FormatDurationExamples()
    ensures FormatDuration(5) == "0:05"
    ensures FormatDuration(600) == "10:00"
  {
    assert NatToString(10) == "10";
  }

  /**
   * A negative input keeps JavaScript's signs: the minutes round down and the
   * remainder is negative, so -65 gives "-2:-5", which does not read back.
   */
  lemma NegativeDuration()
    ensures FormatDuration(-65) == "-2:-5"
    ensures ParseDuration(FormatDuration(-65)) == None
  {
    assert -65 / 60 == -2;
    assert IntToString(-2) == "-2";
    assert JsRemainder(-65, 60) == -5;
    assert IntToString(-5) == "-5";
    assert PadStart("-5", 2, '0') == "-5";
    assert ColonIndex("-2:-5") == Some(2);
    assert ParseNat("-5") == None;
  }
}
