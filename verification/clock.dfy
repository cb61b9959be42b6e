/** The players' `formatTime` and `formatRemainingTime`: a number of seconds
    shown as minutes, a colon and two-digit seconds ("4:27"), and the
    reading back of such a clock. */
module Clock {
  import opened Options
  import opened Text

  /** JavaScript's `a % b` for a positive `b`: the remainder takes the sign of
      `a` (Dafny's `%` never goes negative). */
  function TruncRem(a: int, b: int): (r: int)
    requires b > 0
    ensures a >= 0 ==> r == a % b
    ensures a < 0 ==> -b < r <= 0 && r == -((-a) % b)
  {
    if a >= 0 then a % b else -((-a) % b)
  }

  /** `formatTime(seconds)`: `Math.floor(seconds / 60)`, a colon, a "0" when
      the remainder is below 10, and the remainder. For a positive divisor
      Dafny's `/` is the floor division. */
  function FormatTime(seconds: int): string {
    var mins := seconds / 60;
    var secs := TruncRem(seconds, 60);
    IntToString(mins) + ":" + (if secs < 10 then "0" else "") + IntToString(secs)
  }

  /** `formatRemainingTime(seconds, total)`: the same clock for `total -
      seconds`, after a minus sign. */
  function FormatRemainingTime(seconds: int, total: int): string {
    var remaining := total - seconds;
    var mins := remaining / 60;
    var secs := TruncRem(remaining, 60);
    "-" + IntToString(mins) + ":" + (if secs < 10 then "0" else "") + IntToString(secs)
  }

  /** The two digits of a number of seconds below 60. */
  function TwoDigits(n: nat): (s: string)
    requires n < 60
    ensures |s| == 2 && AllDigits(s)
  {
    [DigitChar(n / 10), DigitChar(n % 10)]
  }

  /** Reads a clock "m:ss" back: a numeral, a colon, and two digits below 60. */
  function ParseTime(t: string): Option<nat> {
    var parts := Split(t, ':');
    if |parts| == 2 && IsNumeral(parts[0]) && |parts[1]| == 2 && AllDigits(parts[1]) && ParseNat(parts[1]) < 60
    then Some(60 * ParseNat(parts[0]) + ParseNat(parts[1]))
    else None
  }

  /** The remaining-time clock is the clock of what remains, after a minus sign. */
  lemma RemainingIsMinusClock(seconds: int, total: int)
    ensures FormatRemainingTime(seconds, total) == "-" + FormatTime(total - seconds)
  {
    var r := total - seconds;
    var a, secs := IntToString(r / 60), TruncRem(r, 60);
    var z, b := if secs < 10 then "0" else "", IntToString(secs);
    assert "-" + a + ":" + z + b == "-" + (a + ":" + z + b);
  }

  /** Behind the minus sign of the remaining-time clock reads back the
      time that remains. */
  lemma ParseRemaining(seconds: int, total: int)
    requires seconds <= total
    ensures var r := FormatRemainingTime(seconds, total);
      |r| > 1 && r[0] == '-' && ParseTime(r[1..]) == Some(total - seconds)
  {
    RemainingIsMinusClock(seconds, total);
    var t := FormatTime(total - seconds);
    ParseFormatTime(total - seconds);
    assert ("-" + t)[1..] == t;
  }

  /** For a non-negative number of seconds the clock is the minutes, a colon
      and exactly two digits of seconds. */
  lemma FormatTimeShape(seconds: nat)
    ensures FormatTime(seconds) == NatToString(seconds / 60) + ":" + TwoDigits(seconds % 60)
  {
    var secs := seconds % 60;
    if secs >= 10 {
      assert NatToString(secs) == NatToString(secs / 10) + [DigitChar(secs % 10)];
      assert NatToString(secs / 10) == [DigitChar(secs / 10)];
    } else {
      assert "0" == [DigitChar(0)];
    }
    var m := NatToString(seconds / 60);
    var z := if secs < 10 then "0" else "";
    assert z + NatToString(secs) == TwoDigits(secs);
    assert m + ":" + z + NatToString(secs) == m + ":" + (z + NatToString(secs));
  }

  lemma {:induction false} ParseTwoDigits(n: nat)
    requires n < 60
    ensures ParseNat(TwoDigits(n)) == n
  {
    var s := TwoDigits(n);
    var hi := [DigitChar(n / 10)];
    assert s[..|s| - 1] == hi;
    assert hi[..|hi| - 1] == [];
    assert ParseNat(hi) == n / 10;
    assert ParseNat(s) == 10 * ParseNat(hi) + n % 10;
  }

  /** Reading back a clock gives the seconds it shows. */
  lemma ParseFormatTime(seconds: nat)
    ensures ParseTime(FormatTime(seconds)) == Some(seconds)
  {
    FormatTimeShape(seconds);
    ParseClock(seconds / 60, seconds % 60);
  }

  lemma ParseClock(m: nat, n: nat)
    requires n < 60
    ensures ParseTime(NatToString(m) + ":" + TwoDigits(n)) == Some(60 * m + n)
  {
    var a, b := NatToString(m), TwoDigits(n);
    assert a + ":" + b == a + [':'] + b;
    SplitConcat(a, b, ':');
    NoColon(a);
    NoColon(b);
    SplitNoSeparator(a, ':');
    SplitNoSeparator(b, ':');
    ParseNatToString(m);
    ParseTwoDigits(n);
  }

  /** Every clock that reads back is the clock of what it reads as: the clock
      format and `ParseTime` are inverse bijections between the naturals and
      the canonical "m:ss" strings. */
  lemma FormatParseTime(t: string)
    requires ParseTime(t).Some?
    ensures FormatTime(ParseTime(t).value) == t
  {
    var parts := Split(t, ':');
    var m, ss := parts[0], parts[1];
    var s := ParseTime(t).value;
    assert s / 60 == ParseNat(m) && s % 60 == ParseNat(ss);
    FormatTimeShape(s);
    NatToStringParse(m);
    TwoDigitsParse(ss);
    JoinSplit(t, ':');
    assert parts == [m] + [ss];
    assert Join(parts, ':') == m + [':'] + ss;
  }

  lemma TwoDigitsParse(ss: string)
    requires |ss| == 2 && AllDigits(ss) && ParseNat(ss) < 60
    ensures TwoDigits(ParseNat(ss)) == ss
  {
    assert ss[..1][..0] == [];
    var hi, lo := ss[0] as int - '0' as int, ss[1] as int - '0' as int;
    assert ParseNat(ss) == 10 * hi + lo;
  }

  /** Different numbers of seconds show as different clocks. */
  lemma FormatTimeInjective(s: nat, t: nat)
    requires FormatTime(s) == FormatTime(t)
    ensures s == t
  {
    ParseFormatTime(s);
    ParseFormatTime(t);
  }

  lemma NoColon(s: string)
    requires AllDigits(s)
    ensures ':' !in s
  {
  }

  /** 267 seconds show as "4:27", with "-4:27" remaining at the start. */
  lemma Yellow()
    ensures FormatTime(267) == "4:27"
    ensures FormatRemainingTime(0, 267) == "-4:27"
  {
    FormatTimeShape(267);
    assert NatToString(4) == "4";
    RemainingIsMinusClock(0, 267);
  }

  /** 240 seconds show as "4:00". */
  lemma FourMinutes()
    ensures FormatTime(240) == "4:00"
  {
    FormatTimeShape(240);
    assert NatToString(4) == "4";
  }
}
