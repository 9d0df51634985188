/** The call timer: elapsed whole seconds and their `mm:ss` rendering. */
module CallClock {
  import opened Wrappers
  import opened JsText

  /**
   * One tick of the duration interval: `Math.floor((now - start) / 1000)` for
   * millisecond timestamps. Dafny's `/` by a positive divisor is floor division.
   */
  function Elapsed(start: int, now: int): (r: int)
    ensures 1000 * r <= now - start < 1000 * r + 1000
  {
    (now - start) / 1000
  }

  lemma ElapsedNonNegative(start: int, now: int)
    requires start <= now
    ensures Elapsed(start, now) >= 0
  {
  }

  /** A later reading of the clock never shows a shorter call. */
  lemma ElapsedMonotone(start: int, now: int, later: int)
    requires now <= later
    ensures Elapsed(start, now) <= Elapsed(start, later)
  {
    var a, b := now - start, later - start;
    assert a == 1000 * (a / 1000) + a % 1000;
    assert b == 1000 * (b / 1000) + b % 1000;
  }

  /** JavaScript's `a % 60`: the remainder takes the sign of `a`. */
  function JsRemainder60(a: int): (r: int)
    ensures -60 < r < 60
    ensures a >= 0 ==> r == a % 60
    ensures a < 0 ==> r <= 0 && (a - r) % 60 == 0
  {
    if a >= 0 then a % 60 else -((-a) % 60)
  }

  /**
   * `formatDuration`: minutes are `Math.floor(seconds / 60)`, seconds are `seconds % 60`,
   * each rendered with `toString()` and left-padded with '0' to two characters.
   */
  function FormatDuration(seconds: int): string
  {
    var mins := seconds / 60;
    var secs := JsRemainder60(seconds);
    PadStart(NumberToString(mins), 2, '0') + ":" + PadStart(NumberToString(secs), 2, '0')
  }

  /** Reads `mm:ss` back: at least one minute digit, a colon, exactly two second digits below 60. */
  function ParseDuration(text: string): Option<int>
  {
    if |text| < 4 || text[|text| - 3] != ':' then None
    else
      var m, s := text[..|text| - 3], text[|text| - 2..];
      if AllDigits(m) && AllDigits(s) && DigitsValue(s) < 60
      then Some(60 * DigitsValue(m) + DigitsValue(s))
      else None
  }

  /** A two-character, zero-padded numeral of a value below 100 denotes that value. */
  lemma {:induction false} PaddedValue(n: nat, width: nat)
    ensures var p := PadStart(NatToString(n), width, '0');
      AllDigits(p) && DigitsValue(p) == n && |p| >= width
  {
    var s := NatToString(n);
    NatToStringRoundTrip(n);
    if |s| < width {
      LeadingZerosValue(width - |s|, s);
    }
  }

  /**
   * For a non-negative count: the minutes part is at least two digits, the seconds part
   * exactly two, separated by one colon, and the parts are `seconds / 60` and `seconds % 60`.
   */
  lemma {:induction false} FormatDurationShape(seconds: int)
    requires seconds >= 0
    ensures var r := FormatDuration(seconds);
      |r| >= 5 && r[|r| - 3] == ':' &&
      AllDigits(r[..|r| - 3]) && DigitsValue(r[..|r| - 3]) == seconds / 60 &&
      AllDigits(r[|r| - 2..]) && DigitsValue(r[|r| - 2..]) == seconds % 60
  {
    FormatNonNegative(seconds);
    ClockFaceShape(seconds / 60, seconds % 60);
  }

  /** The text `mm:ss` for given minute and second values. */
  function ClockFace(mins: nat, secs: nat): string
  {
    PadStart(NatToString(mins), 2, '0') + ":" + PadStart(NatToString(secs), 2, '0')
  }

  lemma {:induction false} ClockFaceShape(mins: nat, secs: nat)
    requires secs < 60
    ensures var r := ClockFace(mins, secs);
      |r| >= 5 && r[|r| - 3] == ':' &&
      AllDigits(r[..|r| - 3]) && DigitsValue(r[..|r| - 3]) == mins &&
      AllDigits(r[|r| - 2..]) && DigitsValue(r[|r| - 2..]) == secs
  {
    var m := PadStart(NatToString(mins), 2, '0');
    var s := PadStart(NatToString(secs), 2, '0');
    PaddedValue(mins, 2);
    PaddedValue(secs, 2);
    assert |s| == 2;
    SplitAtColon(m, s);
    var r := ClockFace(mins, secs);
    assert r == m + ":" + s;
    assert r[..|r| - 3] == m;
    assert r[|r| - 2..] == s;
  }

  lemma SplitAtColon(m: string, s: string)
    requires |m| >= 2 && |s| == 2
    ensures var r := m + ":" + s;
      |r| >= 5 && r[|r| - 3] == ':' && r[..|r| - 3] == m && r[|r| - 2..] == s
  {
    var r := m + ":" + s;
    assert r[..|r| - 3] == m;
    assert r[|r| - 2..] == s;
  }

  lemma FormatNonNegative(seconds: int)
    requires seconds >= 0
    ensures FormatDuration(seconds) == ClockFace(seconds / 60, seconds % 60)
  {
    assert NumberToString(seconds / 60) == NatToString(seconds / 60);
    assert NumberToString(JsRemainder60(seconds)) == NatToString(seconds % 60);
  }

  /** Reading the display back gives the count it was made from. */
  lemma FormatDurationRoundTrip(seconds: int)
    requires seconds >= 0
    ensures ParseDuration(FormatDuration(seconds)) == Some(seconds)
  {
    FormatDurationShape(seconds);
  }

  /** Different non-negative counts are displayed differently. */
  lemma FormatDurationInjective(a: int, b: int)
    requires a >= 0 && b >= 0
    requires FormatDuration(a) == FormatDuration(b)
    ensures a == b
  {
    FormatDurationRoundTrip(a);
    FormatDurationRoundTrip(b);
  }

  /**
   * Any negative count (a clock set back) is displayed with a leading minus sign, in a
   * form that no non-negative count produces: it does not read back as a duration.
   */
  lemma {:induction false} FormatDurationNegativeRejected(seconds: int)
    requires seconds < 0
    ensures var r := FormatDuration(seconds); r != [] && r[0] == '-' && ParseDuration(r) == None
  {
    var m := NumberToString(seconds / 60);
    NumberToStringDenotes(seconds / 60);
    assert m[0] == '-' && |m| >= 2;
    var s := PadStart(NumberToString(JsRemainder60(seconds)), 2, '0');
    assert PadStart(m, 2, '0') == m;
    var r := FormatDuration(seconds);
    assert r == m + ":" + s;
    assert r[0] == '-' && |r| >= 5;
    assert r[..|r| - 3][0] == '-';
  }

  /** A negative count (a clock set back) is rendered with signs in both parts. */
  lemma FormatDurationNegative()
    ensures FormatDuration(-1) == "-1:-1"
  {
    assert -1 / 60 == -1;
    assert JsRemainder60(-1) == -1;
    assert NatToString(1) == "1";
    assert NumberToString(-1) == "-1";
    assert PadStart("-1", 2, '0') == "-1";
  }
}
