/**
 * The handful of JavaScript string operations the call screen relies on:
 * `String.prototype.trim`, integer `Number.prototype.toString`,
 * `String.prototype.padStart` with a one-character filler, `Array.prototype.join`,
 * and substring occurrence (what "the text contains the name" means).
 */
module JsText {

  /** ECMAScript WhiteSpace and LineTerminator code points: what `trim` removes. */
  predicate IsWhiteSpace(c: char)
  {
    c == '\t' || c == '\n' || c == '\U{000B}' || c == '\U{000C}' || c == '\r' || c == ' ' ||
    c == '\U{00A0}' || c == '\U{1680}' || ('\U{2000}' <= c <= '\U{200A}') ||
    c == '\U{2028}' || c == '\U{2029}' || c == '\U{202F}' || c == '\U{205F}' ||
    c == '\U{3000}' || c == '\U{FEFF}'
  }

  /** Every character is white space (the empty string included). */
  predicate Blank(s: string)
  {
    forall i :: 0 <= i < |s| ==> IsWhiteSpace(s[i])
  }

  /** Leading white space removed. */
  function TrimStart(s: string): string
  {
    if s != [] && IsWhiteSpace(s[0]) then TrimStart(s[1..]) else s
  }

  /** Trailing white space removed. */
  function TrimEnd(s: string): string
  {
    if s != [] && IsWhiteSpace(s[|s| - 1]) then TrimEnd(s[..|s| - 1]) else s
  }

  /** TrimStart keeps the longest suffix not starting with white space. */
  lemma {:induction false} TrimStartSuffix(s: string)
    ensures var r := TrimStart(s);
      |r| <= |s| && r == s[|s| - |r|..] &&
      (forall i :: 0 <= i < |s| - |r| ==> IsWhiteSpace(s[i])) &&
      (r != [] ==> !IsWhiteSpace(r[0]))
  {
    if s != [] && IsWhiteSpace(s[0]) {
      var t := s[1..];
      TrimStartSuffix(t);
      var r := TrimStart(t);
      assert TrimStart(s) == r;
      assert t[|t| - |r|..] == s[|s| - |r|..];
      forall i | 0 <= i < |s| - |r|
        ensures IsWhiteSpace(s[i])
      {
        if i > 0 {
          assert s[i] == t[i - 1];
        }
      }
    }
  }

  /** TrimEnd keeps the longest prefix not ending in white space. */
  lemma {:induction false} TrimEndPrefix(s: string)
    ensures var r := TrimEnd(s);
      |r| <= |s| && r == s[..|r|] &&
      (forall i :: |r| <= i < |s| ==> IsWhiteSpace(s[i])) &&
      (r != [] ==> !IsWhiteSpace(r[|r| - 1]))
  {
    if s != [] && IsWhiteSpace(s[|s| - 1]) {
      TrimEndPrefix(s[..|s| - 1]);
    }
  }

  /** `s.trim()`. */
  function Trim(s: string): string
  {
    TrimEnd(TrimStart(s))
  }

  /** `s.trim()` is the empty (falsy) string exactly when `s` is blank. */
  lemma {:induction false} TrimEmptyIffBlank(s: string)
    ensures Trim(s) == [] <==> Blank(s)
  {
    if !Blank(s) {
      var k :| 0 <= k < |s| && !IsWhiteSpace(s[k]);
      NonBlankSurvivesTrim(s, k);
    } else {
      TrimStartSuffix(s);
    }
  }

  lemma {:induction false} NonBlankSurvivesTrim(s: string, k: int)
    requires 0 <= k < |s| && !IsWhiteSpace(s[k])
    ensures Trim(s) != []
  {
    var t := TrimStart(s);
    TrimStartSuffix(s);
    TrimEndPrefix(t);
    var off := |s| - |t|;
    assert k >= off;
    assert t[k - off] == s[k];
    assert k - off < |TrimEnd(t)|;
  }

  /** A trimmed string neither starts nor ends with white space. */
  lemma {:induction false} TrimmedEnds(s: string)
    ensures var r := Trim(s); r != [] ==> !IsWhiteSpace(r[0]) && !IsWhiteSpace(r[|r| - 1])
  {
    var t := TrimStart(s);
    var r := TrimEnd(t);
    TrimStartSuffix(s);
    TrimEndPrefix(t);
    if r != [] {
      assert r[0] == t[0];
    }
  }

  predicate IsDigit(c: char)
  {
    '0' <= c <= '9'
  }

  predicate AllDigits(s: string)
  {
    forall i :: 0 <= i < |s| ==> IsDigit(s[i])
  }

  function DigitChar(d: nat): (c: char)
    requires d < 10
    ensures IsDigit(c) && c as int - '0' as int == d
  {
    (d + '0' as int) as char
  }

  /** The decimal numeral of a non-negative integer, without leading zeros. */
  function NatToString(n: nat): (r: string)
    ensures 1 <= |r| && AllDigits(r)
    ensures |r| > 1 ==> r[0] != '0'
    ensures n < 10 ==> |r| == 1
    ensures 10 <= n < 100 ==> |r| == 2
    decreases n
  {
    if n < 10 then [DigitChar(n)] else NatToString(n / 10) + [DigitChar(n % 10)]
  }

  /** The value a string of decimal digits denotes (the inverse of NatToString). */
  function DigitsValue(s: string): nat
    requires AllDigits(s)
  {
    if s == [] then 0 else DigitsValue(s[..|s| - 1]) * 10 + (s[|s| - 1] as int - '0' as int)
  }

  lemma {:induction false} NatToStringRoundTrip(n: nat)
    ensures DigitsValue(NatToString(n)) == n
    decreases n
  {
    if n >= 10 {
      var s := NatToString(n);
      assert s[..|s| - 1] == NatToString(n / 10);
      NatToStringRoundTrip(n / 10);
    }
  }

  /** Leading zeros do not change the value of a numeral. */
  lemma {:induction false} LeadingZerosValue(z: nat, s: string)
    requires AllDigits(s)
    ensures AllDigits(Repeat('0', z) + s) && DigitsValue(Repeat('0', z) + s) == DigitsValue(s)
    decreases |s|
  {
    var t := Repeat('0', z) + s;
    if s == [] {
      assert t == Repeat('0', z);
      ZerosValue(z);
    } else {
      assert t[..|t| - 1] == Repeat('0', z) + s[..|s| - 1];
      LeadingZerosValue(z, s[..|s| - 1]);
    }
  }

  lemma {:induction false} ZerosValue(z: nat)
    ensures AllDigits(Repeat('0', z)) && DigitsValue(Repeat('0', z)) == 0
    decreases z
  {
    if z > 0 {
      assert Repeat('0', z)[..z - 1] == Repeat('0', z - 1);
      ZerosValue(z - 1);
    }
  }

  /** `n.toString()` for an integral number: a minus sign for negatives, then the numeral of the magnitude. */
  function NumberToString(n: int): string
  {
    if n < 0 then "-" + NatToString(-n) else NatToString(n)
  }

  /**
   * What `n.toString()` denotes: it starts with a minus sign exactly when `n` is
   * negative, and the rest is the decimal numeral, without leading zeros, of `|n|`.
   */
  lemma NumberToStringDenotes(n: int)
    ensures var r := NumberToString(n);
      r != [] && (r[0] == '-' <==> n < 0) &&
      var d := if n < 0 then r[1..] else r;
      d != [] && AllDigits(d) && (|d| > 1 ==> d[0] != '0') &&
      DigitsValue(d) == if n < 0 then -n else n
  {
    NatToStringRoundTrip(if n < 0 then -n else n);
    if n < 0 {
      assert NumberToString(n)[1..] == NatToString(-n);
    }
  }

  /** `c` repeated `n` times. */
  function Repeat(c: char, n: nat): (r: string)
    ensures |r| == n && forall i :: 0 <= i < n ==> r[i] == c
  {
    if n == 0 then [] else Repeat(c, n - 1) + [c]
  }

  /** `s.padStart(len, fill)` for a one-character filler. */
  function PadStart(s: string, len: nat, fill: char): (r: string)
    ensures |r| == if |s| >= len then |s| else len
    ensures r[|r| - |s|..] == s
    ensures forall i :: 0 <= i < |r| - |s| ==> r[i] == fill
  {
    if |s| >= len then s else Repeat(fill, len - |s|) + s
  }

  /** `xs.join(sep)`. */
  function Join(xs: seq<string>, sep: string): string
  {
    if xs == [] then ""
    else if |xs| == 1 then xs[0]
    else Join(xs[..|xs| - 1], sep) + sep + xs[|xs| - 1]
  }

  /** Every element of the array occurs in its join, whatever the separator. */
  lemma {:induction false} JoinContainsElements(xs: seq<string>, sep: string, i: int)
    requires 0 <= i < |xs|
    ensures Occurs(xs[i], Join(xs, sep))
    decreases |xs|
  {
    if |xs| == 1 {
      assert OccursAt(xs[i], Join(xs, sep), 0);
    } else {
      var init := xs[..|xs| - 1];
      if i < |xs| - 1 {
        assert init[i] == xs[i];
        JoinContainsElements(init, sep, i);
        OccursInLeft(xs[i], Join(init, sep), sep + xs[|xs| - 1]);
        assert Join(init, sep) + (sep + xs[|xs| - 1]) == Join(xs, sep);
      } else {
        assert OccursAt(xs[i], xs[i], 0);
        OccursInRight(xs[i], Join(init, sep) + sep, xs[i]);
        assert Join(init, sep) + sep + xs[i] == Join(xs, sep);
      }
    }
  }

  /** `needle` occurs as a contiguous part of `hay` (`hay.includes(needle)`). */
  ghost predicate Occurs(needle: string, hay: string)
  {
    exists k :: OccursAt(needle, hay, k)
  }

  /** `needle` starts at position `k` of `hay`. */
  predicate OccursAt(needle: string, hay: string, k: int)
  {
    0 <= k <= |hay| - |needle| && hay[k..k + |needle|] == needle
  }

  lemma OccursBetween(a: string, b: string, c: string)
    ensures Occurs(b, a + b + c)
  {
    var h := a + b + c;
    assert OccursAt(b, h, |a|);
  }

  lemma OccursInLeft(needle: string, a: string, b: string)
    requires Occurs(needle, a)
    ensures Occurs(needle, a + b)
  {
    var k :| OccursAt(needle, a, k);
    assert (a + b)[k..k + |needle|] == a[k..k + |needle|];
    assert OccursAt(needle, a + b, k);
  }

  lemma OccursInRight(needle: string, a: string, b: string)
    requires Occurs(needle, b)
    ensures Occurs(needle, a + b)
  {
    var k :| OccursAt(needle, b, k);
    assert (a + b)[|a| + k..|a| + k + |needle|] == b[k..k + |needle|];
    assert OccursAt(needle, a + b, |a| + k);
  }
}
