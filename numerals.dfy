/** The numeric conversions Python's int() and float() perform on a str, and str() of an int. */
module Numerals {
  import opened Wrappers
  import opened Text

  predicate IsDigit(c: char) {
    '0' <= c <= '9'
  }

  /** One or more ASCII digits; a single underscore may stand between two digits ("1_000"). */
  predicate IsDigitPart(s: string)
    decreases |s|
  {
    |s| > 0 && IsDigit(s[0]) &&
    (|s| == 1 || IsDigitPart(s[1..]) || (s[1] == '_' && IsDigitPart(s[2..])))
  }

  /** The number a digit part denotes: its digits read in base ten, underscores skipped. */
  function DigitsValue(s: string): nat
    decreases |s|
  {
    if s == [] then 0
    else if IsDigit(s[|s| - 1]) then 10 * DigitsValue(s[..|s| - 1]) + (s[|s| - 1] as int - '0' as int)
    else DigitsValue(s[..|s| - 1])
  }

  /** int(s) on text written with ASCII digits: Some(n) when Python returns n, None
      when it raises ValueError. Other Unicode decimal digits, which Python also
      reads, are treated as ValueError. */
  function ParseInt(s: string): Option<int> {
    var t := Strip(s);
    if |t| > 0 && (t[0] == '+' || t[0] == '-') then
      if IsDigitPart(t[1..]) then
        var v: int := DigitsValue(t[1..]);
        Some(if t[0] == '-' then -v else v)
      else None
    else if IsDigitPart(t) then Some(DigitsValue(t))
    else None
  }

  function DigitChar(d: nat): (c: char)
    requires d < 10
    ensures IsDigit(c) && c as int - '0' as int == d
  {
    ('0' as int + d) as char
  }

  /** The decimal digits of n, most significant first, without leading zeros. */
  function NatToString(n: nat): (r: string)
    ensures |r| > 0 && forall j :: 0 <= j < |r| ==> IsDigit(r[j])
  {
    if n < 10 then [DigitChar(n)] else NatToString(n / 10) + [DigitChar(n % 10)]
  }

  /** str(i) */
  function IntToString(i: int): (r: string)
    ensures |r| > 0
  {
    if i < 0 then "-" + NatToString(-i) else NatToString(i)
  }

  lemma {:induction false} AllDigitsIsDigitPart(s: string)
    requires |s| > 0 && forall j :: 0 <= j < |s| ==> IsDigit(s[j])
    ensures IsDigitPart(s)
  {
    if |s| > 1 {
      AllDigitsIsDigitPart(s[1..]);
    }
  }

  lemma {:induction false} NatToStringValue(n: nat)
    ensures DigitsValue(NatToString(n)) == n
  {
    if n >= 10 {
      var s := NatToString(n);
      assert s[..|s| - 1] == NatToString(n / 10);
      NatToStringValue(n / 10);
    }
  }

  lemma StripUnchanged(s: string)
    requires s != [] && !IsSpace(s[0]) && !IsSpace(s[|s| - 1])
    ensures Strip(s) == s
  {
  }

  /** int(str(i)) == i: the rendering of an int is read back as the same int. */
  lemma {:induction false} IntRoundTrip(i: int)
    ensures ParseInt(IntToString(i)) == Some(i)
  {
    var s := IntToString(i);
    var n: nat := if i < 0 then -i else i;
    var d := NatToString(n);
    AllDigitsIsDigitPart(d);
    NatToStringValue(n);
    if i < 0 {
      assert s == "-" + d && s[1..] == d;
      StripUnchanged(s);
    } else {
      assert s == d;
      StripUnchanged(s);
    }
  }

  function LowerAscii(s: string): (r: string)
    ensures |r| == |s|
  {
    if s == [] then ""
    else [if 'A' <= s[0] <= 'Z' then (s[0] as int + 32) as char else s[0]] + LowerAscii(s[1..])
  }

  /** The part of a float literal after an optional sign. */
  function FloatBody(t: string): string {
    if |t| > 0 && (t[0] == '+' || t[0] == '-') then t[1..] else t
  }

  predicate IsSpecialFloat(body: string) {
    var l := LowerAscii(body);
    l == "inf" || l == "infinity" || l == "nan"
  }

  /** digitpart ["." [digitpart]] | "." digitpart */
  predicate IsMantissa(m: string) {
    var d := FindEither(m, '.', '.');
    if d == |m| then IsDigitPart(m)
    else
      || (IsDigitPart(m[..d]) && (d + 1 == |m| || IsDigitPart(m[d + 1..])))
      || (d == 0 && IsDigitPart(m[1..]))
  }

  predicate IsExponent(x: string) {
    |x| > 0 && (if x[0] == '+' || x[0] == '-' then IsDigitPart(x[1..]) else IsDigitPart(x))
  }

  predicate IsDecimalFloat(body: string) {
    var e := FindEither(body, 'e', 'E');
    IsMantissa(body[..e]) && (e == |body| || IsExponent(body[e + 1..]))
  }

  /** float(s) does not raise ValueError, for text written with ASCII digits. */
  predicate IsFloatLiteral(s: string) {
    var body := FloatBody(Strip(s));
    IsSpecialFloat(body) || IsDecimalFloat(body)
  }

  /** A float literal that denotes zero (so bool() of it is False). */
  predicate FloatIsZero(literal: string) {
    var body := FloatBody(Strip(literal));
    var m := body[..FindEither(body, 'e', 'E')];
    !IsSpecialFloat(body) && forall j :: 0 <= j < |m| && IsDigit(m[j]) ==> m[j] == '0'
  }
}
