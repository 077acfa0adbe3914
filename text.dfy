/** Character classes and string helpers with Python's `str` semantics. */
module Text {

  /** Python's str.isspace(), which is also what `\s` matches in a str pattern. */
  predicate IsSpace(c: char) {
    var n := c as int;
    n == 0x20 || 0x09 <= n <= 0x0D || 0x1C <= n <= 0x1F || n == 0x85 || n == 0xA0 ||
    n == 0x1680 || 0x2000 <= n <= 0x200A || n == 0x2028 || n == 0x2029 ||
    n == 0x202F || n == 0x205F || n == 0x3000
  }

  /** The line boundaries of Python's str.splitlines(). */
  predicate IsLineBreak(c: char) {
    var n := c as int;
    n == 0x0A || n == 0x0B || n == 0x0C || n == 0x0D || n == 0x1C || n == 0x1D ||
    n == 0x1E || n == 0x85 || n == 0x2028 || n == 0x2029
  }

  /** `\w` restricted to ASCII: letters, digits and the underscore. */
  predicate IsWordChar(c: char) {
    'a' <= c <= 'z' || 'A' <= c <= 'Z' || '0' <= c <= '9' || c == '_'
  }

  /** str.rstrip() */
  function RStrip(s: string): (r: string)
    ensures |r| <= |s| && r == s[..|r|]
    ensures r == [] || !IsSpace(r[|r| - 1])
  {
    if s != [] && IsSpace(s[|s| - 1]) then RStrip(s[..|s| - 1]) else s
  }

  /** str.strip() */
  function Strip(s: string): (r: string)
    ensures r == [] || (!IsSpace(r[0]) && !IsSpace(r[|r| - 1]))
    decreases |s|
  {
    if s != [] && IsSpace(s[0]) then Strip(s[1..])
    else
      var r := RStrip(s);
      assert r != [] ==> r[0] == s[0];
      r
  }

  /** strip() is rstrip() of what follows the leading whitespace. */
  lemma {:induction false} StripAfterLead(s: string)
    ensures LeadingSpace(s) <= |s| && Strip(s) == RStrip(s[LeadingSpace(s)..])
    decreases |s|
  {
    if s != [] && IsSpace(s[0]) {
      StripAfterLead(s[1..]);
      assert s[1..][LeadingSpace(s[1..])..] == s[LeadingSpace(s)..];
    }
  }

  /** Every character of s is whitespace. */
  predicate AllSpace(s: string) {
    forall j :: 0 <= j < |s| ==> IsSpace(s[j])
  }

  /** strip() returns the slice of s left once the leading whitespace, counted by
      LeadingSpace, and the trailing whitespace are cut off: only whitespace is
      removed. */
  lemma StripCuts(s: string)
    ensures var i, r := LeadingSpace(s), Strip(s);
      && i + |r| <= |s| && s == s[..i] + r + s[i + |r|..]
      && AllSpace(s[..i]) && AllSpace(s[i + |r|..])
  {
    var i := LeadingSpace(s);
    var r := Strip(s);
    assert AllSpace(s[..i]) by { LeadingSpaceAll(s); }
    assert r == RStrip(s[i..]) by { StripAfterLead(s); }
    assert i + |r| <= |s| && r == s[i..i + |r|] && AllSpace(s[i + |r|..]) by {
      var u := s[i..];
      RStripCuts(u);
      assert s[i + |r|..] == u[|r|..];
    }
    SplitThree(s, i, i + |r|);
  }

  /** A sequence is its three slices at i and k put back together. */
  lemma SplitThree<T>(s: seq<T>, i: nat, k: nat)
    requires i <= k <= |s|
    ensures s == s[..i] + s[i..k] + s[k..]
  {
  }

  /** Number of leading whitespace characters: the span of `re.match(r"\s*", s)`. */
  function LeadingSpace(s: string): (n: nat)
    ensures n <= |s|
    ensures n < |s| ==> !IsSpace(s[n])
  {
    if s != [] && IsSpace(s[0]) then 1 + LeadingSpace(s[1..]) else 0
  }

  /** The first LeadingSpace(s) characters of s are whitespace. */
  lemma {:induction false} LeadingSpaceSpans(s: string)
    ensures LeadingSpace(s) <= |s|
    ensures forall c :: 0 <= c < LeadingSpace(s) ==> IsSpace(s[c])
  {
    if s != [] && IsSpace(s[0]) {
      LeadingSpaceSpans(s[1..]);
      assert forall c :: 1 <= c < LeadingSpace(s) ==> s[c] == s[1..][c - 1];
    }
  }

  /** What rstrip() cuts off is whitespace. */
  lemma {:induction false} RStripCuts(s: string)
    ensures AllSpace(s[|RStrip(s)|..])
    decreases |s|
  {
    if s != [] && IsSpace(s[|s| - 1]) {
      var t := s[..|s| - 1];
      RStripCuts(t);
      assert s[|RStrip(s)|..] == t[|RStrip(t)|..] + [s[|s| - 1]];
    }
  }

  /** What \s* spans is whitespace. */
  lemma LeadingSpaceAll(s: string)
    ensures AllSpace(s[..LeadingSpace(s)])
  {
    LeadingSpaceSpans(s);
  }

  /** strip() leaves a string that neither starts nor ends with whitespace as it is. */
  lemma StripTrimmed(t: string)
    requires t == [] || (!IsSpace(t[0]) && !IsSpace(t[|t| - 1]))
    ensures Strip(t) == t
  {
    assert RStrip(t) == t;
  }

  /** Whitespace in front of a string does not change what strip() returns. */
  lemma {:induction false} StripSkipsSpace(ws: string, t: string)
    requires AllSpace(ws)
    ensures Strip(ws + t) == Strip(t)
    decreases |ws|
  {
    if ws != [] {
      var s := ws + t;
      assert s[0] == ws[0] && IsSpace(s[0]);
      assert s[1..] == ws[1..] + t;
      calc {
        Strip(s);
        Strip(s[1..]);
        { StripSkipsSpace(ws[1..], t); }
        Strip(t);
      }
    } else {
      assert ws + t == t;
    }
  }

  /** str.replace(a, b) for single characters. */
  function Replace(s: string, a: char, b: char): (r: string)
    ensures |r| == |s|
    ensures forall j :: 0 <= j < |s| ==> r[j] == (if s[j] == a then b else s[j])
  {
    if s == [] then [] else [if s[0] == a then b else s[0]] + Replace(s[1..], a, b)
  }

  /** sep.join(parts) */
  function Join(parts: seq<string>, sep: string): string {
    if |parts| == 0 then ""
    else if |parts| == 1 then parts[0]
    else parts[0] + sep + Join(parts[1..], sep)
  }

  /** " " * n, which is "" when n is not positive. */
  function Spaces(n: int): (r: string)
    ensures |r| == (if n > 0 then n else 0)
    ensures forall j :: 0 <= j < |r| ==> r[j] == ' '
  {
    if n <= 0 then "" else " " + Spaces(n - 1)
  }

  /** line[k:]: Python slicing clamps, so a short line becomes "". */
  function DropPrefix(s: string, k: nat): string {
    if k <= |s| then s[k..] else ""
  }

  /** First index of a or b in s, or |s|. */
  function FindEither(s: string, a: char, b: char): (i: nat)
    ensures i <= |s|
    ensures forall j :: 0 <= j < i ==> s[j] != a && s[j] != b
    ensures i < |s| ==> s[i] == a || s[i] == b
  {
    if s == [] || s[0] == a || s[0] == b then 0 else 1 + FindEither(s[1..], a, b)
  }

  /** Index of the first line boundary of s, or |s| when there is none. */
  function FirstBreak(s: string): (i: nat)
    ensures i <= |s|
    ensures forall j :: 0 <= j < i ==> !IsLineBreak(s[j])
    ensures i < |s| ==> IsLineBreak(s[i])
  {
    if s == [] || IsLineBreak(s[0]) then 0 else 1 + FirstBreak(s[1..])
  }

  /** str.splitlines(): "\r\n" is one boundary and a final boundary adds no empty line. */
  function SplitLines(s: string): seq<string>
    decreases |s|
  {
    if s == [] then []
    else
      var i := FirstBreak(s);
      if i == |s| then [s]
      else
        var skip := if s[i] == '\r' && i + 1 < |s| && s[i + 1] == '\n' then 2 else 1;
        [s[..i]] + SplitLines(s[i + skip..])
  }
}
