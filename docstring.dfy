/** format_docstring: trimming a docstring to its lines with content and shifting
    it left by at most two columns. */
module Docstring {
  import opened Wrappers
  import opened Text

  const TabsMessage: string :=
    "For simplicity, tabs are not supported. Please remove tabs from your docstring " +
    "to use pysimplecli. See also PEP 8: https://peps.python.org/pep-0008/#tabs-or-spaces"

  /** A line that `\s*` matches to its end: empty or whitespace only. */
  predicate Blank(line: string) {
    LeadingSpace(line) == |line|
  }

  /** The index of the first line with content, or |lines| when there is none. */
  function FirstContent(lines: seq<string>): (i: nat)
    ensures i <= |lines|
    ensures i < |lines| ==> !Blank(lines[i])
    ensures forall j :: 0 <= j < i ==> Blank(lines[j])
  {
    if lines == [] || !Blank(lines[0]) then 0
    else
      var i := FirstContent(lines[1..]);
      assert forall j :: 1 <= j < i + 1 ==> lines[j] == lines[1..][j - 1];
      i + 1
  }

  /** One past the index of the last line with content, or 0 when there is none. */
  function ContentEnd(lines: seq<string>): (e: nat)
    ensures e <= |lines|
    ensures e > 0 ==> !Blank(lines[e - 1])
    ensures forall j :: e <= j < |lines| ==> Blank(lines[j])
  {
    if lines == [] || !Blank(lines[|lines| - 1]) then |lines|
    else
      var e := ContentEnd(lines[..|lines| - 1]);
      assert forall j :: e <= j < |lines| - 1 ==> lines[j] == lines[..|lines| - 1][j];
      e
  }

  /** How many columns every line is shifted left: the smallest indentation of a
      line with content, but never more than 2. */
  function ShiftWidth(lines: seq<string>): (m: nat)
    ensures m <= 2
    ensures forall j :: 0 <= j < |lines| && !Blank(lines[j]) ==> m <= LeadingSpace(lines[j])
    ensures m == 2 || exists j :: 0 <= j < |lines| && !Blank(lines[j]) && LeadingSpace(lines[j]) == m
  {
    if lines == [] then 2
    else
      var n := |lines| - 1;
      var init := lines[..n];
      var m := ShiftWidth(init);
      assert forall j :: 0 <= j < n ==> lines[j] == init[j];
      if Blank(lines[n]) || m <= LeadingSpace(lines[n]) then m else LeadingSpace(lines[n])
  }

  /** Where the kept lines end: after the last line with content, or at the end
      when there is no content at all (the kept lines are then empty). */
  function KeptEnd(lines: seq<string>): (e: nat)
    ensures FirstContent(lines) <= e <= |lines|
  {
    var s := FirstContent(lines);
    if s < |lines| then
      assert !Blank(lines[s]);
      ContentEnd(lines)
    else |lines|
  }

  /** The lines with content and the blank lines between them. */
  function Kept(lines: seq<string>): seq<string> {
    lines[FirstContent(lines)..KeptEnd(lines)]
  }

  /** Every line shifted left by m columns (a shorter line becomes empty). */
  function Shifted(lines: seq<string>, m: nat): (r: seq<string>)
    ensures |r| == |lines|
    ensures forall j :: 0 <= j < |lines| ==> r[j] == DropPrefix(lines[j], m)
  {
    if lines == [] then []
    else
      var init := lines[..|lines| - 1];
      assert forall j :: 0 <= j < |init| ==> init[j] == lines[j];
      Shifted(init, m) + [DropPrefix(lines[|lines| - 1], m)]
  }

  /** format_docstring: the ValueError's message for a docstring with a tab, else
      the kept lines, shifted, joined with newlines. */
  function Formatted(docstring: string): Result<string, string> {
    if '\t' in docstring then Err(TabsMessage)
    else
      var lines := SplitLines(docstring);
      Ok(Join(Shifted(lines, ShiftWidth(lines))[FirstContent(lines)..KeptEnd(lines)], "\n"))
  }

  /** format_docstring */
  method FormatDocstring(docstring: string) returns (r: Result<string, string>)
    ensures r == Formatted(docstring)
  {
    if '\t' in docstring {
      return Err(TabsMessage);
    }
    var lines := SplitLines(docstring);
    var start, endOffset, minimumIndent := Scan(lines);
    var alignedLines := Shifted(lines, minimumIndent);
    return Ok(Join(alignedLines[start..|lines| - endOffset], "\n"));
  }

  /** The loop of format_docstring over the lines: where the content starts, how
      many blank lines trail it and how far to shift. */
  method Scan(lines: seq<string>) returns (start: nat, endOffset: nat, minimumIndent: nat)
    ensures start == FirstContent(lines)
    ensures endOffset <= |lines| && |lines| - endOffset == KeptEnd(lines)
    ensures minimumIndent == ShiftWidth(lines)
  {
    start, endOffset, minimumIndent := 0, 0, 2;
    var searchingForStart := true;
    ghost var narrowest := 0;
    for offset := 0 to |lines|
      invariant start <= offset && forall j :: 0 <= j < start ==> Blank(lines[j])
      invariant searchingForStart ==> start == offset && endOffset == 0
      invariant !searchingForStart ==> ContentWindow(lines, offset, start, endOffset)
      invariant MinIndent(lines, offset, minimumIndent, narrowest)
    {
      var line := lines[offset];
      var indent := LeadingSpace(line);
      if indent != |line| {
        MinIndentNext(lines, offset, minimumIndent, narrowest);
        endOffset := 0;
        if indent < minimumIndent {
          narrowest := offset;
        }
        minimumIndent := if indent < minimumIndent then indent else minimumIndent;
        searchingForStart := false;
      } else if searchingForStart {
        start := offset + 1;
      } else {
        WindowGrows(lines, offset, start, endOffset);
        endOffset := endOffset + 1;
      }
    }
    FirstContentUnique(lines, start);
    if !searchingForStart {
      ContentEndUnique(lines, |lines| - endOffset);
    }
    ShiftWidthUnique(lines, minimumIndent, narrowest);
  }

  /** After the first `offset` lines, once content was seen: it starts at `start`
      and the last `endOffset` of those lines are blank, the one before them not. */
  ghost predicate ContentWindow(lines: seq<string>, offset: nat, start: nat, endOffset: nat) {
    && offset <= |lines|
    && start < offset && !Blank(lines[start])
    && endOffset < offset - start && !Blank(lines[offset - endOffset - 1])
    && (forall j :: offset - endOffset <= j < offset ==> Blank(lines[j]))
  }

  lemma WindowGrows(lines: seq<string>, offset: nat, start: nat, endOffset: nat)
    requires offset < |lines| && Blank(lines[offset])
    requires ContentWindow(lines, offset, start, endOffset)
    ensures ContentWindow(lines, offset + 1, start, endOffset + 1)
  {
  }

  /** After the first `offset` lines: m is at most 2 and at most the indentation of
      every line with content so far, and it is 2 or the indentation of line w. */
  ghost predicate MinIndent(lines: seq<string>, offset: nat, m: nat, w: nat) {
    && offset <= |lines|
    && m <= 2
    && (forall j :: 0 <= j < offset && !Blank(lines[j]) ==> m <= LeadingSpace(lines[j]))
    && (m == 2 || (w < offset && !Blank(lines[w]) && LeadingSpace(lines[w]) == m))
  }

  lemma MinIndentNext(lines: seq<string>, offset: nat, m: nat, w: nat)
    requires offset < |lines| && !Blank(lines[offset]) && MinIndent(lines, offset, m, w)
    ensures var i := LeadingSpace(lines[offset]);
      MinIndent(lines, offset + 1, if i < m then i else m, if i < m then offset else w)
  {
  }

  lemma FirstContentUnique(lines: seq<string>, i: nat)
    requires i <= |lines| && (i < |lines| ==> !Blank(lines[i]))
    requires forall j :: 0 <= j < i ==> Blank(lines[j])
    ensures i == FirstContent(lines)
  {
  }

  lemma ContentEndUnique(lines: seq<string>, e: nat)
    requires 0 < e <= |lines| && !Blank(lines[e - 1])
    requires forall j :: e <= j < |lines| ==> Blank(lines[j])
    ensures e == ContentEnd(lines)
  {
  }

  lemma ShiftWidthUnique(lines: seq<string>, m: nat, w: nat)
    requires MinIndent(lines, |lines|, m, w)
    ensures m == ShiftWidth(lines)
  {
  }

  /** The kept lines begin and end with a line that has content, and every line
      with content is kept. */
  lemma KeptTrimmed(lines: seq<string>)
    ensures var k := Kept(lines);
      && (k != [] ==> !Blank(k[0]) && !Blank(k[|k| - 1]))
      && (k == [] <==> forall j :: 0 <= j < |lines| ==> Blank(lines[j]))
      && (forall j :: 0 <= j < |lines| && !Blank(lines[j]) ==> lines[j] in k)
  {
    var s, e := FirstContent(lines), KeptEnd(lines);
    var k := Kept(lines);
    if s < |lines| {
      assert !Blank(lines[s]);
      assert k[0] == lines[s] && k[|k| - 1] == lines[e - 1];
      forall j | 0 <= j < |lines| && !Blank(lines[j])
        ensures lines[j] in k
      {
        assert k[j - s] == lines[j];
      }
    }
  }

  /** A docstring without tabs formats to its kept lines, each shifted, joined
      with newlines. */
  lemma FormattedKept(docstring: string)
    requires '\t' !in docstring
    ensures var lines := SplitLines(docstring);
      Formatted(docstring) == Ok(Join(Shifted(Kept(lines), ShiftWidth(lines)), "\n"))
  {
    var lines := SplitLines(docstring);
    ShiftedSlice(lines, ShiftWidth(lines), FirstContent(lines), KeptEnd(lines));
  }

  /** Shifting the lines and then keeping a slice of them is keeping the slice and
      shifting it. */
  lemma ShiftedSlice(lines: seq<string>, m: nat, a: nat, b: nat)
    requires a <= b <= |lines|
    ensures Shifted(lines, m)[a..b] == Shifted(lines[a..b], m)
  {
  }

  /** The shift removes only whitespace, from lines with content: what it cuts off
      a line with content is whitespace and the rest of the line is kept whole. */
  lemma ShiftCutsOnlyIndent(lines: seq<string>, j: nat)
    requires j < |lines| && !Blank(lines[j])
    ensures var m := ShiftWidth(lines);
      && m <= LeadingSpace(lines[j]) < |lines[j]|
      && lines[j] == lines[j][..m] + DropPrefix(lines[j], m)
      && forall c :: 0 <= c < m ==> IsSpace(lines[j][c])
  {
    var line := lines[j];
    var m := ShiftWidth(lines);
    LeadingSpaceSpans(line);
    assert line == line[..m] + line[m..];
  }
}
