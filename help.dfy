/** help_text: the usage line, the optional description and one aligned option
    line per parameter. */
module Help {
  import opened Text
  import opened Types
  import opened Params
  import opened Binder

  /** The length of the longest help name: what `max(params, key=...)` selects. */
  function HelpWidth(ps: seq<ParamState>): (w: nat)
    requires ps != []
    ensures forall i :: 0 <= i < |ps| ==> |HelpName(ps[i].decl)| <= w
    ensures exists i :: 0 <= i < |ps| && |HelpName(ps[i].decl)| == w
  {
    var h := |HelpName(ps[0].decl)|;
    if |ps| == 1 then h
    else
      var rest := HelpWidth(ps[1..]);
      assert forall i :: 1 <= i < |ps| ==> ps[i] == ps[1..][i - 1];
      if h >= rest then h else rest
  }

  /** `type(default) in (int, float, str)`: a bool, None, list or set default, or no
      default at all, is not shown. */
  predicate ShowsDefault(v: PyValue) {
    v.Single? && (v.atom.IntAtom? || v.atom.FloatAtom? || v.atom.StrAtom?)
  }

  /** The description on an option line, after a space, when there is one. */
  function DescriptionNote(description: string): string {
    if description != "" then " " + description else ""
  }

  /** The default on an option line, after a space, when it is shown. */
  function DefaultNote(default: PyValue): string {
    if ShowsDefault(default) then " (Default: " + Display(default.atom) + ")" else ""
  }

  /** What follows the padding on an option line. */
  function OptionNotes(p: ParamState): string {
    DescriptionNote(p.description) + DefaultNote(p.decl.default)
  }

  /** The option line of one parameter when the longest help name has `width`
      characters. */
  function OptionLine(p: ParamState, width: nat): string {
    "  --" + HelpName(p.decl) + Spaces(width - |HelpName(p.decl)| + 2) +
      DescriptionNote(p.description) + DefaultNote(p.decl.default)
  }

  /** The option lines of all parameters, in order. */
  function OptionLines(ps: seq<ParamState>, width: nat): (lines: seq<string>)
    ensures |lines| == |ps|
    ensures forall i :: 0 <= i < |ps| ==> lines[i] == OptionLine(ps[i], width)
  {
    seq(|ps|, i requires 0 <= i < |ps| => OptionLine(ps[i], width))
  }

  /** The help names of the required parameters, in declaration order. */
  function RequiredNames(ps: seq<ParamState>): (names: seq<string>)
    ensures |names| <= |ps|
    ensures forall n :: n in names <==> exists i :: 0 <= i < |ps| && Required(ps[i].decl) && HelpName(ps[i].decl) == n
  {
    if ps == [] then []
    else
      var init := RequiredNames(ps[..|ps| - 1]);
      assert forall i :: 0 <= i < |ps| - 1 ==> ps[..|ps| - 1][i] == ps[i];
      if Required(ps[|ps| - 1].decl) then init + [HelpName(ps[|ps| - 1].decl)] else init
  }

  /** The usage line: the program's file name, then the required parameters'
      help names joined as "[a] [b]". */
  function UsageLine(filename: string, positional: seq<string>): string {
    if positional != [] then "  " + filename + " " + "[" + Join(positional, "] [") + "]"
    else "  " + filename + " "
  }

  /** The description, when there is one, and the heading of the options. */
  function Preamble(docstring: string): seq<string> {
    (if docstring != "" then ["Description:", docstring, ""] else []) + ["Options:"]
  }

  /** The lines help_text joins with newlines. */
  function HelpLines(filename: string, ps: seq<ParamState>, docstring: string): seq<string>
    requires ps != []
  {
    ["Usage:", UsageLine(filename, RequiredNames(ps)), ""] +
    (Preamble(docstring) + OptionLines(ps, HelpWidth(ps)))
  }

  /** help_text. The parameter list must not be empty: max() of an empty list
      raises. */
  method HelpText(filename: string, params: seq<Param>, docstring: string) returns (text: string)
    requires |params| > 0
    ensures text == Join(HelpLines(filename, States(params), docstring), "\n")
  {
    var helpMsg: seq<string> := [];
    if docstring != "" {
      helpMsg := helpMsg + ["Description:", docstring, ""];
    }
    helpMsg := helpMsg + ["Options:"];
    assert helpMsg == Preamble(docstring);
    var width := HelpWidth(States(params));
    var options, positional := Options(params, width);
    helpMsg := helpMsg + options;
    var usage := "  " + filename + " ";
    if positional != [] {
      usage := usage + "[" + Join(positional, "] [") + "]";
    }
    assert usage == UsageLine(filename, RequiredNames(States(params)));
    text := Join(["Usage:", usage, ""] + helpMsg, "\n");
  }

  /** help_text's loop: the option line of every parameter, and the help names of
      the required ones. */
  method Options(params: seq<Param>, width: nat) returns (lines: seq<string>, positional: seq<string>)
    ensures lines == OptionLines(States(params), width)
    ensures positional == RequiredNames(States(params))
  {
    ghost var ps := States(params);
    lines, positional := [], [];
    for i := 0 to |params|
      invariant lines == OptionLines(ps[..i], width)
      invariant positional == RequiredNames(ps[..i])
    {
      PrefixNext(ps, width, i);
      var p := params[i];
      if Required(p.decl) {
        positional := positional + [HelpName(p.decl)];
      }
      var helpLine := OptionLineOf(p, width);
      lines := lines + [helpLine];
    }
    assert ps[..|params|] == ps;
  }

  /** One more parameter adds its option line and, when it is required, its help
      name. */
  lemma PrefixNext(ps: seq<ParamState>, width: nat, i: nat)
    requires i < |ps|
    ensures OptionLines(ps[..i + 1], width) == OptionLines(ps[..i], width) + [OptionLine(ps[i], width)]
    ensures RequiredNames(ps[..i + 1]) ==
      RequiredNames(ps[..i]) + (if Required(ps[i].decl) then [HelpName(ps[i].decl)] else [])
  {
    assert ps[..i + 1][..i] == ps[..i];
  }

  /** One option line of help_text's loop. */
  method OptionLineOf(p: Param, width: nat) returns (helpLine: string)
    ensures helpLine == OptionLine(p.State(), width)
  {
    helpLine := "  --" + HelpName(p.decl);
    var offset := width - |HelpName(p.decl)| + 2;
    helpLine := helpLine + Spaces(offset);
    if p.description != "" {
      helpLine := helpLine + (" " + p.description);
    }
    assert helpLine == "  --" + HelpName(p.decl) + Spaces(offset) + DescriptionNote(p.description);
    if p.decl.default != EmptyValue {
      if ShowsDefault(p.decl.default) {
        helpLine := helpLine + (" (Default: " + Display(p.decl.default.atom) + ")");
      }
    }
  }

  /** The required names each in brackets, separated by single spaces. */
  function Bracketed(names: seq<string>): string {
    if names == [] then ""
    else if |names| == 1 then "[" + names[0] + "]"
    else "[" + names[0] + "] " + Bracketed(names[1..])
  }

  /** `"[" + "] [".join(names) + "]"` puts every name in its own brackets. */
  lemma {:induction false} JoinBrackets(names: seq<string>)
    requires names != []
    ensures "[" + Join(names, "] [") + "]" == Bracketed(names)
  {
    if |names| > 1 {
      JoinBrackets(names[1..]);
      var a, j := names[0], Join(names[1..], "] [");
      calc {
        "[" + Join(names, "] [") + "]";
        "[" + (a + "] [" + j) + "]";
        "[" + a + "] " + ("[" + j + "]");
        "[" + a + "] " + Bracketed(names[1..]);
      }
    }
  }

  /** The usage line lists exactly the required parameters, each in brackets. */
  lemma UsageLists(filename: string, ps: seq<ParamState>)
    ensures UsageLine(filename, RequiredNames(ps)) == "  " + filename + " " + Bracketed(RequiredNames(ps))
  {
    if RequiredNames(ps) != [] {
      JoinBrackets(RequiredNames(ps));
    }
  }

  /** Every option line starts "  --<help name>" and is padded with spaces so
      that what follows begins at column width + 6 on every line, two columns past
      the longest help name. */
  lemma OptionLineLayout(p: ParamState, width: nat)
    requires |HelpName(p.decl)| <= width
    ensures var line, h := OptionLine(p, width), HelpName(p.decl);
      && |line| == width + 6 + |OptionNotes(p)|
      && line[..4] == "  --"
      && line[4..4 + |h|] == h
      && (forall j :: 4 + |h| <= j < width + 6 ==> line[j] == ' ')
      && line[width + 6..] == OptionNotes(p)
  {
    var h := HelpName(p.decl);
    var b := "  --" + h + Spaces(width - |h| + 2);
    Padded(h, width);
    var line := OptionLine(p, width);
    assert line == b + OptionNotes(p);
    forall j | 0 <= j < |b|
      ensures line[j] == b[j]
    {
    }
  }

  /** "  --" and the help name, padded with spaces to width + 6 characters. */
  lemma Padded(h: string, width: nat)
    requires |h| <= width
    ensures var b := "  --" + h + Spaces(width - |h| + 2);
      && |b| == width + 6
      && b[..4] == "  --"
      && b[4..4 + |h|] == h
      && (forall j :: 4 + |h| <= j < width + 6 ==> b[j] == ' ')
  {
    var a := "  --" + h;
    var b := a + Spaces(width - |h| + 2);
    assert b[..4] == a[..4];
    assert b[4..4 + |h|] == a[4..];
  }

  /** The notes show the default exactly when it is an int, float or str. */
  lemma DefaultShown(p: ParamState)
    ensures p.description == "" ==>
      (OptionNotes(p) != "" <==> ShowsDefault(p.decl.default))
    ensures ShowsDefault(p.decl.default) ==>
      var note := " (Default: " + Display(p.decl.default.atom) + ")";
      |OptionNotes(p)| >= |note| && OptionNotes(p)[|OptionNotes(p)| - |note|..] == note
  {
  }
}
