/** extract_code_params and process_comment: the scan over the tokens of a
    function's source that finds each parameter's name and harvests the comments
    around it as the parameter's description. */
module Extract {
  import opened Wrappers
  import opened Params
  import opened Binder
  import opened Types
  import opened Text

  /** The token kinds the scan tells apart; every other kind is Other. */
  datatype TokenKind = Comment | NL | Name | Other

  /** One token of the function's source: its kind, its text, what tokenizing its
      physical line on its own yields, and the row it ends on. */
  datatype Token = Token(kind: TokenKind, text: string, line: LineTokens, endRow: int)

  /** A COMMENT token that ends after the last row of the parameter list, when
      that row is known (fdEnd is -1 when it is not). */
  predicate Late(t: Token, fdEnd: int) {
    t.kind == Comment && fdEnd > -1 && t.endRow > fdEnd
  }

  /** The state of the scan, with parameters named by their position in the
      ordered parameters: the positions appended to `params` so far, the pending
      `param`, the pending `comment`, what is left of `hints` (and of
      ordered_params, which has the same keys), and every parameter's state. */
  datatype Cursor = Cursor(
    out: seq<nat>,
    cur: Option<nat>,
    comment: string,
    hints: map<string, nat>,
    states: seq<ParamState>)

  /** Positions in range, and every hint names the parameter it maps to. */
  predicate Valid(c: Cursor) {
    && (forall j :: 0 <= j < |c.out| ==> c.out[j] < |c.states|)
    && (c.cur.Some? ==> c.cur.value < |c.states|)
    && (forall name :: name in c.hints ==>
          c.hints[name] < |c.states| && c.states[c.hints[name]].decl.name == name)
  }

  /** The parameters in the order they are or will be appended: `params`, then the
      pending one. */
  function Order(c: Cursor): (r: seq<nat>)
    ensures Valid(c) ==> forall j :: 0 <= j < |r| ==> r[j] < |c.states|
  {
    c.out + (if c.cur.Some? then [c.cur.value] else [])
  }

  /** Only descriptions change: the same parameters, with the same declarations
      and bound values. */
  predicate SameParams(a: seq<ParamState>, b: seq<ParamState>) {
    && |a| == |b|
    && forall i :: 0 <= i < |a| ==> a[i].decl == b[i].decl && a[i].bound == b[i].bound
  }

  /** The ordered parameters turned into hints: every name mapped to its position. */
  function HintsOf(ps: seq<ParamState>): (h: map<string, nat>)
    ensures forall name :: name in h ==> h[name] < |ps| && ps[h[name]].decl.name == name
    ensures forall i :: 0 <= i < |ps| ==> ps[i].decl.name in h
  {
    if ps == [] then map[]
    else
      var n := |ps| - 1;
      var h := HintsOf(ps[..n]);
      assert forall i :: 0 <= i < n ==> ps[..n][i] == ps[i];
      h[ps[n].decl.name := n]
  }

  /** The scan before the first token. */
  function Init(ps: seq<ParamState>): (c: Cursor)
    ensures Valid(c)
  {
    Cursor([], None, "", HintsOf(ps), ps)
  }

  /** parse_or_prepend on the parameter at position k: the new states and the
      flag it returns. */
  function Describe(states: seq<ParamState>, k: nat, line: LineTokens, comment: string, overwrite: bool): (r: (seq<ParamState>, bool))
    requires k < |states|
    ensures SameParams(states, r.0)
    ensures forall i :: 0 <= i < |states| && i != k ==> r.0[i] == states[i]
  {
    var (d, lineSet) := DescribeFrom(states[k].description, line, comment, overwrite);
    (states[k := states[k].(description := d)], lineSet)
  }

  /** The pending parameter is appended to `params`, and `comment` and `param`
      are reset. */
  function Close(c: Cursor): (r: Cursor)
    requires c.cur.Some?
    ensures Valid(c) ==> Valid(r)
    ensures Order(r) == Order(c) && r.states == c.states && r.hints == c.hints
  {
    c.(out := c.out + [c.cur.value], cur := None, comment := "")
  }

  /** process_comment, and the assignment of its result to `comment`. */
  function CommentStep(c: Cursor, t: Token): (r: Cursor)
    requires Valid(c)
    ensures Valid(r) && SameParams(c.states, r.states)
    ensures r.out == c.out && r.cur == c.cur && r.hints == c.hints
  {
    if c.out != [] && c.cur.None? then
      c.(states := Describe(c.states, c.out[|c.out| - 1], t.line, t.text, true).0, comment := "")
    else if c.cur.Some? then
      c.(states := Describe(c.states, c.cur.value, t.line, t.text, false).0, comment := t.text)
    else
      c.(comment := t.text)
  }

  datatype Stepped = Stop | Next(cursor: Cursor)

  /** One iteration of extract_code_params's loop: a late comment breaks out of
      it; any other comment goes to process_comment; a newline closes the pending
      parameter; a name still in the hints closes it too and becomes the pending
      parameter, closed at once when its own line carries a comment. */
  function Step(c: Cursor, t: Token, fdEnd: int): (r: Stepped)
    requires Valid(c)
    ensures r.Stop? <==> Late(t, fdEnd)
    ensures r.Next? ==> Valid(r.cursor) && SameParams(c.states, r.cursor.states)
  {
    if Late(t, fdEnd) then Stop
    else if t.kind == Comment then Next(CommentStep(c, t))
    else if t.kind == NL && c.cur.Some? then
      Next(Close(c.(states := Describe(c.states, c.cur.value, t.line, c.comment, true).0)))
    else if t.kind == Name && t.text in c.hints then Next(NameStep(c, t))
    else Next(c)
  }

  /** A NAME token still in the hints: the pending parameter is closed, the name
      is popped from the hints, and its parameter becomes the pending one, closed
      at once when parse_or_prepend reports a comment on its line. */
  function NameStep(c: Cursor, t: Token): (r: Cursor)
    requires Valid(c) && t.text in c.hints
    ensures Valid(r) && SameParams(c.states, r.states)
    ensures r.hints == c.hints - {t.text}
    ensures Order(r) == Order(c) + [c.hints[t.text]]
  {
    var c1 := if c.cur.Some? then Close(c) else c;
    var k := c.hints[t.text];
    var (s, lineSet) := Describe(c1.states, k, t.line, c1.comment, true);
    var c2 := c1.(hints := c1.hints - {t.text}, cur := Some(k), states := s);
    if lineSet then Close(c2) else c2
  }

  /** The scan from cursor c over the tokens, up to the first late comment. */
  function Run(c: Cursor, tokens: seq<Token>, fdEnd: int): (r: Cursor)
    requires Valid(c)
    ensures Valid(r) && SameParams(c.states, r.states)
    decreases |tokens|, 1
  {
    if tokens == [] then c else Continue(c, tokens, fdEnd)
  }

  /** The scan from cursor c over a token and the tokens after it. */
  function Continue(c: Cursor, tokens: seq<Token>, fdEnd: int): (r: Cursor)
    requires Valid(c) && tokens != []
    ensures Valid(r) && SameParams(c.states, r.states)
    decreases |tokens|, 0
  {
    match Step(c, tokens[0], fdEnd)
    case Stop => c
    case Next(c') => Run(c', tokens[1..], fdEnd)
  }

  /** extract_code_params: the scan over all tokens, then the pending parameter
      appended. */
  function Extracted(ps: seq<ParamState>, tokens: seq<Token>, fdEnd: int): (r: Cursor)
    ensures Valid(r) && SameParams(ps, r.states) && r.cur.None?
  {
    var c := Run(Init(ps), tokens, fdEnd);
    if c.cur.Some? then Close(c) else c
  }

  /** The position of the first late comment, or |tokens| when there is none. */
  function StopAt(tokens: seq<Token>, fdEnd: int): (k: nat)
    ensures k <= |tokens|
    ensures k < |tokens| ==> Late(tokens[k], fdEnd)
    ensures forall j :: 0 <= j < k ==> !Late(tokens[j], fdEnd)
  {
    if tokens == [] || Late(tokens[0], fdEnd) then 0
    else
      var k := StopAt(tokens[1..], fdEnd);
      assert forall j :: 1 <= j < k + 1 ==> tokens[j] == tokens[1..][j - 1];
      k + 1
  }

  /** Reference definition of the names found: the first NAME token of each hinted
      name, in token order. */
  function Mentions(tokens: seq<Token>, names: set<string>): seq<string> {
    if tokens == [] then []
    else if tokens[0].kind == Name && tokens[0].text in names then
      [tokens[0].text] + Mentions(tokens[1..], names - {tokens[0].text})
    else Mentions(tokens[1..], names)
  }

  /** The names of the parameters at the given positions. */
  function NamesAt(states: seq<ParamState>, idx: seq<nat>): (r: seq<string>)
    requires forall j :: 0 <= j < |idx| ==> idx[j] < |states|
    ensures |r| == |idx|
    ensures forall j :: 0 <= j < |idx| ==> r[j] == states[idx[j]].decl.name
  {
    if idx == [] then [] else [states[idx[0]].decl.name] + NamesAt(states, idx[1..])
  }

  /** The position of the first NAME token spelling n, or |tokens| when there is
      none. */
  function FirstName(tokens: seq<Token>, n: string): (k: nat)
    ensures k <= |tokens|
  {
    if tokens == [] then 0
    else if tokens[0].kind == Name && tokens[0].text == n then 0
    else 1 + FirstName(tokens[1..], n)
  }

  /** The reference definition lists each hinted name that some NAME token
      spells, and nothing else, in the order of their first NAME tokens (so no
      name twice). */
  lemma {:induction false} MentionsOrder(tokens: seq<Token>, names: set<string>)
    ensures var m := Mentions(tokens, names);
      && (forall n :: n in m <==> n in names && FirstName(tokens, n) < |tokens|)
      && (forall a, b :: 0 <= a < b < |m| ==> FirstName(tokens, m[a]) < FirstName(tokens, m[b]))
  {
    if tokens != [] {
      var t, rest := tokens[0], tokens[1..];
      if t.kind == Name && t.text in names {
        MentionsOrder(rest, names - {t.text});
        var m := Mentions(tokens, names);
        assert forall n :: n != t.text ==> FirstName(tokens, n) == 1 + FirstName(rest, n);
        assert forall b :: 1 <= b < |m| ==> m[b] == Mentions(rest, names - {t.text})[b - 1];
      } else {
        MentionsOrder(rest, names);
        assert forall n :: n in names ==> FirstName(tokens, n) == 1 + FirstName(rest, n);
      }
    }
  }

  /** One iteration appends to the order at most the parameter a hinted NAME
      token names, and pops that name from the hints. */
  lemma StepOrder(c: Cursor, t: Token, fdEnd: int)
    requires Valid(c) && !Late(t, fdEnd)
    ensures var r := Step(c, t, fdEnd).cursor;
      if t.kind == Name && t.text in c.hints
      then Order(r) == Order(c) + [c.hints[t.text]] && r.hints == c.hints - {t.text}
      else Order(r) == Order(c) && r.hints == c.hints
    ensures var r := Step(c, t, fdEnd).cursor;
      forall i :: 0 <= i < |c.states| && i !in Order(r) ==> r.states[i] == c.states[i]
  {
  }

  /** The names of the parameters the scan appends, or leaves pending, are the
      hinted names in the order of their first NAME tokens. */
  lemma {:induction false} RunOrder(ps: seq<ParamState>, c: Cursor, tokens: seq<Token>, fdEnd: int)
    requires Valid(c) && SameParams(ps, c.states)
    requires forall j :: 0 <= j < |tokens| ==> !Late(tokens[j], fdEnd)
    ensures NamesAt(ps, Order(Run(c, tokens, fdEnd))) == NamesAt(ps, Order(c)) + Mentions(tokens, c.hints.Keys)
    decreases |tokens|
  {
    if tokens == [] {
      assert Run(c, tokens, fdEnd) == c;
      assert Mentions(tokens, c.hints.Keys) == [];
    } else {
      var t := tokens[0];
      assert !Late(t, fdEnd);
      var r := Step(c, t, fdEnd).cursor;
      assert Run(c, tokens, fdEnd) == Run(r, tokens[1..], fdEnd);
      assert SameParams(ps, r.states);
      StepOrder(c, t, fdEnd);
      RunOrder(ps, r, tokens[1..], fdEnd);
      var a, rest := NamesAt(ps, Order(c)), Mentions(tokens[1..], r.hints.Keys);
      if t.kind == Name && t.text in c.hints {
        assert r.hints.Keys == c.hints.Keys - {t.text};
        assert Mentions(tokens, c.hints.Keys) == [t.text] + rest;
        NamesAtAppend(ps, Order(c), c.hints[t.text]);
        assert NamesAt(ps, Order(r)) == a + [t.text];
        Associative(a, [t.text], rest);
      } else {
        assert Mentions(tokens, c.hints.Keys) == rest;
        assert NamesAt(ps, Order(r)) == a;
      }
      assert NamesAt(ps, Order(Run(c, tokens, fdEnd))) == NamesAt(ps, Order(r)) + rest;
    }
  }

  lemma Associative<T>(a: seq<T>, b: seq<T>, c: seq<T>)
    ensures (a + b) + c == a + (b + c)
  {
  }

  lemma NamesAtAppend(ps: seq<ParamState>, idx: seq<nat>, k: nat)
    requires k < |ps| && forall j :: 0 <= j < |idx| ==> idx[j] < |ps|
    ensures NamesAt(ps, idx + [k]) == NamesAt(ps, idx) + [ps[k].decl.name]
  {
  }

  /** The scan ends at the first late comment: the tokens after it change
      nothing. */
  lemma {:induction false} RunStops(c: Cursor, tokens: seq<Token>, fdEnd: int)
    requires Valid(c)
    ensures Run(c, tokens, fdEnd) == Run(c, tokens[..StopAt(tokens, fdEnd)], fdEnd)
    decreases |tokens|
  {
    if tokens != [] && !Late(tokens[0], fdEnd) {
      RunStops(Step(c, tokens[0], fdEnd).cursor, tokens[1..], fdEnd);
      var k := StopAt(tokens, fdEnd);
      assert tokens[..k][1..] == tokens[1..][..k - 1];
    }
  }

  /** The scan changes the description of no parameter besides those it appends
      or leaves pending, and it only ever appends to that order. */
  lemma {:induction false} RunTouches(c: Cursor, tokens: seq<Token>, fdEnd: int)
    requires Valid(c)
    ensures var r := Run(c, tokens, fdEnd);
      && |Order(c)| <= |Order(r)| && Order(r)[..|Order(c)|] == Order(c)
      && forall i :: 0 <= i < |c.states| && i !in Order(r) ==> r.states[i] == c.states[i]
    decreases |tokens|
  {
    if tokens != [] && !Late(tokens[0], fdEnd) {
      var s := Step(c, tokens[0], fdEnd).cursor;
      StepOrder(c, tokens[0], fdEnd);
      RunTouches(s, tokens[1..], fdEnd);
      var r := Run(c, tokens, fdEnd);
      assert Order(r)[..|Order(s)|] == Order(s);
      assert Order(r)[..|Order(c)|] == Order(s)[..|Order(c)|];
      forall i | 0 <= i < |c.states| && i !in Order(r)
        ensures r.states[i] == c.states[i]
      {
        assert i !in Order(s);
      }
    }
  }

  /** By name, the parameters extract_code_params returns are the reference
      definition applied to the tokens before the first late comment. */
  lemma ExtractedNames(ps: seq<ParamState>, tokens: seq<Token>, fdEnd: int)
    ensures NamesAt(ps, Extracted(ps, tokens, fdEnd).out) ==
      Mentions(tokens[..StopAt(tokens, fdEnd)], set i | 0 <= i < |ps| :: ps[i].decl.name)
  {
    var c := Init(ps);
    var k := StopAt(tokens, fdEnd);
    var names := set i | 0 <= i < |ps| :: ps[i].decl.name;
    var run := Run(c, tokens[..k], fdEnd);
    RunStops(c, tokens, fdEnd);
    assert Extracted(ps, tokens, fdEnd).out == Order(run);
    HintsKeys(ps);
    RunOrder(ps, c, tokens[..k], fdEnd);
    assert NamesAt(ps, Order(c)) == [];
    assert NamesAt(ps, Order(run)) == [] + Mentions(tokens[..k], names);
  }

  /** The parameters extract_code_params returns are exactly those whose name a
      NAME token before the first late comment spells, in the order of their
      first such token. */
  lemma ExtractedOrder(ps: seq<ParamState>, tokens: seq<Token>, fdEnd: int)
    ensures var r, scanned, names := Extracted(ps, tokens, fdEnd), tokens[..StopAt(tokens, fdEnd)],
                                     set i | 0 <= i < |ps| :: ps[i].decl.name;
      && (forall n :: n in NamesAt(ps, r.out) <==> n in names && FirstName(scanned, n) < |scanned|)
      && (forall a, b :: 0 <= a < b < |r.out| ==>
            FirstName(scanned, ps[r.out[a]].decl.name) < FirstName(scanned, ps[r.out[b]].decl.name))
  {
    ExtractedNames(ps, tokens, fdEnd);
    MentionsOrder(tokens[..StopAt(tokens, fdEnd)], set i | 0 <= i < |ps| :: ps[i].decl.name);
  }

  /** A COMMENT token ending after the parameter list ends the scan:
      extract_code_params returns the same parameters, with the same descriptions,
      as on the tokens before it. */
  lemma ExtractedStops(ps: seq<ParamState>, tokens: seq<Token>, fdEnd: int)
    ensures Extracted(ps, tokens, fdEnd) == Extracted(ps, tokens[..StopAt(tokens, fdEnd)], fdEnd)
  {
    RunStops(Init(ps), tokens, fdEnd);
    RunStops(Init(ps), tokens[..StopAt(tokens, fdEnd)], fdEnd);
    assert tokens[..StopAt(tokens, fdEnd)][..StopAt(tokens, fdEnd)] == tokens[..StopAt(tokens, fdEnd)];
  }

  /** The hints are keyed by exactly the parameters' names. */
  lemma HintsKeys(ps: seq<ParamState>)
    ensures HintsOf(ps).Keys == set i | 0 <= i < |ps| :: ps[i].decl.name
  {
  }

  /** No parameter is returned twice. */
  lemma ExtractedDistinct(ps: seq<ParamState>, tokens: seq<Token>, fdEnd: int)
    ensures var out := Extracted(ps, tokens, fdEnd).out;
      forall a, b :: 0 <= a < b < |out| ==> out[a] != out[b]
  {
    ExtractedOrder(ps, tokens, fdEnd);
  }

  /** Only the descriptions of the returned parameters change. */
  lemma ExtractedTouches(ps: seq<ParamState>, tokens: seq<Token>, fdEnd: int)
    ensures var r := Extracted(ps, tokens, fdEnd);
      forall i :: 0 <= i < |ps| && i !in r.out ==> r.states[i] == ps[i]
  {
    RunTouches(Init(ps), tokens, fdEnd);
  }

  /** A newline or a NAME token still in the hints appends the pending parameter to
      `params`; a comment that is not late, any other NAME and any other token
      leave it pending. */
  lemma PendingClosed(c: Cursor, t: Token, fdEnd: int)
    requires Valid(c) && c.cur.Some? && !Late(t, fdEnd)
    ensures var r := Step(c, t, fdEnd).cursor;
      if t.kind == NL || (t.kind == Name && t.text in c.hints)
      then |r.out| > |c.out| && r.out[..|c.out| + 1] == c.out + [c.cur.value]
      else r.out == c.out && r.cur == c.cur
  {
    if t.kind == Name && t.text in c.hints {
      var r := NameStep(c, t);
      var c1 := Close(c);
      assert r.out[..|c1.out|] == c1.out;
    }
  }

  /** The last comment a line's own tokenizing yields. */
  function LastComment(line: LineTokens): string
    requires line.comments != []
  {
    line.comments[|line.comments| - 1]
  }

  /** Where process_comment sends a comment. With no pending parameter it goes to
      the last appended one, and the pending comment is cleared: a comment on the
      token's line replaces the description, unless it cleans to nothing, in
      which case the comment itself does; with no comment on the line the comment
      only fills an empty description. With a pending parameter it goes there
      without overwriting: a description already set stays, an empty one is
      filled from the line's comment or else from the comment itself, and the
      comment is kept for the parameter's own line. Before any parameter it only
      becomes the pending comment. No other parameter is touched. */
  lemma CommentAttribution(c: Cursor, t: Token)
    requires Valid(c)
    ensures var r := CommentStep(c, t);
      var fill := if t.text != "" then CleanComment(t.text) else "";
      && (c.cur.None? && c.out != [] ==>
            var k := c.out[|c.out| - 1];
            && r.comment == ""
            && (forall i :: 0 <= i < |c.states| && i != k ==> r.states[i] == c.states[i])
            && (t.line.comments != [] && CleanComment(LastComment(t.line)) != "" ==>
                  r.states[k].description == CleanComment(LastComment(t.line)))
            && (t.line.comments != [] && CleanComment(LastComment(t.line)) == "" ==>
                  r.states[k].description == fill)
            && (t.line.comments == [] && c.states[k].description == "" ==>
                  r.states[k].description == fill)
            && (t.line.comments == [] && c.states[k].description != "" ==> r.states == c.states))
      && (c.cur.Some? ==>
            var k := c.cur.value;
            && r.comment == t.text
            && (forall i :: 0 <= i < |c.states| && i != k ==> r.states[i] == c.states[i])
            && (c.states[k].description != "" ==> r.states == c.states)
            && (c.states[k].description == "" && t.line.comments != [] &&
                CleanComment(LastComment(t.line)) != "" ==>
                  r.states[k].description == CleanComment(LastComment(t.line)))
            && (c.states[k].description == "" &&
                (t.line.comments == [] || CleanComment(LastComment(t.line)) == "") ==>
                  r.states[k].description == fill))
      && (c.cur.None? && c.out == [] ==> r.states == c.states && r.comment == t.text)
  {
    if c.cur.None? && c.out != [] && t.line.comments == [] {
      var k := c.out[|c.out| - 1];
      if c.states[k].description != "" {
        assert c.states[k := c.states[k]] == c.states;
      }
    }
    if c.cur.Some? && c.states[c.cur.value].description != "" {
      var k := c.cur.value;
      assert c.states[k := c.states[k]] == c.states;
    }
  }

  /** The parameter list "foo: int,  # note" then "bar: int,": the comment at the
      end of foo's line describes foo, and bar is left as it was. */
  lemma TrailingCommentDescribes(foo: Declaration, bar: Declaration, note: string)
    requires foo.name == "foo" && bar.name == "bar"
    requires note != [] && !IsSpace(note[0]) && !IsSpace(note[|note| - 1])
    ensures var ps := [ParamState(foo, "", EmptyValue), ParamState(bar, "", EmptyValue)];
      var fooLine := LineTokens(["# " + note], false);
      var barLine := LineTokens([], false);
      var tokens := [
        Token(Name, "foo", fooLine, 2), Token(Name, "int", fooLine, 2),
        Token(Other, ",", fooLine, 2), Token(Comment, "# " + note, fooLine, 2),
        Token(NL, "\n", fooLine, 2),
        Token(Name, "bar", barLine, 3), Token(Name, "int", barLine, 3),
        Token(Other, ",", barLine, 3), Token(NL, "\n", barLine, 3)];
      var r := Extracted(ps, tokens, 3);
      r.out == [0, 1] && r.states[0].description == note && r.states[1] == ps[1]
  {
    var ps := [ParamState(foo, "", EmptyValue), ParamState(bar, "", EmptyValue)];
    var fooLine := LineTokens(["# " + note], false);
    var barLine := LineTokens([], false);
    var tokens := [
      Token(Name, "foo", fooLine, 2), Token(Name, "int", fooLine, 2),
      Token(Other, ",", fooLine, 2), Token(Comment, "# " + note, fooLine, 2),
      Token(NL, "\n", fooLine, 2),
      Token(Name, "bar", barLine, 3), Token(Name, "int", barLine, 3),
      Token(Other, ",", barLine, 3), Token(NL, "\n", barLine, 3)];
    ExampleRun(ps, tokens, note);
  }

  /** The run over the example's tokens, seen one token at a time. */
  lemma ExampleRun(ps: seq<ParamState>, tokens: seq<Token>, note: string)
    requires |ps| == 2 && ps[0].decl.name == "foo" && ps[1].decl.name == "bar"
    requires ps[0].description == "" && ps[1].description == ""
    requires note != [] && !IsSpace(note[0]) && !IsSpace(note[|note| - 1])
    requires |tokens| == 9
    requires tokens[0] == Token(Name, "foo", LineTokens(["# " + note], false), 2)
    requires tokens[1].kind == Name && tokens[1].text == "int"
    requires tokens[2].kind == Other
    requires tokens[3] == Token(Comment, "# " + note, LineTokens(["# " + note], false), 2)
    requires tokens[4].kind == NL
    requires tokens[5] == Token(Name, "bar", LineTokens([], false), 3)
    requires tokens[6].kind == Name && tokens[6].text == "int"
    requires tokens[7].kind == Other
    requires tokens[8] == Token(NL, "\n", LineTokens([], false), 3)
    ensures var r := Extracted(ps, tokens, 3);
      r.out == [0, 1] && r.states == ps[0 := ps[0].(description := note)]
  {
    var c0 := Init(ps);
    var described := ps[0 := ps[0].(description := note)];
    var c1 := Cursor([0], None, "", map["bar" := 1], described);
    var c3 := Cursor([0, 1], None, "", map[], described);
    CleanCommentWord(note);
    ExampleFirst(ps, tokens, note);
    calc {
      Run(c0, tokens, 3);
      Run(c1, tokens[1..], 3);
      { ExampleFooRest(c1, tokens, note); }
      Run(c1, tokens[5..], 3);
      { ExampleBarRest(c1, tokens); }
      Run(c3, tokens[9..], 3);
    }
    assert tokens[9..] == [];
  }

  /** The first token of the example: foo's NAME. */
  lemma ExampleFirst(ps: seq<ParamState>, tokens: seq<Token>, note: string)
    requires |ps| == 2 && ps[0].decl.name == "foo" && ps[1].decl.name == "bar"
    requires ps[0].description == ""
    requires CleanComment("# " + note) == note != ""
    requires |tokens| == 9
    requires tokens[0] == Token(Name, "foo", LineTokens(["# " + note], false), 2)
    ensures var c1 := Cursor([0], None, "", map["bar" := 1], ps[0 := ps[0].(description := note)]);
      Valid(c1) && Run(Init(ps), tokens, 3) == Run(c1, tokens[1..], 3)
  {
    var c0 := Init(ps);
    var c1 := Cursor([0], None, "", map["bar" := 1], ps[0 := ps[0].(description := note)]);
    assert Step(c0, tokens[0], 3) == Next(c1) by {
      ExampleHints(ps);
      ExampleFooLine(c0, tokens[0], "# " + note, note);
    }
    assert tokens[0..] == tokens;
    RunNext(c0, tokens, 0, 3);
  }

  /** The hints of the parameters foo and bar. */
  lemma ExampleHints(ps: seq<ParamState>)
    requires |ps| == 2 && ps[0].decl.name == "foo" && ps[1].decl.name == "bar"
    ensures HintsOf(ps) == map["foo" := 0, "bar" := 1]
  {
    assert ps[..1][..0] == [] && ps[..1] == [ps[0]];
  }

  /** The rest of foo's line: the type, the comma, the comment and the newline
      leave the scan as it was. */
  lemma ExampleFooRest(c: Cursor, tokens: seq<Token>, note: string)
    requires Valid(c) && c.out == [0] && c.cur.None? && c.comment == "" && |c.states| == 2
    requires CleanComment("# " + note) == note != "" && c.states[0].description == note
    requires |tokens| == 9 && tokens[1].kind == Name && tokens[1].text !in c.hints
    requires tokens[2].kind == Other && tokens[4].kind == NL
    requires tokens[3] == Token(Comment, "# " + note, LineTokens(["# " + note], false), 2)
    ensures Run(c, tokens[1..], 3) == Run(c, tokens[5..], 3)
  {
    ExampleFooComment(c, tokens[3], note);
    calc {
      Run(c, tokens[1..], 3);
      { RunNext(c, tokens, 1, 3); Ignored(c, tokens[1], 3); }
      Run(c, tokens[2..], 3);
      { RunNext(c, tokens, 2, 3); Ignored(c, tokens[2], 3); }
      Run(c, tokens[3..], 3);
      { RunNext(c, tokens, 3, 3); }
      Run(c, tokens[4..], 3);
      { RunNext(c, tokens, 4, 3); Ignored(c, tokens[4], 3); }
      Run(c, tokens[5..], 3);
    }
  }

  /** bar's line: bar is appended when its line ends, unchanged. */
  lemma ExampleBarRest(c: Cursor, tokens: seq<Token>)
    requires Valid(c) && c.out == [0] && c.cur.None? && c.comment == ""
    requires c.hints == map["bar" := 1] && |c.states| == 2 && c.states[1].description == ""
    requires |tokens| == 9
    requires tokens[5] == Token(Name, "bar", LineTokens([], false), 3)
    requires tokens[6].kind == Name && tokens[6].text != "bar" && tokens[7].kind == Other
    requires tokens[8] == Token(NL, "\n", LineTokens([], false), 3)
    ensures Run(c, tokens[5..], 3) == Run(c.(out := [0, 1], hints := map[]), tokens[9..], 3)
  {
    var c2 := c.(cur := Some(1), hints := map[]);
    ExampleBarLine(c, tokens[5], tokens[8]);
    calc {
      Run(c, tokens[5..], 3);
      { RunNext(c, tokens, 5, 3); }
      Run(c2, tokens[6..], 3);
      { RunNext(c2, tokens, 6, 3); Ignored(c2, tokens[6], 3); }
      Run(c2, tokens[7..], 3);
      { RunNext(c2, tokens, 7, 3); Ignored(c2, tokens[7], 3); }
      Run(c2, tokens[8..], 3);
      { RunNext(c2, tokens, 8, 3); }
      Run(c.(out := [0, 1], hints := map[]), tokens[9..], 3);
    }
  }

  /** Tokens the loop passes over: any other kind, a NAME no hint is left for,
      and a newline with no pending parameter. */
  lemma Ignored(c: Cursor, t: Token, fdEnd: int)
    requires Valid(c)
    requires t.kind == Other || (t.kind == Name && t.text !in c.hints) || (t.kind == NL && c.cur.None?)
    ensures Step(c, t, fdEnd) == Next(c)
  {
  }

  /** foo's NAME: foo becomes pending, takes the comment on its own line, and is
      appended at once. */
  lemma ExampleFooLine(c: Cursor, t: Token, comment: string, note: string)
    requires Valid(c) && c.out == [] && c.cur.None? && c.comment == ""
    requires c.hints == map["foo" := 0, "bar" := 1] && |c.states| == 2 && c.states[0].description == ""
    requires CleanComment(comment) == note != ""
    requires t == Token(Name, "foo", LineTokens([comment], false), 2)
    ensures Step(c, t, 3) == Next(Cursor([0], None, "", map["bar" := 1],
      c.states[0 := c.states[0].(description := note)]))
  {
    NameOnCommentedLine(c, t);
    assert t.line.comments[|t.line.comments| - 1] == comment;
    assert c.hints - {"foo"} == map["bar" := 1];
  }

  /** A NAME with no parameter pending, on a line that carries a comment: its
      parameter is described from that line and appended at once. */
  lemma NameOnCommentedLine(c: Cursor, t: Token)
    requires Valid(c) && c.cur.None? && t.kind == Name && t.text in c.hints
    requires t.line.comments != [] && !t.line.failed
    ensures var k := c.hints[t.text];
      var d := DescribeFrom(c.states[k].description, t.line, c.comment, true).0;
      Step(c, t, 3) == Next(Cursor(c.out + [k], None, "", c.hints - {t.text},
                                   c.states[k := c.states[k].(description := d)]))
  {
  }

  /** The comment token of foo's line, after foo was appended, describes foo again
      with the same text and clears the pending comment. */
  lemma ExampleFooComment(c: Cursor, t: Token, note: string)
    requires Valid(c) && c.out == [0] && c.cur.None? && c.comment == "" && |c.states| == 2
    requires CleanComment("# " + note) == note != "" && c.states[0].description == note
    requires t == Token(Comment, "# " + note, LineTokens(["# " + note], false), 2)
    ensures CommentStep(c, t) == c
  {
    assert c.states[0 := c.states[0]] == c.states;
  }

  /** bar's NAME: bar becomes pending, its line has no comment, and the newline
      closing that line appends it unchanged. */
  lemma ExampleBarLine(c: Cursor, t: Token, nl: Token)
    requires Valid(c) && c.out == [0] && c.cur.None? && c.comment == ""
    requires c.hints == map["bar" := 1] && |c.states| == 2 && c.states[1].description == ""
    requires t == Token(Name, "bar", LineTokens([], false), 3)
    requires nl == Token(NL, "\n", LineTokens([], false), 3)
    ensures Step(c, t, 3) == Next(c.(cur := Some(1), hints := map[]))
    ensures Step(c.(cur := Some(1), hints := map[]), nl, 3) == Next(c.(out := [0, 1], hints := map[]))
  {
    assert c.hints - {"bar"} == map[];
    assert c.states[1 := c.states[1]] == c.states;
  }

  /** The objects at the given positions. */
  function Pick(objects: seq<Param>, idx: seq<nat>): (r: seq<Param>)
    requires forall j :: 0 <= j < |idx| ==> idx[j] < |objects|
    ensures |r| == |idx|
    ensures forall j :: 0 <= j < |idx| ==> r[j] == objects[idx[j]]
  {
    if idx == [] then [] else [objects[idx[0]]] + Pick(objects, idx[1..])
  }

  /** The run from token i is the step on token i and then the run from token
      i + 1, unless token i is a late comment. */
  lemma RunNext(c: Cursor, tokens: seq<Token>, i: nat, fdEnd: int)
    requires Valid(c) && i < |tokens|
    ensures Late(tokens[i], fdEnd) ==> Run(c, tokens[i..], fdEnd) == c
    ensures !Late(tokens[i], fdEnd) ==>
      Run(c, tokens[i..], fdEnd) == Run(Step(c, tokens[i], fdEnd).cursor, tokens[i + 1..], fdEnd)
    ensures tokens[i].kind == Comment && !Late(tokens[i], fdEnd) ==>
      Step(c, tokens[i], fdEnd).cursor == CommentStep(c, tokens[i])
  {
    assert tokens[i..][0] == tokens[i] && tokens[i..][1..] == tokens[i + 1..];
  }

  lemma PickAppend(objects: seq<Param>, idx: seq<nat>, k: nat)
    requires k < |objects| && forall j :: 0 <= j < |idx| ==> idx[j] < |objects|
    ensures Pick(objects, idx + [k]) == Pick(objects, idx) + [objects[k]]
  {
  }

  /** The pending `param`: None, or the object at the pending position. */
  function Pending(objects: seq<Param>, cur: Option<nat>): Option<Param>
    requires cur.Some? ==> cur.value < |objects|
  {
    if cur.Some? then Some(objects[cur.value]) else None
  }

  predicate DistinctObjects(objects: seq<Param>) {
    forall i, j :: 0 <= i < j < |objects| ==> objects[i] != objects[j]
  }

  /** The variables of extract_code_params's loop hold what the cursor c
      describes: the objects' states, `params`, `param`, `comment` and `hints`. */
  ghost predicate Mirrors(objects: seq<Param>, c: Cursor, params: seq<Param>, param: Option<Param>,
                          comment: string, hints: map<string, nat>)
    reads objects
  {
    && Valid(c) && |c.states| == |objects| && States(objects) == c.states
    && params == Pick(objects, c.out) && param == Pending(objects, c.cur)
    && comment == c.comment && hints == c.hints
  }

  /** Param.parse_or_prepend on the object at position k, seen on the states of
      all the objects. */
  method DescribeAt(p: Param, line: LineTokens, comment: string, overwrite: bool,
                    ghost objects: seq<Param>, ghost k: nat) returns (lineSet: bool)
    requires k < |objects| && objects[k] == p && DistinctObjects(objects)
    modifies p
    ensures (States(objects), lineSet) == Describe(old(States(objects)), k, line, comment, overwrite)
  {
    ghost var before := States(objects);
    lineSet := p.ParseOrPrepend(line, comment, overwrite);
    ghost var after := Describe(before, k, line, comment, overwrite).0;
    forall j | 0 <= j < |objects|
      ensures States(objects)[j] == after[j]
    {
      if j != k {
        assert objects[j] != p;
      }
    }
    assert States(objects) == after;
  }

  /** process_comment: the comment goes to the last appended parameter when none
      is pending (which clears it), else to the pending one without overwriting;
      the returned text becomes the pending comment. */
  method ProcessComment(param: Option<Param>, params: seq<Param>, token: Token,
                        ghost objects: seq<Param>, ghost c: Cursor, ghost hints: map<string, nat>)
    returns (comment: string)
    requires DistinctObjects(objects) && Mirrors(objects, c, params, param, c.comment, hints)
    modifies objects
    ensures Mirrors(objects, CommentStep(c, token), params, param, comment, hints)
  {
    comment := token.text;
    if params != [] && param.None? {
      var lineSet := DescribeAt(params[|params| - 1], token.line, comment, true, objects, c.out[|c.out| - 1]);
      comment := "";
    } else if param.Some? {
      var lineSet := DescribeAt(param.value, token.line, comment, false, objects, c.cur.value);
    }
  }

  /** extract_code_params over the ordered parameters, the function's tokens and
      the last row of its parameter list. `hints` maps each name not yet seen to
      its parameter's position in `orderedParams`; popping a name from it stands
      for popping it from both hints and ordered_params. */
  method ExtractCodeParams(orderedParams: seq<Param>, tokens: seq<Token>, fdEnd: int) returns (params: seq<Param>)
    requires DistinctObjects(orderedParams)
    modifies orderedParams
    ensures var r := Extracted(old(States(orderedParams)), tokens, fdEnd);
      params == Pick(orderedParams, r.out) && States(orderedParams) == r.states
  {
    ghost var ps := States(orderedParams);
    var hints := HintsOf(States(orderedParams));
    var comment := "";
    var param: Option<Param> := None;
    params := [];
    ghost var c := Init(ps);
    var i := 0;
    while i < |tokens|
      invariant i <= |tokens|
      invariant Mirrors(orderedParams, c, params, param, comment, hints)
      invariant Run(c, tokens[i..], fdEnd) == Run(Init(ps), tokens, fdEnd)
    {
      var token := tokens[i];
      RunNext(c, tokens, i, fdEnd);
      if token.kind == Comment && fdEnd > -1 && token.endRow > fdEnd {
        break;
      }
      params, param, comment, hints := Iteration(token, params, param, comment, hints, orderedParams, c, fdEnd);
      c := Step(c, token, fdEnd).cursor;
      i := i + 1;
    }
    assert c == Run(Init(ps), tokens, fdEnd);
    if param.Some? {
      PickAppend(orderedParams, c.out, c.cur.value);
      params := params + [param.value];
    }
  }

  /** One iteration of extract_code_params's loop on a token that is not a late
      comment. */
  method Iteration(token: Token, params: seq<Param>, param: Option<Param>, comment: string,
                   hints: map<string, nat>, orderedParams: seq<Param>, ghost c: Cursor, ghost fdEnd: int)
    returns (params': seq<Param>, param': Option<Param>, comment': string, hints': map<string, nat>)
    requires !Late(token, fdEnd)
    requires DistinctObjects(orderedParams) && Mirrors(orderedParams, c, params, param, comment, hints)
    modifies orderedParams
    ensures Mirrors(orderedParams, Step(c, token, fdEnd).cursor, params', param', comment', hints')
  {
    if token.kind == Comment {
      params', param', hints' := params, param, hints;
      comment' := ProcessComment(param, params, token, orderedParams, c, hints);
    } else {
      params', param', comment', hints' := TakeToken(token, params, param, comment, hints, orderedParams, c, fdEnd);
    }
  }

  /** The rest of extract_code_params's loop body, for a token that is not a
      comment: a newline closes the pending parameter after parse_or_prepend; a
      name still in the hints closes it, pops the name and makes its parameter
      the pending one, closed at once when parse_or_prepend finds a comment on
      its line; anything else is skipped. */
  method TakeToken(token: Token, params: seq<Param>, param: Option<Param>, comment: string,
                   hints: map<string, nat>, orderedParams: seq<Param>, ghost c: Cursor, ghost fdEnd: int)
    returns (params': seq<Param>, param': Option<Param>, comment': string, hints': map<string, nat>)
    requires token.kind != Comment
    requires DistinctObjects(orderedParams) && Mirrors(orderedParams, c, params, param, comment, hints)
    modifies orderedParams
    ensures Mirrors(orderedParams, Step(c, token, fdEnd).cursor, params', param', comment', hints')
  {
    params', param', comment', hints' := params, param, comment, hints;
    if token.kind == NL && param.Some? {
      var lineSet := DescribeAt(param.value, token.line, comment, true, orderedParams, c.cur.value);
    } else if token.kind == Name && token.text in hints {
      if param.Some? {
        PickAppend(orderedParams, c.out, c.cur.value);
        comment' := "";
        params' := params' + [param.value];
        param' := None;
      }
      var k := hints[token.text];
      hints' := hints' - {token.text};
      param' := Some(orderedParams[k]);
      var lineSet := DescribeAt(orderedParams[k], token.line, comment', true, orderedParams, k);
      if !lineSet {
        return;
      }
    } else {
      return;
    }
    ghost var r := Step(c, token, fdEnd).cursor;
    PickAppend(orderedParams, r.out[..|r.out| - 1], r.out[|r.out| - 1]);
    assert r.out == r.out[..|r.out| - 1] + [r.out[|r.out| - 1]];
    comment' := "";
    params' := params' + [param'.value];
    param' := None;
  }
}
