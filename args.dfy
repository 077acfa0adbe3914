/** clean_args: splitting argv into positional tokens and named values. */
module Args {
  import opened Wrappers
  import opened Text
  import opened Types
  import opened Params

  /** A Python dict with string keys: its keys in insertion order and its contents. */
  datatype Dict<V> = Dict(keys: seq<string>, entries: map<string, V>) {
    ghost predicate Valid() {
      && (forall i, j :: 0 <= i < j < |keys| ==> keys[i] != keys[j])
      && (forall i :: 0 <= i < |keys| ==> keys[i] in entries)
      && (forall k :: k in entries ==> k in keys)
    }

    /** d[k] = v: a new key goes after all others, an existing key keeps its place. */
    function Put(k: string, v: V): (r: Dict<V>)
      requires Valid()
      ensures r.Valid()
      ensures k in r.entries && r.entries[k] == v
      ensures k in entries ==> r.keys == keys
      ensures k !in entries ==> r.keys == keys + [k]
    {
      if k in entries then Dict(keys, entries[k := v]) else Dict(keys + [k], entries[k := v])
    }
  }

  /** d[k] = v leaves every other key as it was. */
  lemma PutKeepsOthers<V>(d: Dict<V>, k: string, v: V)
    requires d.Valid()
    ensures forall k' :: k' != k ==> (k' in d.Put(k, v).entries <==> k' in d.entries)
    ensures forall k' :: k' != k && k' in d.entries ==> d.Put(k, v).entries[k'] == d.entries[k']
  {
  }

  function EmptyDict<V>(): (r: Dict<V>)
    ensures r.Valid() && r.keys == []
  {
    Dict([], map[])
  }

  /** The characters of `[\w-]`. */
  predicate IsFlagChar(c: char) {
    IsWordChar(c) || c == '-'
  }

  /** Length of the longest prefix of s made of flag characters. */
  function FlagRun(s: string): (n: nat)
    ensures n <= |s|
    ensures forall j :: 0 <= j < n ==> IsFlagChar(s[j])
    ensures n < |s| ==> !IsFlagChar(s[n])
  {
    if s == [] || !IsFlagChar(s[0]) then 0 else 1 + FlagRun(s[1..])
  }

  /** The value the match yields from the text after the name: the text after "="
      up to the first newline (`.` does not match "\n") when that text is not empty,
      and the DefaultIfBool marker otherwise. Whatever follows is ignored. */
  function FlagValue(rest: string): (v: RawArg)
    ensures v.Text? ==> v.s != "" && '\n' !in v.s
  {
    if |rest| >= 2 && rest[0] == '=' && rest[1] != '\n' then
      Text(rest[1..1 + FindEither(rest[1..], '\n', '\n')])
    else BareFlag
  }

  /** re.match(r"--([\w-]+)(?:=(.+))?", arg), with the name's hyphens turned into
      underscores: Some((name, value)) when it matches, None otherwise. The name is
      the longest run of flag characters after "--". */
  function MatchFlag(arg: string): (r: Match)
    ensures r.Some? <==> |arg| >= 3 && arg[0] == '-' && arg[1] == '-' && IsFlagChar(arg[2])
    ensures r.Some? ==> |r.value.0| > 0 && forall j :: 0 <= j < |r.value.0| ==> IsWordChar(r.value.0[j])
    ensures r.Some? && r.value.1.Text? ==> r.value.1.s != "" && '\n' !in r.value.1.s
  {
    if |arg| < 2 || arg[0] != '-' || arg[1] != '-' then None
    else
      var n := FlagRun(arg[2..]);
      if n == 0 then None
      else Some((Replace(arg[2..2 + n], '-', '_'), FlagValue(arg[2 + n..])))
  }

  /** The outcome of matching one token: the name and value of a named argument. */
  type Match = Option<(string, RawArg)>

  /** The match outcome of every token of argv. */
  function MatchAll(argv: seq<string>): (ms: seq<Match>)
    ensures |ms| == |argv|
    ensures forall i :: 0 <= i < |argv| ==> ms[i] == MatchFlag(argv[i])
  {
    if argv == [] then [] else MatchAll(argv[..|argv| - 1]) + [MatchFlag(argv[|argv| - 1])]
  }

  /** The match is a named argument whose name is k. */
  predicate Names(m: Match, k: string) {
    m.Some? && m.value.0 == k
  }

  /** The positional list clean_args returns: the tokens that are not named
      arguments. */
  function Positionals(argv: seq<string>): seq<string> {
    if argv == [] then []
    else
      var init := Positionals(argv[..|argv| - 1]);
      if MatchFlag(argv[|argv| - 1]).None? then init + [argv[|argv| - 1]] else init
  }

  /** The dict clean_args builds from the tokens' matches: each named argument
      stored in turn. */
  function NamedOf(ms: seq<Match>): (r: Dict<RawArg>)
    ensures r.Valid()
  {
    if ms == [] then EmptyDict()
    else
      var d := NamedOf(ms[..|ms| - 1]);
      match ms[|ms| - 1]
      case None => d
      case Some(kv) => d.Put(kv.0, kv.1)
  }

  /** The dict clean_args returns. */
  function Named(argv: seq<string>): (r: Dict<RawArg>)
    ensures r.Valid()
  {
    NamedOf(MatchAll(argv))
  }

  /** clean_args */
  method CleanArgs(argv: seq<string>) returns (posArgs: seq<string>, kwArgs: Dict<RawArg>)
    ensures posArgs == Positionals(argv)
    ensures kwArgs == Named(argv)
  {
    ghost var ms := MatchAll(argv);
    posArgs := [];
    kwArgs := EmptyDict();
    for i := 0 to |argv|
      invariant posArgs == Positionals(argv[..i])
      invariant kwArgs == NamedOf(ms[..i])
    {
      assert argv[..i + 1][..i] == argv[..i];
      assert ms[..i + 1][..i] == ms[..i];
      var m := MatchFlag(argv[i]);
      if m.None? {
        posArgs := posArgs + [argv[i]];
        continue;
      }
      kwArgs := kwArgs.Put(m.value.0, m.value.1);
    }
    assert argv[..|argv|] == argv;
    assert ms[..|argv|] == ms;
  }

  /** The positional list keeps the non-flag tokens in their order: it distributes
      over concatenation of argv, and a token is in it exactly when it is in argv
      and is not a named argument. */
  lemma {:induction false} PositionalsSpec(a: seq<string>, b: seq<string>)
    ensures Positionals(a + b) == Positionals(a) + Positionals(b)
    ensures forall x :: x in Positionals(a) <==> x in a && MatchFlag(x).None?
    decreases |b|
  {
    if b == [] {
      assert a + b == a;
      PositionalsMembers(a);
    } else {
      var b' := b[..|b| - 1];
      assert (a + b)[..|a + b| - 1] == a + b';
      assert (a + b)[|a + b| - 1] == b[|b| - 1];
      PositionalsSpec(a, b');
    }
  }

  lemma {:induction false} PositionalsMembers(a: seq<string>)
    ensures forall x :: x in Positionals(a) <==> x in a && MatchFlag(x).None?
  {
    if a != [] {
      var init := a[..|a| - 1];
      PositionalsMembers(init);
      assert a == init + [a[|a| - 1]];
    }
  }

  /** The position of the last occurrence of the name k, or -1. */
  function LastNamed(ms: seq<Match>, k: string): (i: int)
    ensures -1 <= i < |ms|
    ensures i >= 0 ==> Names(ms[i], k)
    ensures forall j :: i < j < |ms| ==> !Names(ms[j], k)
  {
    if ms == [] then -1
    else if Names(ms[|ms| - 1], k) then |ms| - 1
    else
      var i := LastNamed(ms[..|ms| - 1], k);
      assert forall j :: i < j < |ms| - 1 ==> ms[..|ms| - 1][j] == ms[j];
      i
  }

  /** The position of the first occurrence of the name k, or |ms| when it does not
      occur. */
  function FirstNamed(ms: seq<Match>, k: string): (i: nat)
    ensures i <= |ms|
    ensures i < |ms| ==> Names(ms[i], k)
    ensures forall j :: 0 <= j < i ==> !Names(ms[j], k)
  {
    if ms == [] then 0
    else
      var i := FirstNamed(ms[..|ms| - 1], k);
      assert forall j :: 0 <= j < i ==> ms[..|ms| - 1][j] == ms[j];
      if i < |ms| - 1 || Names(ms[|ms| - 1], k) then i else |ms|
  }

  /** The named dict holds exactly the names that occur, each bound to the value of
      its last occurrence. */
  lemma {:induction false} NamedSpec(ms: seq<Match>, k: string)
    ensures k in NamedOf(ms).entries <==> LastNamed(ms, k) >= 0
    ensures k in NamedOf(ms).entries ==> NamedOf(ms).entries[k] == ms[LastNamed(ms, k)].value.1
  {
    if ms != [] {
      var n := |ms| - 1;
      NamedSpec(ms[..n], k);
      if ms[n].Some? && ms[n].value.0 != k {
        PutKeepsOthers(NamedOf(ms[..n]), ms[n].value.0, ms[n].value.1);
      }
    }
  }

  /** A name occurs exactly when it has a first occurrence. */
  lemma OccursFirst(ms: seq<Match>, k: string)
    ensures LastNamed(ms, k) >= 0 <==> FirstNamed(ms, k) < |ms|
    ensures FirstNamed(ms, k) < |ms| ==> FirstNamed(ms, k) <= LastNamed(ms, k)
  {
  }

  /** The dict's keys are in order of first occurrence. */
  lemma {:induction false} NamedKeyOrder(ms: seq<Match>)
    ensures forall i, j :: 0 <= i < j < |NamedOf(ms).keys| ==>
      FirstNamed(ms, NamedOf(ms).keys[i]) < FirstNamed(ms, NamedOf(ms).keys[j])
  {
    if ms != [] {
      var n := |ms| - 1;
      var init := ms[..n];
      NamedKeyOrder(init);
      var ks := NamedOf(ms).keys;
      var ks0 := NamedOf(init).keys;
      forall i | 0 <= i < |ks0|
        ensures FirstNamed(init, ks0[i]) < n
      {
        NamedSpec(init, ks0[i]);
        OccursFirst(init, ks0[i]);
      }
      forall i, j | 0 <= i < j < |ks|
        ensures FirstNamed(ms, ks[i]) < FirstNamed(ms, ks[j])
      {
        if j >= |ks0| {
          var k := ms[n].value.0;
          NamedSpec(init, k);
          OccursFirst(init, k);
          assert ks[j] == k;
        }
      }
    }
  }

  lemma {:induction false} FlagRunPrefix(h: string, rest: string)
    requires forall j :: 0 <= j < |h| ==> IsFlagChar(h[j])
    requires rest == [] || !IsFlagChar(rest[0])
    ensures FlagRun(h + rest) == |h|
  {
    if h != [] {
      assert (h + rest)[1..] == h[1..] + rest;
      FlagRunPrefix(h[1..], rest);
    }
  }

  /** A token that starts with "--" matches on what follows: its longest run of
      flag characters is the name, the rest gives the value. */
  lemma MatchFlagDashes(tail: string)
    ensures MatchFlag("--" + tail) ==
      var n := FlagRun(tail);
      if n == 0 then None else Some((Replace(tail[..n], '-', '_'), FlagValue(tail[n..])))
  {
    var arg := "--" + tail;
    var n := FlagRun(tail);
    assert arg[2..] == tail;
    assert arg[2..2 + n] == tail[..n];
    assert arg[2 + n..] == tail[n..];
  }

  /** A token made of "--", a run of flag characters and a rest that does not
      continue the run matches with that run as its name. */
  lemma MatchFlagSplit(name: string, rest: string)
    requires |name| > 0 && forall j :: 0 <= j < |name| ==> IsFlagChar(name[j])
    requires rest == [] || !IsFlagChar(rest[0])
    ensures MatchFlag("--" + (name + rest)) == Some((Replace(name, '-', '_'), FlagValue(rest)))
  {
    var tail := name + rest;
    MatchFlagDashes(tail);
    FlagRunPrefix(name, rest);
    assert tail[..|name|] == name;
    assert tail[|name|..] == rest;
  }

  /** Turning the hyphens of help_name back into underscores gives the name. */
  lemma HelpNameBack(d: Declaration)
    requires forall j :: 0 <= j < |d.name| ==> IsWordChar(d.name[j])
    ensures forall j :: 0 <= j < |HelpName(d)| ==> IsFlagChar(HelpName(d)[j])
    ensures Replace(HelpName(d), '-', '_') == d.name
  {
    var h := HelpName(d);
    assert forall j :: 0 <= j < |h| ==> Replace(h, '-', '_')[j] == d.name[j];
  }

  /** "=" followed by a non-empty value without newlines yields that value. */
  lemma FlagValueText(v: string)
    requires v != "" && '\n' !in v
    ensures FlagValue("=" + v) == Text(v)
  {
    assert ("=" + v)[1..] == v;
    assert FindEither(v, '\n', '\n') == |v|;
  }

  /** `--` + help_name + `=v` is read back under the parameter's own name. */
  lemma FlagRoundTrip(d: Declaration, v: string)
    requires |d.name| > 0 && forall j :: 0 <= j < |d.name| ==> IsWordChar(d.name[j])
    requires v != "" && '\n' !in v
    ensures MatchFlag("--" + (HelpName(d) + "=" + v)) == Some((d.name, Text(v)))
  {
    HelpNameBack(d);
    MatchFlagSplit(HelpName(d), "=" + v);
    FlagValueText(v);
    assert HelpName(d) + "=" + v == HelpName(d) + ("=" + v);
  }

  /** A bare `--` + help_name yields the DefaultIfBool marker under the parameter's
      own name. */
  lemma BareFlagRoundTrip(d: Declaration)
    requires |d.name| > 0 && forall j :: 0 <= j < |d.name| ==> IsWordChar(d.name[j])
    ensures MatchFlag("--" + HelpName(d)) == Some((d.name, BareFlag))
  {
    var h := HelpName(d);
    HelpNameBack(d);
    MatchFlagSplit(h, "");
    assert h + "" == h;
  }

  /** re.match anchors only at the start: after the name, text that does not begin
      with "=" is ignored and the name is a bare flag. */
  lemma TrailingTextIgnored(name: string, rest: string)
    requires |name| > 0 && forall j :: 0 <= j < |name| ==> IsFlagChar(name[j])
    requires rest != [] && !IsFlagChar(rest[0]) && rest[0] != '='
    ensures MatchFlag("--" + (name + rest)) == Some((Replace(name, '-', '_'), BareFlag))
  {
    MatchFlagSplit(name, rest);
  }
}
