/** The parameter record Param: its derived attributes, validation, value binding
    and description harvesting. */
module Params {
  import opened Wrappers
  import opened Text
  import opened Types

  /** What Python's tokenizer yields for one physical line tokenized on its own: the
      text of every COMMENT token it produced, and whether it then raised TokenError.
      The tokenizer itself is not part of this model; this is its observable outcome. */
  datatype LineTokens = LineTokens(comments: seq<string>, failed: bool)

  /** The outcome of tokenizing the empty line: nothing, and no error. */
  const NoTokens: LineTokens := LineTokens([], false)

  /** The part of a Param that never changes after construction: the fields it
      inherits from inspect.Parameter and the constructor's flags. `default` is
      EmptyValue when no default is declared; `optionalOverride` is None when the
      constructor was not given `optional`. */
  datatype Declaration = Declaration(
    name: string,
    annotation: Annotation,
    default: PyValue,
    internalOnly: bool,
    optionalOverride: Option<bool>,
    requiredFlag: bool)

  /** Param.help_name: the flag spelling of the name. */
  function HelpName(d: Declaration): (r: string)
    ensures |r| == |d.name|
    ensures forall j :: 0 <= j < |r| ==> r[j] == (if d.name[j] == '_' then '-' else d.name[j])
  {
    Replace(d.name, '_', '-')
  }

  /** Param.optional */
  predicate IsOptional(d: Declaration) {
    if d.optionalOverride.Some? then d.optionalOverride.value
    else |Datatypes(d.annotation)| == 2 && NoneType in Datatypes(d.annotation)
  }

  /** Param.required */
  predicate Required(d: Declaration) {
    if d.internalOnly then false
    else if IsOptional(d) then false
    else if d.default != EmptyValue then false
    else if BoolType in Datatypes(d.annotation) then false
    else d.requiredFlag
  }

  /** Param.value for a given bound value: the bound value, else the default, else
      False for a bool parameter, else Empty. */
  function ValueWith(d: Declaration, bound: PyValue): PyValue {
    if bound != EmptyValue then bound
    else if d.default != EmptyValue then d.default
    else if BoolType in Datatypes(d.annotation) then Single(BoolAtom(false))
    else EmptyValue
  }

  /** Among parameters that are neither internal nor optional and keep the
      constructor's `required=True`, being required is exactly having nothing to
      fall back on. */
  lemma RequiredIffNoFallback(d: Declaration)
    requires !d.internalOnly && !IsOptional(d) && d.requiredFlag
    ensures Required(d) <==> ValueWith(d, EmptyValue) == EmptyValue
  {
  }

  /** An Optional[T] parameter with no default and no bound value resolves to the
      Empty marker, not to None. */
  lemma OptionalWithoutDefaultIsEmpty(d: Declaration, t: PyType)
    requires d.annotation == Union([t, NoneType]) && t != BoolType && t != NoneType
    requires d.optionalOverride == None && d.default == EmptyValue
    ensures IsOptional(d) && !Required(d)
    ensures ValueWith(d, EmptyValue) == EmptyValue
  {
  }

  /** Param.validate on a raw value: some type of the annotation other than NoneType
      accepts it. */
  predicate Validates(d: Declaration, raw: RawArg) {
    var ts := Datatypes(d.annotation);
    exists i :: 0 <= i < |ts| && ts[i] != NoneType && Convert(ts[i], raw).Some?
  }

  lemma SequenceValidates(d: Declaration, raw: RawArg)
    requires IsSequence(d.annotation)
    ensures Validates(d, raw) <==> Convert(d.annotation.elem, raw).Some?
  {
    if Convert(d.annotation.elem, raw).Some? {
      assert Datatypes(d.annotation)[0] == d.annotation.elem;
    }
  }

  /** The position of the last type in ms that accepts the raw value, or -1. */
  function LastConverting(ms: seq<PyType>, raw: RawArg): (k: int)
    ensures -1 <= k < |ms|
    ensures k >= 0 ==> Convert(ms[k], raw).Some?
    ensures forall j :: k < j < |ms| ==> Convert(ms[j], raw).None?
  {
    if ms == [] then -1
    else if Convert(ms[|ms| - 1], raw).Some? then |ms| - 1
    else
      var k := LastConverting(ms[..|ms| - 1], raw);
      assert forall j :: k < j < |ms| - 1 ==> ms[..|ms| - 1][j] == ms[j];
      k
  }

  /** The conversion a union keeps: trying each member in order, the result of the
      last one that did not raise. */
  function LastConversion(ms: seq<PyType>, raw: RawArg): (r: Option<Atom>)
    ensures r.Some? <==> exists i :: 0 <= i < |ms| && Convert(ms[i], raw).Some?
    ensures r.Some? ==> exists k :: 0 <= k < |ms| && Convert(ms[k], raw) == r &&
                          forall j :: k < j < |ms| ==> Convert(ms[j], raw).None?
  {
    var k := LastConverting(ms, raw);
    if k < 0 then None else Convert(ms[k], raw)
  }

  function MustBeOfType(d: Declaration): string {
    "'" + HelpName(d) + "' must be of type " + HelpType(d.annotation)
  }

  function RequiresValue(d: Declaration): string {
    "'" + HelpName(d) + "' requires a value"
  }

  /** Param.set_value on a raw value: the value it binds, or the message of the
      ValueError it raises. */
  function SetValueOutcome(d: Declaration, raw: RawArg): (r: Result<PyValue, string>)
    requires !IsSequence(d.annotation)
    ensures !Validates(d, raw) ==> r == Err(MustBeOfType(d))
    ensures (Validates(d, raw) && !d.annotation.Union? && raw.BareFlag? &&
             BoolType !in Datatypes(d.annotation)) ==> r == Err(RequiresValue(d))
    ensures r.Err? ==> (!Validates(d, raw) ||
                        (!d.annotation.Union? && raw.BareFlag? && BoolType !in Datatypes(d.annotation)))
    ensures r.Ok? ==> (r.value.Single? &&
                       var ts := Datatypes(d.annotation);
                       exists i :: 0 <= i < |ts| && ts[i] != NoneType && AtomHasType(r.value.atom, ts[i]))
    ensures r.Ok? && d.annotation.Union? ==>
      var ms := d.annotation.members;
      exists k :: 0 <= k < |ms| && Convert(ms[k], raw) == Some(r.value.atom) &&
        forall j :: k < j < |ms| ==> Convert(ms[j], raw).None?
    ensures d.annotation == Plain(BoolType) && raw.BareFlag? ==>
      r == Ok(Single(BoolAtom(d.default == EmptyValue || !Truthy(d.default))))
    ensures d.annotation.Plain? && raw.Text? && r.Ok? ==>
      Convert(d.annotation.t, raw) == Some(r.value.atom)
  {
    if !Validates(d, raw) then Err(MustBeOfType(d))
    else if d.annotation.Union? then
      var c := LastConversion(d.annotation.members, raw);
      assert c.Some?;
      var k :| 0 <= k < |d.annotation.members| && Convert(d.annotation.members[k], raw) == c;
      Ok(Single(c.value))
    else if raw.BareFlag? then
      if BoolType !in Datatypes(d.annotation) then Err(RequiresValue(d))
      else Ok(Single(BoolAtom(if d.default == EmptyValue then true else !Truthy(d.default))))
    else
      Ok(Single(Convert(d.annotation.t, raw).value))
  }

  /** What f gives for each of values in turn, or None if it gives None for one of them. */
  function Collect<A>(f: string -> Option<A>, values: seq<string>): Option<seq<A>> {
    if values == [] then Some([])
    else
      var prefix := Collect(f, values[..|values| - 1]);
      var last := f(values[|values| - 1]);
      if prefix.None? || last.None? then None else Some(prefix.value + [last.value])
  }

  /** Every value converted by the element type, or None if one of them fails. */
  function ConvertAll(t: PyType, values: seq<string>): Option<seq<Atom>> {
    Collect(s => Convert(t, Text(s)), values)
  }

  /** ConvertAll fails exactly when some value fails to convert, and otherwise keeps
      every converted value in place. */
  lemma ConvertAllSpec(t: PyType, values: seq<string>)
    ensures ConvertAll(t, values).Some? <==>
              forall i :: 0 <= i < |values| ==> Convert(t, Text(values[i])).Some?
    ensures ConvertAll(t, values).Some? ==>
              && |ConvertAll(t, values).value| == |values|
              && forall i :: 0 <= i < |values| ==> Convert(t, Text(values[i])) == Some(ConvertAll(t, values).value[i])
  {
    var f := s => Convert(t, Text(s));
    CollectFails(f, values);
    CollectKeeps(f, values);
    assert forall i :: 0 <= i < |values| ==> f(values[i]) == Convert(t, Text(values[i]));
  }

  /** Collect fails exactly when f gives None for some value. */
  lemma {:induction false} CollectFails<A>(f: string -> Option<A>, values: seq<string>)
    ensures Collect(f, values).Some? <==> forall i :: 0 <= i < |values| ==> f(values[i]).Some?
  {
    if values != [] {
      var n := |values| - 1;
      var init := values[..n];
      CollectFails(f, init);
      if Collect(f, init).None? {
        var i :| 0 <= i < n && f(init[i]).None?;
        assert values[i] == init[i];
      } else {
        forall i | 0 <= i < n
          ensures values[i] == init[i]
        {
        }
      }
    }
  }

  /** When Collect succeeds it keeps what f gives for each value, in place. */
  lemma {:induction false} CollectKeeps<A>(f: string -> Option<A>, values: seq<string>)
    ensures Collect(f, values).Some? ==>
              && |Collect(f, values).value| == |values|
              && forall i :: 0 <= i < |values| ==> f(values[i]) == Some(Collect(f, values).value[i])
  {
    if values != [] && Collect(f, values).Some? {
      var n := |values| - 1;
      var init := values[..n];
      CollectKeeps(f, init);
      var prefix := Collect(f, init).value;
      var r := prefix + [f(values[n]).value];
      forall i | 0 <= i < |values|
        ensures f(values[i]) == Some(r[i])
      {
        if i < n {
          assert values[i] == init[i] && r[i] == prefix[i];
        }
      }
    }
  }

  /** Param.set_value_as_seq: the list or set it binds, or the message of the
      ValueError it raises at the first value of the wrong type. */
  function SeqValueOutcome(d: Declaration, values: seq<string>): (r: Result<PyValue, string>)
    requires IsSequence(d.annotation)
    ensures r.Err? <==> exists i :: 0 <= i < |values| && !Validates(d, Text(values[i]))
    ensures r.Err? ==> r.error == MustBeOfType(d)
    ensures r.Ok? && d.annotation.ListOf? ==>
              && r.value.PyList?
              && |r.value.items| == |values|
              && forall i :: 0 <= i < |values| ==> Convert(d.annotation.elem, Text(values[i])) == Some(r.value.items[i])
    ensures r.Ok? && d.annotation.SetOf? ==>
              && r.value.PySet?
              && forall a :: a in r.value.elements <==>
                   exists i :: 0 <= i < |values| && Convert(d.annotation.elem, Text(values[i])) == Some(a)
  {
    forall i | 0 <= i < |values| {
      SequenceValidates(d, Text(values[i]));
    }
    ConvertAllSpec(d.annotation.elem, values);
    match ConvertAll(d.annotation.elem, values)
    case None => Err(MustBeOfType(d))
    case Some(items) =>
      Ok(if d.annotation.ListOf? then PyList(items) else PySet(set a | a in items))
  }

  /** The text Param._set_description stores for a comment line: leading whitespace,
      then a "#" followed by whitespace, are removed, and the rest is stripped. */
  function CleanComment(line: string): (r: string)
    ensures r == [] || (!IsSpace(r[0]) && !IsSpace(r[|r| - 1]))
    decreases |line|
  {
    if line != [] && IsSpace(line[0]) then CleanComment(line[1..])
    else if |line| >= 2 && line[0] == '#' && IsSpace(line[1]) then Strip(line[1..])
    else Strip(line)
  }

  /** A comment line cleaned: the whitespace in front, the "#" and the whitespace
      after it are dropped, and what follows is stripped. */
  lemma {:induction false} CleanCommentMarker(ws: string, gap: string, text: string)
    requires AllSpace(ws) && gap != [] && AllSpace(gap)
    ensures CleanComment(ws + "#" + gap + text) == Strip(text)
    decreases |ws|
  {
    var line := ws + "#" + gap + text;
    if ws == [] {
      calc {
        CleanComment(line);
        { assert line == "#" + gap + text && line[0] == '#' && line[1] == gap[0]; }
        Strip(line[1..]);
        { assert line[1..] == gap + text; }
        Strip(gap + text);
        { StripSkipsSpace(gap, text); }
        Strip(text);
      }
    } else {
      calc {
        CleanComment(line);
        { assert line[0] == ws[0]; }
        CleanComment(line[1..]);
        { assert line[1..] == ws[1..] + "#" + gap + text; }
        CleanComment(ws[1..] + "#" + gap + text);
        { CleanCommentMarker(ws[1..], gap, text); }
        Strip(text);
      }
    }
  }

  /** A line whose text does not open with "#" and whitespace is only stripped: the
      "#" of "#comment" stays. */
  lemma {:induction false} CleanCommentPlain(ws: string, text: string)
    requires AllSpace(ws)
    requires text == [] || !IsSpace(text[0])
    requires !(|text| >= 2 && text[0] == '#' && IsSpace(text[1]))
    ensures CleanComment(ws + text) == Strip(text)
    decreases |ws|
  {
    var line := ws + text;
    if ws == [] {
      assert line == text;
    } else {
      calc {
        CleanComment(line);
        { assert line[0] == ws[0]; }
        CleanComment(line[1..]);
        { assert line[1..] == ws[1..] + text; }
        CleanComment(ws[1..] + text);
        { CleanCommentPlain(ws[1..], text); }
        Strip(text);
      }
    }
  }

  /** A comment "# " followed by a word with no whitespace at either end is
      stored as that word. */
  lemma CleanCommentWord(note: string)
    requires note != [] && !IsSpace(note[0]) && !IsSpace(note[|note| - 1])
    ensures CleanComment("# " + note) == note
  {
    CleanCommentMarker("", " ", note);
    MarkerSpelled(note);
    StripTrimmed(note);
  }

  /** How the marker is spelled, stated once so that the solver need not rebuild it. */
  lemma MarkerSpelled(note: string)
    ensures "" + "#" + " " + note == "# " + note
  {
  }

  /** Param.parse_or_prepend on a description: the new description and the flag it
      returns. A comment on the line itself overwrites the description; the
      prepended `comment` only fills an empty one; with overwrite=False an existing
      description stops everything. */
  function DescribeFrom(desc: string, line: LineTokens, comment: string, overwrite: bool): (r: (string, bool))
    ensures !overwrite && desc != "" ==> r == (desc, false)
    ensures overwrite || desc == "" ==> r.1 == (line.comments != [] && !line.failed)
    ensures ((overwrite || desc == "") && line.comments != [] &&
             CleanComment(line.comments[|line.comments| - 1]) != "") ==>
              r.0 == CleanComment(line.comments[|line.comments| - 1])
    ensures ((overwrite || desc == "") && line.comments != [] &&
             CleanComment(line.comments[|line.comments| - 1]) == "") ==>
              r.0 == (if comment != "" then CleanComment(comment) else "")
    ensures line.comments == [] ==>
      r.0 == (if desc == "" && comment != "" then CleanComment(comment) else desc)
    ensures r.0 != desc ==> r.0 != "" || line.comments != []
  {
    if !overwrite && desc != "" then (desc, false)
    else
      var d1 := if line.comments == [] then desc else CleanComment(line.comments[|line.comments| - 1]);
      (if comment != "" && d1 == "" then CleanComment(comment) else d1, line.comments != [] && !line.failed)
  }

  /** A snapshot of a Param: its declaration and the two fields that change. */
  datatype ParamState = ParamState(decl: Declaration, description: string, bound: PyValue)

  class Param {
    const decl: Declaration
    var description: string
    var bound: PyValue  // Param._value; EmptyValue until something is bound

    /** Param(name, annotation=..., default=..., description=..., line=..., value=...,
        internal_only=..., optional=..., required=...). An unsupported annotation
        raises UnsupportedType, so no Param exists for it. */
    constructor (decl: Declaration, description: string, line: LineTokens, value: PyValue)
      requires Supported(decl.annotation)
      ensures this.decl == decl && bound == value
      ensures this.description ==
        if description != "" then description else DescribeFrom("", line, "", true).0
    {
      this.decl := decl;
      this.description := description;
      this.bound := value;
      new;
      if this.description == "" {
        var lineSet := ParseOrPrepend(line, "", true);
      }
    }

    /** Param.value */
    function Value(): PyValue
      reads this
    {
      ValueWith(decl, bound)
    }

    function State(): ParamState
      reads this
    {
      ParamState(decl, description, bound)
    }

    /** Param.validate: tries the annotation's types in order and stops at the first
      that accepts the value. */
    method Validate(raw: RawArg) returns (ok: bool)
      ensures ok == Validates(decl, raw)
    {
      var ts := Datatypes(decl.annotation);
      var i := 0;
      while i < |ts|
        invariant 0 <= i <= |ts|
        invariant forall j :: 0 <= j < i ==> ts[j] == NoneType || Convert(ts[j], raw).None?
      {
        if ts[i] != NoneType && Convert(ts[i], raw).Some? {
          return true;
        }
        i := i + 1;
      }
      return false;
    }

    /** Param.set_value: validate, then bind. On failure the bound value is kept and
      the ValueError's message is returned. */
    method SetValue(raw: RawArg) returns (error: Option<string>)
      requires !IsSequence(decl.annotation)
      modifies this
      ensures description == old(description)
      ensures SetValueOutcome(decl, raw).Ok? ==>
        error == None && bound == SetValueOutcome(decl, raw).value
      ensures SetValueOutcome(decl, raw).Err? ==>
        error == Some(SetValueOutcome(decl, raw).error) && bound == old(bound)
    {
      var ok := Validate(raw);
      if !ok {
        return Some(MustBeOfType(decl));
      }
      if decl.annotation.Union? {
        var ms := decl.annotation.members;
        var i := 0;
        while i < |ms|
          invariant 0 <= i <= |ms|
          invariant description == old(description)
          invariant bound == if LastConversion(ms[..i], raw).Some?
            then Single(LastConversion(ms[..i], raw).value) else old(bound)
        {
          var c := Convert(ms[i], raw);
          if c.Some? {
            bound := Single(c.value);
          }
          assert ms[..i + 1][..i] == ms[..i];
          i := i + 1;
        }
        assert ms[..i] == ms;
        return None;
      }
      if raw.BareFlag? {
        if BoolType !in Datatypes(decl.annotation) {
          return Some(RequiresValue(decl));
        }
        var result := if decl.default == EmptyValue then true else !Truthy(decl.default);
        bound := Single(BoolAtom(result));
        return None;
      }
      bound := Single(Convert(decl.annotation.t, raw).value);
      return None;
    }

    /** Param.set_value_as_seq: converts every value by the element type and binds
      the list or set of them. The bound value is reset to an empty list first, so
      a failure leaves it there. */
    method SetValueAsSeq(values: seq<string>) returns (error: Option<string>)
      requires IsSequence(decl.annotation)
      modifies this
      ensures description == old(description)
      ensures SeqValueOutcome(decl, values).Ok? ==>
        error == None && bound == SeqValueOutcome(decl, values).value
      ensures SeqValueOutcome(decl, values).Err? ==>
        error == Some(SeqValueOutcome(decl, values).error) && bound == PyList([])
    {
      var t := decl.annotation.elem;
      bound := PyList([]);
      var temp: seq<Atom> := [];
      var i := 0;
      while i < |values|
        invariant 0 <= i <= |values|
        invariant ConvertAll(t, values[..i]) == Some(temp)
        invariant bound == PyList([]) && description == old(description)
      {
        var ok := Validate(Text(values[i]));
        if !ok {
          return Some(MustBeOfType(decl));
        }
        SequenceValidates(decl, Text(values[i]));
        temp := temp + [Convert(t, Text(values[i])).value];
        assert values[..i + 1][..i] == values[..i];
        assert values[..i + 1][i] == values[i];
        i := i + 1;
      }
      assert values[..i] == values;
      bound := if decl.annotation.ListOf? then PyList(temp) else PySet(set a | a in temp);
      return None;
    }

    /** Param._set_description */
    method SetDescription(line: string, force: bool)
      modifies this
      ensures bound == old(bound)
      ensures description ==
        if old(description) != "" && !force then old(description) else CleanComment(line)
    {
      if description != "" && !force {
        return;
      }
      description := CleanComment(line);
    }

    /** Param.parse_or_prepend: `line` is the tokenizer's outcome on the source line,
      `comment` the prepended comment ("" for none). */
    method ParseOrPrepend(line: LineTokens, comment: string, overwrite: bool) returns (lineSet: bool)
      modifies this
      ensures bound == old(bound)
      ensures (description, lineSet) == DescribeFrom(old(description), line, comment, overwrite)
    {
      if !overwrite && description != "" {
        return false;
      }
      lineSet := false;
      var i := 0;
      while i < |line.comments|
        invariant 0 <= i <= |line.comments|
        invariant bound == old(bound)
        invariant description == if i == 0 then old(description) else CleanComment(line.comments[i - 1])
        invariant lineSet == (i > 0)
      {
        SetDescription(line.comments[i], true);
        lineSet := true;
        i := i + 1;
      }
      ghost var d1 := if line.comments == [] then old(description)
                      else CleanComment(line.comments[|line.comments| - 1]);
      assert description == d1;
      if line.failed {
        lineSet := false;
      }
      assert lineSet == (line.comments != [] && !line.failed);
      if comment != "" {
        SetDescription(comment, false);
      }
    }
  }
}
