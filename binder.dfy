/** params_to_kwargs with missing_params_msg and check_for_unexpected_args: binding
    the split command line to the parameters. */
module Binder {
  import opened Wrappers
  import opened Text
  import opened Types
  import opened Params
  import opened Args

  /** How params_to_kwargs ends when it does not return: exit(message), or a raised
      TypeError with its args. */
  datatype BindError = Exit(message: string) | Raised(args: seq<string>)

  function States(params: seq<Param>): (ps: seq<ParamState>)
    reads params
    ensures |ps| == |params|
    ensures forall i :: 0 <= i < |params| ==> ps[i] == params[i].State()
  {
    if params == [] then [] else [params[0].State()] + States(params[1..])
  }

  function ParamNames(ps: seq<ParamState>): (names: seq<string>)
    ensures |names| == |ps|
    ensures forall i :: 0 <= i < |ps| ==> names[i] == ps[i].decl.name
  {
    if ps == [] then [] else [ps[0].decl.name] + ParamNames(ps[1..])
  }

  /** The option lines of missing_params_msg, one per missing parameter. */
  function MissingLines(missing: seq<ParamState>): (lines: seq<string>)
    ensures |lines| == |missing|
    ensures forall i :: 0 <= i < |missing| ==>
      lines[i] == "  --" + HelpName(missing[i].decl) +
        (if missing[i].description != "" then "  " + missing[i].description else "")
  {
    if missing == [] then []
    else
      var p := missing[0];
      ["  --" + HelpName(p.decl) + (if p.description != "" then "  " + p.description else "")]
        + MissingLines(missing[1..])
  }

  /** missing_params_msg: a heading, plural when more than one parameter is missing,
      then one line per missing parameter in order. */
  function MissingParamsMsg(missing: seq<ParamState>): (lines: seq<string>)
    ensures |lines| == |missing| + 1
    ensures lines[0] == "Error, missing required argument" + (if |missing| > 1 then "s" else "") + ":"
    ensures lines[1..] == MissingLines(missing)
  {
    ["Error, missing required argument" + (if |missing| > 1 then "s" else "") + ":"] + MissingLines(missing)
  }

  function UnexpectedMsg(key: string): string {
    "Error: Unexpected argument '" + key + "'"
  }

  /** The first key, in dict order, that names no parameter. */
  function FirstUnexpected(keys: seq<string>, names: seq<string>): (r: Option<string>)
    ensures r.None? <==> forall i :: 0 <= i < |keys| ==> keys[i] in names
    ensures r.Some? ==> exists i :: (0 <= i < |keys| && keys[i] == r.value && r.value !in names &&
                                      forall j :: 0 <= j < i ==> keys[j] in names)
  {
    if keys == [] then None
    else if keys[0] !in names then Some(keys[0])
    else
      var r := FirstUnexpected(keys[1..], names);
      assert forall i :: 1 <= i < |keys| ==> keys[i] == keys[1..][i - 1];
      r
  }

  /** check_for_unexpected_args: the exit message for the first key that names no
      parameter, or None when every key names one. */
  method CheckForUnexpectedArgs(params: seq<Param>, kwArgs: Dict<RawArg>) returns (error: Option<string>)
    ensures error.None? <==> forall k :: k in kwArgs.keys ==> k in ParamNames(States(params))
    ensures error.Some? ==> exists k :: (k in kwArgs.keys && k !in ParamNames(States(params)) &&
                                         error == Some(UnexpectedMsg(k)))
    ensures error == (match FirstUnexpected(kwArgs.keys, ParamNames(States(params)))
                      case None => None
                      case Some(k) => Some(UnexpectedMsg(k)))
  {
    var names := ParamNames(States(params));
    for i := 0 to |kwArgs.keys|
      invariant forall j :: 0 <= j < i ==> kwArgs.keys[j] in names
    {
      if kwArgs.keys[i] !in names {
        assert kwArgs.keys[i] in kwArgs.keys;
        FirstUnexpectedAt(kwArgs.keys, names, i);
        return Some(UnexpectedMsg(kwArgs.keys[i]));
      }
    }
    return None;
  }

  lemma {:induction false} FirstUnexpectedAt(keys: seq<string>, names: seq<string>, i: nat)
    requires i < |keys| && keys[i] !in names
    requires forall j :: 0 <= j < i ==> keys[j] in names
    ensures FirstUnexpected(keys, names) == Some(keys[i])
  {
    if i > 0 {
      FirstUnexpectedAt(keys[1..], names, i - 1);
    }
  }

  /** Python truthiness of a named value: the DefaultIfBool class is truthy, a
      string when it is not empty. */
  predicate RawTruthy(raw: RawArg) {
    raw.BareFlag? || raw.s != ""
  }

  /** What one iteration of params_to_kwargs's loop does to one parameter. */
  datatype StepOutcome = StepOutcome(bound: PyValue, pos: seq<string>, missing: bool, failure: Option<string>)

  /** One iteration: a list or set parameter takes every positional token; otherwise
      the first positional token, else a truthy named value, is bound; otherwise a
      required parameter is missing. A ValueError's message is the failure. */
  function Step(d: Declaration, bound: PyValue, pos: seq<string>, kw: Dict<RawArg>): StepOutcome {
    if IsSequence(d.annotation) then
      match SeqValueOutcome(d, pos)
      case Ok(v) => StepOutcome(v, [], false, None)
      case Err(m) => StepOutcome(PyList([]), pos, false, Some(m))
    else if pos != [] then
      match SetValueOutcome(d, Text(pos[0]))
      case Ok(v) => StepOutcome(v, pos[1..], false, None)
      case Err(m) => StepOutcome(bound, pos[1..], false, Some(m))
    else if d.name in kw.entries && RawTruthy(kw.entries[d.name]) then
      match SetValueOutcome(d, kw.entries[d.name])
      case Ok(v) => StepOutcome(v, pos, false, None)
      case Err(m) => StepOutcome(bound, pos, false, Some(m))
    else
      StepOutcome(bound, pos, Required(d), None)
  }

  /** The state of params_to_kwargs after some of the parameters: the positional
      tokens left, the bound values of those parameters, the missing required ones
      and the ValueError that ended the loop, if any. */
  datatype Progress = Progress(pos: seq<string>, bounds: seq<PyValue>, missing: seq<ParamState>, failure: Option<string>)

  /** The loop of params_to_kwargs over the parameters ps. */
  function Scan(ps: seq<ParamState>, pos: seq<string>, kw: Dict<RawArg>): (r: Progress)
    ensures |r.bounds| == |ps|
    decreases |ps|, 2
  {
    if ps == [] then Progress(pos, [], [], None) else Advance(ps, pos, kw)
  }

  /** The loop after the last of ps: once an earlier parameter has failed, no
      parameter changes any more. */
  function Advance(ps: seq<ParamState>, pos: seq<string>, kw: Dict<RawArg>): (r: Progress)
    requires ps != []
    ensures |r.bounds| == |ps|
    decreases |ps|, 1
  {
    var p := Scan(ps[..|ps| - 1], pos, kw);
    if p.failure.Some? then p.(bounds := p.bounds + [ps[|ps| - 1].bound]) else Apply(ps, pos, kw)
  }

  /** The iteration for the last of ps, when the loop over the others ended
      without a failure. */
  function Apply(ps: seq<ParamState>, pos: seq<string>, kw: Dict<RawArg>): (r: Progress)
    requires ps != []
    ensures |r.bounds| == |ps|
    decreases |ps|, 0
  {
    var p := Scan(ps[..|ps| - 1], pos, kw);
    var last := ps[|ps| - 1];
    var s := Step(last.decl, last.bound, p.pos, kw);
    Progress(s.pos, p.bounds + [s.bound], p.missing + (if s.missing then [last] else []), s.failure)
  }

  /** The dict built by storing each (key, value) pair in turn. */
  function DictOf<V>(pairs: seq<(string, V)>): (r: Dict<V>)
    ensures r.Valid()
  {
    if pairs == [] then EmptyDict()
    else DictOf(pairs[..|pairs| - 1]).Put(pairs[|pairs| - 1].0, pairs[|pairs| - 1].1)
  }

  /** (param.name, param.value) for each parameter, for the given bound values. */
  function NameValues(ps: seq<ParamState>, bounds: seq<PyValue>): (r: seq<(string, PyValue)>)
    requires |bounds| == |ps|
    ensures |r| == |ps|
    ensures forall i :: 0 <= i < |ps| ==> r[i] == (ps[i].decl.name, ValueWith(ps[i].decl, bounds[i]))
  {
    if ps == [] then [] else [(ps[0].decl.name, ValueWith(ps[0].decl, bounds[0]))] + NameValues(ps[1..], bounds[1..])
  }

  /** {param.name: param.value for param in params} */
  method KwargsDict(params: seq<Param>) returns (d: Dict<PyValue>)
    ensures d == DictOf(NameValues(States(params), Bounds(params)))
  {
    ghost var pairs := NameValues(States(params), Bounds(params));
    d := EmptyDict();
    for k := 0 to |params|
      invariant d == DictOf(pairs[..k])
    {
      ghost var next := pairs[..k + 1];
      assert next[..k] == pairs[..k];
      assert next[k] == (params[k].decl.name, params[k].Value());
      d := d.Put(params[k].decl.name, params[k].Value());
      assert d == DictOf(next);
    }
    assert pairs[..|params|] == pairs;
  }

  function Bounds(params: seq<Param>): (bs: seq<PyValue>)
    reads params
    ensures |bs| == |params|
    ensures forall i :: 0 <= i < |params| ==> bs[i] == params[i].bound
  {
    if params == [] then [] else [params[0].bound] + Bounds(params[1..])
  }

  /** The end of params_to_kwargs once every parameter is bound: an exit for the
      first unexpected name, otherwise {param.name: param.value for param in params}. */
  function Finish(ps: seq<ParamState>, bounds: seq<PyValue>, kw: Dict<RawArg>): (r: Result<Dict<PyValue>, BindError>)
    requires |bounds| == |ps|
  {
    match FirstUnexpected(kw.keys, ParamNames(ps))
    case Some(k) => Err(Exit(UnexpectedMsg(k)))
    case None => Ok(DictOf(NameValues(ps, bounds)))
  }

  /** params_to_kwargs: the dict it returns, or how it ends. The checks come in a
      fixed order: a value of the wrong type, then leftover positional tokens, then
      all missing required parameters together, then an unexpected name. */
  function Outcome(ps: seq<ParamState>, pos: seq<string>, kw: Dict<RawArg>): Result<Dict<PyValue>, BindError> {
    var p := Scan(ps, pos, kw);
    if p.failure.Some? then Err(Exit(p.failure.value))
    else if p.pos != [] then Err(Raised(["Too many positional arguments!"]))
    else if p.missing != [] then Err(Raised(MissingParamsMsg(p.missing)))
    else Finish(ps, p.bounds, kw)
  }

  /** Finish reads only the declarations of the parameters. */
  lemma FinishDecls(a: seq<ParamState>, b: seq<ParamState>, bounds: seq<PyValue>, kw: Dict<RawArg>)
    requires |a| == |b| == |bounds|
    requires forall i :: 0 <= i < |a| ==> a[i].decl == b[i].decl
    ensures Finish(a, bounds, kw) == Finish(b, bounds, kw)
  {
    assert ParamNames(a) == ParamNames(b);
    assert NameValues(a, bounds) == NameValues(b, bounds);
  }

  /** After a ValueError no later parameter changes: the bound values of the
      parameters from k on are those they came in with. */
  lemma {:induction false} ScanStopped(ps: seq<ParamState>, pos: seq<string>, kw: Dict<RawArg>, k: nat)
    requires 0 < k <= |ps| && Scan(ps[..k], pos, kw).failure.Some?
    ensures Scan(ps, pos, kw).failure == Scan(ps[..k], pos, kw).failure
    ensures Scan(ps, pos, kw).pos == Scan(ps[..k], pos, kw).pos
    ensures Scan(ps, pos, kw).missing == Scan(ps[..k], pos, kw).missing
    ensures forall j :: 0 <= j < k ==> Scan(ps, pos, kw).bounds[j] == Scan(ps[..k], pos, kw).bounds[j]
    ensures forall j :: k <= j < |ps| ==> Scan(ps, pos, kw).bounds[j] == ps[j].bound
  {
    if k < |ps| {
      var n := |ps| - 1;
      assert ps[..n][..k] == ps[..k];
      ScanStopped(ps[..n], pos, kw, k);
    } else {
      assert ps[..k] == ps;
    }
  }

  /** One pass of params_to_kwargs's loop body over param, given the positional
      tokens still unused: it binds what Step says, and reports the tokens left,
      whether the parameter is missing and the ValueError's message, if any. */
  method BindParam(param: Param, pos: seq<string>, kwArgs: Dict<RawArg>)
    returns (rest: seq<string>, isMissing: bool, failure: Option<string>)
    modifies param
    ensures param.description == old(param.description)
    ensures StepOutcome(param.bound, rest, isMissing, failure) ==
      Step(param.decl, old(param.bound), pos, kwArgs)
  {
    rest, isMissing, failure := pos, false, None;
    if IsSequence(param.decl.annotation) {
      failure := param.SetValueAsSeq(pos);
      if failure.None? {
        rest := [];
      }
    } else if pos != [] {
      rest := pos[1..];
      failure := param.SetValue(Text(pos[0]));
    } else if param.decl.name in kwArgs.entries && RawTruthy(kwArgs.entries[param.decl.name]) {
      failure := param.SetValue(kwArgs.entries[param.decl.name]);
    } else {
      isMissing := Required(param.decl);
    }
  }

  /** The loop of params_to_kwargs: binds each parameter in turn and stops at the
      first ValueError. It reports the positional tokens left, the missing required
      parameters and the failure, exactly as Scan describes them. */
  method BindAll(params: seq<Param>, posArgs: seq<string>, kwArgs: Dict<RawArg>)
    returns (pos: seq<string>, missing: seq<ParamState>, failure: Option<string>)
    requires forall i, j :: 0 <= i < j < |params| ==> params[i] != params[j]
    modifies params
    ensures Scan(old(States(params)), posArgs, kwArgs) == Progress(pos, Bounds(params), missing, failure)
    ensures forall i :: 0 <= i < |params| ==> params[i].description == old(params[i].description)
  {
    ghost var ps := States(params);
    pos, missing, failure := posArgs, [], None;
    var i := 0;
    while i < |params| && failure.None?
      invariant 0 <= i <= |params|
      invariant Scan(ps[..i], posArgs, kwArgs) == Progress(pos, Scan(ps[..i], posArgs, kwArgs).bounds, missing, failure)
      invariant forall j :: 0 <= j < i ==> params[j].bound == Scan(ps[..i], posArgs, kwArgs).bounds[j]
      invariant forall j :: i <= j < |params| ==> params[j].bound == ps[j].bound
      invariant forall j :: 0 <= j < |params| ==> params[j].description == ps[j].description
    {
      pos, missing, failure := BindNext(params[i], ps, i, posArgs, kwArgs, pos, missing);
      i := i + 1;
    }
    ScanRest(ps, posArgs, kwArgs, i, Bounds(params));
  }

  /** One iteration of params_to_kwargs's loop, on the parameter at i, with the
      tokens and missing parameters the loop has collected so far. */
  method BindNext(param: Param, ghost ps: seq<ParamState>, ghost i: nat, ghost posArgs: seq<string>,
                  kwArgs: Dict<RawArg>, pos: seq<string>, missing: seq<ParamState>)
    returns (pos': seq<string>, missing': seq<ParamState>, failure: Option<string>)
    requires i < |ps| && ps[i] == param.State()
    requires Scan(ps[..i], posArgs, kwArgs) == Progress(pos, Scan(ps[..i], posArgs, kwArgs).bounds, missing, None)
    modifies param
    ensures param.description == old(param.description)
    ensures Scan(ps[..i + 1], posArgs, kwArgs) ==
      Progress(pos', Scan(ps[..i], posArgs, kwArgs).bounds + [param.bound], missing', failure)
  {
    ScanNext(ps, posArgs, kwArgs, i);
    var state := param.State();
    var isMissing;
    pos', isMissing, failure := BindParam(param, pos, kwArgs);
    missing' := if isMissing then missing + [state] else missing;
  }

  /** Scan over one more parameter runs Step on it. */
  lemma ScanNext(ps: seq<ParamState>, pos: seq<string>, kw: Dict<RawArg>, i: nat)
    requires i < |ps|
    ensures Scan(ps[..i + 1], pos, kw) ==
      var p := Scan(ps[..i], pos, kw);
      if p.failure.Some? then p.(bounds := p.bounds + [ps[i].bound])
      else
        var s := Step(ps[i].decl, ps[i].bound, p.pos, kw);
        Progress(s.pos, p.bounds + [s.bound], p.missing + (if s.missing then [ps[i]] else []), s.failure)
  {
    assert ps[..i + 1][..i] == ps[..i];
    if Scan(ps[..i], pos, kw).failure.None? {
      assert Scan(ps[..i + 1], pos, kw) == Apply(ps[..i + 1], pos, kw);
    }
  }

  /** Once Scan over ps[..i] has failed, or covers all of ps, Scan over ps ends as
      it does, the parameters from i on keeping their values. */
  lemma ScanRest(ps: seq<ParamState>, pos: seq<string>, kw: Dict<RawArg>, i: nat, bounds: seq<PyValue>)
    requires i <= |ps| == |bounds|
    requires i == |ps| || (i > 0 && Scan(ps[..i], pos, kw).failure.Some?)
    requires forall j :: 0 <= j < i ==> bounds[j] == Scan(ps[..i], pos, kw).bounds[j]
    requires forall j :: i <= j < |ps| ==> bounds[j] == ps[j].bound
    ensures Scan(ps, pos, kw) == Scan(ps[..i], pos, kw).(bounds := bounds)
  {
    if i < |ps| {
      ScanStopped(ps, pos, kw, i);
    } else {
      assert ps[..i] == ps;
    }
  }

  /** The last part of params_to_kwargs, once every parameter is bound. */
  method Conclude(params: seq<Param>, kwArgs: Dict<RawArg>) returns (r: Result<Dict<PyValue>, BindError>)
    ensures r == Finish(States(params), Bounds(params), kwArgs)
  {
    var unexpected := CheckForUnexpectedArgs(params, kwArgs);
    if unexpected.Some? {
      return Err(Exit(unexpected.value));
    }
    var d := KwargsDict(params);
    return Ok(d);
  }

  /** params_to_kwargs. The positional list is the caller's, emptied as it goes; the
      caller never reads it again, so here it is a value. */
  method ParamsToKwargs(params: seq<Param>, posArgs: seq<string>, kwArgs: Dict<RawArg>)
    returns (r: Result<Dict<PyValue>, BindError>)
    requires forall i, j :: 0 <= i < j < |params| ==> params[i] != params[j]
    modifies params
    ensures r == Outcome(old(States(params)), posArgs, kwArgs)
    ensures Bounds(params) == Scan(old(States(params)), posArgs, kwArgs).bounds
    ensures forall i :: 0 <= i < |params| ==> params[i].description == old(params[i].description)
  {
    ghost var ps := States(params);
    var pos, missing, failure := BindAll(params, posArgs, kwArgs);
    assert Bounds(params) == Scan(ps, posArgs, kwArgs).bounds;
    if failure.Some? {
      return Err(Exit(failure.value));
    }
    if pos != [] {
      return Err(Raised(["Too many positional arguments!"]));
    }
    if missing != [] {
      return Err(Raised(MissingParamsMsg(missing)));
    }
    FinishDecls(States(params), ps, Bounds(params), kwArgs);
    r := Conclude(params, kwArgs);
  }
}
