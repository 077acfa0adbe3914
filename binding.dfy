/** What params_to_kwargs promises about the values it binds, the tokens it leaves
    over, the parameters it reports missing and the dict it returns. */
module Binding {
  import opened Wrappers
  import opened Types
  import opened Params
  import opened Args
  import opened Binder

  function Min(a: nat, b: nat): nat {
    if a <= b then a else b
  }

  /** Scan over all of ps ends as the scan over ps minus its last parameter,
      followed by one iteration on that parameter. */
  lemma ScanLast(ps: seq<ParamState>, pos: seq<string>, kw: Dict<RawArg>)
    requires ps != []
    ensures Scan(ps, pos, kw) ==
      var n := |ps| - 1;
      var p := Scan(ps[..n], pos, kw);
      if p.failure.Some? then p.(bounds := p.bounds + [ps[n].bound])
      else
        var s := Step(ps[n].decl, ps[n].bound, p.pos, kw);
        Progress(s.pos, p.bounds + [s.bound], p.missing + (if s.missing then [ps[n]] else []), s.failure)
  {
    var n := |ps| - 1;
    ScanNext(ps, pos, kw, n);
    assert ps[..n + 1] == ps;
  }

  /** One iteration takes at most one positional token, or all of them. */
  lemma StepPos(d: Declaration, bound: PyValue, pos: seq<string>, kw: Dict<RawArg>)
    ensures var s := Step(d, bound, pos, kw);
      s.pos == pos || s.pos == [] || (pos != [] && s.pos == pos[1..])
  {
  }

  /** A value that set_value or set_value_as_seq binds is never the Empty marker,
      so a parameter the loop binds is never Empty afterwards. */
  lemma StepBinds(d: Declaration, bound: PyValue, pos: seq<string>, kw: Dict<RawArg>)
    ensures var s := Step(d, bound, pos, kw);
      s.failure.None? && !s.missing && Required(d) ==> s.bound != EmptyValue
  {
  }

  /** The loop never undoes its work: the scan over a prefix of the parameters
      fails if the whole scan does not; the bound values of that prefix are final;
      the tokens left only shrink; the missing parameters are only appended to. */
  lemma {:induction false} ScanPrefix(ps: seq<ParamState>, pos: seq<string>, kw: Dict<RawArg>, k: nat)
    requires k <= |ps|
    ensures Scan(ps, pos, kw).failure.None? ==> Scan(ps[..k], pos, kw).failure.None?
    ensures forall j :: 0 <= j < k ==> Scan(ps, pos, kw).bounds[j] == Scan(ps[..k], pos, kw).bounds[j]
    ensures |Scan(ps, pos, kw).pos| <= |Scan(ps[..k], pos, kw).pos|
    ensures var m, mk := Scan(ps, pos, kw).missing, Scan(ps[..k], pos, kw).missing;
      |mk| <= |m| && m[..|mk|] == mk
  {
    if k == |ps| {
      assert ps[..k] == ps;
    } else {
      var n := |ps| - 1;
      assert ps[..n][..k] == ps[..k];
      ScanPrefix(ps[..n], pos, kw, k);
      ScanLast(ps, pos, kw);
      var q := Scan(ps[..n], pos, kw);
      var r := Scan(ps, pos, kw);
      if q.failure.None? {
        StepPos(ps[n].decl, ps[n].bound, q.pos, kw);
        assert r.bounds[..n] == q.bounds;
        assert r.missing[..|q.missing|] == q.missing;
      } else {
        assert r == q.(bounds := q.bounds + [ps[n].bound]);
      }
    }
  }

  /** Positional tokens go to the parameters in declaration order, one each, before
      any named value is looked at: with no list or set parameter and no failure,
      parameter i takes token i when there is one, and otherwise a truthy named
      value under its name, or else keeps what it had. The tokens left over are
      those past the last parameter. */
  lemma {:induction false} PositionalsInOrder(ps: seq<ParamState>, pos: seq<string>, kw: Dict<RawArg>)
    requires forall i :: 0 <= i < |ps| ==> !IsSequence(ps[i].decl.annotation)
    requires Scan(ps, pos, kw).failure.None?
    ensures Scan(ps, pos, kw).pos == pos[Min(|ps|, |pos|)..]
    ensures forall i :: 0 <= i < |ps| && i < |pos| ==>
      SetValueOutcome(ps[i].decl, Text(pos[i])) == Ok(Scan(ps, pos, kw).bounds[i])
    ensures forall i :: |pos| <= i < |ps| ==>
      var name := ps[i].decl.name;
      if name in kw.entries && RawTruthy(kw.entries[name])
      then SetValueOutcome(ps[i].decl, kw.entries[name]) == Ok(Scan(ps, pos, kw).bounds[i])
      else Scan(ps, pos, kw).bounds[i] == ps[i].bound
  {
    if ps != [] {
      var n := |ps| - 1;
      var init := ps[..n];
      var p := Scan(init, pos, kw);
      var r := Scan(ps, pos, kw);
      ScanLastPositional(ps, pos, kw);
      PositionalsInOrder(init, pos, kw);
      if n < |pos| {
        assert p.pos[0] == pos[n] && p.pos[1..] == pos[n + 1..];
      }
      forall i | 0 <= i < n
        ensures ps[i] == init[i]
      {
      }
    }
  }

  /** The last iteration on a parameter that is not a list or set, when the loop
      does not fail: it takes the next positional token if there is one, and
      otherwise a truthy named value under its name, or else keeps what it had. */
  lemma ScanLastPositional(ps: seq<ParamState>, pos: seq<string>, kw: Dict<RawArg>)
    requires ps != [] && !IsSequence(ps[|ps| - 1].decl.annotation)
    requires Scan(ps, pos, kw).failure.None?
    ensures var n := |ps| - 1;
      var p, r, d := Scan(ps[..n], pos, kw), Scan(ps, pos, kw), ps[n].decl;
      && p.failure.None? && r.bounds[..n] == p.bounds
      && (p.pos != [] ==> r.pos == p.pos[1..] && SetValueOutcome(d, Text(p.pos[0])) == Ok(r.bounds[n]))
      && (p.pos == [] ==> r.pos == [])
      && (p.pos == [] && d.name in kw.entries && RawTruthy(kw.entries[d.name]) ==>
            SetValueOutcome(d, kw.entries[d.name]) == Ok(r.bounds[n]))
      && (p.pos == [] && !(d.name in kw.entries && RawTruthy(kw.entries[d.name])) ==>
            r.bounds[n] == ps[n].bound)
  {
    var n := |ps| - 1;
    var p, r := Scan(ps[..n], pos, kw), Scan(ps, pos, kw);
    ScanLast(ps, pos, kw);
    assert r.bounds[..n] == p.bounds;
  }

  /** A list or set parameter takes every positional token still unused, so when
      the loop does not fail no token is left over and nothing after it gets a
      positional token. */
  lemma SequenceTakesTheRest(ps: seq<ParamState>, pos: seq<string>, kw: Dict<RawArg>, i: nat)
    requires i < |ps| && IsSequence(ps[i].decl.annotation)
    requires Scan(ps, pos, kw).failure.None?
    ensures Scan(ps, pos, kw).pos == []
    ensures Ok(Scan(ps, pos, kw).bounds[i]) == SeqValueOutcome(ps[i].decl, Scan(ps[..i], pos, kw).pos)
  {
    ScanPrefix(ps, pos, kw, i + 1);
    ScanNext(ps, pos, kw, i);
  }

  /** With no list or set parameter, more positional tokens than parameters end
      params_to_kwargs with "Too many positional arguments!" unless a value fails
      its type first. */
  lemma TooManyPositionals(ps: seq<ParamState>, pos: seq<string>, kw: Dict<RawArg>)
    requires forall i :: 0 <= i < |ps| ==> !IsSequence(ps[i].decl.annotation)
    requires |pos| > |ps|
    ensures Outcome(ps, pos, kw).Err?
    ensures Scan(ps, pos, kw).failure.None? ==>
      Outcome(ps, pos, kw) == Err(Raised(["Too many positional arguments!"]))
  {
    if Scan(ps, pos, kw).failure.None? {
      PositionalsInOrder(ps, pos, kw);
    }
  }

  /** Every parameter reported missing is a required one, and every required
      parameter is either reported missing or bound to a value that is not the
      Empty marker. */
  lemma {:induction false} MissingRequired(ps: seq<ParamState>, pos: seq<string>, kw: Dict<RawArg>)
    requires Scan(ps, pos, kw).failure.None?
    ensures forall m :: m in Scan(ps, pos, kw).missing ==> Required(m.decl) && m in ps
    ensures forall i :: 0 <= i < |ps| && Required(ps[i].decl) ==>
      ps[i] in Scan(ps, pos, kw).missing || Scan(ps, pos, kw).bounds[i] != EmptyValue
  {
    if ps != [] {
      var n := |ps| - 1;
      var init := ps[..n];
      ScanLast(ps, pos, kw);
      MissingRequired(init, pos, kw);
      var p := Scan(init, pos, kw);
      StepBinds(ps[n].decl, ps[n].bound, p.pos, kw);
      var r := Scan(ps, pos, kw);
      forall i | 0 <= i < n
        ensures ps[i] == init[i] && r.bounds[i] == p.bounds[i]
      {
      }
    }
  }

  /** Storing pairs whose keys are distinct keeps every key, in order, with its
      own value. */
  lemma {:induction false} DictOfDistinct<V>(pairs: seq<(string, V)>)
    requires forall i, j :: 0 <= i < j < |pairs| ==> pairs[i].0 != pairs[j].0
    ensures |DictOf(pairs).keys| == |pairs|
    ensures forall i :: 0 <= i < |pairs| ==>
      DictOf(pairs).keys[i] == pairs[i].0 && DictOf(pairs).entries[pairs[i].0] == pairs[i].1
  {
    if pairs != [] {
      var n := |pairs| - 1;
      var init := pairs[..n];
      DictOfDistinct(init);
      var d := DictOf(init);
      var k := pairs[n].0;
      assert k !in d.entries by {
        forall i | 0 <= i < n ensures d.keys[i] != k {
          assert d.keys[i] == init[i].0;
        }
      }
      var r := d.Put(k, pairs[n].1);
      assert DictOf(pairs) == r && r.keys == d.keys + [k];
      forall i | 0 <= i < |pairs|
        ensures r.keys[i] == pairs[i].0 && r.entries[pairs[i].0] == pairs[i].1
      {
        if i < n {
          var key := pairs[i].0;
          assert init[i] == pairs[i] && key != k;
          assert d.keys[i] == key && key in d.entries && d.entries[key] == pairs[i].1;
          PutKeepsOthers(d, k, pairs[n].1);
          assert r.keys[i] == d.keys[i] && r.entries[key] == d.entries[key];
        } else {
          assert r.keys[i] == k;
        }
      }
    }
  }

  /** {param.name: param.value for param in params} with distinct names holds
      every name, in declaration order, with that parameter's value. */
  lemma KwargsOf(ps: seq<ParamState>, bounds: seq<PyValue>)
    requires |bounds| == |ps|
    requires forall i, j :: 0 <= i < j < |ps| ==> ps[i].decl.name != ps[j].decl.name
    ensures DictOf(NameValues(ps, bounds)).keys == ParamNames(ps)
    ensures forall i :: 0 <= i < |ps| ==>
      DictOf(NameValues(ps, bounds)).entries[ps[i].decl.name] == ValueWith(ps[i].decl, bounds[i])
  {
    var pairs := NameValues(ps, bounds);
    DictOfDistinct(pairs);
    assert DictOf(pairs).keys == ParamNames(ps);
  }

  /** params_to_kwargs returns a dict only when no value failed, every positional
      token was used, nobody is missing and every named argument names a
      parameter. */
  lemma OutcomeOkCases(ps: seq<ParamState>, pos: seq<string>, kw: Dict<RawArg>)
    requires Outcome(ps, pos, kw).Ok?
    ensures var p := Scan(ps, pos, kw);
      && p.failure.None? && p.pos == [] && p.missing == []
      && FirstUnexpected(kw.keys, ParamNames(ps)).None?
      && Outcome(ps, pos, kw) == Ok(DictOf(NameValues(ps, p.bounds)))
  {
  }

  /** When params_to_kwargs returns a dict and the parameter names are distinct:
      its keys are exactly the names in declaration order, each holding that
      parameter's value; every named argument names a parameter; no required
      parameter is left without a value. */
  lemma OutcomeOk(ps: seq<ParamState>, pos: seq<string>, kw: Dict<RawArg>)
    requires forall i, j :: 0 <= i < j < |ps| ==> ps[i].decl.name != ps[j].decl.name
    requires Outcome(ps, pos, kw).Ok?
    ensures var d := Outcome(ps, pos, kw).value;
      && d.keys == ParamNames(ps)
      && forall i :: 0 <= i < |ps| ==> d.entries[ps[i].decl.name] == ValueWith(ps[i].decl, Scan(ps, pos, kw).bounds[i])
    ensures forall k :: k in kw.keys ==> k in ParamNames(ps)
    ensures Scan(ps, pos, kw).pos == []
    ensures forall i :: 0 <= i < |ps| && Required(ps[i].decl) ==> Scan(ps, pos, kw).bounds[i] != EmptyValue
  {
    OutcomeOkCases(ps, pos, kw);
    MissingRequired(ps, pos, kw);
    KwargsOf(ps, Scan(ps, pos, kw).bounds);
  }
}
