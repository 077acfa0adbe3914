/** Annotations, runtime values and the coercion of a raw command-line string by a type. */
module Types {
  import opened Wrappers
  import opened Text
  import opened Numerals

  /** The types an annotation may name: the four scalars, NoneType (only inside a
      union) and the Empty marker class that stands for "no annotation". */
  datatype PyType = BoolType | IntType | FloatType | StrType | NoneType | EmptyType

  /** A parameter annotation: a plain type, Union[...] (also spelled Optional[T] or
      T | U), list[T] or set[T]. */
  datatype Annotation =
    | Plain(t: PyType)
    | Union(members: seq<PyType>)
    | ListOf(elem: PyType)
    | SetOf(elem: PyType)

  predicate IsSequence(a: Annotation) {
    a.ListOf? || a.SetOf?
  }

  /** The annotations among these that Param accepts: a plain scalar or Empty, and
      every union, list or set, whatever its type arguments; a plain NoneType
      raises UnsupportedType. A union has at least two distinct members, as
      Python's typing module guarantees. */
  predicate Supported(a: Annotation) {
    match a
    case Plain(t) => t != NoneType
    case Union(ms) =>
      && |ms| >= 2
      && (forall i, j :: 0 <= i < j < |ms| ==> ms[i] != ms[j])
    case ListOf(_) => true
    case SetOf(_) => true
  }

  /** The type's __name__. */
  function TypeName(t: PyType): string {
    match t
    case BoolType => "bool"
    case IntType => "int"
    case FloatType => "float"
    case StrType => "str"
    case NoneType => "NoneType"
    case EmptyType => "Empty"
  }

  /** Param.datatypes: the annotation's type arguments, or the annotation itself. */
  function Datatypes(a: Annotation): seq<PyType> {
    match a
    case Plain(t) => [t]
    case Union(ms) => ms
    case ListOf(t) => [t]
    case SetOf(t) => [t]
  }

  function TypeNames(ts: seq<PyType>): (names: seq<string>)
    ensures |names| == |ts|
    ensures forall j :: 0 <= j < |ts| ==> names[j] == TypeName(ts[j])
  {
    if ts == [] then [] else [TypeName(ts[0])] + TypeNames(ts[1..])
  }

  /** Param.help_type: "[int, float]" for a union, list or set, the bare name otherwise. */
  function HelpType(a: Annotation): string {
    if a.Plain? then TypeName(a.t)
    else "[" + Join(TypeNames(Datatypes(a)), ", ") + "]"
  }

  /** A scalar Python value. A float is kept as the literal it was read from. */
  datatype Atom =
    | NoneAtom
    | BoolAtom(b: bool)
    | IntAtom(i: int)
    | FloatAtom(literal: string)
    | StrAtom(s: string)

  /** What a parameter can hold: the Empty marker, a scalar, a list or a set. */
  datatype PyValue =
    | EmptyValue
    | Single(atom: Atom)
    | PyList(items: seq<Atom>)
    | PySet(elements: set<Atom>)

  /** A raw command-line value: the text after "--name=" or a positional token,
      or the DefaultIfBool marker that a bare "--name" produces. */
  datatype RawArg = Text(s: string) | BareFlag

  /** str(DefaultIfBool): what a str conversion makes of the marker class. */
  const SentinelText: string := "<class 'simplecli.simplecli.DefaultIfBool'>"

  predicate AtomHasType(a: Atom, t: PyType) {
    match a
    case NoneAtom => t == NoneType
    case BoolAtom(_) => t == BoolType
    case IntAtom(_) => t == IntType
    case FloatAtom(_) => t == FloatType
    case StrAtom(_) => t == StrType
  }

  /** Calling the type object on the raw value: Some(result) when the call returns,
      None when it raises. */
  function Convert(t: PyType, raw: RawArg): (r: Option<Atom>)
    ensures r.Some? ==> AtomHasType(r.value, t)
    ensures t == BoolType || t == StrType ==> r.Some?
    ensures t == NoneType || t == EmptyType ==> r.None?
    ensures raw.BareFlag? && t != BoolType && t != StrType ==> r.None?
  {
    match t
    case BoolType => Some(BoolAtom(if raw.Text? then raw.s != "" else true))
    case StrType => Some(StrAtom(if raw.Text? then raw.s else SentinelText))
    case IntType =>
      if raw.Text? && ParseInt(raw.s).Some? then Some(IntAtom(ParseInt(raw.s).value)) else None
    case FloatType =>
      if raw.Text? && IsFloatLiteral(raw.s) then Some(FloatAtom(Strip(raw.s))) else None
    case NoneType => None
    case EmptyType => None
  }

  /** bool(a) */
  predicate AtomTruthy(a: Atom) {
    match a
    case NoneAtom => false
    case BoolAtom(b) => b
    case IntAtom(i) => i != 0
    case FloatAtom(l) => !FloatIsZero(l)
    case StrAtom(s) => s != ""
  }

  /** bool(v) */
  predicate Truthy(v: PyValue) {
    match v
    case EmptyValue => true
    case Single(a) => AtomTruthy(a)
    case PyList(items) => items != []
    case PySet(elements) => elements != {}
  }

  /** str(a) for the scalars the help text prints. */
  function Display(a: Atom): string {
    match a
    case NoneAtom => "None"
    case BoolAtom(b) => if b then "True" else "False"
    case IntAtom(i) => IntToString(i)
    case FloatAtom(l) => l
    case StrAtom(s) => s
  }
}
