/** "Comma ok" conversions: the primitive coercions of a dynamic value and the two
    combinators that build new conversions from old ones. */
module Mappers {
  import opened Values

  datatype Option<T> = None | Some(value: T)

  /** A total conversion from S to T that either succeeds with a value or fails. */
  type Mapper<!S, T> = S -> Option<T>

  /* Primitive coercions: each succeeds exactly on the one shape it names. */

  function AsArray(v: Any): (r: Option<seq<Any>>)
    ensures r.Some? <==> v.Arr?
    ensures r.Some? ==> v == Arr(r.value)
  {
    if v.Arr? then Some(v.items) else None
  }

  function AsBool(v: Any): (r: Option<bool>)
    ensures r.Some? <==> v.Bool?
    ensures r.Some? ==> v == Bool(r.value)
  {
    if v.Bool? then Some(v.b) else None
  }

  function AsFloat(v: Any): (r: Option<real>)
    ensures r.Some? <==> v.Num?
    ensures r.Some? ==> v == Num(r.value)
  {
    if v.Num? then Some(v.x) else None
  }

  /** Only `map[string]any` passes; an object whose dynamic type is the named `Object`
      type does not. */
  function AsObject(v: Any): (r: Option<Tree>)
    ensures r.Some? <==> v.Obj?
    ensures r.Some? ==> v == Obj(r.value)
  {
    if v.Obj? then Some(v.fields) else None
  }

  function AsString(v: Any): (r: Option<string>)
    ensures r.Some? <==> v.Str?
    ensures r.Some? ==> v == Str(r.value)
  {
    if v.Str? then Some(v.s) else None
  }

  /** A real number with no fractional part. */
  predicate Integral(x: real) {
    x == x.Floor as real
  }

  /** Conversion of a float to an integer, which truncates toward zero. */
  function Trunc(x: real): int {
    if x >= 0.0 then x.Floor else -((-x).Floor)
  }

  /** Truncation gives back the input exactly when the input is integral. */
  lemma TruncBack(x: real)
    ensures Trunc(x) as real == x <==> Integral(x)
  {
    if x < 0.0 && Integral(x) {
      assert (-x).Floor == -(x.Floor);
    }
  }

  /** Truncates and accepts the result only if converting it back gives the input. */
  function AsInt(x: real): (r: Option<int>)
    ensures r.Some? <==> Integral(x)
    ensures r.Some? ==> r.value as real == x
  {
    TruncBack(x);
    var w := Trunc(x);
    if w as real == x then Some(w) else None
  }

  /* Lifting a conversion over a sequence. */

  /** Converts every element of `v` with `m`, failing as soon as one element fails. */
  function AllOf<S, T>(m: Mapper<S, T>, v: seq<S>): (r: Option<seq<T>>)
    ensures r.Some? <==> forall i :: 0 <= i < |v| ==> m(v[i]).Some?
    ensures r.Some? ==> |r.value| == |v|
    ensures r.Some? ==> forall i :: 0 <= i < |v| ==> r.value[i] == m(v[i]).value
  {
    if v == [] then Some([])
    else match m(v[0])
      case None => None
      case Some(y) =>
        match AllOf(m, v[1..])
        case None => None
        case Some(ys) => Some([y] + ys)
  }

  /** The mapper that converts whole sequences element by element. */
  function All<S, T>(m: Mapper<S, T>): Mapper<seq<S>, seq<T>> {
    v => AllOf(m, v)
  }

  /** The body of the mapper returned by `All`: fills a fresh array by index and
      gives up at the first element that does not convert. */
  method RunAll<S, T(0)>(m: Mapper<S, T>, v: seq<S>) returns (r: Option<seq<T>>)
    ensures r == AllOf(m, v)
  {
    var w := new T[|v|];
    var i := 0;
    while i < |v|
      invariant 0 <= i <= |v|
      invariant forall j :: 0 <= j < i ==> m(v[j]).Some? && w[j] == m(v[j]).value
    {
      var y := m(v[i]);
      if y.Some? {
        w[i] := y.value;
      } else {
        return None;
      }
      i := i + 1;
    }
    assert AllOf(m, v).value == w[..];
    r := Some(w[..]);
  }

  /* Choosing among alternative conversions. */

  /** The result of the first mapper in `ms` that succeeds on `v`. */
  function FirstOf<S, T>(ms: seq<Mapper<S, T>>, v: S): (r: Option<T>)
    ensures r.None? <==> forall i :: 0 <= i < |ms| ==> ms[i](v).None?
    ensures r.Some? ==>
      exists i :: 0 <= i < |ms| && r == ms[i](v) && forall j :: 0 <= j < i ==> ms[j](v).None?
  {
    if ms == [] then None
    else if ms[0](v).Some? then ms[0](v)
    else FirstOf(ms[1..], v)
  }

  /** The mapper that tries each of `ms` in order until one succeeds. */
  function One<S, T>(ms: seq<Mapper<S, T>>): Mapper<S, T> {
    v => FirstOf(ms, v)
  }

  /** The body of the mapper returned by `One`: a loop that stops at the first success. */
  method RunOne<S, T>(ms: seq<Mapper<S, T>>, v: S) returns (r: Option<T>)
    ensures r == FirstOf(ms, v)
  {
    r := None;
    for i := 0 to |ms|
      invariant r.None?
      invariant forall j :: 0 <= j < i ==> ms[j](v).None?
    {
      r := ms[i](v);
      if r.Some? {
        break;
      }
    }
  }
}
