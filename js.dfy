/** The slice of JavaScript's value model the client code depends on:
    primitive values compared with `===`, truthiness, and plain objects
    with their spread (`{...a, ...b}`) and property reads. Numbers are
    integers here. */
module Js {

  datatype Value = Undefined | Null | Bool(b: bool) | Num(n: int) | Str(s: string)

  /** A plain object: its own enumerable properties. */
  type Obj = map<string, Value>

  /** `o[key]`: a missing property reads as `undefined`. */
  function Get(o: Obj, key: string): (v: Value)
    ensures key !in o ==> v == Undefined
    ensures key in o ==> v == o[key]
  {
    if key in o then o[key] else Undefined
  }

  /** `{...a, ...b}`: every property of `b`, then the properties of `a`
      that `b` does not override. */
  function Spread(a: Obj, b: Obj): (r: Obj)
    ensures r.Keys == a.Keys + b.Keys
    ensures forall k :: k in b ==> r[k] == b[k]
    ensures forall k :: k in a && k !in b ==> r[k] == a[k]
  {
    a + b
  }

  /** JavaScript truthiness: `false`, `0`, `""`, `null` and `undefined`
      are falsy (NaN is not modelled). */
  predicate Truthy(v: Value)
  {
    match v
    case Undefined => false
    case Null => false
    case Bool(b) => b
    case Num(n) => n != 0
    case Str(s) => s != ""
  }

  /** Values that come back as `undefined`/`null` or as a string, such as
      an optional string field. */
  predicate TruthyString(s: Option<string>)
  {
    s.Some? && s.value != ""
  }

  /** `String(v)`, also what a template literal `${v}` prints. */
  function ToText(v: Value): (t: string)
    ensures v.Str? ==> t == v.s
    ensures v.Num? ==> t == Strings.IntToString(v.n)
  {
    match v
    case Undefined => "undefined"
    case Null => "null"
    case Bool(b) => if b then "true" else "false"
    case Num(n) => Strings.IntToString(n)
    case Str(s) => s
  }

  /** `v > 0`. A string is converted with `Number` first; only strings of
      decimal digits are read as numbers here, any other string compares
      false. `null` and `false` convert to 0, `true` to 1, `undefined` to NaN. */
  predicate GreaterThanZero(v: Value)
  {
    match v
    case Undefined => false
    case Null => false
    case Bool(b) => b
    case Num(n) => n > 0
    case Str(s) => s != "" && (forall i :: 0 <= i < |s| ==> Strings.IsDigit(s[i])) && Strings.ParseNat(s) > 0
  }

  import opened Wrappers
  import Strings
}
