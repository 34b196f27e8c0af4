/**
 * The small part of JavaScript's value semantics that the back office relies on:
 * truthiness (`if (x)`, `x || d`, `!x`), `String(x)` / `x.toString()` and
 * plain objects used as records that are spread and re-keyed.
 */
module Js {
  import opened Wrappers
  import Text

  /** A runtime value held in a filter or form object. */
  datatype JsValue = Undefined | Num(n: int) | Str(s: string) | Bool(b: bool)

  /** JavaScript truthiness: `undefined`, `0`, `""` and `false` are falsy. */
  predicate Truthy(v: JsValue) {
    match v
    case Undefined => false
    case Num(n) => n != 0
    case Str(s) => s != ""
    case Bool(b) => b
  }

  /** `String(v)`, which for a defined value is also `v.toString()`. */
  function ToText(v: JsValue): (t: string)
    ensures v.Str? ==> t == v.s
    ensures v.Num? ==> t == Text.IntText(v.n)
  {
    match v
    case Undefined => "undefined"
    case Num(n) => Text.IntText(n)
    case Str(s) => s
    case Bool(b) => if b then "true" else "false"
  }

  /** A plain object: absent keys read as `undefined`. */
  type Obj = map<string, JsValue>

  /** `o[k]`. */
  function Get(o: Obj, k: string): (v: JsValue)
    ensures k !in o ==> v == Undefined
    ensures k in o ==> v == o[k]
  {
    if k in o then o[k] else Undefined
  }

  /** Truthiness of an optional number. */
  predicate IntTruthy(v: Option<int>) {
    v.Some? && v.value != 0
  }

  /** Truthiness of an optional string. */
  predicate StrTruthy(v: Option<string>) {
    v.Some? && v.value != ""
  }

  /** Truthiness of an optional real number. */
  predicate RealTruthy(v: Option<real>) {
    v.Some? && v.value != 0.0
  }

  /** Logical or with a default, on an optional number. */
  function OrInt(v: Option<int>, d: int): (r: int)
    ensures IntTruthy(v) ==> r == v.value
    ensures !IntTruthy(v) ==> r == d
  {
    if IntTruthy(v) then v.value else d
  }

  /** Logical or with a default, on an optional string. */
  function OrStr(v: Option<string>, d: string): (r: string)
    ensures StrTruthy(v) ==> r == v.value
    ensures !StrTruthy(v) ==> r == d
  {
    if StrTruthy(v) then v.value else d
  }

  /** Logical or with a default, on an optional real number. */
  function OrReal(v: Option<real>, d: real): (r: real)
    ensures RealTruthy(v) ==> r == v.value
    ensures !RealTruthy(v) ==> r == d
  {
    if RealTruthy(v) then v.value else d
  }
}
