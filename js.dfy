/** JavaScript values as the dashboard code reads them, and the two defaulting
    operators it mixes on purpose: `a || b` skips every falsy value (empty
    string, 0, false, null, undefined), while `a ?? b` and the test `a != null`
    skip only null and undefined. */
module Js {

  /** A value that may be absent, as `localStorage.getItem` (null or a string)
      or `URLSearchParams.get` return it. */
  datatype Option<+T> = None | Some(value: T)

  /** One property of a payload whose wire type is `T`: absent or explicitly
      `undefined` (the two read alike), `null`, or a value. */
  datatype Field<+T> = Missing | Null | Present(value: T)

  /** `f != null`: loose inequality, false only for null and undefined. */
  predicate NonNull<T>(f: Field<T>) {
    f.Present?
  }

  /** Truthiness of a string property: only a non-empty string is truthy. */
  predicate TruthyString(f: Field<string>) {
    f.Present? && f.value != ""
  }

  /** `f || fallback` on a string property. */
  function OrString(f: Field<string>, fallback: string): string {
    if TruthyString(f) then f.value else fallback
  }

  /** `list || []` on a list-valued property: null and undefined give the empty
      list; any list, the empty one included, is truthy and kept. */
  function OrEmpty<T>(list: Option<seq<T>>): seq<T> {
    if list.Some? then list.value else []
  }

  /** A property of an untyped payload. Objects and arrays (`Composite`) are
      only ever tested for truthiness or compared here. */
  datatype JsValue = Undefined | NullValue | Bool(b: bool) | Num(n: real) | Str(s: string) | Composite

  predicate Truthy(v: JsValue) {
    match v
    case Undefined => false
    case NullValue => false
    case Bool(b) => b
    case Num(n) => n != 0.0
    case Str(s) => s != ""
    case Composite => true
  }

  predicate Nullish(v: JsValue) {
    v.Undefined? || v.NullValue?
  }

  /** `a || b` */
  function Or(a: JsValue, b: JsValue): JsValue {
    if Truthy(a) then a else b
  }

  /** `a ?? b` */
  function Coalesce(a: JsValue, b: JsValue): JsValue {
    if Nullish(a) then b else a
  }

  /** `o[k]` on a plain object: undefined when the key is absent. */
  function Get(o: map<string, JsValue>, k: string): JsValue {
    if k in o then o[k] else Undefined
  }

  /** The number a relational comparison such as `v > 0.8` converts `v` to;
      `None` stands for NaN, which makes every comparison false. */
  function ToNumber(v: JsValue): Option<real> {
    match v
    case Undefined => None
    case NullValue => Some(0.0)
    case Bool(b) => Some(if b then 1.0 else 0.0)
    case Num(n) => Some(n)
    case Str(_) => None
    case Composite => None
  }

  /** `v > bound` */
  predicate Greater(v: JsValue, bound: real) {
    var n := ToNumber(v);
    n.Some? && n.value > bound
  }
}
