/** The part of JavaScript's value semantics that the analytics pipeline
    relies on: truthiness, conversion to string (which is also how a value
    becomes a property key), the `+` operator, property reads, object spread
    and lodash's `pickBy`. */
module Js {

  /** A JavaScript value as it travels through configuration, action payloads
      and records. Numbers are integers (NaN apart); arrays and functions
      never occur as data in the modelled code, except as filter
      specifications (see module Filters). */
  datatype Value =
    | Undefined
    | Null
    | Bool(b: bool)
    | Num(n: int)
    | NaN
    | Str(s: string)
    | Obj(fields: map<string, Value>)

  datatype Option<+T> = None | Some(value: T)

  /** The exceptions the modelled code can raise at run time. */
  datatype Exception = TypeError | ReferenceError

  /** A synchronous evaluation: a value, or a thrown exception. */
  datatype Result<+T> = Ok(value: T) | Throw(error: Exception)

  /** The six falsy values: undefined, null, false, 0, NaN and "". */
  predicate Falsy(v: Value) {
    v == Undefined || v == Null || v == Bool(false) || v == Num(0) || v == NaN || v == Str("")
  }

  predicate Truthy(v: Value) {
    !Falsy(v)
  }

  /** null and undefined: the values whose properties cannot be read. */
  predicate Nullish(v: Value) {
    v == Undefined || v == Null
  }

  /** Reading `m[key]` of a plain object: a missing key reads as undefined. */
  function Field(m: map<string, Value>, key: string): Value {
    if key in m then m[key] else Undefined
  }

  /** `v.key` (or destructuring `{key} = v`) for a value that is not null or
      undefined. Booleans, numbers and strings have none of the properties
      the modelled code reads. */
  function Prop(v: Value, key: string): Value {
    if v.Obj? then Field(v.fields, key) else Undefined
  }

  /** `v.key` for any value: reading a property of null or undefined throws. */
  function GetProp(v: Value, key: string): (r: Result<Value>)
    ensures r.Throw? <==> Nullish(v)
    ensures r.Ok? ==> r.value == Prop(v, key)
  {
    if Nullish(v) then Throw(TypeError) else Ok(Prop(v, key))
  }

  /** The own entries `{...v}` copies out of `v`; null, undefined and the
      other primitives contribute none. */
  function Spread(v: Value): map<string, Value> {
    if v.Obj? then v.fields else map[]
  }

  function DigitChar(d: nat): char
    requires d < 10
  {
    "0123456789"[d]
  }

  /** Decimal notation of a natural number. */
  function NatToString(n: nat): string
    decreases n
  {
    if n < 10 then [DigitChar(n)] else NatToString(n / 10) + [DigitChar(n % 10)]
  }

  /** `String(v)`; also the property key that `obj[v] = ...` writes. */
  function ToStr(v: Value): string {
    match v
    case Undefined => "undefined"
    case Null => "null"
    case Bool(b) => if b then "true" else "false"
    case Num(n) => if n < 0 then "-" + NatToString(-n) else NatToString(n)
    case NaN => "NaN"
    case Str(s) => s
    case Obj(_) => "[object Object]"
  }

  /** `Number(v)` for the values that `+` converts numerically. */
  function ToNumber(v: Value): Value
    requires !v.Str? && !v.Obj?
  {
    match v
    case Undefined => NaN
    case Null => Num(0)
    case Bool(b) => Num(if b then 1 else 0)
    case _ => v
  }

  /** The binary `+` operator: string concatenation as soon as one side is a
      string or an object (a plain object converts to "[object Object]"),
      numeric addition otherwise. */
  function Plus(a: Value, b: Value): (r: Value)
    ensures a.Str? || b.Str? ==> r == Str(ToStr(a) + ToStr(b))
  {
    if a.Str? || a.Obj? || b.Str? || b.Obj? then
      Str(ToStr(a) + ToStr(b))
    else
      var x, y := ToNumber(a), ToNumber(b);
      if x.Num? && y.Num? then Num(x.n + y.n) else NaN
  }

  /** lodash `pickBy`: the entries of `m` that `keep` accepts, unchanged. */
  function PickBy(m: map<string, Value>, keep: (string, Value) -> bool): (r: map<string, Value>)
    ensures forall k :: k in r <==> k in m && keep(k, m[k])
    ensures forall k :: k in r ==> r[k] == m[k]
  {
    map k | k in m && keep(k, m[k]) :: m[k]
  }
}
