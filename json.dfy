/**
 * JSON values as JavaScript sees them after `JSON.parse`, with the coercions the
 * handlers rely on: truthiness, `??`, `||`, `Number(...)`, `String(...)` and
 * template interpolation. An object is a `Record`; a key that is absent stands for
 * a property that is `undefined`.
 */
module Json {
  import opened Wrappers

  datatype Value =
    | Null
    | Bool(b: bool)
    | Num(x: real)
    | Str(s: string)
    | Arr(items: seq<Value>)
    | Obj(fields: map<string, Value>)

  /** A plain object: property name to value; absent names are `undefined`. */
  type Record = map<string, Value>

  /** A JavaScript number, which unlike a JSON number may be NaN or infinite. */
  datatype JsNumber = NaN | Finite(x: real) | Infinity(negative: bool)

  /** JavaScript truthiness of a defined value (JSON text has no NaN). */
  predicate Truthy(v: Value) {
    match v
    case Null => false
    case Bool(b) => b
    case Num(x) => x != 0.0
    case Str(s) => s != ""
    case Arr(_) => true
    case Obj(_) => true
  }

  /** Truthiness of a value that may be `undefined`. */
  predicate Present(o: Option<Value>) {
    o.Some? && Truthy(o.value)
  }

  /** `r.k` on a plain object. */
  function Get(r: Record, k: string): Option<Value> {
    if k in r then Some(r[k]) else None
  }

  /** `v.k` (or `v?.k`) on a non-null value: only objects carry the named properties used here. */
  function Field(v: Value, k: string): Option<Value> {
    if v.Obj? && k in v.fields then Some(v.fields[k]) else None
  }

  /** `a ?? b` when `b` may itself be `undefined`. */
  function Nullish(a: Option<Value>, b: Option<Value>): Option<Value>
  {
    if a.None? || a.value == Null then b else a
  }

  /** `a ?? d` for a defined default `d`. */
  function Coalesce(a: Option<Value>, d: Value): Value {
    Nullish(a, Some(d)).value
  }

  /** `a || d` for a defined default `d`. */
  function OrElse(a: Option<Value>, d: Value): Value {
    if Present(a) then a.value else d
  }

  /** JSON.stringify of a number: non-finite numbers are written as `null`. */
  function FromNumber(n: JsNumber): Value {
    if n.Finite? then Num(n.x) else Null
  }

  /** `String(v)`; numbers are rendered by `numText` (JavaScript's shortest round-trip form). */
  function JsString(v: Value, numText: real -> string): string
    decreases v, 1
  {
    match v
    case Null => "null"
    case Bool(b) => if b then "true" else "false"
    case Num(x) => numText(x)
    case Str(s) => s
    case Arr(xs) => JoinItems(xs, numText, v)
    case Obj(_) => "[object Object]"
  }

  /** `Array.prototype.join(',')`, where `null` elements become empty strings. */
  function JoinItems(xs: seq<Value>, numText: real -> string, ghost parent: Value): string
    requires forall x :: x in xs ==> x < parent
    decreases parent, 0, |xs|
  {
    if xs == [] then ""
    else
      assert xs[0] in xs;
      assert forall x :: x in xs[1..] ==> x in xs;
      var head := if xs[0] == Null then "" else JsString(xs[0], numText);
      if |xs| == 1 then head else head + "," + JoinItems(xs[1..], numText, parent)
  }

  /** `${x}` in a template literal: `undefined` is written out. */
  function Interpolate(o: Option<Value>, numText: real -> string): string {
    if o.None? then "undefined" else JsString(o.value, numText)
  }

  /** `${r.k}` in a template literal. */
  function Slot(r: Record, k: string, numText: real -> string): string {
    Interpolate(Get(r, k), numText)
  }

  /** `Number(x)`; `parse` is JavaScript's conversion of a string to a number. */
  function ToNumber(o: Option<Value>, parse: string -> JsNumber, numText: real -> string): JsNumber {
    if o.None? then NaN
    else match o.value
      case Null => Finite(0.0)
      case Bool(b) => Finite(if b then 1.0 else 0.0)
      case Num(x) => Finite(x)
      case Str(s) => parse(s)
      case Arr(_) => parse(JsString(o.value, numText))
      case Obj(_) => NaN
  }

  /** Adds `k: v` to a record only when the optional value is present. */
  function WithOptional(r: Record, k: string, o: Option<Value>): Record
  {
    if o.Some? then r[k := o.value] else r
  }

  /** `s || undefined` for a string: the empty string is dropped. */
  function NonEmpty(s: string): Option<Value>
  {
    if s == "" then None else Some(Str(s))
  }

  /** `v || undefined`: a falsy value is dropped. */
  function IfTruthy(o: Option<Value>): Option<Value>
  {
    if Present(o) then o else None
  }

  /** The records of a list, as JSON values. */
  function Objects(rs: seq<Record>): (vs: seq<Value>)
    ensures |vs| == |rs|
    ensures forall i :: 0 <= i < |rs| ==> vs[i] == Obj(rs[i])
  {
    seq(|rs|, i requires 0 <= i < |rs| => Obj(rs[i]))
  }
}
