/**
 * The JavaScript values that reach the route handlers from parsed JSON request bodies, with
 * the three things the handlers do to them: test truthiness (`!x`, `a || b`), read a named
 * property (`x.city`) and interpolate them into a template literal (`${x}`).
 */
module Js {

  import opened Wrappers
  import opened Text

  /**
   * A JavaScript number: its value, used in comparisons, and the text `String(x)` gives for
   * it, used when the number is interpolated into a string.
   */
  datatype Number = Number(value: real, shown: string)

  /** A number with an integral value, rendered as JavaScript renders integers. */
  function IntNumber(n: int): (r: Number)
    ensures r.value == n as real
  {
    Number(n as real, IntToString(n))
  }

  datatype Value =
    | Undefined
    | Null
    | Bool(b: bool)
    | Num(n: Number)
    | Str(s: string)
    | Arr(elems: seq<Value>)
    | Obj(fields: map<string, Value>)

  /** `!!v`: `undefined`, `null`, `false`, `0` and `""` are falsy, everything else is truthy. */
  predicate Truthy(v: Value)
  {
    match v
    case Undefined => false
    case Null => false
    case Bool(b) => b
    case Num(n) => n.value != 0.0
    case Str(s) => s != ""
    case Arr(_) => true
    case Obj(_) => true
  }

  /** `typeof v === 'string'`. */
  predicate IsString(v: Value)
  {
    v.Str?
  }

  /** `a || b`: the first operand when it is truthy, otherwise the second. */
  function Or(a: Value, b: Value): (r: Value)
    ensures Truthy(r) <==> Truthy(a) || Truthy(b)
  {
    if Truthy(a) then a else b
  }

  /**
   * `v.key` for a plain property name (none of the names the handlers read is an array index
   * or `length`). Reading a property of `undefined` or `null` throws a `TypeError`: `None`.
   */
  function Prop(v: Value, key: string): (r: Option<Value>)
    ensures r.None? <==> v.Undefined? || v.Null?
    ensures v.Obj? && key !in v.fields ==> r == Some(Undefined)
  {
    match v
    case Undefined => None
    case Null => None
    case Obj(fields) => Some(if key in fields then fields[key] else Undefined)
    case _ => Some(Undefined)
  }

  /** `v.key` on a value already known not to be `undefined` or `null`. */
  function Field(v: Value, key: string): Value
    requires !v.Undefined? && !v.Null?
  {
    Prop(v, key).value
  }

  /** The message of the `TypeError` a property read on `undefined` throws. */
  function UndefinedRead(property: string): string
  {
    "TypeError: Cannot read properties of undefined (reading '" + property + "')"
  }

  /** `${v}` (equivalently `String(v)`). */
  function Show(v: Value): (r: string)
    ensures v.Str? ==> r == v.s
    decreases v
  {
    match v
    case Undefined => "undefined"
    case Null => "null"
    case Bool(b) => if b then "true" else "false"
    case Num(n) => n.shown
    case Str(s) => s
    case Arr(es) => Join(seq(|es|, i requires 0 <= i < |es| => if es[i].Undefined? || es[i].Null? then "" else Show(es[i])), ",")
    case Obj(_) => "[object Object]"
  }

  /** `parts.join(sep)`. */
  function Join(parts: seq<string>, sep: string): string
    decreases |parts|
  {
    if |parts| == 0 then ""
    else if |parts| == 1 then parts[0]
    else Join(parts[..|parts| - 1], sep) + sep + parts[|parts| - 1]
  }
}
