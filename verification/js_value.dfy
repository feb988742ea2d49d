/**
 * The slice of JavaScript value semantics the server relies on: truthiness,
 * the `||` fallback, property access on parsed JSON and `String(v)`.
 * Numbers are modelled as integers.
 */
module JsValue {
  import opened Wrappers

  datatype Value =
    | Undefined
    | Null
    | Bool(b: bool)
    | Num(n: int)
    | Str(s: string)
    | Arr(items: seq<Value>)
    | Obj(fields: map<string, Value>)

  /** ECMAScript ToBoolean: `undefined`, `null`, `false`, `0` and `""` are falsy. */
  predicate Truthy(v: Value) {
    match v
    case Undefined => false
    case Null => false
    case Bool(b) => b
    case Num(n) => n != 0
    case Str(s) => s != ""
    case Arr(_) => true
    case Obj(_) => true
  }

  /** `a || b`: the left operand when it is truthy, otherwise the right one. */
  function Or(a: Value, b: Value): (r: Value)
    ensures Truthy(a) ==> r == a
    ensures !Truthy(a) ==> r == b
  {
    if Truthy(a) then a else b
  }

  /** A JavaScript TypeError raised by reading a property of `null`/`undefined`. */
  datatype TypeError = CannotReadProperty(key: string)

  /**
   * `v.key`: own property of an object, `undefined` for a missing key, and a
   * TypeError on `null` and `undefined`. The model reads no property of a
   * primitive or an array (such as `length`) and gives `undefined` there.
   */
  function Prop(v: Value, key: string): (r: Result<Value, TypeError>)
    ensures r.Err? <==> (v.Null? || v.Undefined?)
    ensures v.Obj? && key in v.fields ==> r == Ok(v.fields[key])
    ensures v.Obj? && key !in v.fields ==> r == Ok(Undefined)
  {
    match v
    case Undefined => Err(CannotReadProperty(key))
    case Null => Err(CannotReadProperty(key))
    case Obj(m) => if key in m then Ok(m[key]) else Ok(Undefined)
    case _ => Ok(Undefined)
  }

  /** `v?.key`: like `Prop`, but `undefined` instead of a TypeError. */
  function OptProp(v: Value, key: string): (r: Value)
    ensures Prop(v, key).Ok? ==> r == Prop(v, key).value
    ensures v.Null? || v.Undefined? ==> r == Undefined
  {
    match v
    case Obj(m) => if key in m then m[key] else Undefined
    case _ => Undefined
  }

  /** The string held by `v`, when `v` is a string. */
  function AsString(v: Value): Option<string> {
    if v.Str? then Some(v.s) else None
  }

  /** Decimal digits of a natural number, most significant first. */
  function NatDigits(n: nat): (r: string)
    ensures |r| >= 1
    ensures forall i :: 0 <= i < |r| ==> '0' <= r[i] <= '9'
    decreases n
  {
    var d := [(('0' as int) + n % 10) as char];
    if n < 10 then d else NatDigits(n / 10) + d
  }

  /** Elements joined by `sep`, as `Array.prototype.join` writes them. */
  function Join(items: seq<string>, sep: string): (r: string)
    ensures items == [] ==> r == ""
    ensures |items| == 1 ==> r == items[0]
  {
    if |items| == 0 then ""
    else if |items| == 1 then items[0]
    else Join(items[..|items| - 1], sep) + sep + items[|items| - 1]
  }

  /**
   * ECMAScript `String(v)` for the values above; `join` renders
   * `null`/`undefined` elements as the empty string.
   */
  function ToJsString(v: Value): (r: string)
    ensures v.Str? ==> r == v.s
    decreases v, 0
  {
    match v
    case Undefined => "undefined"
    case Null => "null"
    case Bool(b) => if b then "true" else "false"
    case Num(n) => if n < 0 then "-" + NatDigits(-n) else NatDigits(n)
    case Str(s) => s
    case Arr(items) => Join(seq(|items|, i requires 0 <= i < |items| => ElementString(items[i])), ",")
    case Obj(_) => "[object Object]"
  }

  /** How `Array.prototype.join` renders one element. */
  function ElementString(v: Value): string
    decreases v, 1
  {
    if v.Null? || v.Undefined? then "" else ToJsString(v)
  }

  /** `items.join(sep)` on an array value. */
  function JoinValues(items: seq<Value>, sep: string): (r: string)
    ensures (forall i :: 0 <= i < |items| ==> items[i].Str?) && |items| == 1 ==> r == items[0].s
  {
    Join(seq(|items|, i requires 0 <= i < |items| => ElementString(items[i])), sep)
  }

  /** `String(x || '')`, the server's way of reading a request parameter. */
  function ParamString(v: Value): (r: string)
    ensures !Truthy(v) ==> r == ""
    ensures v.Str? ==> r == v.s
  {
    if Truthy(v) then ToJsString(v) else ""
  }
}
