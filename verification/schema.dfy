/**
 * The argument rules the providers' zod schemas state, as predicates over a
 * parsed argument object, and the conditional-spread idiom the handlers use
 * to assemble request bodies.
 */
module Schema {
  import opened JsValue

  /** A tool's arguments as a JSON object. */
  type Args = map<string, Value>

  datatype ArgsError = InvalidArgument(field: string)

  /** The argument's value, `undefined` when absent. */
  function Arg(a: Args, k: string): (v: Value)
    ensures k !in a ==> v == Undefined
  {
    if k in a then a[k] else Undefined
  }

  /** `.default(d)`: an absent argument takes the default, others are kept. */
  function Defaulted(a: Args, k: string, d: Value): (a': Args)
    ensures Arg(a', k) == (if Arg(a, k).Undefined? then d else Arg(a, k))
    ensures forall j :: j != k ==> Arg(a', j) == Arg(a, j)
  {
    if Arg(a, k).Undefined? then a[k := d] else a
  }

  /** `z.string().optional()`. */
  predicate OptString(a: Args, k: string) {
    Arg(a, k).Undefined? || Arg(a, k).Str?
  }

  /** `z.number().int().min(lo).max(hi)`. */
  predicate IntInRange(v: Value, lo: int, hi: int) {
    v.Num? && lo <= v.n <= hi
  }

  /** `z.boolean().optional()`. */
  predicate OptBool(a: Args, k: string) {
    Arg(a, k).Undefined? || Arg(a, k).Bool?
  }

  /** `z.array(z.number())`. */
  predicate NumberArray(v: Value) {
    v.Arr? && forall i :: 0 <= i < |v.items| ==> v.items[i].Num?
  }

  /** `...(v ? {k: v} : {})`: adds `k: v` only when `v` is truthy. */
  function IfTruthy(body: map<string, Value>, k: string, v: Value): (b: map<string, Value>)
    ensures Truthy(v) ==> b == body[k := v]
    ensures !Truthy(v) ==> b == body
  {
    if Truthy(v) then body[k := v] else body
  }
}
