/** The few JavaScript value semantics the adapter relies on: truthiness (`!x`, `!!x`),
    template-literal interpolation, loose comparison with `undefined`, `typeof`, and the
    two ways a promise settles. */
module Js {

  /** A JavaScript value, as far as the adapter inspects or builds one. */
  datatype Value =
    | Undefined
    | Null
    | Bool(b: bool)
    | Num(n: real)
    | Str(s: string)
    | Arr(items: seq<Value>)
    | Obj(fields: map<string, Value>)

  /** `!!v`: the falsy values are undefined, null, false, 0 and the empty string. */
  predicate Truthy(v: Value) {
    match v
    case Undefined => false
    case Null => false
    case Bool(b) => b
    case Num(n) => n != 0.0
    case Str(s) => s != ""
    case Arr(_) => true
    case Obj(_) => true
  }

  /** `${v}` inside a template literal, for the primitive values the adapter interpolates. */
  function Interpolate(v: Value): string
    requires v.Undefined? || v.Null? || v.Bool? || v.Str?
  {
    match v
    case Undefined => "undefined"
    case Null => "null"
    case Bool(b) => if b then "true" else "false"
    case Str(s) => s
  }

  /** `v == undefined` with loose equality: only undefined and null compare equal. */
  predicate LooselyEqualsUndefined(v: Value) {
    v.Undefined? || v.Null?
  }

  /** `typeof x` for a global that is either an object or not declared at all. */
  function TypeOf(declared: bool): string {
    if declared then "object" else "undefined"
  }

  /** The error thrown by evaluating an undeclared global such as `window`. */
  const ReferenceError := "ReferenceError"

  /** How an awaited promise settles: fulfilled with a value, or rejected with a reason. */
  datatype Settled<+T> = Fulfilled(value: T) | Rejected(reason: string)
}
