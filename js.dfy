/** The two pieces of JavaScript value semantics both controllers rely on:
    a field or argument that may be `undefined`, and truthiness as used by
    `if (flag)` and `arg || fallback`. Floating-point numbers are modelled as
    reals, so NaN and the infinities are not part of this model. */
module Js {

  /** A JavaScript value that may be `undefined`. */
  datatype Value<T> = Undefined | Defined(value: T)

  /** Truthiness of a possibly-undefined boolean: only `true` is truthy. */
  predicate Truthy(v: Value<bool>)
  {
    v == Defined(true)
  }

  /** Truthiness of a possibly-undefined number: `undefined` and `0` are falsy. */
  predicate TruthyNumber(v: Value<real>)
  {
    match v
    case Undefined => false
    case Defined(x) => x != 0.0
  }

  /** `arg || fallback` where `arg` is a number that may be missing. */
  function Or(arg: Value<real>, fallback: real): (r: real)
    ensures TruthyNumber(arg) ==> r == arg.value
    ensures !TruthyNumber(arg) ==> r == fallback
    ensures fallback != 0.0 ==> r != 0.0
  {
    if TruthyNumber(arg) then arg.value else fallback
  }
}
