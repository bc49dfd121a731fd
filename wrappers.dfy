/** Optional values, standing for a JavaScript field that may be `undefined` or `null`. */
module Wrappers {

  datatype Option<+T> = None | Some(value: T) {

    /** The value, or `default` when absent (JavaScript's `x ?? default`). */
    function GetOr(default: T): T {
      match this
      case Some(v) => v
      case None => default
    }
  }

  /** The outcome of a call that may throw: the thrown error is not inspected. */
  datatype Outcome<+T> = Threw | Returned(value: T)

  /** JavaScript truthiness of an optional number: absent and 0 are falsy. */
  predicate TruthyNum(x: Option<real>) {
    x.Some? && x.value != 0.0
  }

  /** JavaScript truthiness of an optional string: absent and "" are falsy. */
  predicate TruthyStr(x: Option<string>) {
    x.Some? && x.value != ""
  }

  /** JavaScript's `a || b` on optional numbers. */
  function OrNum(a: Option<real>, b: Option<real>): (r: Option<real>)
    ensures TruthyNum(a) ==> r == a
    ensures !TruthyNum(a) ==> r == b
  {
    if TruthyNum(a) then a else b
  }

  /** JavaScript's `a || 0` on an optional number. */
  function OrZero(a: Option<real>): (r: real)
    ensures TruthyNum(a) ==> r == a.value
    ensures !TruthyNum(a) ==> r == 0.0
  {
    if a.Some? then a.value else 0.0
  }

  function Abs(x: real): (r: real)
    ensures r >= 0.0
    ensures r == x || r == -x
  {
    if x < 0.0 then -x else x
  }
}
