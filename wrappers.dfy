/** Optional values: `None` stands for JavaScript's `undefined`/`null`, or for
    the `NaN` that `parseFloat` returns on text it cannot read. */
module Wrappers {

  datatype Option<+T> = None | Some(value: T) {

    /** The wrapped value, or `default` when there is none. */
    function GetOr(default: T): T {
      match this
      case Some(v) => v
      case None => default
    }
  }

  /** JavaScript's `x || 0` applied to a parsed number: `NaN` becomes 0. */
  function OrZero(x: Option<real>): (r: real)
    ensures x.Some? ==> r == x.value
    ensures x.None? ==> r == 0.0
  {
    x.GetOr(0.0)
  }

  /** JavaScript truthiness of an optional text: `undefined`, `null` and `''` are falsy. */
  predicate IsTruthy(s: Option<string>) {
    s.Some? && s.value != ""
  }
}
