/**
 * JavaScript numbers as the application uses them.
 *
 * A `Num` is `Some(x)` for a finite value and `None` for a value that is not a
 * number: either an undefined record field or IEEE NaN. The two behave alike
 * everywhere the application looks at them: `+`, `-` and `*` turn them into
 * NaN, and `x || 0` turns them into 0. Money is modelled exactly, as `real`;
 * rounding and infinities are not modelled.
 */
module Numbers {
  import opened Wrappers

  type Num = Option<real>

  function Plus(a: Num, b: Num): Num {
    if a.Some? && b.Some? then Some(a.value + b.value) else None
  }

  function Minus(a: Num, b: Num): Num {
    if a.Some? && b.Some? then Some(a.value - b.value) else None
  }

  function Times(a: Num, b: Num): Num {
    if a.Some? && b.Some? then Some(a.value * b.value) else None
  }

  function Div(a: Num, b: real): Num
    requires b != 0.0
  {
    if a.Some? then Some(a.value / b) else None
  }

  /** `x || 0`: NaN, undefined and 0 all give 0. */
  function OrZero(a: Num): real {
    if a.Some? then a.value else 0.0
  }

  /** `x || 1`: NaN, undefined and 0 all give 1, so the result is never 0. */
  function OrOne(a: Num): (d: real)
    ensures d != 0.0
    ensures a.Some? && a.value != 0.0 ==> d == a.value
  {
    if a.Some? && a.value != 0.0 then a.value else 1.0
  }
}
