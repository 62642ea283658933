/**
 * The two JavaScript rounding primitives the estimator uses, applied to
 * exact rational values (the model has no floating point).
 */
module Rounding {

  /** `Math.round(x)`: the nearest integer, a half rounded towards +infinity. */
  function MathRound(x: real): (r: int)
    ensures x - 0.5 < r as real <= x + 0.5
  {
    (x + 0.5).Floor
  }

  /**
   * `x.toFixed(0)` read as a number: the magnitude is rounded to the nearest
   * integer, a half going to the larger magnitude, and the sign is put back.
   */
  function ToFixed0(x: real): (r: int)
    ensures -0.5 <= r as real - x <= 0.5
    ensures x >= 0.0 ==> r >= 0 && -0.5 < r as real - x
    ensures x < 0.0 ==> r <= 0 && r as real - x < 0.5
  {
    if x < 0.0 then -MathRound(-x) else MathRound(x)
  }

  /**
   * `x.toFixed(1)` read as a whole number of tenths: the nearest tenth, a
   * half-tenth going to the larger magnitude.
   */
  function ToFixed1(x: real): (tenths: int)
    ensures -0.05 <= tenths as real / 10.0 - x <= 0.05
    ensures x >= 0.0 ==> tenths >= 0 && -0.05 < tenths as real / 10.0 - x
    ensures x < 0.0 ==> tenths <= 0 && tenths as real / 10.0 - x < 0.05
  {
    ToFixed0(10.0 * x)
  }
}
