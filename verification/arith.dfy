/** The two arithmetic rules shared by the backend and the dashboard. */
module Arith {

  /** `den > 0 ? num / den : 0`: a ratio that is 0 instead of undefined when
      the denominator is not positive (ROAS, cost per purchase). */
  function GuardedRatio(num: real, den: real): (r: real)
    ensures den > 0.0 ==> r * den == num
    ensures den <= 0.0 ==> r == 0.0
  {
    if den > 0.0 then num / den else 0.0
  }

  /** Python's `int(x)` on a float: truncation toward zero. */
  function TruncToInt(x: real): (n: int)
    ensures x >= 0.0 ==> n as real <= x < n as real + 1.0
    ensures x < 0.0 ==> n as real - 1.0 < x <= n as real
  {
    if x >= 0.0 then x.Floor else -((-x).Floor)
  }
}
