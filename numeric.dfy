/**
 * Python's numeric built-ins as the planner uses them, on exact reals.
 * Python floats are modelled as `real`; IEEE rounding is not modelled.
 */
module Numeric {

  /** Python's `int(x)` on a float: truncation toward zero. */
  function PyInt(x: real): (r: int)
    ensures 0.0 <= x ==> 0 <= r && r as real <= x < r as real + 1.0
    ensures x < 0.0 ==> r <= 0 && x <= r as real < x + 1.0
  {
    if 0.0 <= x then x.Floor else -((-x).Floor)
  }

  /** Python's `max(a, b)` on floats. */
  function RMax(a: real, b: real): (m: real)
    ensures a <= m && b <= m
    ensures m == a || m == b
  {
    if a < b then b else a
  }

  /** Python's `min(a, b)` on floats. */
  function RMin(a: real, b: real): (m: real)
    ensures m <= a && m <= b
    ensures m == a || m == b
  {
    if b < a then b else a
  }

  /** Python's `max(a, b)` on ints. */
  function IMax(a: int, b: int): (m: int)
    ensures a <= m && b <= m
    ensures m == a || m == b
  {
    if a < b then b else a
  }

  /** `int()` is monotone on non-negative values. */
  lemma PyIntMonotone(x: real, y: real)
    requires 0.0 <= x <= y
    ensures PyInt(x) <= PyInt(y)
  {
  }

  /** `int()` of a whole number is that number. */
  lemma PyIntOfInt(k: int)
    ensures PyInt(k as real) == k
  {
  }
}
