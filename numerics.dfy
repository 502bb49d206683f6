/** Swift's numeric conversions as they are used by the scoring code. */
module Numerics {

  /** Swift `Int(x)` on a finite `Double`: truncation toward zero, not rounding. */
  function Trunc(x: real): (n: int)
    ensures 0.0 <= x ==> 0 <= n && n as real <= x < n as real + 1.0
    ensures x < 0.0 ==> n <= 0 && n as real - 1.0 < x <= n as real
  {
    if x >= 0.0 then x.Floor else -((-x).Floor)
  }

  /** Truncation never reverses the order of two values. */
  lemma TruncMonotone(x: real, y: real)
    requires x <= y
    ensures Trunc(x) <= Trunc(y)
  {
    if 0.0 <= x {
      assert x.Floor <= y.Floor;
    } else if y < 0.0 {
      assert (-y).Floor <= (-x).Floor;
    }
  }

  /** A whole number survives truncation unchanged. */
  lemma TruncOfWhole(k: int)
    ensures Trunc(k as real) == k
  {
  }

  /** Swift `max` on `Int`. */
  function IntMax(a: int, b: int): (m: int)
    ensures m >= a && m >= b && (m == a || m == b)
  {
    if a >= b then a else b
  }

  /** Swift `min` on `Int`. */
  function IntMin(a: int, b: int): (m: int)
    ensures m <= a && m <= b && (m == a || m == b)
  {
    if a <= b then a else b
  }

  // RealMax and RealMin are IntMax and IntMin at type real: Dafny has no overloading.

  /** Swift `max` on `Double`. */
  function RealMax(a: real, b: real): (m: real)
    ensures m >= a && m >= b && (m == a || m == b)
  {
    if a >= b then a else b
  }

  /** Swift `min` on `Double`. */
  function RealMin(a: real, b: real): (m: real)
    ensures m <= a && m <= b && (m == a || m == b)
  {
    if a <= b then a else b
  }
}
