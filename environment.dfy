/** Helpers/Environment.swift: the `Double.clamped(to:)` extension. */
module Environment {
  import opened Numerics

  /** `x.clamped(to: lo...hi)`, that is `min(max(x, lo), hi)`; a `ClosedRange` exists only when `lo <= hi`. */
  function Clamped(x: real, lo: real, hi: real): (r: real)
    requires lo <= hi
    ensures lo <= r <= hi
    ensures lo <= x <= hi ==> r == x
    ensures x < lo ==> r == lo
    ensures hi < x ==> r == hi
  {
    RealMin(RealMax(x, lo), hi)
  }

  /** Clamping a clamped value changes nothing. */
  lemma ClampedIdempotent(x: real, lo: real, hi: real)
    requires lo <= hi
    ensures Clamped(Clamped(x, lo, hi), lo, hi) == Clamped(x, lo, hi)
  {
  }

  /** Clamping is monotone non-decreasing in its input. */
  lemma ClampedMonotone(x: real, y: real, lo: real, hi: real)
    requires lo <= hi && x <= y
    ensures Clamped(x, lo, hi) <= Clamped(y, lo, hi)
  {
  }
}
