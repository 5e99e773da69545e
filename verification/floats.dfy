/** Floating-point values reduced to what the control logic observes: a value
    is either not-a-number or a real. Rounding and infinities are not modelled. */
module Floats {

  datatype Loss = NaN | Val(r: real)

  /** Addition: NaN absorbs. */
  function Add(a: Loss, b: Loss): Loss {
    if a.NaN? || b.NaN? then NaN else Val(a.r + b.r)
  }

  /** A sum divided by a positive count. */
  function Mean(sum: Loss, n: nat): Loss
    requires n > 0
  {
    if sum.NaN? then NaN else Val(sum.r / n as real)
  }

  /** Python's `a < b` on floats: false as soon as either side is NaN. */
  predicate Less(a: Loss, b: Loss) {
    a.Val? && b.Val? && a.r < b.r
  }

  /** Python's `a > c` for a constant `c`: false when `a` is NaN. */
  predicate Greater(a: Loss, c: real) {
    a.Val? && a.r > c
  }
}
