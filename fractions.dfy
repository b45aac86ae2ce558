/** Ratios of exact reals, as Go's float64 divisions are modelled. */
module Fractions {

  /** A part of a positive whole, divided by it, lies in [0, 1]. */
  lemma FractionBounds(x: real, n: real)
    requires 0.0 <= x <= n && n > 0.0
    ensures 0.0 <= x / n <= 1.0
  {
  }
}
