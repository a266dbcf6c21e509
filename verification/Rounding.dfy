/** Math.round on a decimal grid, over the reals. */
module Rounding {

  /** Number.EPSILON, 2 to the power -52. */
  const EPSILON := 1.0 / 4503599627370496.0

  /** Math.round: the nearest integer, halves upwards. */
  function Nearest(x: real): int {
    (x + 0.5).Floor
  }
}
