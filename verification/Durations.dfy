/** Durations are nanoseconds in a signed 64-bit integer, as in Go. */
module Durations {
  const TWO63 := 0x8000_0000_0000_0000
  const MILLISECOND := 1_000_000
  const SECOND := 1_000_000_000

  predicate Fits(x: int) {
    -TWO63 <= x < TWO63
  }

  /** What is left of a product that does not fit. */
  function Wrap(x: int): (r: int)
    ensures Fits(r)
    ensures Fits(x) ==> r == x
    ensures x >= 0 ==> r <= x
  {
    (x + TWO63) % (2 * TWO63) - TWO63
  }
}
