/** Option, for the error values the Go code returns beside its results. */
module Wrappers {
  datatype Option<+T> = None | Some(value: T)
}

/** Go's fixed-width unsigned integers, as subsets of the unbounded integers.
    Arithmetic on them is written out with an explicit `% 256` wherever Go wraps. */
module Ints {
  /** Go's uint8. */
  type u8 = x: int | 0 <= x < 0x100

  /** Go's uint32. */
  type u32 = x: int | 0 <= x < 0x1_0000_0000

  /** Go's `x++` on a uint8: 255 wraps to 0. */
  function Inc(x: u8): u8 {
    if x == 255 then 0 else x + 1
  }

  lemma IncWraps(x: u8)
    ensures Inc(x) == (x + 1) % 256
  {
  }

  /** Adding to a wrapped uint8 sum wraps like adding to the exact sum. */
  lemma AddWraps(a: int, x: int)
    requires a >= 0 && x >= 0
    ensures (a % 256 + x) % 256 == (a + x) % 256
  {
  }
}
