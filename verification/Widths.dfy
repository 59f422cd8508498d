/** Widths of the integers that the source squeezes numbers into. */
module Widths {
  const UINT_COUNT: nat := 0x1_0000_0000
  const UINTMAX_COUNT: nat := 0x1_0000_0000_0000_0000
}
