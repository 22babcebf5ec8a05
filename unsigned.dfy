// C's 32-bit `unsigned`, shared by the water bug's counters and the
// camera's FollowIndex.

module Unsigned {
  /** C's `unsigned`, 32 bits wide. */
  type u32 = n: int | 0 <= n < 0x1_0000_0000

  const U32Max: u32 := 0xFFFF_FFFF
}
