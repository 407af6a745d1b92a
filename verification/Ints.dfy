/** The source's fixed-width unsigned integers. */
module Ints {
  type Byte = x: int | 0 <= x < 0x100
  type u16 = x: int | 0 <= x < 0x1_0000
  type u32 = x: int | 0 <= x < 0x1_0000_0000
  type u64 = x: int | 0 <= x < 0x1_0000_0000_0000_0000

  const U16_MAX: u16 := 0xFFFF
  const U32_MAX: u32 := 0xFFFF_FFFF

  /** `n += 1` on a u32: wraps around. */
  function Succ32(n: u32): u32 {
    if n == U32_MAX then 0 else n + 1
  }
}
