// Fixed-width unsigned integers of the C sources. Values are mathematical
// integers restricted to their range; C's modular arithmetic is written out
// with `Wrap32` wherever the source lets a 32-bit result wrap.
module Word {
  const U16_MOD: int := 0x1_0000
  const U32_MOD: int := 0x1_0000_0000

  /** `u16`. */
  type U16 = x: int | 0 <= x < 0x1_0000

  /** `u32` / `unsigned int`. */
  type U32 = x: int | 0 <= x < 0x1_0000_0000

  /** `u64`. */
  type U64 = x: int | 0 <= x < 0x1_0000_0000_0000_0000

  /** The value C's 32-bit unsigned arithmetic gives for the exact result `x`:
      the one `u32` congruent to `x` modulo 2^32. */
  function Wrap32(x: int): (w: U32)
    ensures (x - w) % U32_MOD == 0
    ensures 0 <= x < U32_MOD ==> w == x
  {
    x % 0x1_0000_0000
  }

  /** The `u16` a C assignment stores for the exact result `x`. */
  function Wrap16(x: int): (w: U16)
    ensures 0 <= x < U16_MOD ==> w == x
  {
    x % 0x1_0000
  }
}
