/** Fixed-width unsigned integers of the source, as ranges of mathematical integers. */
module Ints {
  /** Rust `u8`. */
  type U8 = x: int | 0 <= x < 0x100

  /** Rust `u16`. */
  type U16 = x: int | 0 <= x < 0x1_0000

  /** Rust `u32`. */
  type U32 = x: int | 0 <= x < 0x1_0000_0000
}
