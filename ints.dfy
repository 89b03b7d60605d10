/** Fixed-width integers of the 8-bit AVR build and the C conversions between them.
    A conversion to an unsigned type reduces modulo 2^n; the conversion of an
    out-of-range value to int32 is taken as two's-complement wrap-around, which
    is what avr-gcc does. */
module Ints {
  type u8 = x: int | 0 <= x < 0x100
  type u16 = x: int | 0 <= x < 0x1_0000
  type u32 = x: int | 0 <= x < 0x1_0000_0000
  type i8 = x: int | -0x80 <= x < 0x80
  type i32 = x: int | -0x8000_0000 <= x < 0x8000_0000

  const INT32_MIN: int := -0x8000_0000

  /** `(uint8_t)x` */
  function ToU8(x: int): (r: u8)
    ensures (x - r) % 0x100 == 0
    ensures 0 <= x < 0x100 ==> r == x
  {
    x % 0x100
  }

  /** `(uint32_t)x` */
  function ToU32(x: int): (r: u32)
    ensures (x - r) % 0x1_0000_0000 == 0
    ensures 0 <= x < 0x1_0000_0000 ==> r == x
  {
    x % 0x1_0000_0000
  }

  /** `(int32_t)x` on a two's-complement target */
  function ToI32(x: int): (r: i32)
    ensures (x - r) % 0x1_0000_0000 == 0
    ensures INT32_MIN <= x < 0x8000_0000 ==> r == x
  {
    var u := x % 0x1_0000_0000;
    if u < 0x8000_0000 then u else u - 0x1_0000_0000
  }

  function Min(a: int, b: int): int { if a <= b then a else b }
  function Max(a: int, b: int): int { if a >= b then a else b }
}
