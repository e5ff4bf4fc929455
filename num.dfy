/** Rust's `u8` and `u16`, and the wrapping additions the emulator uses on them. */
module Num {
  newtype u8 = x: int | 0 <= x < 0x100
  newtype u16 = x: int | 0 <= x < 0x1_0000

  /** `u8::wrapping_add`. */
  function WrappingAdd8(a: u8, b: u8): (r: u8)
    ensures r as int == (a as int + b as int) % 0x100
    ensures a as int + b as int < 0x100 ==> r as int == a as int + b as int
    ensures a as int + b as int >= 0x100 ==> r as int == a as int + b as int - 0x100
  {
    if a as int + b as int < 0x100 then a + b else (a as int + b as int - 0x100) as u8
  }

  /** `u16::wrapping_add`. */
  function WrappingAdd16(a: u16, b: u16): (r: u16)
    ensures r as int == (a as int + b as int) % 0x1_0000
    ensures a as int + b as int < 0x1_0000 ==> r as int == a as int + b as int
    ensures a as int + b as int >= 0x1_0000 ==> r as int == a as int + b as int - 0x1_0000
  {
    if a as int + b as int < 0x1_0000 then a + b else (a as int + b as int - 0x1_0000) as u16
  }
}
