/** Machine integer widths used by the firmware, and an Option wrapper. */
module Types {

  /** uint8_t */
  type u8 = x: int | 0 <= x < 0x100

  /** uint32_t */
  type u32 = x: int | 0 <= x < 0x1_0000_0000

  /** int8_t */
  type i8 = x: int | -0x80 <= x < 0x80

  /** int16_t */
  type i16 = x: int | -0x8000 <= x < 0x8000

  /** int32_t */
  type i32 = x: int | -0x8000_0000 <= x < 0x8000_0000

  datatype Option<+T> = None | Some(value: T)

  /** Conversion of a uint32_t to a uint8_t, as C performs it when passing an
      argument to a uint8_t parameter: the value is reduced modulo 256. */
  function ToU8(x: u32): (r: u8)
    ensures r == x <==> x < 0x100
    ensures (r == 0) <==> (x % 0x100 == 0)
  {
    x % 0x100
  }
}
