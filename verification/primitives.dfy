/** Fixed-width integers of the .NET runtime, and an optional value. */
module Primitives {

  /** System.Byte */
  type u8 = x: int | 0 <= x < 0x100
  /** System.SByte */
  type i8 = x: int | -0x80 <= x < 0x80
  /** System.UInt16 */
  type u16 = x: int | 0 <= x < 0x1_0000
  /** System.Int32 */
  type i32 = x: int | -0x8000_0000 <= x < 0x8000_0000
  /** System.UInt32 */
  type u32 = x: int | 0 <= x < 0x1_0000_0000

  /** byte.MaxValue */
  const ByteMax: u8 := 0xFF

  /** The unchecked C# conversion `(uint)x` of a 32-bit signed value: the same
      32 bits read as unsigned, so every negative value lands in the upper half. */
  function AsUInt32(x: i32): (r: u32)
    ensures r % 0x1_0000_0000 == x % 0x1_0000_0000
    ensures x < 0 <==> r >= 0x8000_0000
  {
    if x < 0 then x + 0x1_0000_0000 else x
  }

  /** The unchecked C# conversion `(byte)x` of an integer: its low eight bits,
      so a value already in 0..255 is kept and any other is wrapped. */
  function AsByte(x: int): (r: u8)
    ensures 0 <= x < 0x100 ==> r == x
    ensures (x - r) % 0x100 == 0
  {
    x % 0x100
  }

  datatype Option<+T> = None | Some(value: T)
}
