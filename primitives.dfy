/** Java's primitive integer types and the narrowing casts the decoder uses,
    written out on unbounded integers. */
module Primitives {

  /** One octet of the input, as the byte stream delivers it. */
  type Byte = b: int | 0 <= b < 0x100

  /** Java `byte`, `short` and `int`: two's-complement signed values. */
  type Int8 = x: int | -0x80 <= x < 0x80
  type Int16 = x: int | -0x8000 <= x < 0x8000
  type Int32 = x: int | -0x8000_0000 <= x < 0x8000_0000

  /** A Java `float`, kept as the 32-bit pattern `Float.intBitsToFloat` is
      given; nothing is said about its numeric value. */
  datatype Float32 = Float32(bits: Int32)

  /** The `byte` whose two's-complement pattern is the octet `b`. */
  function Int8Of(b: Byte): (x: Int8)
    ensures x % 0x100 == b
    ensures x >= 0 <==> b < 0x80
    ensures x == 0 <==> b == 0
  {
    if b < 0x80 then b else b - 0x100
  }

  /** `x & 0xff`: the octet of a `byte`, undoing `Int8Of`. */
  function Unsigned8(x: Int8): (b: Byte)
    ensures Int8Of(b) == x
  {
    if x >= 0 then x else x + 0x100
  }

  /** Java's `(short)` cast of a value in 0 .. 2^16 - 1. */
  function ToInt16(u: int): (x: Int16)
    requires 0 <= u < 0x1_0000
    ensures x % 0x1_0000 == u
  {
    if u < 0x8000 then u else u - 0x1_0000
  }

  /** Java's wrap of a value in 0 .. 2^32 - 1 into an `int`. */
  function ToInt32(u: int): (x: Int32)
    requires 0 <= u < 0x1_0000_0000
    ensures x % 0x1_0000_0000 == u
  {
    if u < 0x8000_0000 then u else u - 0x1_0000_0000
  }

  /** The unsigned pattern of an `int`, undoing `ToInt32`. */
  function Unsigned32(x: Int32): (u: int)
    ensures 0 <= u < 0x1_0000_0000
    ensures ToInt32(u) == x
  {
    if x >= 0 then x else x + 0x1_0000_0000
  }

  /** Java's `(char)` cast of a `byte`: the byte is sign-extended and its low
      16 bits kept, so a negative byte becomes a char in U+FF80 .. U+FFFF. */
  function CharOf(x: Int8): (c: char)
    ensures c as int == x % 0x1_0000
    ensures c == 0 as char <==> x == 0
  {
    if x >= 0 then x as char else (x + 0x1_0000) as char
  }
}
