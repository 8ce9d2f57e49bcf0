/** Fixed-width integers of the 8-bit target, written out explicitly. */
module Bytes {

  /** `uint8_t` */
  type byte = x: int | 0 <= x < 256

  /** `int8_t` */
  type int8 = x: int | -128 <= x < 128

  /** `int` of avr-gcc, which is 16 bits wide */
  type int16 = x: int | -32768 <= x < 32768

  /** Conversion of an integer to `uint8_t`: the value modulo 256. */
  function Wrap(x: int): (b: byte)
    ensures 0 <= x < 256 ==> b == x
    ensures -256 <= x < 0 ==> b == x + 256
  {
    x % 256
  }

  /** Reading a `uint8_t` bit pattern as `int8_t` (two's complement). */
  function Signed(b: byte): (x: int8)
    ensures Wrap(x) == b
    ensures b < 128 ==> x == b
  {
    if b < 128 then b else b - 256
  }

  /** Conversion of an integer to `int8_t`, wrapping as avr-gcc does. */
  function WrapSigned(x: int): (r: int8)
    ensures -128 <= x < 128 ==> r == x
  {
    Signed(Wrap(x))
  }
}
