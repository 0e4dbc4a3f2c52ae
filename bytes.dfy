/** Unsigned 8-bit arithmetic as the firmware's `uint8_t` globals perform it. */
module Bytes {

  /** A `uint8_t`, kept as an integer so that every wrap-around is written out. */
  type byte = x: int | 0 <= x < 256

  /** `x++` on a `uint8_t`: one more, except that 255 wraps to 0. */
  function Inc(x: byte): (r: byte)
    ensures x < 255 ==> r == x + 1
    ensures x == 255 ==> r == 0
  {
    (x + 1) % 256
  }

  /** An `int` expression stored into a `uint8_t`: only its low eight bits remain. */
  function Trunc(x: int): (r: byte)
    ensures 0 <= x < 256 ==> r == x
    ensures 256 <= x < 512 ==> r == x - 256
    ensures -256 <= x < 0 ==> r == x + 256
  {
    x % 256
  }
}
