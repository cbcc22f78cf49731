/** Integers of 8, 16 and 32 bits. */
module Ints {
  type U16 = x | 0 <= x < 0x1_0000

  function AsU16(x: int): (r: U16)
    ensures 0 <= x < 0x1_0000 ==> r == x
  {
    x % 0x1_0000
  }

  type U8 = x | 0 <= x < 0x100

  function AsU8(x: int): (r: U8)
    ensures 0 <= x < 0x100 ==> r == x
  {
    x % 0x100
  }

  type U32 = x | 0 <= x < 0x1_0000_0000

  // Of 32 bits, wrapping.
  function WrappingMul(a: nat, b: nat): (r: U32)
    ensures a * b < 0x1_0000_0000 ==> r == a * b
  {
    a * b % 0x1_0000_0000
  }

  function WrappingSub(a: int, b: int): nat {
    (a - b) % 0x1_0000_0000
  }
}
