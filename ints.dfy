/** Fixed-width Go integer types and the wrap-around of unsigned 32-bit arithmetic. */
module Ints {

  const U32_LIMIT: int := 0x1_0000_0000

  type uint8 = x: int | 0 <= x < 0x100
  type uint32 = x: int | 0 <= x < 0x1_0000_0000
  type int32 = x: int | -0x8000_0000 <= x < 0x8000_0000
  type int64 = x: int | -0x8000_0000_0000_0000 <= x < 0x8000_0000_0000_0000

  /** The Go conversion `uint32(n)` of a non-negative int: keep the low 32 bits. */
  function ToU32(n: nat): (r: uint32)
    ensures n < U32_LIMIT ==> r == n
    ensures (r - n) % U32_LIMIT == 0
  {
    n % U32_LIMIT
  }

  /** Go's `a - b` on uint32 operands, which wraps modulo 2^32. */
  function SubU32(a: uint32, b: uint32): (r: uint32)
    ensures b <= a ==> r == a - b
    ensures a < b ==> r == a - b + U32_LIMIT
  {
    (a - b) % U32_LIMIT
  }
}
