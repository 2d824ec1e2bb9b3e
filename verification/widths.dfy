/**
 * The C integer types the driver uses, with their wrap-around written out:
 * `uint8_t` for speeds, `int8_t` for the ramp step and `uint32_t` for
 * timer registers and the arithmetic that feeds them.
 */
module Widths {

  const BYTE_MOD: int := 0x100
  const WORD_MOD: int := 0x1_0000_0000

  type U8 = x: int | 0 <= x < 0x100
  type I8 = x: int | -0x80 <= x < 0x80
  type U32 = x: int | 0 <= x < 0x1_0000_0000

  /** `u += d` for a `uint8_t u` and an `int8_t d`: the sum is reduced modulo 256. */
  function AddWrapU8(u: U8, d: I8): (r: U8)
    ensures 0 <= u + d < BYTE_MOD ==> r == u + d
    ensures u + d < 0 ==> r == u + d + BYTE_MOD
    ensures BYTE_MOD <= u + d ==> r == u + d - BYTE_MOD
  {
    (u + d) % BYTE_MOD
  }

  /** `a * b` on `uint32_t`: the product is reduced modulo 2^32. */
  function MulU32(a: U32, b: U32): (r: U32)
    ensures a * b < WORD_MOD ==> r == a * b
  {
    var p := a * b;
    if p < WORD_MOD then p else p % WORD_MOD
  }

  /** Multiplying by a natural number keeps the order of the factors. */
  lemma MulMonotonic(a: nat, b: nat, c: nat)
    requires b <= c
    ensures a * b <= a * c
  {
    assert a * c - a * b == a * (c - b);
  }

  /** `a - b` on `uint32_t`: a negative difference wraps to the top of the range. */
  function SubU32(a: U32, b: U32): (r: U32)
    ensures b <= a ==> r == a - b
    ensures a < b ==> r == a - b + WORD_MOD
  {
    (a - b) % WORD_MOD
  }
}
