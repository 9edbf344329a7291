/**
 * The C integer types the kernels compute with, and the wrap-around of
 * unsigned C arithmetic written out explicitly. `size_t` is 64 bits wide,
 * as on AArch64 (LP64), the only target of the NEON kernel.
 */
module CTypes {

  type uint8 = x: int | 0 <= x < 0x100
  type uint16 = x: int | 0 <= x < 0x1_0000
  type uint32 = x: int | 0 <= x < 0x1_0000_0000
  type size_t = x: int | 0 <= x < 0x1_0000_0000_0000_0000

  const UINT32_RANGE: int := 0x1_0000_0000
  const SIZE_RANGE: int := 0x1_0000_0000_0000_0000

  /** `a + b` on two `uint32_t` operands: the sum modulo 2^32. */
  function Add32(a: uint32, b: uint32): (r: uint32)
    ensures a + b < UINT32_RANGE ==> r == a + b
    ensures a + b >= UINT32_RANGE ==> r == a + b - UINT32_RANGE
  {
    (a + b) % UINT32_RANGE
  }

  /** `a * b` on two `uint32_t` operands: the product modulo 2^32. */
  function Mul32(a: uint32, b: uint32): (r: uint32)
    ensures a * b < UINT32_RANGE ==> r == a * b
  {
    MulMono(0, 0, a, b);
    (a * b) % UINT32_RANGE
  }

  /** `a + b` where the wider operand is a `size_t`: the sum modulo 2^64. */
  function AddSize(a: size_t, b: size_t): (r: size_t)
    ensures a + b < SIZE_RANGE ==> r == a + b
  {
    (a + b) % SIZE_RANGE
  }

  /** `a - b` on `size_t`: wraps to `a - b + 2^64` when `b > a`. */
  function SubSize(a: size_t, b: size_t): (r: size_t)
    ensures a >= b ==> r == a - b
    ensures a < b ==> r == a - b + SIZE_RANGE
  {
    (a - b) % SIZE_RANGE
  }

  /** `a * b` on `size_t`: the product modulo 2^64. */
  function MulSize(a: size_t, b: size_t): (r: size_t)
    ensures a * b < SIZE_RANGE ==> r == a * b
  {
    MulMono(0, 0, a, b);
    (a * b) % SIZE_RANGE
  }

  /** Integer multiplication is monotonic in both (non-negative) factors. */
  lemma MulMono(a: int, b: int, c: int, d: int)
    requires 0 <= a <= c && 0 <= b <= d
    ensures a * b <= c * d
  {
    assert a * b <= c * b;
    assert c * b <= c * d;
  }
}
