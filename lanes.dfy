/**
 * The NEON intrinsics the vector kernel uses, as plain lane arithmetic on
 * sequences: a `uint8x16_t` is a 16-element `seq<uint8>`, a `uint16x8_t` an
 * 8-element `seq<uint16>`, a `uint32x4_t` a 4-element `seq<uint32>`. Lane 0
 * is element 0; register layout and alignment are not modelled.
 */
module Lanes {
  import opened CTypes

  /** `vld1q_u8(p)`: the 16 bytes starting at `p`. */
  function Load16(data: seq<uint8>, i: nat): (v: seq<uint8>)
    requires i + 16 <= |data|
    ensures |v| == 16
  {
    data[i..i + 16]
  }

  /** `vget_low_u8` / `vget_low_u16`: the lower half of the lanes. */
  function GetLow<T>(v: seq<T>): (r: seq<T>)
    ensures |r| == |v| / 2
  {
    v[..|v| / 2]
  }

  /** `vget_high_u8` / `vget_high_u16`: the upper half of the lanes (for an
      even lane count). */
  function GetHigh<T>(v: seq<T>): (r: seq<T>)
    requires |v| % 2 == 0
    ensures |r| == |v| / 2
  {
    v[|v| / 2..]
  }

  /** `vmovl_u8`: zero-extend every lane from 8 to 16 bits. */
  function Movl8(v: seq<uint8>): (r: seq<uint16>)
    ensures |r| == |v|
  {
    seq(|v|, k requires 0 <= k < |v| => v[k] as uint16)
  }

  /** `vmovl_u16`: zero-extend every lane from 16 to 32 bits. */
  function Movl16(v: seq<uint16>): (r: seq<uint32>)
    ensures |r| == |v|
  {
    seq(|v|, k requires 0 <= k < |v| => v[k] as uint32)
  }

  /** `vdupq_n_u32(x)`: x in all four lanes. */
  function DupQ(x: uint32): (r: seq<uint32>)
    ensures |r| == 4
  {
    [x, x, x, x]
  }

  /** `vaddq_u32`: lane-wise addition modulo 2^32. */
  function AddQ(a: seq<uint32>, b: seq<uint32>): (r: seq<uint32>)
    requires |a| == 4 && |b| == 4
    ensures |r| == 4
  {
    [Add32(a[0], b[0]), Add32(a[1], b[1]), Add32(a[2], b[2]), Add32(a[3], b[3])]
  }

  /** `vmulq_u32`: lane-wise multiplication modulo 2^32. */
  function MulQ(a: seq<uint32>, b: seq<uint32>): (r: seq<uint32>)
    requires |a| == 4 && |b| == 4
    ensures |r| == 4
  {
    [Mul32(a[0], b[0]), Mul32(a[1], b[1]), Mul32(a[2], b[2]), Mul32(a[3], b[3])]
  }

  /** `vgetq_lane_u32(v, lane)`. */
  function GetLane(v: seq<uint32>, lane: nat): (r: uint32)
    requires |v| == 4 && lane < 4
  {
    v[lane]
  }

  /** The four lanes added in `uint32_t`, left to right, as in
      `vgetq_lane_u32(v, 0) + ... + vgetq_lane_u32(v, 3)`. */
  function HorizontalSum(v: seq<uint32>): (r: uint32)
    requires |v| == 4
    ensures LaneTotal(v) < UINT32_RANGE ==> r == LaneTotal(v)
  {
    Add32(Add32(Add32(GetLane(v, 0), GetLane(v, 1)), GetLane(v, 2)), GetLane(v, 3))
  }

  /** The exact (unbounded) total of the four lanes. */
  function LaneTotal(v: seq<int>): (r: int)
    requires |v| == 4
  {
    v[0] + v[1] + v[2] + v[3]
  }

  /** Every lane is at most `bound`. */
  predicate LanesAtMost(v: seq<int>, bound: int)
    requires |v| == 4
  {
    v[0] <= bound && v[1] <= bound && v[2] <= bound && v[3] <= bound
  }

  /** The four `uint32x4_t` quarters of a 16-byte load, widened as in
      `vmovl_u16(vget_{low,high}_u16(vmovl_u8(vget_{low,high}_u8(v))))`,
      hold bytes 0-3, 4-7, 8-11 and 12-15 of the load in lane order. */
  lemma WidenQuarters(v: seq<uint8>)
    requires |v| == 16
    ensures Movl16(GetLow(Movl8(GetLow(v)))) == v[0..4]
    ensures Movl16(GetHigh(Movl8(GetLow(v)))) == v[4..8]
    ensures Movl16(GetLow(Movl8(GetHigh(v)))) == v[8..12]
    ensures Movl16(GetHigh(Movl8(GetHigh(v)))) == v[12..16]
  {
  }

  /** Lines 51-63 of adler32_neon.c: one 16-byte load at `i`, widened into
      four `uint32x4_t` quarters holding its bytes in order. */
  method LoadQuarters(data: seq<uint8>, i: nat)
    returns (v: seq<uint8>, d1: seq<uint32>, d2: seq<uint32>, d3: seq<uint32>, d4: seq<uint32>)
    requires i + 16 <= |data|
    ensures v == data[i..i + 16]
    ensures d1 == v[0..4] && d2 == v[4..8] && d3 == v[8..12] && d4 == v[12..16]
  {
    v := Load16(data, i);
    d1 := Movl16(GetLow(Movl8(GetLow(v))));
    d2 := Movl16(GetHigh(Movl8(GetLow(v))));
    d3 := Movl16(GetLow(Movl8(GetHigh(v))));
    d4 := Movl16(GetHigh(Movl8(GetHigh(v))));
    WidenQuarters(v);
  }
}
