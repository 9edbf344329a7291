/**
 * adler32_neon.c with its three defects corrected, keeping its structure:
 * the same 5552-byte blocks of 347 loads, the same widening of each load
 * into four `uint32x4_t` quarters, the same horizontal sums and the same
 * scalar tail. The corrections:
 *
 *   - byte j of a load is weighted 16 - j (vectors [16, 15, 14, 13],
 *     [12, 11, 10, 9], [8, 7, 6, 5], [4, 3, 2, 1]), and before each load
 *     `block_s2` gains 16 times `block_s1`, so that `sum_s2` is the
 *     position-weighted sum of the block;
 *   - s2 is folded with the s1 from before the block, as
 *     `s2 + sum_s2 + 5552 * s1`, with no subtraction;
 *   - `len` stays the input length, the block loop runs while at least one
 *     block remains after `i`, and the tail runs from `i` to `len`.
 *
 * `Kernel` is proved equal to the checksum for every input.
 */
module NeonFixed {
  import opened CTypes
  import opened Adler32
  import opened Lanes
  import Blocked
  import Neon

  /** The multipliers of the four quarters of a load. */
  const W1: seq<uint32> := [16, 15, 14, 13]
  const W2: seq<uint32> := [12, 11, 10, 9]
  const W3: seq<uint32> := [8, 7, 6, 5]
  const W4: seq<uint32> := [4, 3, 2, 1]

  /** The lane-wise dot product of a quarter with its multipliers. */
  function Dot(d: seq<int>, w: seq<int>): (r: int)
    requires |d| == 4 && |w| == 4
  {
    d[0] * w[0] + d[1] * w[1] + d[2] * w[2] + d[3] * w[3]
  }

  /** The dot products with W1 .. W4 written out. */
  lemma DotWeights(d: seq<int>)
    requires |d| == 4
    ensures Dot(d, W1) == 16 * d[0] + 15 * d[1] + 14 * d[2] + 13 * d[3]
    ensures Dot(d, W2) == 12 * d[0] + 11 * d[1] + 10 * d[2] + 9 * d[3]
    ensures Dot(d, W3) == 8 * d[0] + 7 * d[1] + 6 * d[2] + 5 * d[3]
    ensures Dot(d, W4) == 4 * d[0] + 3 * d[1] + 2 * d[2] + d[3]
  {
  }

  /** Four bytes weighted 4, 3, 2, 1. */
  lemma WeightedQuad(q: seq<uint8>)
    requires |q| == 4
    ensures Weighted(q) == 4 * (q[0] as int) + 3 * (q[1] as int) + 2 * (q[2] as int) + q[3]
  {
    var t := q[1..];
    var u := t[1..];
    var x := u[1..];
    assert x[1..] == [];
    assert Weighted(x) == q[3] as int;
    assert Weighted(u) == 2 * (q[2] as int) + q[3];
    assert Weighted(t) == 3 * (q[1] as int) + 2 * (q[2] as int) + q[3];
  }

  /** The weighted sum of one load is the sum of the dot products of its
      quarters with W1 .. W4: byte j is weighted 16 - j. */
  lemma WeightedLoad(v: seq<uint8>)
    requires |v| == 16
    ensures Weighted(v) == Dot(v[0..4], W1) + Dot(v[4..8], W2) + Dot(v[8..12], W3) + Dot(v[12..16], W4)
  {
    var q1, q2, q3, q4 := v[0..4], v[4..8], v[8..12], v[12..16];
    var r3, r2 := q3 + q4, q2 + (q3 + q4);
    assert v == q1 + r2;
    WeightedQuad(q1); WeightedQuad(q2); WeightedQuad(q3); WeightedQuad(q4);
    Neon.SumQuad(q1); Neon.SumQuad(q2); Neon.SumQuad(q3);
    DotWeights(q1); DotWeights(q2); DotWeights(q3); DotWeights(q4);
    WeightedConcat(q3, q4);
    assert Weighted(r3) == Dot(q3, W3) + Dot(q4, W4);
    WeightedConcat(q2, r3);
    assert Weighted(r2) == Dot(q2, W2) + Dot(q3, W3) + Dot(q4, W4);
    WeightedConcat(q1, r2);
  }

  /** The weighted sum of a block fits a `uint32_t`:
      255 * 5552 * 5553 / 2 == 3,930,857,640. */
  lemma BlockWeightedFits(blk: seq<uint8>)
    requires |blk| <= Neon.BLOCK_SIZE
    ensures Weighted(blk) <= 3_930_857_640 < UINT32_RANGE
  {
    WeightedBound(blk);
    Blocked.TriMono(|blk|, Neon.BLOCK_SIZE);
    TriFormula(Neon.BLOCK_SIZE);
  }

  /** Multiplying lanes of at most `bound` by at most 16 does not wrap. */
  lemma MulQExact(a: seq<uint32>, w: seq<uint32>, bound: nat)
    requires |a| == 4 && |w| == 4 && bound <= 0x0FFF_FFFF
    requires LanesAtMost(a, bound) && LanesAtMost(w, 16)
    ensures LaneTotal(MulQ(a, w)) == Dot(a, w)
    ensures LanesAtMost(MulQ(a, w), 16 * bound)
  {
    MulMono(a[0], w[0], bound, 16);
    MulMono(a[1], w[1], bound, 16);
    MulMono(a[2], w[2], bound, 16);
    MulMono(a[3], w[3], bound, 16);
  }

  /** `vmulq_u32(block_s1, v_16)`: 16 times every lane, without wrapping
      for lanes of at most `bound`. */
  lemma MulQBy16(a: seq<uint32>, bound: nat)
    requires |a| == 4 && bound <= 0x0FFF_FFFF && LanesAtMost(a, bound)
    ensures LaneTotal(MulQ(a, DupQ(16))) == 16 * LaneTotal(a)
    ensures LanesAtMost(MulQ(a, DupQ(16)), 16 * bound)
  {
    var m := MulQ(a, DupQ(16));
    assert m[0] == 16 * a[0] as int && m[1] == 16 * a[1] as int;
    assert m[2] == 16 * a[2] as int && m[3] == 16 * a[3] as int;
  }

  /** Adding lanes of at most `x` and at most `y` does not wrap when
      x + y < 2^32. */
  lemma AddQExact(a: seq<uint32>, b: seq<uint32>, x: nat, y: nat)
    requires |a| == 4 && |b| == 4 && x + y < UINT32_RANGE
    requires LanesAtMost(a, x) && LanesAtMost(b, y)
    ensures LaneTotal(AddQ(a, b)) == LaneTotal(a) + LaneTotal(b)
    ensures LanesAtMost(AddQ(a, b), x + y)
  {
  }

  /**
   * The `block_s2` update of one load: 16 times `block_s1`, then the four
   * weighted quarters. Each lane grows by at most 5,679,360 (16 * 347 * 4 *
   * 255 for the earlier bytes, 4 * 16 * 255 for the new ones), so after 347
   * loads it is still below 2^32 and no addition wraps.
   */
  lemma S2Step(b1: seq<uint32>, b2: seq<uint32>, d1: seq<uint32>, d2: seq<uint32>, d3: seq<uint32>, d4: seq<uint32>,
               c: nat, n2: seq<uint32>)
    requires |b1| == 4 && |b2| == 4 && |d1| == 4 && |d2| == 4 && |d3| == 4 && |d4| == 4
    requires c < Neon.CHUNKS_PER_BLOCK
    requires LanesAtMost(b1, c * 4 * 255) && LanesAtMost(b2, c * 5_679_360)
    requires LanesAtMost(d1, 255) && LanesAtMost(d2, 255) && LanesAtMost(d3, 255) && LanesAtMost(d4, 255)
    requires n2 == AddQ(AddQ(AddQ(AddQ(AddQ(b2, MulQ(b1, DupQ(16))), MulQ(d1, W1)), MulQ(d2, W2)), MulQ(d3, W3)), MulQ(d4, W4))
    ensures LanesAtMost(n2, (c + 1) * 5_679_360)
    ensures LaneTotal(n2) == LaneTotal(b2) + 16 * LaneTotal(b1) + Dot(d1, W1) + Dot(d2, W2) + Dot(d3, W3) + Dot(d4, W4)
  {
    var m0, m1, m2, m3, m4 := MulQ(b1, DupQ(16)), MulQ(d1, W1), MulQ(d2, W2), MulQ(d3, W3), MulQ(d4, W4);
    var x := c * 5_679_360;
    assert x <= 346 * 5_679_360 && c * 4 * 255 <= 353_940;
    MulQBy16(b1, 353_940);
    MulQExact(d1, W1, 255); MulQExact(d2, W2, 255); MulQExact(d3, W3, 255); MulQExact(d4, W4, 255);
    var e0 := AddQ(b2, m0);
    AddQExact(b2, m0, x, 5_663_040);
    var e1 := AddQ(e0, m1);
    AddQExact(e0, m1, x + 5_663_040, 4080);
    var e2 := AddQ(e1, m2);
    AddQExact(e1, m2, x + 5_667_120, 4080);
    var e3 := AddQ(e2, m3);
    AddQExact(e2, m3, x + 5_671_200, 4080);
    AddQExact(e3, m4, x + 5_675_280, 4080);
    assert (c + 1) * 5_679_360 == x + 5_679_360;
  }

  /** What `block_s1` and `block_s2` hold after `loads` loads of the block
      that starts at `i0`: the plain and the position-weighted sums. */
  ghost predicate LanesAfter(data: seq<uint8>, i0: nat, loads: nat, b1: seq<uint32>, b2: seq<uint32>)
    requires i0 + 16 * loads <= |data|
  {
    && |b1| == 4 && |b2| == 4
    && LanesAtMost(b1, loads * 4 * 255)
    && LanesAtMost(b2, loads * 5_679_360)
    && LaneTotal(b1) == Sum(data[i0..i0 + 16 * loads])
    && LaneTotal(b2) == Weighted(data[i0..i0 + 16 * loads])
  }

  /** Extending the processed prefix of a block by one load. */
  lemma PrefixExtend(data: seq<uint8>, i0: nat, loads: nat, v: seq<uint8>)
    requires i0 + 16 * (loads + 1) <= |data| && v == data[i0 + 16 * loads..i0 + 16 * loads + 16]
    ensures Sum(data[i0..i0 + 16 * (loads + 1)]) == Sum(data[i0..i0 + 16 * loads]) + Sum(v)
    ensures Weighted(data[i0..i0 + 16 * (loads + 1)])
         == Weighted(data[i0..i0 + 16 * loads]) + 16 * Sum(data[i0..i0 + 16 * loads]) + Weighted(v)
  {
    var i := i0 + 16 * loads;
    assert i0 + 16 * (loads + 1) == i + 16;
    assert data[i0..i + 16] == data[i0..i] + v;
    SumConcat(data[i0..i], v);
    WeightedConcat(data[i0..i], v);
  }

  /** One iteration of the corrected inner loop keeps LanesAfter. */
  lemma LoadStep(data: seq<uint8>, i0: nat, loads: nat, b1: seq<uint32>, b2: seq<uint32>,
                 v: seq<uint8>, d1: seq<uint32>, d2: seq<uint32>, d3: seq<uint32>, d4: seq<uint32>,
                 n1: seq<uint32>, n2: seq<uint32>)
    requires loads < Neon.CHUNKS_PER_BLOCK && i0 + 16 * (loads + 1) <= |data|
    requires LanesAfter(data, i0, loads, b1, b2)
    requires v == data[i0 + 16 * loads..i0 + 16 * loads + 16]
    requires d1 == v[0..4] && d2 == v[4..8] && d3 == v[8..12] && d4 == v[12..16]
    requires n1 == AddQ(AddQ(AddQ(AddQ(b1, d1), d2), d3), d4)
    requires n2 == AddQ(AddQ(AddQ(AddQ(AddQ(b2, MulQ(b1, DupQ(16))), MulQ(d1, W1)), MulQ(d2, W2)), MulQ(d3, W3)), MulQ(d4, W4))
    ensures LanesAfter(data, i0, loads + 1, n1, n2)
  {
    PrefixExtend(data, i0, loads, v);
    var p := data[i0..i0 + 16 * loads];
    Neon.LoadSum(v);
    WeightedLoad(v);
    Neon.LoadStepS1(b1, d1, d2, d3, d4, loads, Sum(p), Sum(v));
    LoadStepS2(b1, b2, d1, d2, d3, d4, loads, n2, Sum(p), Weighted(p), Weighted(v));
  }

  /** The `block_s2` half of LoadStep, on lane totals. */
  lemma LoadStepS2(b1: seq<uint32>, b2: seq<uint32>, d1: seq<uint32>, d2: seq<uint32>, d3: seq<uint32>, d4: seq<uint32>,
                   loads: nat, n2: seq<uint32>, sum: int, before: int, chunk: int)
    requires |b1| == 4 && |b2| == 4 && |d1| == 4 && |d2| == 4 && |d3| == 4 && |d4| == 4
    requires loads < Neon.CHUNKS_PER_BLOCK
    requires LanesAtMost(b1, loads * 4 * 255) && LaneTotal(b1) == sum
    requires LanesAtMost(b2, loads * 5_679_360) && LaneTotal(b2) == before
    requires LanesAtMost(d1, 255) && LanesAtMost(d2, 255) && LanesAtMost(d3, 255) && LanesAtMost(d4, 255)
    requires chunk == Dot(d1, W1) + Dot(d2, W2) + Dot(d3, W3) + Dot(d4, W4)
    requires n2 == AddQ(AddQ(AddQ(AddQ(AddQ(b2, MulQ(b1, DupQ(16))), MulQ(d1, W1)), MulQ(d2, W2)), MulQ(d3, W3)), MulQ(d4, W4))
    ensures LanesAtMost(n2, (loads + 1) * 5_679_360) && LaneTotal(n2) == before + 16 * sum + chunk
  {
    S2Step(b1, b2, d1, d2, d3, d4, loads, n2);
  }

  /** One iteration of the corrected inner loop: one load at `i`, 16 times
      `block_s1` into `block_s2`, then the four quarters into `block_s1` and,
      weighted by W1 .. W4, into `block_s2`. */
  method AccumulateLoad(data: seq<uint8>, i0: nat, i: nat, ghost loads: nat, b1: seq<uint32>, b2: seq<uint32>)
    returns (blockS1: seq<uint32>, blockS2: seq<uint32>)
    requires loads < Neon.CHUNKS_PER_BLOCK && i == i0 + 16 * loads && i + 16 <= |data|
    requires LanesAfter(data, i0, loads, b1, b2)
    ensures LanesAfter(data, i0, loads + 1, blockS1, blockS2)
  {
    var v, d1, d2, d3, d4 := LoadQuarters(data, i);
    var v16 := DupQ(16);
    blockS1, blockS2 := b1, b2;

    // Every byte already in the block moves 16 positions further from
    // the end of the block.
    blockS2 := AddQ(blockS2, MulQ(blockS1, v16));

    blockS1 := AddQ(blockS1, d1);
    blockS1 := AddQ(blockS1, d2);
    blockS1 := AddQ(blockS1, d3);
    blockS1 := AddQ(blockS1, d4);

    blockS2 := AddQ(blockS2, MulQ(d1, W1));
    blockS2 := AddQ(blockS2, MulQ(d2, W2));
    blockS2 := AddQ(blockS2, MulQ(d3, W3));
    blockS2 := AddQ(blockS2, MulQ(d4, W4));
    LoadStep(data, i0, loads, b1, b2, v, d1, d2, d3, d4, blockS1, blockS2);
  }

  /**
   * One block with the corrected weights: `block_s1` ends with the byte sum
   * of the block and `block_s2` with its position-weighted sum, the two
   * quantities the per-byte recurrence adds into s1 and s2.
   */
  method AccumulateBlock(data: seq<uint8>, i0: nat) returns (blockS1: seq<uint32>, blockS2: seq<uint32>)
    requires i0 + Neon.BLOCK_SIZE <= |data|
    ensures |blockS1| == 4 && |blockS2| == 4
    ensures LaneTotal(blockS1) == Sum(data[i0..i0 + Neon.BLOCK_SIZE])
    ensures LaneTotal(blockS2) == Weighted(data[i0..i0 + Neon.BLOCK_SIZE])
  {
    var blockLen: nat := Neon.BLOCK_SIZE;
    blockS1 := DupQ(0);
    blockS2 := DupQ(0);
    var i := i0;
    ghost var loads: nat := 0;
    while blockLen >= Neon.NEON_CHUNK_SIZE
      invariant loads <= Neon.CHUNKS_PER_BLOCK
      invariant i == i0 + 16 * loads && blockLen == Neon.BLOCK_SIZE - 16 * loads
      invariant LanesAfter(data, i0, loads, blockS1, blockS2)
    {
      blockS1, blockS2 := AccumulateLoad(data, i0, i, loads, blockS1, blockS2);
      i := i + Neon.NEON_CHUNK_SIZE;
      blockLen := blockLen - Neon.NEON_CHUNK_SIZE;
      loads := loads + 1;
    }
  }

  /** The corrected fold of one block: `s2 + sum_s2 + 5552 * s1` with the
      s1 from before the block, then `s1 + sum_s1`. Nothing wraps. */
  method FoldBlock(s1: uint32, s2: uint32, sumS1: uint32, sumS2: uint32) returns (t1: uint32, t2: uint32)
    requires s1 < MOD && s2 < MOD && sumS1 <= 255 * Neon.BLOCK_SIZE && sumS2 <= 3_930_857_640
    ensures t1 == (s1 + sumS1) % MOD
    ensures t2 == (s2 + sumS2 + Neon.BLOCK_SIZE * s1) % MOD
  {
    t2 := AddSize(Add32(s2, sumS2), MulSize(Neon.BLOCK_SIZE, s1)) % MOD;
    t1 := Add32(s1, sumS1) % MOD;
  }

  /** `adler32_neon` corrected: equal to the checksum for every input. */
  method Kernel(data: seq<uint8>) returns (r: uint32)
    requires |data| < SIZE_RANGE
    ensures r == Checksum(data)
  {
    var len: size_t := |data|;
    if len == 0 {
      return 1;
    }
    var s1: uint32 := 1;
    var s2: uint32 := 0;
    var i: size_t := 0;
    if len >= Neon.NEON_CHUNK_SIZE {
      while len - i >= Neon.BLOCK_SIZE
        invariant i <= len && s1 < MOD && s2 < MOD
        invariant State(s1, s2) == Adler(data[..i])
        decreases len - i
      {
        var blockS1, blockS2 := AccumulateBlock(data, i);
        ghost var blk := data[i..i + Neon.BLOCK_SIZE];
        BlockWeightedFits(blk);
        var sumS1 := HorizontalSum(blockS1);
        var sumS2 := HorizontalSum(blockS2);
        Blocked.ReducedPrefix(data, i, Neon.BLOCK_SIZE, s1 + sumS1, s2 + Neon.BLOCK_SIZE * s1 + sumS2);
        s1, s2 := FoldBlock(s1, s2, sumS1, sumS2);
        i := i + Neon.BLOCK_SIZE;
      }
    }
    ghost var st := State(s1, s2);
    s1, s2 := Neon.ScalarTail(data, s1, s2, i, len);
    assert data == data[..i] + data[i..len];
    AdlerConcat(data[..i], data[i..len]);
    PackHalves(s1, s2);
    r := Pack(s1, s2);
  }
}
