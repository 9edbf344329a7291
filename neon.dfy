/**
 * adler32_neon.c as written: the lane-parallel kernel. It reads the input
 * in 5552-byte blocks of 347 loads of 16 bytes, sums the bytes into four
 * `uint32x4_t` lanes together with a lane-wise weighted sum, reduces the
 * lanes horizontally, folds the block into (s1, s2) and then runs a scalar
 * tail.
 *
 * The model follows the code, including the three places where it departs
 * from Adler-32 once a block is processed (inputs of 5552 bytes or more):
 * the s2 fold uses one weight per group of four bytes and the s1 already
 * updated by the block; its subtraction is done in `size_t` and can wrap;
 * and the tail never runs after a block, because `len` is decremented while
 * `i` advances. `Kernel` is proved equal to the functional model
 * `KernelSpec`, and the lemmas below prove what holds of it and exhibit
 * inputs where it differs from the checksum.
 */
module Neon {
  import opened CTypes
  import opened Adler32
  import opened Lanes

  const BLOCK_SIZE: nat := 5552
  const NEON_CHUNK_SIZE: nat := 16
  /** 5552 == 16 * 347: the loads per block. */
  const CHUNKS_PER_BLOCK: nat := 347

  // ---------------------------------------------------------------------
  // What the lanes accumulate

  /** The multiplier the kernel applies to the byte at position p of a
      16-byte load: 16 for positions 0-3, 12 for 4-7, 8 for 8-11, 4 for
      12-15. */
  function GroupWeight(p: nat): (w: nat)
    ensures 4 <= w <= 16
  {
    16 - 4 * ((p % 16) / 4)
  }

  /** Sum of GroupWeight(off + k) * data[k]: each byte weighted by its
      position in its 16-byte load, when `data` starts at position `off`. */
  function GroupWeightedFrom(data: seq<uint8>, off: nat): (r: nat)
    ensures r <= 16 * 255 * |data|
  {
    if data == [] then 0
    else
      MulMono(GroupWeight(off), data[0], 16, 255);
      GroupWeight(off) * data[0] + GroupWeightedFrom(data[1..], off + 1)
  }

  /** The weighted sum the kernel's `sum_s2` holds for a block. */
  function GroupWeighted(blk: seq<uint8>): (r: nat)
    ensures r <= 16 * 255 * |blk|
  {
    GroupWeightedFrom(blk, 0)
  }

  lemma {:induction false} GroupWeightedConcat(a: seq<uint8>, b: seq<uint8>, off: nat)
    ensures GroupWeightedFrom(a + b, off) == GroupWeightedFrom(a, off) + GroupWeightedFrom(b, off + |a|)
  {
    if a == [] {
      assert a + b == b;
    } else {
      assert (a + b)[1..] == a[1..] + b;
      GroupWeightedConcat(a[1..], b, off + 1);
    }
  }

  lemma SumQuad(q: seq<uint8>)
    requires |q| == 4
    ensures Sum(q) == LaneTotal(q)
  {
    var t := q[1..];
    var u := t[1..];
    var w := u[1..];
    assert w[1..] == [];
    assert Sum(w) == q[3] as int;
    assert Sum(u) == q[2] as int + q[3];
    assert Sum(t) == q[1] as int + q[2] + q[3];
  }

  /** In a load that starts at a multiple of 16, position j has weight
      16 - 4 * (j / 4). */
  lemma WeightAt(off: nat, j: nat)
    requires off % 16 == 0 && j < 16
    ensures GroupWeight(off + j) == 16 - 4 * (j / 4)
  {
    assert (off + j) % 16 == j;
  }

  /** Four bytes that share the weight w. */
  lemma GroupWeightedQuad(q: seq<uint8>, off: nat, w: nat)
    requires |q| == 4
    requires GroupWeight(off) == w && GroupWeight(off + 1) == w
    requires GroupWeight(off + 2) == w && GroupWeight(off + 3) == w
    ensures GroupWeightedFrom(q, off) == w * LaneTotal(q)
  {
    var t := q[1..];
    var u := t[1..];
    var x := u[1..];
    assert x[1..] == [];
    assert GroupWeightedFrom(x, off + 3) == w * q[3];
    assert GroupWeightedFrom(u, off + 2) == w * q[2] + w * q[3];
    assert GroupWeightedFrom(t, off + 1) == w * q[1] + w * q[2] + w * q[3];
    assert GroupWeightedFrom(q, off) == w * q[0] + w * q[1] + w * q[2] + w * q[3];
  }

  /** The plain sum of one 16-byte load as the total over its four widened
      quarters. */
  lemma LoadSum(v: seq<uint8>)
    requires |v| == 16
    ensures Sum(v) == LaneTotal(v[0..4]) + LaneTotal(v[4..8]) + LaneTotal(v[8..12]) + LaneTotal(v[12..16])
  {
    var q1, q2, q3, q4 := v[0..4], v[4..8], v[8..12], v[12..16];
    assert v == q1 + (q2 + (q3 + q4));
    SumConcat(q1, q2 + (q3 + q4));
    SumConcat(q2, q3 + q4);
    SumConcat(q3, q4);
    SumQuad(q1); SumQuad(q2); SumQuad(q3); SumQuad(q4);
  }

  /** One 16-byte load at a position that is a multiple of 16: its grouped
      weighted sum as a total over the four widened quarters. */
  lemma ChunkSums(v: seq<uint8>, k: nat)
    requires |v| == 16
    ensures GroupWeightedFrom(v, 16 * k)
         == 16 * LaneTotal(v[0..4]) + 12 * LaneTotal(v[4..8]) + 8 * LaneTotal(v[8..12]) + 4 * LaneTotal(v[12..16])
  {
    var off := 16 * k;
    assert off % 16 == 0;
    var q1, q2, q3, q4 := v[0..4], v[4..8], v[8..12], v[12..16];
    assert v == q1 + (q2 + (q3 + q4));
    GroupWeightedConcat(q1, q2 + (q3 + q4), off);
    GroupWeightedConcat(q2, q3 + q4, off + 4);
    GroupWeightedConcat(q3, q4, off + 8);
    WeightAt(off, 0); WeightAt(off, 1); WeightAt(off, 2); WeightAt(off, 3);
    WeightAt(off, 4); WeightAt(off, 5); WeightAt(off, 6); WeightAt(off, 7);
    WeightAt(off, 8); WeightAt(off, 9); WeightAt(off, 10); WeightAt(off, 11);
    WeightAt(off, 12); WeightAt(off, 13); WeightAt(off, 14); WeightAt(off, 15);
    GroupWeightedQuad(q1, off, 16);
    GroupWeightedQuad(q2, off + 4, 12);
    GroupWeightedQuad(q3, off + 8, 8);
    GroupWeightedQuad(q4, off + 12, 4);
  }

  /** The four widened quarters of one load added into `block_s1`
      (lines 66-69): no lane wraps, and the lane total grows by the bytes. */
  lemma S1Step(b: seq<uint32>, d1: seq<uint32>, d2: seq<uint32>, d3: seq<uint32>, d4: seq<uint32>, c: nat)
    requires |b| == 4 && |d1| == 4 && |d2| == 4 && |d3| == 4 && |d4| == 4
    requires c < CHUNKS_PER_BLOCK
    requires LanesAtMost(b, c * 4 * 255)
    requires LanesAtMost(d1, 255) && LanesAtMost(d2, 255) && LanesAtMost(d3, 255) && LanesAtMost(d4, 255)
    ensures var n := AddQ(AddQ(AddQ(AddQ(b, d1), d2), d3), d4);
      && (LanesAtMost(n, (c + 1) * 4 * 255))
      && LaneTotal(n) == LaneTotal(b) + LaneTotal(d1) + LaneTotal(d2) + LaneTotal(d3) + LaneTotal(d4)
  {
    assert (c + 1) * 4 * 255 == c * 4 * 255 + 1020;
    assert c * 4 * 255 < 347 * 1020;
  }

  /** The four weighted quarters of one load added into `block_s2`
      (lines 73-76), with multipliers 16, 12, 8 and 4. */
  lemma S2Step(b: seq<uint32>, d1: seq<uint32>, d2: seq<uint32>, d3: seq<uint32>, d4: seq<uint32>, c: nat)
    requires |b| == 4 && |d1| == 4 && |d2| == 4 && |d3| == 4 && |d4| == 4
    requires c < CHUNKS_PER_BLOCK
    requires LanesAtMost(b, c * 40 * 255)
    requires LanesAtMost(d1, 255) && LanesAtMost(d2, 255) && LanesAtMost(d3, 255) && LanesAtMost(d4, 255)
    ensures var n := AddQ(AddQ(AddQ(AddQ(b, MulQ(d1, DupQ(16))), MulQ(d2, DupQ(12))), MulQ(d3, DupQ(8))), MulQ(d4, DupQ(4)));
      && (LanesAtMost(n, (c + 1) * 40 * 255))
      && LaneTotal(n)
         == LaneTotal(b) + 16 * LaneTotal(d1) + 12 * LaneTotal(d2) + 8 * LaneTotal(d3) + 4 * LaneTotal(d4)
  {
    var m1, m2, m3, m4 := MulQ(d1, DupQ(16)), MulQ(d2, DupQ(12)), MulQ(d3, DupQ(8)), MulQ(d4, DupQ(4));
    MulQByConst(d1, 16);
    MulQByConst(d2, 12);
    MulQByConst(d3, 8);
    MulQByConst(d4, 4);
    assert (c + 1) * 40 * 255 == c * 40 * 255 + 10200;
    assert c * 40 * 255 < 347 * 10200;
    var n1 := AddQ(b, m1);
    assert n1[0] == b[0] as int + m1[0] && n1[1] == b[1] as int + m1[1] && n1[2] == b[2] as int + m1[2] && n1[3] == b[3] as int + m1[3];
    var n2 := AddQ(n1, m2);
    assert n2[0] == n1[0] as int + m2[0] && n2[1] == n1[1] as int + m2[1] && n2[2] == n1[2] as int + m2[2] && n2[3] == n1[3] as int + m2[3];
    var n3 := AddQ(n2, m3);
    assert n3[0] == n2[0] as int + m3[0] && n3[1] == n2[1] as int + m3[1] && n3[2] == n2[2] as int + m3[2] && n3[3] == n2[3] as int + m3[3];
    var n4 := AddQ(n3, m4);
    assert n4[0] == n3[0] as int + m4[0] && n4[1] == n3[1] as int + m4[1] && n4[2] == n3[2] as int + m4[2] && n4[3] == n3[3] as int + m4[3];
  }

  /** Lane-wise multiplication of bytes by a small constant cannot wrap. */
  lemma MulQByConst(d: seq<uint32>, w: uint32)
    requires |d| == 4 && w <= 16
    requires LanesAtMost(d, 255)
    ensures MulQ(d, DupQ(w))[0] == w as int * d[0] && MulQ(d, DupQ(w))[1] == w as int * d[1]
    ensures MulQ(d, DupQ(w))[2] == w as int * d[2] && MulQ(d, DupQ(w))[3] == w as int * d[3]
    ensures LanesAtMost(MulQ(d, DupQ(w)), w * 255)
  {
    MulMono(d[0], w, 255, 16);
    MulMono(d[1], w, 255, 16);
    MulMono(d[2], w, 255, 16);
    MulMono(d[3], w, 255, 16);
    MulMono(d[0], w, 255, w);
    MulMono(d[1], w, 255, w);
    MulMono(d[2], w, 255, w);
    MulMono(d[3], w, 255, w);
  }

  /** What `block_s1` and `block_s2` hold after `loads` loads of the block
      that starts at `i0`. */
  ghost predicate LanesAfter(data: seq<uint8>, i0: nat, loads: nat, b1: seq<uint32>, b2: seq<uint32>)
    requires i0 + 16 * loads <= |data|
  {
    && |b1| == 4 && |b2| == 4
    && LanesAtMost(b1, loads * 4 * 255)
    && LanesAtMost(b2, loads * 40 * 255)
    && LaneTotal(b1) == Sum(data[i0..i0 + 16 * loads])
    && LaneTotal(b2) == GroupWeightedFrom(data[i0..i0 + 16 * loads], 0)
  }

  /** One iteration of the inner loop (lines 51-79) keeps LanesAfter. */
  lemma LoadStep(data: seq<uint8>, i0: nat, loads: nat, b1: seq<uint32>, b2: seq<uint32>,
                 v: seq<uint8>, d1: seq<uint32>, d2: seq<uint32>, d3: seq<uint32>, d4: seq<uint32>,
                 n1: seq<uint32>, n2: seq<uint32>)
    requires loads < CHUNKS_PER_BLOCK && i0 + 16 * (loads + 1) <= |data|
    requires LanesAfter(data, i0, loads, b1, b2)
    requires v == data[i0 + 16 * loads..i0 + 16 * loads + 16]
    requires d1 == v[0..4] && d2 == v[4..8] && d3 == v[8..12] && d4 == v[12..16]
    requires n1 == AddQ(AddQ(AddQ(AddQ(b1, d1), d2), d3), d4)
    requires n2 == AddQ(AddQ(AddQ(AddQ(b2, MulQ(d1, DupQ(16))), MulQ(d2, DupQ(12))), MulQ(d3, DupQ(8))), MulQ(d4, DupQ(4)))
    ensures LanesAfter(data, i0, loads + 1, n1, n2)
  {
    PrefixExtend(data, i0, loads, v);
    LoadSum(v);
    ChunkSums(v, loads);
    LoadStepS1(b1, d1, d2, d3, d4, loads, Sum(data[i0..i0 + 16 * loads]), Sum(v));
    LoadStepS2(b2, d1, d2, d3, d4, loads, GroupWeightedFrom(data[i0..i0 + 16 * loads], 0), GroupWeightedFrom(v, 16 * loads));
  }

  /** The `block_s1` half of LoadStep, on lane totals. */
  lemma LoadStepS1(b1: seq<uint32>, d1: seq<uint32>, d2: seq<uint32>, d3: seq<uint32>, d4: seq<uint32>,
                   loads: nat, before: int, chunk: int)
    requires |b1| == 4 && |d1| == 4 && |d2| == 4 && |d3| == 4 && |d4| == 4
    requires loads < CHUNKS_PER_BLOCK
    requires LanesAtMost(b1, loads * 4 * 255) && LaneTotal(b1) == before
    requires LanesAtMost(d1, 255) && LanesAtMost(d2, 255) && LanesAtMost(d3, 255) && LanesAtMost(d4, 255)
    requires chunk == LaneTotal(d1) + LaneTotal(d2) + LaneTotal(d3) + LaneTotal(d4)
    ensures var n1 := AddQ(AddQ(AddQ(AddQ(b1, d1), d2), d3), d4);
      LanesAtMost(n1, (loads + 1) * 4 * 255) && LaneTotal(n1) == before + chunk
  {
    S1Step(b1, d1, d2, d3, d4, loads);
  }

  /** The `block_s2` half of LoadStep, on lane totals. */
  lemma LoadStepS2(b2: seq<uint32>, d1: seq<uint32>, d2: seq<uint32>, d3: seq<uint32>, d4: seq<uint32>,
                   loads: nat, before: int, chunk: int)
    requires |b2| == 4 && |d1| == 4 && |d2| == 4 && |d3| == 4 && |d4| == 4
    requires loads < CHUNKS_PER_BLOCK
    requires LanesAtMost(b2, loads * 40 * 255) && LaneTotal(b2) == before
    requires LanesAtMost(d1, 255) && LanesAtMost(d2, 255) && LanesAtMost(d3, 255) && LanesAtMost(d4, 255)
    requires chunk == 16 * LaneTotal(d1) + 12 * LaneTotal(d2) + 8 * LaneTotal(d3) + 4 * LaneTotal(d4)
    ensures var n2 := AddQ(AddQ(AddQ(AddQ(b2, MulQ(d1, DupQ(16))), MulQ(d2, DupQ(12))), MulQ(d3, DupQ(8))), MulQ(d4, DupQ(4)));
      LanesAtMost(n2, (loads + 1) * 40 * 255) && LaneTotal(n2) == before + chunk
  {
    S2Step(b2, d1, d2, d3, d4, loads);
  }

  /** Extending the processed prefix of a block by one load. */
  lemma PrefixExtend(data: seq<uint8>, i0: nat, loads: nat, v: seq<uint8>)
    requires i0 + 16 * (loads + 1) <= |data| && v == data[i0 + 16 * loads..i0 + 16 * loads + 16]
    ensures Sum(data[i0..i0 + 16 * (loads + 1)]) == Sum(data[i0..i0 + 16 * loads]) + Sum(v)
    ensures GroupWeightedFrom(data[i0..i0 + 16 * (loads + 1)], 0)
         == GroupWeightedFrom(data[i0..i0 + 16 * loads], 0) + GroupWeightedFrom(v, 16 * loads)
  {
    var i := i0 + 16 * loads;
    assert i0 + 16 * (loads + 1) == i + 16;
    assert data[i0..i + 16] == data[i0..i] + v;
    SumConcat(data[i0..i], v);
    GroupWeightedConcat(data[i0..i], v, 0);
  }

  // ---------------------------------------------------------------------
  // The inner loop over one block (adler32_neon.c, lines 42-80)

  /** Lines 51-76: one 16-byte load at `i`, its four quarters added into
      `block_s1` and, multiplied by 16, 12, 8 and 4, into `block_s2`. */
  method AccumulateLoad(data: seq<uint8>, i0: nat, i: nat, ghost loads: nat, b1: seq<uint32>, b2: seq<uint32>)
    returns (blockS1: seq<uint32>, blockS2: seq<uint32>)
    requires loads < CHUNKS_PER_BLOCK && i == i0 + 16 * loads && i + 16 <= |data|
    requires LanesAfter(data, i0, loads, b1, b2)
    ensures LanesAfter(data, i0, loads + 1, blockS1, blockS2)
  {
    // Of the sixteen multipliers v_16 .. v_1 declared at lines 20-35 only
    // these four are used; v_s1 and v_s2 (lines 15-16) are never used.
    var v16, v12, v8, v4 := DupQ(16), DupQ(12), DupQ(8), DupQ(4);
    var v, d1, d2, d3, d4 := LoadQuarters(data, i);
    blockS1, blockS2 := b1, b2;

    blockS1 := AddQ(blockS1, d1);
    blockS1 := AddQ(blockS1, d2);
    blockS1 := AddQ(blockS1, d3);
    blockS1 := AddQ(blockS1, d4);

    blockS2 := AddQ(blockS2, MulQ(d1, v16));
    blockS2 := AddQ(blockS2, MulQ(d2, v12));
    blockS2 := AddQ(blockS2, MulQ(d3, v8));
    blockS2 := AddQ(blockS2, MulQ(d4, v4));
    LoadStep(data, i0, loads, b1, b2, v, d1, d2, d3, d4, blockS1, blockS2);
  }

  /**
   * One block: 347 loads of 16 bytes starting at `i0`. `block_s1` ends with
   * the plain sum of the block spread over its four lanes, whichever lane
   * each byte landed in, and `block_s2` with the sum of GroupWeight(k) *
   * b_k; no lane can overflow.
   */
  method AccumulateBlock(data: seq<uint8>, i0: nat)
    returns (blockS1: seq<uint32>, blockS2: seq<uint32>, i: nat, blockLen: nat, ghost loads: nat)
    requires i0 + BLOCK_SIZE <= |data|
    ensures |blockS1| == 4 && |blockS2| == 4
    ensures LanesAtMost(blockS1, CHUNKS_PER_BLOCK * 4 * 255)
    ensures LanesAtMost(blockS2, CHUNKS_PER_BLOCK * 40 * 255)
    ensures LaneTotal(blockS1) == Sum(data[i0..i0 + BLOCK_SIZE])
    ensures LaneTotal(blockS2) == GroupWeighted(data[i0..i0 + BLOCK_SIZE])
    ensures i == i0 + BLOCK_SIZE && blockLen == 0 && loads == CHUNKS_PER_BLOCK
  {
    blockLen := BLOCK_SIZE;
    blockS1 := DupQ(0);
    blockS2 := DupQ(0);
    i := i0;
    loads := 0;
    while blockLen >= NEON_CHUNK_SIZE
      invariant loads <= CHUNKS_PER_BLOCK
      invariant i == i0 + 16 * loads && blockLen == BLOCK_SIZE - 16 * loads
      invariant LanesAfter(data, i0, loads, blockS1, blockS2)
    {
      blockS1, blockS2 := AccumulateLoad(data, i0, i, loads, blockS1, blockS2);
      i := i + NEON_CHUNK_SIZE;
      blockLen := blockLen - NEON_CHUNK_SIZE;
      loads := loads + 1;
    }
  }

  // ---------------------------------------------------------------------
  // Folding a block into (s1, s2) (lines 83-91)

  /** Line 89: the block's byte sum added to s1, reduced. */
  function FoldS1(s1: uint32, sumS1: uint32): (r: uint32)
    ensures r < MOD
    ensures s1 + sumS1 < UINT32_RANGE ==> r == (s1 + sumS1) % MOD
  {
    Add32(s1, sumS1) % MOD
  }

  /**
   * Line 91 as written, with `s1` already the value line 89 produced. The
   * first sum is taken in `uint32_t`; `BLOCK_SIZE` is a `size_t`, so the
   * product, the second sum, the subtraction and the modulo are taken in
   * `size_t`, and the subtraction wraps when its right operand is larger.
   */
  function FoldS2(s2: uint32, sumS2: uint32, s1: uint32, sumS1: uint32): (r: uint32)
    ensures r < MOD
  {
    var plus := AddSize(Add32(s2, sumS2), MulSize(BLOCK_SIZE, s1));
    var minus := MulSize(sumS1, BLOCK_SIZE + 1) / 2;
    SubSize(plus, minus) % MOD
  }

  /** The scalar registers of the outer loop: s1, s2, i and len. */
  datatype Regs = Regs(s1: uint32, s2: uint32, i: nat, len: nat)

  /** One outer iteration (lines 41-94): the block at `i` folded into
      (s1, s2), `i` one block further and `len` one block shorter. */
  function NextBlock(r: Regs, data: seq<uint8>): (q: Regs)
    requires r.len >= BLOCK_SIZE && r.i + r.len <= |data| && r.s1 < MOD && r.s2 < MOD
    ensures q.i == r.i + BLOCK_SIZE && q.len == r.len - BLOCK_SIZE && q.s1 < MOD && q.s2 < MOD
  {
    var blk := data[r.i..r.i + BLOCK_SIZE];
    var s1 := FoldS1(r.s1, Sum(blk));
    Regs(s1, FoldS2(r.s2, GroupWeighted(blk), s1, Sum(blk)), r.i + BLOCK_SIZE, r.len - BLOCK_SIZE)
  }

  /**
   * The outer loop (lines 41-94) as a function of the registers: while
   * `len >= 5552` it folds the block at `i` into (s1, s2), advances `i` by
   * one block and takes one block off `len`.
   */
  function BlockLoop(r: Regs, data: seq<uint8>): (q: Regs)
    requires r.i + r.len <= |data| && r.s1 < MOD && r.s2 < MOD
    ensures q.i + q.len <= |data| && q.s1 < MOD && q.s2 < MOD
    ensures q.len < BLOCK_SIZE
    decreases r.len
  {
    if r.len < BLOCK_SIZE then r else BlockLoop(NextBlock(r, data), data)
  }

  /** The scalar tail (lines 98-102): the per-byte recurrence over
      data[i..len], or nothing when `i >= len`. */
  function Tail(st: State, data: seq<uint8>, i: nat, len: nat): (r: State)
    requires Reduced(st) && len <= |data|
    ensures Reduced(r)
    ensures i >= len ==> r == st
  {
    if i < len then Run(st, data[i..len]) else st
  }

  /** What `adler32_neon` of adler32_neon.c returns, as a function of the
      input. */
  function KernelSpec(data: seq<uint8>): (r: uint32)
  {
    if |data| == 0 then 1
    else
      var start := Regs(1, 0, 0, |data|);
      var q := if |data| >= NEON_CHUNK_SIZE then BlockLoop(start, data) else start;
      var st := Tail(State(q.s1, q.s2), data, q.i, q.len);
      Pack(st.s1, st.s2)
  }

  /** One outer iteration: folding the block's sums is one step of
      BlockLoop. */
  lemma FoldBlockStep(data: seq<uint8>, r: Regs, sumS1: uint32, sumS2: uint32)
    requires r.i + r.len == |data| && r.s1 < MOD && r.s2 < MOD && r.len >= BLOCK_SIZE
    requires sumS1 == Sum(data[r.i..r.i + BLOCK_SIZE])
    requires sumS2 == GroupWeighted(data[r.i..r.i + BLOCK_SIZE])
    ensures BlockLoop(r, data)
         == BlockLoop(Regs(FoldS1(r.s1, sumS1), FoldS2(r.s2, sumS2, FoldS1(r.s1, sumS1), sumS1),
                           r.i + BLOCK_SIZE, r.len - BLOCK_SIZE), data)
  {
  }

  /** The outer loop of lines 41-94, entered when `len >= 16`: the
      registers it leaves are those of BlockLoop. */
  method BlockPhase(data: seq<uint8>) returns (s1: uint32, s2: uint32, i: size_t, len: size_t)
    requires NEON_CHUNK_SIZE <= |data| < SIZE_RANGE
    ensures Regs(s1, s2, i, len) == BlockLoop(Regs(1, 0, 0, |data|), data)
  {
    s1, s2, i, len := 1, 0, 0, |data|;
    while len >= BLOCK_SIZE
      invariant i + len == |data| && s1 < MOD && s2 < MOD
      invariant BlockLoop(Regs(s1, s2, i, len), data) == BlockLoop(Regs(1, 0, 0, |data|), data)
      decreases len
    {
      var blockS1, blockS2, next, blockLen, loads := AccumulateBlock(data, i);
      var sumS1 := HorizontalSum(blockS1);
      var sumS2 := HorizontalSum(blockS2);
      FoldBlockStep(data, Regs(s1, s2, i, len), sumS1, sumS2);
      s1 := FoldS1(s1, sumS1);
      s2 := FoldS2(s2, sumS2, s1, sumS1);
      i := next;
      len := len - BLOCK_SIZE;
    }
  }

  /** The scalar loop of lines 98-102: the per-byte recurrence from `i` up
      to `len`. */
  method ScalarTail(data: seq<uint8>, s1: uint32, s2: uint32, i: size_t, len: size_t)
    returns (t1: uint32, t2: uint32)
    requires len <= |data| && s1 < MOD && s2 < MOD
    ensures State(t1, t2) == Tail(State(s1, s2), data, i, len)
  {
    t1, t2 := s1, s2;
    if i >= len {
      return;
    }
    var j := i;
    while j < len
      invariant i <= j <= len && t1 < MOD && t2 < MOD
      invariant State(t1, t2) == Run(State(s1, s2), data[i..j])
    {
      assert data[i..j + 1] == data[i..j] + [data[j]];
      RunAppendByte(State(s1, s2), data[i..j], data[j]);
      t1 := Add32(t1, data[j]) % MOD;
      t2 := Add32(t2, t1) % MOD;
      j := j + 1;
    }
  }

  /**
   * `adler32_neon` of adler32_neon.c. Both halves of the result are reduced
   * below 65521, and the result is the function KernelSpec of the input;
   * empty input gives 1, and inputs shorter than one block give the
   * Adler-32 checksum.
   */
  method Kernel(data: seq<uint8>) returns (r: uint32)
    requires |data| < SIZE_RANGE
    ensures r == KernelSpec(data)
    ensures r % 0x1_0000 < MOD && r / 0x1_0000 < MOD
    ensures data == [] ==> r == 1
    ensures |data| < BLOCK_SIZE ==> r == Checksum(data)
  {
    var len: size_t := |data|;
    if len == 0 {
      return 1;
    }
    if len < BLOCK_SIZE {
      KernelAgreesBelowBlock(data);
    }
    var s1: uint32 := 1;
    var s2: uint32 := 0;
    var i: size_t := 0;
    if len >= NEON_CHUNK_SIZE {
      s1, s2, i, len := BlockPhase(data);
    }
    s1, s2 := ScalarTail(data, s1, s2, i, len);
    PackHalves(s1, s2);
    r := Pack(s1, s2);
  }

  // ---------------------------------------------------------------------
  // What holds of the kernel as written

  /** Inputs shorter than one block never enter the block loop, so the
      kernel runs the per-byte recurrence over the whole input. */
  lemma KernelAgreesBelowBlock(data: seq<uint8>)
    requires |data| < BLOCK_SIZE
    ensures KernelSpec(data) == Checksum(data)
  {
    if |data| > 0 {
      assert data[0..|data|] == data;
      assert Adler(data) == Run(Init, data);
      PackHalves(Adler(data).s1, Adler(data).s2);
    }
  }

  /** The s1 fold of line 89 is right: it gives the s1 of the per-byte
      recurrence over the block. */
  lemma S1FoldCorrect(st: State, blk: seq<uint8>)
    requires Reduced(st) && |blk| == BLOCK_SIZE
    ensures FoldS1(st.s1, Sum(blk)) == Run(st, blk).s1
  {
    RunClosedForm(st, blk);
  }

  /** The block loop consumes |data| / 5552 whole blocks and leaves `len`
      at the remainder. */
  lemma {:induction false} BlockLoopAdvance(r: Regs, data: seq<uint8>)
    requires r.i + r.len <= |data| && r.s1 < MOD && r.s2 < MOD
    ensures BlockLoop(r, data).i == r.i + BLOCK_SIZE * (r.len / BLOCK_SIZE)
    ensures BlockLoop(r, data).len == r.len % BLOCK_SIZE
    decreases r.len
  {
    if r.len >= BLOCK_SIZE {
      BlockLoopAdvance(NextBlock(r, data), data);
      assert (r.len - BLOCK_SIZE) / BLOCK_SIZE == r.len / BLOCK_SIZE - 1;
      assert (r.len - BLOCK_SIZE) % BLOCK_SIZE == r.len % BLOCK_SIZE;
    }
  }

  /** Once a block has been folded, `i` is past `len`: the tail loop does
      not run, and the last |data| % 5552 bytes are never read. */
  lemma TailNeverRunsAfterBlock(data: seq<uint8>)
    requires |data| >= BLOCK_SIZE
    ensures var q := BlockLoop(Regs(1, 0, 0, |data|), data);
      q.i >= BLOCK_SIZE && q.len < BLOCK_SIZE && q.i >= q.len
  {
    BlockLoopAdvance(Regs(1, 0, 0, |data|), data);
    MulMono(1, BLOCK_SIZE, |data| / BLOCK_SIZE, BLOCK_SIZE);
  }

  /** Running the block loop over a longer input whose extra bytes do not
      make up another block: the same blocks are folded, and `len` ends
      longer by the extra bytes. */
  lemma {:induction false} BlockLoopExtend(r: Regs, data: seq<uint8>, extra: seq<uint8>)
    requires r.i + r.len == |data| && r.len % BLOCK_SIZE == 0 && |extra| < BLOCK_SIZE
    requires r.s1 < MOD && r.s2 < MOD
    ensures var q := BlockLoop(r, data);
      BlockLoop(Regs(r.s1, r.s2, r.i, r.len + |extra|), data + extra) == Regs(q.s1, q.s2, q.i, q.len + |extra|)
    decreases r.len
  {
    if r.len >= BLOCK_SIZE {
      var next := NextBlock(r, data);
      assert (data + extra)[r.i..r.i + BLOCK_SIZE] == data[r.i..r.i + BLOCK_SIZE];
      assert NextBlock(Regs(r.s1, r.s2, r.i, r.len + |extra|), data + extra)
          == Regs(next.s1, next.s2, next.i, next.len + |extra|);
      assert (r.len - BLOCK_SIZE) % BLOCK_SIZE == 0;
      BlockLoopExtend(next, data, extra);
    } else {
      assert r.len == 0;
    }
  }

  /** Appending fewer than 5552 bytes to a non-empty whole number of blocks
      does not change the result: the appended bytes are ignored. */
  lemma TailIgnored(data: seq<uint8>, extra: seq<uint8>)
    requires |data| > 0 && |data| % BLOCK_SIZE == 0 && |extra| < BLOCK_SIZE
    ensures KernelSpec(data + extra) == KernelSpec(data)
  {
    var start := Regs(1, 0, 0, |data|);
    BlockLoopExtend(start, data, extra);
    TailNeverRunsAfterBlock(data);
    BlockLoopAdvance(start, data);
  }

  // ---------------------------------------------------------------------
  // Inputs on which the kernel as written differs from Adler-32

  /** A run of zero bytes adds nothing to any of the sums. */
  lemma {:induction false} ZeroRun(z: seq<uint8>, off: nat)
    requires forall k :: 0 <= k < |z| ==> z[k] == 0
    ensures Sum(z) == 0 && Weighted(z) == 0 && GroupWeightedFrom(z, off) == 0
  {
    if z != [] {
      ZeroRun(z[1..], off + 1);
    }
  }

  /** One load of 16 bytes 0xFF at a load boundary (position 16 k) adds
      (16 + 12 + 8 + 4) * 4 * 255 == 40800. */
  lemma FullLoadGroupWeighted(v: seq<uint8>, k: nat)
    requires |v| == 16
    requires forall j :: 0 <= j < 16 ==> v[j] == 0xFF
    ensures GroupWeightedFrom(v, 16 * k) == 40800
  {
    ChunkSums(v, k);
    assert LaneTotal(v[0..4]) == 1020 && LaneTotal(v[4..8]) == 1020;
    assert LaneTotal(v[8..12]) == 1020 && LaneTotal(v[12..16]) == 1020;
  }

  /** n loads of bytes 0xFF from a load boundary (position 16 k):
      40800 per load. */
  lemma {:induction false} FullLoadsGroupWeighted(f: seq<uint8>, n: nat, k: nat)
    requires |f| == 16 * n
    requires forall j :: 0 <= j < |f| ==> f[j] == 0xFF
    ensures GroupWeightedFrom(f, 16 * k) == 40800 * n
    decreases n
  {
    if n > 0 {
      var v, rest := f[..16], f[16..];
      assert f == v + rest;
      GroupWeightedConcat(v, rest, 16 * k);
      FullLoadGroupWeighted(v, k);
      FullLoadsGroupWeighted(rest, n - 1, k + 1);
    }
  }

  /** A run of bytes 0xFF: n 255 and 255 n (n + 1) / 2. */
  lemma {:induction false} FullRun(f: seq<uint8>)
    requires forall k :: 0 <= k < |f| ==> f[k] == 0xFF
    ensures Sum(f) == 255 * |f| && Weighted(f) == 255 * Tri(|f|)
  {
    if f != [] {
      FullRun(f[1..]);
    }
  }

  /**
   * Line 91 weights each byte by 16, 12, 8 or 4 (its group of four in the
   * load) and adds 5552 times the updated s1; the true s2 weights byte k of
   * a block by 5552 - k and adds 5552 times the s1 from before the block.
   * A byte 1 followed by 5551 zeros gives s2 == 8344, where Adler-32 gives
   * 11104.
   */
  lemma WrongWeights(z: seq<uint8>)
    requires |z| == BLOCK_SIZE - 1 && forall k :: 0 <= k < |z| ==> z[k] == 0
    ensures KernelSpec([1] + z) == 8344 * 0x1_0000 + 2
    ensures Checksum([1] + z) == 11104 * 0x1_0000 + 2
  {
    var d := [1 as uint8] + z;
    assert d[1..] == z && d[0] == 1;
    ZeroRun(z, 1);
    assert Sum(d) == 1 && GroupWeighted(d) == 16;
    assert Weighted(d) == 5552;
    assert FoldS1(1, 1) == 2 && FoldS2(0, 16, 2, 1) == 8344;
    KernelOneBlock(d);
    PackHalves(2, 8344);
    ChecksumClosedForm(d);
  }

  /**
   * The bytes past the last whole block are dropped: for every non-empty
   * input made of whole blocks and every non-zero byte b, appending b leaves
   * the kernel's result unchanged although it changes the checksum.
   */
  lemma TailDropped(data: seq<uint8>, b: uint8)
    requires |data| > 0 && |data| % BLOCK_SIZE == 0 && b != 0
    ensures KernelSpec(data + [b]) == KernelSpec(data)
    ensures Checksum(data + [b]) != Checksum(data)
  {
    TailIgnored(data, [b]);
    AdlerAppendByte(data, b);
    var st := Adler(data);
    PackHalves(st.s1, st.s2);
    PackHalves(Adler(data + [b]).s1, Adler(data + [b]).s2);
    assert Adler(data + [b]).s1 != st.s1;
  }

  /** On a single block the kernel folds once from (1, 0) and skips the
      tail. */
  lemma KernelOneBlock(d: seq<uint8>)
    requires |d| == BLOCK_SIZE
    ensures var s1 := FoldS1(1, Sum(d));
      KernelSpec(d) == Pack(s1, FoldS2(0, GroupWeighted(d), s1, Sum(d)))
  {
    assert d[0..BLOCK_SIZE] == d;
    var q := NextBlock(Regs(1, 0, 0, |d|), d);
    assert BlockLoop(Regs(1, 0, 0, |d|), d) == q;
  }

  /** The fold of line 91 for a block sum of 65520 and a grouped weighted
      sum of 656640, starting from (1, 0). */
  lemma WrapFold()
    ensures FoldS1(1, 65520) == 0
    ensures Add32(0, 656640) + BLOCK_SIZE * 0 < 65520 * (BLOCK_SIZE + 1) / 2
    ensures FoldS2(0, 656640, 0, 65520) == 22071
    ensures (656640 - 181916280) % MOD == 36967
  {
  }

  /** The sums of 256 bytes 0xFF, one byte 0xF0 and 5295 zeros. */
  lemma WrapInputSums(f: seq<uint8>, z: seq<uint8>)
    requires |f| == 256 && forall k :: 0 <= k < |f| ==> f[k] == 0xFF
    requires |z| == 5295 && forall k :: 0 <= k < |z| ==> z[k] == 0
    ensures var d := f + ([0xF0] + z);
      && |d| == BLOCK_SIZE && Sum(d) == 65520 && Weighted(d) == 355382400
      && GroupWeighted(d) == 656640
  {
    var t := [0xF0 as uint8] + z;
    FullRun(f);
    ZeroRun(z, 257);
    assert t[1..] == z && t[0] == 0xF0;
    assert Sum(t) == 240 && Weighted(t) == 5296 * 240;
    SumConcat(f, t);
    WeightedConcat(f, t);
    TriFormula(256);
    FullLoadsGroupWeighted(f, 16, 0);
    assert GroupWeightedFrom(t, 256) == 3840;
    GroupWeightedConcat(f, t, 0);
  }

  /**
   * On line 91 the subtrahend `sum_s1 * 5553 / 2` can exceed the rest of the
   * expression; the `size_t` difference then wraps to 2^64 minus the
   * shortfall, and as 2^64 is not a multiple of 65521 the residue is not
   * that of the true difference. 256 bytes 0xFF, one 0xF0 and 5295 zeros
   * give a block sum of 65520, so s1 becomes 0, and 656640 - 181916280
   * wraps: s2 == 22071, where the unwrapped formula gives 36967 and
   * Adler-32 gives 2048.
   */
  lemma SubtractionWraps(f: seq<uint8>, z: seq<uint8>)
    requires |f| == 256 && forall k :: 0 <= k < |f| ==> f[k] == 0xFF
    requires |z| == 5295 && forall k :: 0 <= k < |z| ==> z[k] == 0
    ensures var d := f + ([0xF0] + z);
      && |d| == BLOCK_SIZE && Sum(d) == 65520 && GroupWeighted(d) == 656640
      && FoldS1(1, Sum(d)) == 0
      && Add32(0, GroupWeighted(d)) + BLOCK_SIZE * 0 < Sum(d) * (BLOCK_SIZE + 1) / 2
      && FoldS2(0, GroupWeighted(d), 0, Sum(d)) == 22071
      && (656640 - 181916280) % MOD == 36967
      && KernelSpec(d) == 22071 * 0x1_0000
      && Checksum(d) == 2048 * 0x1_0000
  {
    var d := f + ([0xF0] + z);
    WrapInputSums(f, z);
    WrapFold();
    KernelOneBlock(d);
    PackHalves(0, 22071);
    ChecksumClosedForm(d);
    assert (BLOCK_SIZE + 355382400) % MOD == 2048;
  }
}
