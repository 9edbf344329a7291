/**
 * adler32_block.c: the blocked scalar kernel. Inside a block of at most
 * 5552 bytes it adds into s1 and s2 without reducing them, and reduces both
 * once at the end of the block.
 */
module Blocked {
  import opened CTypes
  import opened Adler32

  /** `BLOCK_SIZE`: the longest run of unreduced additions that cannot
      overflow a `uint32_t`. */
  const BLOCK_SIZE: nat := 5552

  /** Inputs shorter than this take the per-byte-modulo path. */
  const SHORT_INPUT: nat := 16

  /** `blocks` and `remaining` of adler32_block.c: the input splits into full
      blocks and a remainder shorter than one block. */
  function Partition(len: nat): (r: (nat, nat))
    ensures r.0 * BLOCK_SIZE + r.1 == len
    ensures r.1 < BLOCK_SIZE
    ensures r.0 <= len
  {
    (len / BLOCK_SIZE, len % BLOCK_SIZE)
  }

  /**
   * The largest raw s2 after n unreduced steps that start from reduced sums:
   * s1 and s2 both start at 65520 and every byte is 0xFF, so the raw s2 is
   * 65520 + n * 65520 + 255 * n (n + 1) / 2.
   */
  function RawS2Bound(n: nat): (r: nat)
  {
    255 * Tri(n) + (MOD - 1) * (n + 1)
  }

  lemma TriMono(n: nat, m: nat)
    requires n <= m
    ensures Tri(n) <= Tri(m)
  {
    TriFormula(n);
    TriFormula(m);
    MulMono(n, n + 1, m, m + 1);
  }

  /** 5552 bytes fit: the worst raw s2 is 4,294,690,200 < 2^32. */
  lemma BlockSizeFits()
    ensures RawS2Bound(BLOCK_SIZE) == 4_294_690_200
    ensures RawS2Bound(BLOCK_SIZE) < UINT32_RANGE
  {
    TriFormula(BLOCK_SIZE);
  }

  /** No longer block fits: 5552 is the largest n with
      255 n (n + 1) / 2 + 65520 (n + 1) <= 2^32 - 1. */
  lemma BlockSizeIsLargest(n: nat)
    requires n > BLOCK_SIZE
    ensures RawS2Bound(n) > UINT32_RANGE - 1
  {
    TriMono(BLOCK_SIZE + 1, n);
    TriFormula(BLOCK_SIZE + 1);
  }

  /** The bound is attained: from s1 == s2 == 65520, a block of n bytes
      0xFF ends with the raw s2 RawS2Bound(n). */
  lemma AllFFIsWorst(n: nat)
    ensures (MOD - 1) + n * (MOD - 1) + Weighted(Fill(n, 0xFF)) == RawS2Bound(n)
  {
    FillSums(n, 0xFF);
    MulSucc(n, MOD - 1);
  }

  /** Entering with reduced sums, k <= 5552 unreduced steps keep s1 and s2
      within what a `uint32_t` holds. */
  lemma RawSumsFit(s1: int, s2: int, blk: seq<uint8>)
    requires 0 <= s1 < MOD && 0 <= s2 < MOD && |blk| <= BLOCK_SIZE
    ensures s1 + Sum(blk) < UINT32_RANGE
    ensures s2 + |blk| * s1 + Weighted(blk) <= RawS2Bound(|blk|) < UINT32_RANGE
  {
    var k := |blk|;
    WeightedBound(blk);
    MulMono(k, s1, k, MOD - 1);
    MulSucc(k, MOD - 1);
    assert (MOD - 1) * (k + 1) == k * (MOD - 1) + (MOD - 1);
    assert s2 + k * s1 + Weighted(blk) <= RawS2Bound(k);
    TriMono(k, BLOCK_SIZE);
    assert (MOD - 1) * (k + 1) <= (MOD - 1) * (BLOCK_SIZE + 1);
    assert RawS2Bound(k) <= RawS2Bound(BLOCK_SIZE);
    BlockSizeFits();
  }

  /**
   * The inner loops of adler32_block.c (over one block, and over the
   * remainder): n unreduced steps. The raw sums are the closed form of the
   * fold before its final reduction.
   */
  method RawSums(data: seq<uint8>, off: nat, n: nat, s1: uint32, s2: uint32)
    returns (r1: uint32, r2: uint32)
    requires off + n <= |data| && n <= BLOCK_SIZE
    requires s1 < MOD && s2 < MOD
    ensures r1 == s1 + Sum(data[off..off + n])
    ensures r2 == s2 + n * s1 + Weighted(data[off..off + n])
  {
    r1, r2 := s1, s2;
    var i := 0;
    while i < n
      invariant 0 <= i <= n
      invariant r1 == s1 + Sum(data[off..off + i])
      invariant r2 == s2 + i * s1 + Weighted(data[off..off + i])
    {
      var done, b := data[off..off + i], data[off + i];
      assert data[off..off + i + 1] == done + [b];
      AppendByte(done, b);
      MulSucc(i, s1);
      RawSumsFit(s1, s2, done + [b]);
      r1 := Add32(r1, b);
      r2 := Add32(r2, r1);
      i := i + 1;
    }
  }

  /** After the checksum of the first `off` bytes, n unreduced steps and one
      reduction give the checksum of the first off + n bytes. */
  lemma ReducedPrefix(data: seq<uint8>, off: nat, n: nat, r1: int, r2: int)
    requires off + n <= |data|
    requires r1 == Adler(data[..off]).s1 + Sum(data[off..off + n])
    requires r2 == Adler(data[..off]).s2 + n * Adler(data[..off]).s1 + Weighted(data[off..off + n])
    ensures Adler(data[..off + n]) == State(r1 % MOD, r2 % MOD)
  {
    var st, blk := Adler(data[..off]), data[off..off + n];
    RunClosedForm(st, blk);
    assert data[..off + n] == data[..off] + blk;
    AdlerConcat(data[..off], blk);
  }

  /** `adler32_neon` of adler32_block.c: equal to the sequential kernel for
      every input. */
  method Kernel(data: seq<uint8>) returns (r: uint32)
    requires |data| < SIZE_RANGE
    ensures r == Checksum(data)
    ensures data == [] ==> r == 1
  {
    var len: size_t := |data|;
    var s1: uint32 := 1;
    var s2: uint32 := 0;
    var i: size_t;

    if len < SHORT_INPUT {
      i := 0;
      while i < len
        invariant 0 <= i <= len
        invariant s1 < MOD && s2 < MOD
        invariant State(s1, s2) == Adler(data[..i])
      {
        AdlerAppendByte(data[..i], data[i]);
        assert data[..i + 1] == data[..i] + [data[i]];
        s1 := Add32(s1, data[i]) % MOD;
        s2 := Add32(s2, s1) % MOD;
        i := i + 1;
      }
      assert data[..i] == data;
      PackHalves(s1, s2);
      return Pack(s1, s2);
    }

    var parts := Partition(len);
    var blocks: size_t, remaining: size_t := parts.0, parts.1;

    var block: size_t := 0;
    while block < blocks
      invariant 0 <= block <= blocks
      invariant s1 < MOD && s2 < MOD
      invariant State(s1, s2) == Adler(data[..block * BLOCK_SIZE])
    {
      var off: size_t := block * BLOCK_SIZE;
      s1, s2 := RawSums(data, off, BLOCK_SIZE, s1, s2);
      ReducedPrefix(data, off, BLOCK_SIZE, s1, s2);
      s1 := s1 % MOD;
      s2 := s2 % MOD;
      block := block + 1;
    }

    var off: size_t := blocks * BLOCK_SIZE;
    s1, s2 := RawSums(data, off, remaining, s1, s2);
    ReducedPrefix(data, off, remaining, s1, s2);
    s1 := s1 % MOD;
    s2 := s2 % MOD;
    assert data[..off + remaining] == data;
    PackHalves(s1, s2);
    r := Pack(s1, s2);
  }
}
