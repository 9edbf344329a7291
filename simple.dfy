/**
 * adler32_simple.c: the byte-at-a-time reference kernel, the ground truth
 * the other two kernels are compared with.
 */
module Simple {
  import opened CTypes
  import opened Adler32

  /**
   * `adler32_neon` of adler32_simple.c. Each iteration reduces both sums, so
   * after every iteration s1 and s2 are below 65521 and the `uint32_t`
   * additions never wrap.
   */
  method Kernel(data: seq<uint8>) returns (r: uint32)
    requires |data| < SIZE_RANGE
    ensures r == Checksum(data)
    ensures data == [] ==> r == 1
  {
    var len: size_t := |data|;
    var s1: uint32 := 1;
    var s2: uint32 := 0;
    var i: size_t := 0;
    while i < len
      invariant 0 <= i <= len
      invariant s1 < MOD && s2 < MOD
      invariant State(s1, s2) == Adler(data[..i])
    {
      AdlerAppendByte(data[..i], data[i]);
      assert data[..i + 1] == data[..i] + [data[i]];
      s1 := Add32(s1, data[i]) % MOD;
      s2 := Add32(s2, s1) % MOD;
      i := i + 1;
    }
    assert data[..i] == data;
    PackHalves(s1, s2);
    r := Pack(s1, s2);
  }
}
