/**
 * The Adler-32 checksum of RFC 1950 (section 2.2, field ADLER32; sample
 * code in section 9): the specification every kernel is proved against.
 *
 * s1 starts at 1 and s2 at 0; for every byte b in order, s1 := (s1 + b) mod
 * 65521 and then s2 := (s2 + s1) mod 65521; the checksum is s2 * 65536 + s1.
 */
module Adler32 {
  import opened CTypes

  /** The largest prime below 2^16 (`MOD_ADLER` in every kernel). */
  const MOD: int := 65521

  /** The pair of running sums. */
  datatype State = State(s1: int, s2: int)

  /** Both sums are fully reduced modulo MOD. */
  predicate Reduced(st: State)
  {
    0 <= st.s1 < MOD && 0 <= st.s2 < MOD
  }

  /** The state before any byte is processed. */
  const Init: State := State(1, 0)

  /** One step of the recurrence: add the byte to s1, then s1 to s2. */
  function Step(st: State, b: uint8): (r: State)
    ensures Reduced(r)
  {
    var s1 := (st.s1 + b) % MOD;
    State(s1, (st.s2 + s1) % MOD)
  }

  /** The recurrence run over `data` from state `st`: a left fold of Step. */
  function Run(st: State, data: seq<uint8>): (r: State)
    requires Reduced(st)
    ensures Reduced(r)
    decreases |data|
  {
    if data == [] then st else Step(Run(st, data[..|data| - 1]), data[|data| - 1])
  }

  /** The final `(s1, s2)` of Adler-32 over `data`. */
  function Adler(data: seq<uint8>): (r: State)
    ensures Reduced(r)
    ensures data == [] ==> r == Init
  {
    Run(Init, data)
  }

  /** The plain sum of the bytes. */
  function Sum(data: seq<uint8>): (r: nat)
    ensures r <= 255 * |data|
  {
    if data == [] then 0 else data[0] + Sum(data[1..])
  }

  /** The n-th triangular number 1 + 2 + ... + n. */
  function Tri(n: nat): (r: nat)
  {
    if n == 0 then 0 else Tri(n - 1) + n
  }

  /** Tri(n) is n (n + 1) / 2. */
  lemma {:induction false} TriFormula(n: nat)
    ensures 2 * Tri(n) == n * (n + 1)
  {
    if n > 0 {
      TriFormula(n - 1);
      assert n * (n + 1) == (n - 1) * n + 2 * n;
    }
  }

  /**
   * The position-weighted sum of RFC 1950: with n == |data|, the byte at
   * index k (counting from 0) has weight n - k.
   */
  function Weighted(data: seq<uint8>): (r: nat)
  {
    if data == [] then 0 else |data| * data[0] + Weighted(data[1..])
  }

  /** Every weight is at most n and every byte at most 255. */
  lemma {:induction false} WeightedBound(data: seq<uint8>)
    ensures Weighted(data) <= 255 * Tri(|data|)
  {
    if data != [] {
      WeightedBound(data[1..]);
      MulMono(|data|, data[0], |data|, 255);
    }
  }

  /**
   * `(s2 << 16) | s1` computed on `uint32_t`. The shift keeps the low 16 bits
   * of s2 in the high half and leaves the low half zero, so for s1 < 2^16 the
   * bitwise or adds s1 into that low half. Every kernel packs reduced sums.
   */
  function Pack(s1: uint32, s2: uint32): (r: uint32)
    requires s1 < 0x1_0000
  {
    (s2 * 0x1_0000) % UINT32_RANGE + s1
  }

  /** The 32-bit Adler-32 value of `data`, as a kernel returns it. */
  function Checksum(data: seq<uint8>): (r: uint32)
    ensures r == Adler(data).s2 * 65536 + Adler(data).s1
    ensures r % 65536 == Adler(data).s1 && r / 65536 == Adler(data).s2
  {
    var st := Adler(data);
    PackHalves(st.s1, st.s2);
    Pack(st.s1, st.s2)
  }

  // ---------------------------------------------------------------------
  // Packing

  /** With both halves below 2^16 the shift-or is `s2 * 65536 + s1`, and the
      low and high 16 bits give back s1 and s2. */
  lemma PackHalves(s1: uint32, s2: uint32)
    requires s1 < 0x1_0000 && s2 < 0x1_0000
    ensures Pack(s1, s2) == s2 * 65536 + s1
    ensures Pack(s1, s2) % 65536 == s1 && Pack(s1, s2) / 65536 == s2
  {
    MulMono(s2, 0x1_0000, 0xFFFF, 0x1_0000);
  }

  /** Empty input gives 1: the fold does not run and `(0 << 16) | 1 == 1`. */
  lemma ChecksumEmpty()
    ensures Checksum([]) == 1
  {
  }

  // ---------------------------------------------------------------------
  // Arithmetic of the sums

  lemma {:induction false} SumConcat(a: seq<uint8>, b: seq<uint8>)
    ensures Sum(a + b) == Sum(a) + Sum(b)
  {
    if a == [] {
      assert a + b == b;
    } else {
      assert (a + b)[1..] == a[1..] + b;
      SumConcat(a[1..], b);
    }
  }

  lemma {:induction false} WeightedConcat(a: seq<uint8>, b: seq<uint8>)
    ensures Weighted(a + b) == Weighted(a) + |b| * Sum(a) + Weighted(b)
  {
    if a == [] {
      assert a + b == b;
    } else {
      assert (a + b)[1..] == a[1..] + b;
      WeightedConcat(a[1..], b);
      Distrib(|a|, |b|, a[0]);
      Distrib(|b|, a[0], Sum(a[1..]));
      calc {
        Weighted(a + b);
        (|a| + |b|) * a[0] + Weighted(a[1..] + b);
        (|a| + |b|) * a[0] + Weighted(a[1..]) + |b| * Sum(a[1..]) + Weighted(b);
        |a| * a[0] + Weighted(a[1..]) + |b| * (a[0] + Sum(a[1..])) + Weighted(b);
      }
    }
  }

  /** Appending one byte adds it to the sum and the new running sum to the
      weighted sum. */
  lemma AppendByte(a: seq<uint8>, b: uint8)
    ensures Sum(a + [b]) == Sum(a) + b
    ensures Weighted(a + [b]) == Weighted(a) + Sum(a) + b
  {
    SumConcat(a, [b]);
    WeightedConcat(a, [b]);
  }

  /** Multiplication distributes over addition, on either side. */
  lemma Distrib(x: int, y: int, z: int)
    ensures (x + y) * z == x * z + y * z
    ensures x * (y + z) == x * y + x * z
  {
  }

  lemma MulSucc(n: int, x: int)
    ensures (n + 1) * x == n * x + x
  {
  }

  lemma ModAdd(x: int, y: int)
    ensures (x % MOD + y % MOD) % MOD == (x + y) % MOD
    ensures (x % MOD + y) % MOD == (x + y) % MOD
  {
  }

  // ---------------------------------------------------------------------
  // The fold

  /** Processing `a + [b]` is one more step after processing `a`. */
  lemma RunAppendByte(st: State, a: seq<uint8>, b: uint8)
    requires Reduced(st)
    ensures Run(st, a + [b]) == Step(Run(st, a), b)
  {
    assert (a + [b])[..|a|] == a;
  }

  /** Processing `a + b` is processing `a`, then `b` from where `a` left off. */
  lemma {:induction false} RunConcat(st: State, a: seq<uint8>, b: seq<uint8>)
    requires Reduced(st)
    ensures Run(st, a + b) == Run(Run(st, a), b)
    decreases |b|
  {
    if b == [] {
      assert a + b == a;
    } else {
      var b', x := b[..|b| - 1], b[|b| - 1];
      assert a + b == (a + b') + [x];
      assert b == b' + [x];
      RunAppendByte(st, a + b', x);
      RunConcat(st, a, b');
      RunAppendByte(Run(st, a), b', x);
    }
  }

  /** One step from reduced sums x1 mod MOD and x2 mod MOD is the reduction
      of the unreduced step x1 + b, x2 + x1 + b. */
  lemma StepOfReduced(x1: int, x2: int, b: uint8)
    ensures Step(State(x1 % MOD, x2 % MOD), b) == State((x1 + b) % MOD, (x2 + x1 + b) % MOD)
  {
    ModAdd(x1, b);
    ModAdd(x2, x1 + b);
  }

  /**
   * Closed form of the fold from any reduced state: the reduction can be
   * deferred to the end, because
   *   s1' == (s1 + Sum(data)) mod MOD and
   *   s2' == (s2 + |data| * s1 + Weighted(data)) mod MOD.
   */
  lemma {:induction false} RunClosedForm(st: State, data: seq<uint8>)
    requires Reduced(st)
    ensures Run(st, data).s1 == (st.s1 + Sum(data)) % MOD
    ensures Run(st, data).s2 == (st.s2 + |data| * st.s1 + Weighted(data)) % MOD
    decreases |data|
  {
    if data != [] {
      var a, b := data[..|data| - 1], data[|data| - 1];
      assert data == a + [b];
      RunAppendByte(st, a, b);
      RunClosedForm(st, a);
      AppendByte(a, b);
      var m := |a| * st.s1;
      MulSucc(|a|, st.s1);
      var x1 := st.s1 + Sum(a);
      var x2 := st.s2 + m + Weighted(a);
      StepOfReduced(x1, x2, b);
      assert x2 + x1 + b == st.s2 + |data| * st.s1 + Weighted(data);
    }
  }

  /** Section 2.2 of RFC 1950: s1 is 1 plus the byte sum and s2 is n plus the
      weighted sum, both modulo 65521. */
  lemma AdlerClosedForm(data: seq<uint8>)
    ensures Adler(data) == State((1 + Sum(data)) % MOD, (|data| + Weighted(data)) % MOD)
  {
    RunClosedForm(Init, data);
    assert |data| * Init.s1 == |data|;
  }

  /** The checksum in closed form: the high half is n plus the weighted sum
      and the low half 1 plus the byte sum, both modulo 65521. */
  lemma ChecksumClosedForm(data: seq<uint8>)
    ensures Checksum(data) == ((|data| + Weighted(data)) % MOD) * 65536 + (1 + Sum(data)) % MOD
  {
    AdlerClosedForm(data);
  }

  /** The prefix property of the sequential kernel: the state for
      `data + [b]` is one step from the state for `data`. */
  lemma AdlerAppendByte(data: seq<uint8>, b: uint8)
    ensures Adler(data + [b]) == Step(Adler(data), b)
  {
    RunAppendByte(Init, data, b);
  }

  /** The checksum over a concatenation resumes from the state of the prefix. */
  lemma AdlerConcat(a: seq<uint8>, b: seq<uint8>)
    ensures Adler(a + b) == Run(Adler(a), b)
  {
    RunConcat(Init, a, b);
  }

  /** n copies of the byte b. */
  function Fill(n: nat, b: uint8): (r: seq<uint8>)
    ensures |r| == n
  {
    seq(n, _ => b)
  }

  /** The sums over n copies of one byte: n b and b n (n + 1) / 2. */
  lemma {:induction false} FillSums(n: nat, b: uint8)
    ensures Sum(Fill(n, b)) == n * b
    ensures Weighted(Fill(n, b)) == b * Tri(n)
  {
    if n > 0 {
      FillSums(n - 1, b);
      assert Fill(n, b)[1..] == Fill(n - 1, b);
      MulSucc(n - 1, b);
      assert Tri(n) == Tri(n - 1) + n;
      Distrib(b, Tri(n - 1), n);
    }
  }

  /** One step never makes a `uint32_t` overflow when it starts reduced:
      `s1 + b <= 65775` and `s2 + s1 < 131042`. */
  lemma StepNoOverflow(st: State, b: uint8)
    requires Reduced(st)
    ensures st.s1 + b <= 65775
    ensures st.s2 + (st.s1 + b) % MOD < 131042
  {
  }
}
