# Adler-32 kernels in C, modelled in Dafny

The repository has three C implementations of one function,
`uint32_t adler32_neon(const uint8_t *data, size_t len)`. Each returns the
Adler-32 checksum of RFC 1950 (section 2.2, field ADLER32), or is meant to:

- `adler32_simple.c` is the sequential reference: one byte at a time, with
  both sums reduced modulo 65521 at every step.
- `adler32_block.c` adds into unreduced `uint32_t` sums over blocks of 5552
  bytes, reducing once per block. Inputs shorter than 16 bytes take a
  per-byte path.
- `adler32_neon.c` processes each 5552-byte block as 347 loads of 16 bytes.
  It widens every load into four `uint32x4_t` quarters and keeps a lane-wise
  plain sum and a lane-wise weighted sum. It then sums the lanes, folds the
  block into (s1, s2) with a closed-form expression, and runs a scalar tail.

The models, one module per source file, plus shared modules:

- `CTypes` (`ctypes.dfy`): the C integer types as subset types of `int`.
  Unsigned wrap-around is written out explicitly, modulo 2^32 for `uint32_t`
  and 2^64 for `size_t` (AArch64 is LP64).
- `Adler32` (`adler.dfy`): the specification. `Adler` is the left fold of the
  per-byte step, and `Checksum` packs the result as `(s2 << 16) | s1`. It
  also holds the closed form of section 2.2 of RFC 1950 and the append and
  concatenation laws.
- `Simple` (`simple.dfy`) and `Blocked` (`block.dfy`): the two scalar
  kernels. Each is a method with the same loops as the C code, proved equal
  to `Checksum` for every input. `Blocked` also proves the overflow bound
  behind the constant 5552 and that deferring the reduction is sound.
- `Lanes` (`lanes.dfy`): the NEON intrinsics the vector kernel calls. They
  become pure functions on 4-, 8- and 16-element sequences.
- `Neon` (`neon.dfy`): the vector kernel as written, as a method with the
  C code's nested loops.
  - It is proved equal to a functional model, `KernelSpec`, for every input.
  - It is proved equal to the checksum only where that holds, below one
    block.
  - Lemmas prove which parts are right: the lane sums, no lane overflow, the
    s1 fold, 347 loads per block.
  - Counterexample lemmas exhibit the three defects (see "Findings").
- `NeonFixed` (`neon_fixed.dfy`): the same kernel with the three defects
  corrected. It keeps the same loop structure and is proved equal to the
  checksum for every input.

Facts about the code that the model follows:

- The NEON kernel departs from Adler-32 from 5552 bytes on (see
  "Findings").
- 5552 is the largest n with `255 n (n + 1) / 2 + 65520 (n + 1) <= 2^32 - 1`:
  the worst raw s2 of a block that starts from reduced sums still fits a
  `uint32_t`. The model proves this bound.
- `adler32_block.c` adds the remainder unreduced, like a block, and reduces
  once at the end (lines 41-48).
- The build links one of the three files, so there is no dispatcher.

## Model

| member | source | states |
|---|---|---|
| Adler32.Step | adler32_simple.c:13-14 | after every step both sums are below 65521 |
| Adler32.StepNoOverflow | adler32_simple.c:13-14 | from reduced sums, `s1 + data[i] <= 65775` and `s2 + s1 < 131042`, so no `uint32_t` addition wraps |
| Adler32.AdlerAppendByte | adler32_simple.c:12-15 | the state for `data + [b]` is one step applied to the state for `data` |
| Adler32.AdlerClosedForm | adler32_simple.c:12-15 | the final s1 is `(1 + sum of bytes) mod 65521` and s2 is `(n + sum of (n - k) b_k) mod 65521` (section 2.2 of RFC 1950) |
| Adler32.ChecksumClosedForm | adler32_simple.c:12-17 | the returned value is the closed-form s2 times 65536 plus the closed-form s1 |
| Adler32.RunClosedForm | adler32_block.c:29-36 | from any reduced state, running the recurrence equals adding the raw sums and reducing once at the end |
| Adler32.AdlerConcat | adler32_block.c:25-44 | the checksum over `a + b` resumes from the state reached after `a` |
| Adler32.Checksum | adler32_simple.c:17 | the packed result is `s2 * 65536 + s1`; its low 16 bits are s1 and its high 16 bits are s2 |
| Adler32.PackHalves | adler32_simple.c:17 | for halves below 2^16, the shift-or equals `s2 * 65536 + s1`, and the halves come back out |
| Adler32.ChecksumEmpty | adler32_simple.c:8-17 | empty input gives 1 |
| Adler32.WeightedBound | adler32_block.c:29-32 | the position-weighted sum of n bytes is at most 255 n (n + 1) / 2 |
| Simple.Kernel | adler32_simple.c:7-18 | the sequential loop returns the Adler-32 checksum of every input, and 1 for empty input |
| Blocked.Partition | adler32_block.c:22-23 | `blocks * 5552 + remaining == len`, `remaining < 5552` and `blocks <= len`; the kernel takes both from it |
| Blocked.BlockSizeFits | adler32_block.c:21 | the worst raw s2 after 5552 unreduced steps is 4,294,690,200 < 2^32 |
| Blocked.BlockSizeIsLargest | adler32_block.c:21 | no block longer than 5552 has this guarantee |
| Blocked.AllFFIsWorst | adler32_block.c:29-32 | the bound is reached by 0xFF bytes entering with both sums at 65520 |
| Blocked.RawSumsFit | adler32_block.c:29-32 | from reduced sums, up to 5552 unreduced steps keep s1 and s2 below 2^32 |
| Blocked.RawSums | adler32_block.c:29-32 | the unreduced inner loop (also lines 41-44) leaves `s1 + sum` and `s2 + n s1 + weighted sum`, without wrapping |
| Blocked.ReducedPrefix | adler32_block.c:35-36 | reducing the raw sums once gives the checksum state after the block (also lines 47-48) |
| Blocked.Kernel | adler32_block.c:5-51 | the blocked kernel returns the Adler-32 checksum of every input (so the sequential kernel's result), and 1 for empty input |
| Lanes.WidenQuarters | adler32_neon.c:54-63 | the four double widenings hold bytes 0-3, 4-7, 8-11 and 12-15 of the load, in lane order |
| Lanes.LoadQuarters | adler32_neon.c:51-63 | one load at `i` yields `data[i..i+16]` and its four quarters |
| Lanes.HorizontalSum | adler32_neon.c:83-86 | the `uint32_t` sum of the four lanes equals their exact total when that total fits |
| Neon.LoadSum | adler32_neon.c:54-69 | the plain sum of a load is the total over its widened quarters |
| Neon.ChunkSums | adler32_neon.c:73-76 | the grouped weighted sum of a load is 16, 12, 8 and 4 times the totals of its quarters |
| Neon.S1Step | adler32_neon.c:66-69 | one load adds the quarter totals to `block_s1`; after c + 1 loads each lane is at most (c + 1) * 4 * 255 |
| Neon.S2Step | adler32_neon.c:73-76 | one load adds 16, 12, 8 and 4 times the quarter totals to `block_s2`; each lane stays at most (c + 1) * 40 * 255 |
| Neon.LoadStep | adler32_neon.c:51-79 | one inner iteration keeps the lanes equal to the sums over the bytes loaded so far, within the lane bounds |
| Neon.AccumulateLoad | adler32_neon.c:51-76 | the same, for the method that performs the iteration |
| Neon.AccumulateBlock | adler32_neon.c:42-80 | the inner loop runs 347 times and advances `i` by 5552; `block_s1` totals the byte sum of the block and `block_s2` totals the grouped weighted sum; lanes stay at most 347 * 4 * 255 and 347 * 40 * 255 |
| Neon.FoldS1 | adler32_neon.c:89 | the new s1 is reduced, and equals `(s1 + sum_s1) mod 65521` when the sum does not wrap |
| Neon.FoldS2 | adler32_neon.c:91 | the new s2 is reduced |
| Neon.NextBlock | adler32_neon.c:41-94 | one outer iteration moves `i` forward by 5552 and takes 5552 off `len`, keeping both sums reduced |
| Neon.BlockLoop | adler32_neon.c:41-94 | the outer loop leaves `len < 5552`, `i + len` within the input and both sums reduced |
| Neon.Tail | adler32_neon.c:98-102 | the tail leaves both sums reduced, and leaves the state unchanged when `i >= len` |
| Neon.BlockPhase | adler32_neon.c:41-94 | the loops leave the registers of the functional model BlockLoop |
| Neon.ScalarTail | adler32_neon.c:98-102 | the scalar loop leaves the state of the functional model Tail |
| Neon.Kernel | adler32_neon.c:5-105 | the kernel returns KernelSpec of its input; both halves are below 65521; empty input gives 1; inputs shorter than 5552 bytes give the Adler-32 checksum |
| Neon.KernelAgreesBelowBlock | adler32_neon.c:41-104 | below 5552 bytes the block loop does not run, and the result is the checksum |
| Neon.S1FoldCorrect | adler32_neon.c:89 | the s1 fold gives the s1 of the per-byte recurrence over the block |
| Neon.BlockLoopAdvance | adler32_neon.c:41-93 | the block loop consumes `len / 5552` blocks and leaves `len mod 5552` in `len` |
| Neon.TailNeverRunsAfterBlock | adler32_neon.c:93-98 | once a block has run, `i >= 5552 > len`, so the tail loop does not run |
| Neon.BlockLoopExtend | adler32_neon.c:41-94 | appending fewer than 5552 bytes to whole blocks folds the same blocks and leaves `len` longer by the appended count |
| Neon.TailIgnored | adler32_neon.c:93-102 | appending fewer than 5552 bytes to a non-empty whole number of blocks does not change the result |
| Neon.KernelOneBlock | adler32_neon.c:41-104 | on exactly one block the result is one fold from (1, 0), packed |
| Neon.WrongWeights | adler32_neon.c:73-91 | byte 1 followed by 5551 zeros gives s2 = 8344; the checksum has s2 = 11104 |
| Neon.TailDropped | adler32_neon.c:93-102 | appending any non-zero byte to whole blocks leaves the result unchanged although the checksum changes |
| Neon.WrapFold | adler32_neon.c:89-91 | for a block sum of 65520 the subtrahend exceeds the rest of the expression, and the wrapped `size_t` difference reduces to 22071, not 36967 |
| Neon.SubtractionWraps | adler32_neon.c:91 | 256 bytes 0xFF, one 0xF0 and 5295 zeros give s2 = 22071; the checksum has s2 = 2048 |
| NeonFixed.WeightedLoad | adler32_neon.c:73-76 | with multipliers 16-j, the four weighted quarters of a load make up its position-weighted sum |
| NeonFixed.BlockWeightedFits | adler32_neon.c:38 | the position-weighted sum of a block is at most 3,930,857,640 < 2^32 |
| NeonFixed.S2Step | adler32_neon.c:73-76 | the corrected `block_s2` update adds 16 times `block_s1` and the four dot products, without any lane wrapping |
| NeonFixed.LoadStep | adler32_neon.c:51-79 | one corrected inner iteration keeps the lanes equal to the plain and position-weighted sums of the bytes loaded so far |
| NeonFixed.AccumulateLoad | adler32_neon.c:51-76 | the same, for the method that performs the iteration |
| NeonFixed.AccumulateBlock | adler32_neon.c:42-80 | the corrected inner loop ends with the block's byte sum and position-weighted sum in the lanes |
| NeonFixed.FoldBlock | adler32_neon.c:89-91 | the corrected fold gives `(s1 + sum_s1) mod 65521` and `(s2 + sum_s2 + 5552 s1) mod 65521` with the old s1 |
| NeonFixed.Kernel | adler32_neon.c:5-105 | the corrected kernel returns the Adler-32 checksum of every input |

## Left out

- `adler32.go`, the benchmark and test driver, is not part of this model. It
  covers random data, timing, printing and Go's `hash/adler32` as an oracle.
  The Dafny `Checksum` takes the oracle's place.
- `adler32_neon.go`, the cgo wrapper, and `adler32_neon.h`, the prototype,
  are not part of this model. They contain no checksum logic.
- There is no strategy dispatcher, because the source has none.
- NEON register layout, load alignment and lane endianness are left out.
  Only the lane arithmetic is modelled, with lane 0 as element 0.
- `v_s1`, `v_s2` (adler32_neon.c:15-16) and the twelve multiplier vectors
  other than 16, 12, 8 and 4 (lines 21-35) are dead code. They are not
  modelled.
- A pointer and a length become a sequence of bytes. `data + i` becomes
  index `i`. Every kernel requires `|data| < 2^64`, the range of `size_t`.
- Adler32.Pack: models `(s2 << 16) | s1` only for `s1 < 2^16`. Every
  kernel packs an s1 below 65521.
- Neon.FoldS2: its contract states only that the result is reduced. Its
  value is the C expression, and the lemmas evaluate it on the
  counterexamples.
- Neon.Kernel: is not stated equal to the checksum for inputs of 5552 bytes
  or more, because it is not (see "Findings"). It is stated equal to
  `KernelSpec` for every input.
- Lanes.HorizontalSum: the exact total is stated only when the lane total
  fits a `uint32_t`. Every use in the kernels is such a case.

## Findings

| source | as written | input that shows it | evidently intended | confidence | as-written member | corrected member |
|---|---|---|---|---|---|---|
| adler32_neon.c:73-91 | every byte of a group of four gets the same weight (16, 12, 8 or 4); the fold then adds `5552 * s1` with s1 already updated and subtracts `sum_s1 * 5553 / 2` | byte 0x01 followed by 5551 zero bytes: s2 = 8344 instead of 11104 | byte j of a load weighted 16 - j, 16 times the running lane sum added per load, and `s2 + sum_s2 + 5552 * s1` with the s1 from before the block | not executed | Neon.WrongWeights | NeonFixed.AccumulateBlock |
| adler32_neon.c:91 | the subtraction is done in `size_t` and wraps to 2^64 minus the shortfall before `% MOD_ADLER` | 256 bytes 0xFF, one byte 0xF0, then 5295 zero bytes: s2 = 22071; the unwrapped expression gives 36967 and Adler-32 gives 2048 | a fold with no subtraction, whose terms all fit | not executed | Neon.SubtractionWraps | NeonFixed.FoldBlock |
| adler32_neon.c:93-102 | `len -= BLOCK_SIZE` while `i` advances, so after a block `i >= len` and the tail loop never runs | 5552 zero bytes followed by one byte 0x01: the same result as without the last byte, (s1, s2) = (1, 5552) instead of (2, 5554) | the block loop runs while a whole block remains after `i`, and the tail runs from `i` to the input length | not executed | Neon.TailDropped | NeonFixed.Kernel |
