/** The 4-lane SSE kernel `computeDotProductSSE` and its driver (DPPS.cpp). An `__m128`
    register is a sequence of four lanes; `float` arithmetic is exact. */
module Dpps {
  import opened DotSpec
  import opened Bench

  /** An `__m128` register: four single-precision lanes. */
  type M128 = s: seq<real> | |s| == 4 witness [0.0, 0.0, 0.0, 0.0]

  /** What the kernel returns, or the `std::invalid_argument` it throws. */
  datatype DotResult = Ok(value: real) | InvalidArgument(message: string)

  const LENGTH_MISMATCH: string := "Vectors must have the same size"

  /** Bit k of an 8-bit immediate. */
  function Bit(imm: bv8, k: nat): bool
    requires k < 8
  {
    (imm >> k) & 1 == 1
  }

  /** `_mm_dp_ps(a, b, imm)`, the DPPS instruction of the Intel 64 and IA-32 Architectures
      Software Developer's Manual, Vol. 2A: bits 4-7 of imm select which lane products
      enter the sum (a product not selected counts as zero), the sum is formed as
      (p0 + p1) + (p2 + p3), and bits 0-3 select which destination lanes receive it
      (the others are zeroed). */
  function DotProductPs(a: M128, b: M128, imm: bv8): M128
  {
    var p0 := if Bit(imm, 4) then a[0] * b[0] else 0.0;
    var p1 := if Bit(imm, 5) then a[1] * b[1] else 0.0;
    var p2 := if Bit(imm, 6) then a[2] * b[2] else 0.0;
    var p3 := if Bit(imm, 7) then a[3] * b[3] else 0.0;
    var sum := (p0 + p1) + (p2 + p3);
    [if Bit(imm, 0) then sum else 0.0,
     if Bit(imm, 1) then sum else 0.0,
     if Bit(imm, 2) then sum else 0.0,
     if Bit(imm, 3) then sum else 0.0]
  }

  /** With mask 0xF1 all four products are summed and the sum lands in lane 0 only. */
  lemma DotProductPsMaskF1(a: M128, b: M128)
    ensures DotProductPs(a, b, 0xF1)
         == [(a[0] * b[0] + a[1] * b[1]) + (a[2] * b[2] + a[3] * b[3]), 0.0, 0.0, 0.0]
  {
    assert Bit(0xF1, 0) && !Bit(0xF1, 1) && !Bit(0xF1, 2) && !Bit(0xF1, 3);
    assert Bit(0xF1, 4) && Bit(0xF1, 5) && Bit(0xF1, 6) && Bit(0xF1, 7);
  }

  /** `_mm_add_ps`: lane-wise addition. */
  function AddPs(x: M128, y: M128): M128
  {
    [x[0] + y[0], x[1] + y[1], x[2] + y[2], x[3] + y[3]]
  }

  /** One pass of the main loop keeps lane 0 equal to the dot product of the processed
      prefix and lanes 1-3 at zero. */
  lemma SseStep(vecA: seq<real>, vecB: seq<real>, i: nat)
    requires i + 4 <= |vecA| && i + 4 <= |vecB|
    ensures AddPs([DotReal(vecA, vecB, i), 0.0, 0.0, 0.0], DotProductPs(vecA[i..i + 4], vecB[i..i + 4], 0xF1))
         == [DotReal(vecA, vecB, i + 4), 0.0, 0.0, 0.0]
  {
    var a, b := vecA[i..i + 4], vecB[i..i + 4];
    assert a == [vecA[i], vecA[i + 1], vecA[i + 2], vecA[i + 3]];
    assert b == [vecB[i], vecB[i + 1], vecB[i + 2], vecB[i + 3]];
    DotProductPsMaskF1(a, b);
    DotRealChunk4(vecA, vecB, i);
    var dp := DotProductPs(a, b, 0xF1);
    var x: M128 := [DotReal(vecA, vecB, i), 0.0, 0.0, 0.0];
    assert dp[0] == DotReal(vecA, vecB, i + 4) - DotReal(vecA, vecB, i);
    assert dp[1] == 0.0 && dp[2] == 0.0 && dp[3] == 0.0;
    assert AddPs(x, dp) == [x[0] + dp[0], x[1] + dp[1], x[2] + dp[2], x[3] + dp[3]];
  }

  /** The main loop's exit: a multiple of four within four of N is N - N % 4. */
  lemma ChunkExit4(i: nat, chunks: nat, n: nat)
    requires i == 4 * chunks <= n < i + 4
    ensures i == n - n % 4 && i % 4 == 0
  {
  }

  /** The kernel. A length mismatch is reported before any element is read. Otherwise
      the main loop consumes chunks of four while `i + 4 <= N` and leaves the exit index
      in `chunkEnd`; the tail loop then runs `tailSteps` times. */
  method ComputeDotProductSSE(vecA: seq<real>, vecB: seq<real>)
    returns (r: DotResult, ghost chunkEnd: nat, ghost tailSteps: nat)
    ensures |vecA| != |vecB| ==> r == InvalidArgument(LENGTH_MISMATCH)
    ensures |vecA| == |vecB| ==> r == Ok(DotReal(vecA, vecB, |vecA|))
    ensures |vecA| == |vecB| ==> chunkEnd == |vecA| - |vecA| % 4 && chunkEnd % 4 == 0
    ensures |vecA| == |vecB| ==> tailSteps == |vecA| % 4
    ensures |vecA| == |vecB| == 0 ==> r == Ok(0.0)
  {
    if |vecA| != |vecB| {
      return InvalidArgument(LENGTH_MISMATCH), 0, 0;
    }
    var vectorSize := |vecA|;
    var simdWidth := 4;
    var sum: M128 := [0.0, 0.0, 0.0, 0.0];
    var i := 0;
    ghost var chunks := 0;
    while i + simdWidth <= vectorSize
      invariant i == 4 * chunks && i <= vectorSize
      invariant sum == [DotReal(vecA, vecB, i), 0.0, 0.0, 0.0]
    {
      var a: M128 := vecA[i..i + 4];
      var b: M128 := vecB[i..i + 4];
      var dp := DotProductPs(a, b, 0xF1);
      SseStep(vecA, vecB, i);
      sum := AddPs(sum, dp);
      i, chunks := i + simdWidth, chunks + 1;
    }
    ChunkExit4(i, chunks, vectorSize);
    chunkEnd := i;
    var dotProduct := sum[0];
    tailSteps := 0;
    while i < vectorSize
      invariant chunkEnd <= i <= vectorSize && tailSteps == i - chunkEnd
      invariant dotProduct == DotReal(vecA, vecB, i)
    {
      dotProduct := dotProduct + vecA[i] * vecB[i];
      i, tailSteps := i + 1, tailSteps + 1;
    }
    r := Ok(dotProduct);
  }

  /** The driver's inputs, all 1.0 against all 2.0, have dot product 2 * size. */
  lemma {:induction false} OnesTimesTwos(size: nat, n: nat)
    requires n <= size
    ensures DotReal(seq(size, _ => 1.0), seq(size, _ => 2.0), n) == 2.0 * n as real
  {
    if n > 0 {
      OnesTimesTwos(size, n - 1);
    }
  }

  /** `main` of DPPS.cpp: it first fills `vectorSizes` with 2^4 .. 2^16 by `push_back`,
      then for each size runs the kernel once on a vector of 1.0s and a vector of 2.0s.
      The timing and printing are not modelled; the kernel's results are returned, and
      none of them is the length-mismatch error. */
  method DppsBenchmark() returns (vectorSizes: seq<nat>, results: seq<DotResult>)
    ensures vectorSizes == SweepSizes()
    ensures |results| == |vectorSizes|
    ensures forall k :: 0 <= k < |results| ==> results[k] == Ok(2.0 * vectorSizes[k] as real)
  {
    vectorSizes := [];
    for i := 4 to 17
      invariant |vectorSizes| == i - 4 && SweepPrefix(vectorSizes)
    {
      SweepPrefixStep(vectorSizes, Pow2(i));
      vectorSizes := vectorSizes + [Pow2(i)];
    }
    SweepPrefixComplete(vectorSizes);
    results := [];
    for k := 0 to |vectorSizes|
      invariant |results| == k
      invariant forall j :: 0 <= j < k ==> results[j] == Ok(2.0 * vectorSizes[j] as real)
    {
      var size := vectorSizes[k];
      var vecA := seq(size, _ => 1.0);
      var vecB := seq(size, _ => 2.0);
      ghost var chunkEnd, tailSteps;
      var r;
      r, chunkEnd, tailSteps := ComputeDotProductSSE(vecA, vecB);
      OnesTimesTwos(size, size);
      results := results + [r];
    }
  }
}
