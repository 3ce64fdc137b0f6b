/** The 8-lane AVX kernel `dotProductAVX` and its driver (AVX.cpp). An `__m256` register
    is a record of eight lanes; `float` arithmetic is exact.

    The main loop loads its lanes through `reinterpret_cast<const float*>` on `int`
    storage, so a lane holds the float whose bit pattern is the int, not the int's value.
    That bit-level decoding is a parameter, `asFloatBits`, about which nothing is assumed.
    The tail loop converts with `static_cast<float>`, modelled by IntToFloat. */
module Avx {
  import opened DotSpec
  import opened Bench

  /** An `__m256` register: eight single-precision lanes, lane 0 first. */
  datatype M256 = M256(l0: real, l1: real, l2: real, l3: real, l4: real, l5: real, l6: real, l7: real)

  const ZERO: M256 := M256(0.0, 0.0, 0.0, 0.0, 0.0, 0.0, 0.0, 0.0)

  /** `static_cast<float>` of an int, exact under the model's arithmetic. */
  function IntToFloat(x: int): real
  {
    x as real
  }

  /** `_mm256_loadu_ps` of the eight elements starting at v[i], each lane decoded by `decode`. */
  function Load(v: seq<int>, i: nat, decode: int -> real): M256
    requires i + 8 <= |v|
  {
    M256(decode(v[i]), decode(v[i + 1]), decode(v[i + 2]), decode(v[i + 3]),
         decode(v[i + 4]), decode(v[i + 5]), decode(v[i + 6]), decode(v[i + 7]))
  }

  /** `_mm256_mul_ps`: lane-wise product. */
  function MulPs(x: M256, y: M256): M256
  {
    M256(x.l0 * y.l0, x.l1 * y.l1, x.l2 * y.l2, x.l3 * y.l3, x.l4 * y.l4, x.l5 * y.l5, x.l6 * y.l6, x.l7 * y.l7)
  }

  /** `_mm256_add_ps`: lane-wise sum. */
  function AddPs(x: M256, y: M256): M256
  {
    M256(x.l0 + y.l0, x.l1 + y.l1, x.l2 + y.l2, x.l3 + y.l3, x.l4 + y.l4, x.l5 + y.l5, x.l6 + y.l6, x.l7 + y.l7)
  }

  /** The horizontal reduction: lanes summed left to right, lane 0 through lane 7. */
  function HorizontalSum(r: M256): real
  {
    r.l0 + r.l1 + r.l2 + r.l3 + r.l4 + r.l5 + r.l6 + r.l7
  }

  /** The accumulator register after k chunks of eight: zero, then one `_mm256_add_ps`
      of the lane-wise products of each chunk in turn. */
  ghost function Accumulator(a: seq<int>, b: seq<int>, decode: int -> real, k: nat): M256
    requires 8 * k <= |a| && 8 * k <= |b|
  {
    if k == 0 then ZERO
    else AddPs(Accumulator(a, b, decode, k - 1), MulPs(Load(a, 8 * (k - 1), decode), Load(b, 8 * (k - 1), decode)))
  }

  /** The tail loop: starting from acc, add the converted products at lo .. hi-1 in order. */
  ghost function AccumulateTail(acc: real, a: seq<int>, b: seq<int>, lo: nat, hi: nat): real
    requires lo <= hi <= |a| && hi <= |b|
    decreases hi
  {
    if hi == lo then acc
    else AccumulateTail(acc, a, b, lo, hi - 1) + IntToFloat(a[hi - 1]) * IntToFloat(b[hi - 1])
  }

  /** What the kernel returns when its vector loads decode ints with asFloatBits. */
  ghost function AvxSpec(a: seq<int>, b: seq<int>, asFloatBits: int -> real): real
    requires |a| <= |b|
  {
    AccumulateTail(HorizontalSum(Accumulator(a, b, asFloatBits, |a| / 8)), a, b, |a| - |a| % 8, |a|)
  }

  /** Dot product of the first n positions, each element decoded by `decode` first. */
  ghost function DecodedDot(a: seq<int>, b: seq<int>, decode: int -> real, n: nat): real
    requires n <= |a| && n <= |b|
  {
    if n == 0 then 0.0 else DecodedDot(a, b, decode, n - 1) + decode(a[n - 1]) * decode(b[n - 1])
  }

  /** One pass of the tail loop adds the next converted product. */
  lemma AccumulateTailStep(acc: real, a: seq<int>, b: seq<int>, lo: nat, i: nat)
    requires lo <= i < |a| && i < |b|
    ensures AccumulateTail(acc, a, b, lo, i + 1) == AccumulateTail(acc, a, b, lo, i) + IntToFloat(a[i]) * IntToFloat(b[i])
  {
  }

  /** The main loop's exit: a multiple of eight within eight of size is size - size % 8,
      reached after size / 8 chunks. */
  lemma ChunkExit8(i: nat, chunks: nat, size: nat)
    requires i == 8 * chunks <= size < i + 8
    ensures chunks == size / 8 && i == size - size % 8 && i % 8 == 0
  {
  }

  /** The kernel. Nothing checks b's length: every index read in b is one also read in a,
      so b must be at least as long. The main loop runs while `i + 7 < size` and leaves
      its exit index in `chunkEnd`; the tail loop then runs `tailSteps` times. */
  method DotProductAVX(a: seq<int>, b: seq<int>, asFloatBits: int -> real)
    returns (r: real, ghost chunkEnd: nat, ghost tailSteps: nat)
    requires |a| <= |b|
    ensures r == AvxSpec(a, b, asFloatBits)
    ensures chunkEnd == |a| - |a| % 8 && chunkEnd % 8 == 0
    ensures tailSteps == |a| % 8
    ensures |a| < 8 ==> r == Dot(a, b, |a|) as real
  {
    var size := |a|;
    var i := 0;
    var sum := ZERO;
    ghost var chunks := 0;
    while i + 7 < size
      invariant i == 8 * chunks <= size
      invariant sum == Accumulator(a, b, asFloatBits, chunks)
    {
      var vecA := Load(a, i, asFloatBits);
      var vecB := Load(b, i, asFloatBits);
      var prod := MulPs(vecA, vecB);
      sum := AddPs(sum, prod);
      i, chunks := i + 8, chunks + 1;
    }
    ChunkExit8(i, chunks, size);
    chunkEnd := i;
    var dotProduct := sum.l0 + sum.l1 + sum.l2 + sum.l3 + sum.l4 + sum.l5 + sum.l6 + sum.l7;
    ghost var reduced := dotProduct;
    tailSteps := 0;
    while i < size
      invariant chunkEnd <= i <= size && tailSteps == i - chunkEnd
      invariant dotProduct == AccumulateTail(reduced, a, b, chunkEnd, i)
    {
      AccumulateTailStep(reduced, a, b, chunkEnd, i);
      dotProduct := dotProduct + IntToFloat(a[i]) * IntToFloat(b[i]);
      i, tailSteps := i + 1, tailSteps + 1;
    }
    assert reduced == HorizontalSum(Accumulator(a, b, asFloatBits, size / 8));
    r := dotProduct;
    if size < 8 {
      TailOnlyIsDot(a, b, asFloatBits);
    }
  }

  /** The reduction distributes over lane-wise addition. */
  lemma SumOfAddPs(x: M256, y: M256)
    ensures HorizontalSum(AddPs(x, y)) == HorizontalSum(x) + HorizontalSum(y)
  {
  }

  /** The lane products of one chunk reduce to that chunk's share of the decoded dot product. */
  lemma DecodedChunk(a: seq<int>, b: seq<int>, decode: int -> real, i: nat)
    requires i + 8 <= |a| && i + 8 <= |b|
    ensures HorizontalSum(MulPs(Load(a, i, decode), Load(b, i, decode)))
         == DecodedDot(a, b, decode, i + 8) - DecodedDot(a, b, decode, i)
  {
    assert DecodedDot(a, b, decode, i + 8) == DecodedDot(a, b, decode, i + 7) + decode(a[i + 7]) * decode(b[i + 7]);
    assert DecodedDot(a, b, decode, i + 7) == DecodedDot(a, b, decode, i + 6) + decode(a[i + 6]) * decode(b[i + 6]);
    assert DecodedDot(a, b, decode, i + 6) == DecodedDot(a, b, decode, i + 5) + decode(a[i + 5]) * decode(b[i + 5]);
    assert DecodedDot(a, b, decode, i + 5) == DecodedDot(a, b, decode, i + 4) + decode(a[i + 4]) * decode(b[i + 4]);
    assert DecodedDot(a, b, decode, i + 4) == DecodedDot(a, b, decode, i + 3) + decode(a[i + 3]) * decode(b[i + 3]);
    assert DecodedDot(a, b, decode, i + 3) == DecodedDot(a, b, decode, i + 2) + decode(a[i + 2]) * decode(b[i + 2]);
    assert DecodedDot(a, b, decode, i + 2) == DecodedDot(a, b, decode, i + 1) + decode(a[i + 1]) * decode(b[i + 1]);
  }

  /** One more chunk adds that chunk's share of the decoded dot product to the reduction. */
  lemma AccumulatorStep(a: seq<int>, b: seq<int>, decode: int -> real, k: nat)
    requires 0 < k && 8 * k <= |a| && 8 * k <= |b|
    ensures HorizontalSum(Accumulator(a, b, decode, k))
         == HorizontalSum(Accumulator(a, b, decode, k - 1)) + (DecodedDot(a, b, decode, 8 * k) - DecodedDot(a, b, decode, 8 * (k - 1)))
  {
    var i := 8 * (k - 1);
    SumOfAddPs(Accumulator(a, b, decode, k - 1), MulPs(Load(a, i, decode), Load(b, i, decode)));
    DecodedChunk(a, b, decode, i);
    assert i + 8 == 8 * k;
  }

  /** The reduced accumulator after k chunks is the dot product of the decoded values of
      the first 8 * k positions, whatever the decoding. */
  lemma AccumulatorIsDecodedDot(a: seq<int>, b: seq<int>, decode: int -> real, k: nat)
    requires 8 * k <= |a| && 8 * k <= |b|
    ensures HorizontalSum(Accumulator(a, b, decode, k)) == DecodedDot(a, b, decode, 8 * k)
  {
    // An induction on k, written as a ghost loop; it stands for no loop of the kernel.
    var j := 0;
    while j < k
      invariant j <= k
      invariant HorizontalSum(Accumulator(a, b, decode, j)) == DecodedDot(a, b, decode, 8 * j)
    {
      j := j + 1;
      AccumulatorStep(a, b, decode, j);
    }
  }

  /** The tail loop adds exactly the converted products of the positions it visits. */
  lemma {:induction false} AccumulateTailIsDecodedDot(acc: real, a: seq<int>, b: seq<int>, lo: nat, hi: nat)
    requires lo <= hi <= |a| && hi <= |b|
    ensures AccumulateTail(acc, a, b, lo, hi) == acc + (DecodedDot(a, b, IntToFloat, hi) - DecodedDot(a, b, IntToFloat, lo))
    decreases hi
  {
    if hi > lo {
      AccumulateTailIsDecodedDot(acc, a, b, lo, hi - 1);
    }
  }

  /** The product of two converted ints is the converted integer product. */
  lemma ConvertedProduct(x: int, y: int)
    ensures IntToFloat(x) * IntToFloat(y) == (x * y) as real
  {
  }

  /** Converting each int to float before multiplying loses nothing under exact arithmetic. */
  lemma {:induction false} ConvertedDotIsDot(a: seq<int>, b: seq<int>, n: nat)
    requires n <= |a| && n <= |b|
    ensures DecodedDot(a, b, IntToFloat, n) == Dot(a, b, n) as real
  {
    if n > 0 {
      ConvertedDotIsDot(a, b, n - 1);
      ConvertedProduct(a[n - 1], b[n - 1]);
    }
  }

  /** The kernel's value: the dot product of the decoded lanes over the chunked prefix,
      plus the integer dot product of the tail. */
  lemma AvxSpecSplit(a: seq<int>, b: seq<int>, asFloatBits: int -> real)
    requires |a| <= |b|
    ensures AvxSpec(a, b, asFloatBits)
         == DecodedDot(a, b, asFloatBits, |a| - |a| % 8) + (Dot(a, b, |a|) - Dot(a, b, |a| - |a| % 8)) as real
  {
    var k, m := |a| / 8, |a| - |a| % 8;
    AccumulatorIsDecodedDot(a, b, asFloatBits, k);
    AccumulateTailIsDecodedDot(HorizontalSum(Accumulator(a, b, asFloatBits, k)), a, b, m, |a|);
    ConvertedDotIsDot(a, b, |a|);
    ConvertedDotIsDot(a, b, m);
  }

  /** When size < 8 the vector loop does not run, the accumulator stays zero, and the
      kernel returns the integer dot product whatever the load decoding. */
  lemma TailOnlyIsDot(a: seq<int>, b: seq<int>, asFloatBits: int -> real)
    requires |a| < 8 && |a| <= |b|
    ensures AvxSpec(a, b, asFloatBits) == Dot(a, b, |a|) as real
  {
    AvxSpecSplit(a, b, asFloatBits);
  }

  /** Loads that convert each int to its float value (as the tail does) would make the
      kernel compute the integer dot product for every size. */
  lemma ConvertedLoadsGiveDot(a: seq<int>, b: seq<int>)
    requires |a| <= |b|
    ensures AvxSpec(a, b, IntToFloat) == Dot(a, b, |a|) as real
  {
    AvxSpecSplit(a, b, IntToFloat);
    ConvertedDotIsDot(a, b, |a| - |a| % 8);
  }

  /** The corrected kernel: the same loops with each loaded int converted to its float
      value (`_mm256_cvtepi32_ps` rather than a reinterpreting load). */
  method DotProductAVXConverted(a: seq<int>, b: seq<int>) returns (r: real)
    requires |a| <= |b|
    ensures r == Dot(a, b, |a|) as real
  {
    ghost var chunkEnd, tailSteps;
    r, chunkEnd, tailSteps := DotProductAVX(a, b, IntToFloat);
    ConvertedLoadsGiveDot(a, b);
  }

  /** On vectors of ones, when the decoded 1 lies in [0, 1), every position contributes
      less to the decoded dot product than to the converted one. */
  lemma {:induction false} OnesDecodedBelow(ones: seq<int>, decode: int -> real, n: nat)
    requires n <= |ones|
    requires forall i :: 0 <= i < |ones| ==> ones[i] == 1
    requires 0.0 <= decode(1) < 1.0
    ensures DecodedDot(ones, ones, decode, n) <= DecodedDot(ones, ones, IntToFloat, n)
    ensures 0 < n ==> DecodedDot(ones, ones, decode, n) < DecodedDot(ones, ones, IntToFloat, n)
  {
    if n > 0 {
      OnesDecodedBelow(ones, decode, n - 1);
      var x := ones[n - 1];
      assert x == 1;
      assert decode(x) * decode(x) <= decode(x) * 1.0 < 1.0;
      assert IntToFloat(x) * IntToFloat(x) == 1.0;
    }
  }

  /** The integer dot product of a vector of ones with itself counts its positions. */
  lemma {:induction false} OnesDot(ones: seq<int>, n: nat)
    requires n <= |ones|
    requires forall i :: 0 <= i < |ones| ==> ones[i] == 1
    ensures Dot(ones, ones, n) == n
  {
    if n > 0 {
      OnesDot(ones, n - 1);
      assert ones[n - 1] * ones[n - 1] == 1;
    }
  }

  /** As written, a vector of ones against itself does not give its length once it has
      eight or more entries: the int 1 read as a float bit pattern is the smallest
      positive subnormal, a value in [0, 1), so each lane product of the vector loop is
      below 1 and its sum falls short. */
  lemma ReinterpretedLoadsMissDot(ones: seq<int>, asFloatBits: int -> real)
    requires 8 <= |ones|
    requires forall i :: 0 <= i < |ones| ==> ones[i] == 1
    requires 0.0 <= asFloatBits(1) < 1.0
    ensures Dot(ones, ones, |ones|) == |ones|
    ensures AvxSpec(ones, ones, asFloatBits) < Dot(ones, ones, |ones|) as real
  {
    var m := |ones| - |ones| % 8;
    AvxSpecSplit(ones, ones, asFloatBits);
    OnesDecodedBelow(ones, asFloatBits, m);
    ConvertedDotIsDot(ones, ones, m);
    OnesDot(ones, |ones|);
  }

  /** results[k] is the kernel's value on the two vectors drawn for the k-th size in sizes. */
  ghost predicate KernelRuns(rand: nat -> nat, asFloatBits: int -> real, sizes: seq<nat>, results: seq<real>)
  {
    |results| == |sizes| &&
    forall k :: 0 <= k < |results| ==> results[k] == AvxSpec(SweepInputs(rand, k, sizes[k]).0, SweepInputs(rand, k, sizes[k]).1, asFloatBits)
  }

  /** One more run of the kernel, on the next two draws, extends KernelRuns. */
  lemma KernelRunsStep(rand: nat -> nat, asFloatBits: int -> real, sizes: seq<nat>, results: seq<real>,
                       size: nat, result: real)
    requires KernelRuns(rand, asFloatBits, sizes, results)
    requires result == AvxSpec(SweepInputs(rand, |sizes|, size).0, SweepInputs(rand, |sizes|, size).1, asFloatBits)
    ensures KernelRuns(rand, asFloatBits, sizes + [size], results + [result])
  {
  }


  /** The body of the driver's loop for the k-th size: draw two vectors of `size`
      entries, `drawn` values having been drawn before, and run the kernel on them. */
  method SweepIteration(rand: nat -> nat, asFloatBits: int -> real, ghost k: nat, drawn: nat, size: nat)
    returns (result: real)
    requires drawn == DrawnBefore(k)
    ensures result == AvxSpec(SweepInputs(rand, k, size).0, SweepInputs(rand, k, size).1, asFloatBits)
  {
    var vec1 := GenerateVector(size, rand, drawn);
    var vec2 := GenerateVector(size, rand, drawn + size);
    assert (vec1, vec2) == SweepInputs(rand, k, size);
    ghost var chunkEnd, tailSteps;
    result, chunkEnd, tailSteps := DotProductAVX(vec1, vec2, asFloatBits);
  }

  /** `main` of AVX.cpp: for each size of the sweep it draws two vectors of that size
      from the pseudo-random source and runs the kernel once on them, which meets the
      kernel's requirement on b's length. The timing and printing are not modelled;
      what is returned is the sizes visited and the kernel's result for each. */
  method AvxBenchmark(rand: nat -> nat, asFloatBits: int -> real) returns (sizes: seq<nat>, results: seq<real>)
    ensures sizes == SweepSizes()
    ensures |results| == |sizes|
    ensures forall k :: 0 <= k < |results| ==>
      results[k] == AvxSpec(SweepInputs(rand, k, sizes[k]).0, SweepInputs(rand, k, sizes[k]).1, asFloatBits)
  {
    sizes, results := [], [];
    Pow2Bounds();
    var drawn: nat := 0;
    var size: nat := 16;
    while size <= 65536
      invariant |sizes| <= 13
      invariant size == Pow2(|sizes| + 4)
      invariant SweepPrefix(sizes)
      invariant drawn == DrawnBefore(|sizes|)
      invariant KernelRuns(rand, asFloatBits, sizes, results)
      decreases 13 - |sizes|
    {
      SweepGuard(|sizes|);
      var result := SweepIteration(rand, asFloatBits, |sizes|, drawn, size);
      DrawnBeforeStep(sizes, size);
      drawn := drawn + 2 * size;
      KernelRunsStep(rand, asFloatBits, sizes, results, size, result);
      SweepPrefixStep(sizes, size);
      sizes, results := sizes + [size], results + [result];
      size := size * 2;
    }
    SweepGuard(|sizes|);
    SweepPrefixComplete(sizes);
  }
}
