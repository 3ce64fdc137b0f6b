/** The scalar kernel `computeDotProduct` and its benchmark driver (main.cpp).
    Each product `vec1[i] * vec2[i]` is an `int` product that is then added to a
    `double`; both are modelled exactly, and ProductsAndSumsFit shows that for the
    driver's inputs neither the 32-bit product nor the `double` sum loses anything. */
module Scalar {
  import opened DotSpec
  import opened Bench

  const INT32_MAX: int := 0x7FFF_FFFF
  /** Every integer of magnitude up to 2^53 is exactly representable in a `double`. */
  const DOUBLE_EXACT_LIMIT: int := 0x20_0000_0000_0000
  /** Largest size the driver's sweep reaches. */
  const MAX_SWEEP_SIZE: nat := 65536

  /** Multiply-accumulate over the length of vec1; vec2 is read at the same indices and
      is never checked, so it must be at least as long. */
  method ComputeDotProduct(vec1: seq<int>, vec2: seq<int>) returns (result: real)
    requires |vec1| <= |vec2|
    ensures result == Dot(vec1, vec2, |vec1|) as real
    ensures |vec1| == 0 ==> result == 0.0
  {
    result := 0.0;
    var i := 0;
    while i < |vec1|
      invariant 0 <= i <= |vec1|
      invariant result == Dot(vec1, vec2, i) as real
    {
      result := result + (vec1[i] * vec2[i]) as real;
      i := i + 1;
    }
  }

  /** A product with one factor in [0, 99] is at most 99 times the other factor. */
  lemma {:induction false} ProductBound(x: nat, y: int)
    requires 0 <= y <= 99
    ensures 0 <= x * y <= 99 * x
  {
    if x > 0 {
      ProductBound(x - 1, y);
    }
  }

  /** For entries in [0, 99] every product is at most 9801 (far below the 32-bit
      limit) and every partial sum is a non-negative integer at most 9801 per element
      processed; with at most 65536 elements that is 642,318,336, well inside the
      range where `double` addition of integers is exact. */
  lemma {:induction false} ProductsAndSumsFit(vec1: seq<int>, vec2: seq<int>, n: nat)
    requires n <= |vec1| && n <= |vec2|
    requires forall i :: 0 <= i < n ==> 0 <= vec1[i] <= 99 && 0 <= vec2[i] <= 99
    ensures forall i :: 0 <= i < n ==> 0 <= vec1[i] * vec2[i] <= 9801 <= INT32_MAX
    ensures 0 <= Dot(vec1, vec2, n) <= 9801 * n
    ensures n <= MAX_SWEEP_SIZE ==> Dot(vec1, vec2, n) <= 642318336 < DOUBLE_EXACT_LIMIT
  {
    forall i | 0 <= i < n
      ensures 0 <= vec1[i] * vec2[i] <= 9801
    {
      ProductBound(vec1[i], vec2[i]);
    }
    if n > 0 {
      ProductsAndSumsFit(vec1, vec2, n - 1);
    }
  }

  /** results[k] is the exact dot product of the two vectors drawn for the k-th size in sizes. */
  ghost predicate KernelRuns(rand: nat -> nat, sizes: seq<nat>, results: seq<real>)
  {
    |results| == |sizes| &&
    forall k :: 0 <= k < |results| ==>
      results[k] == Dot(SweepInputs(rand, k, sizes[k]).0, SweepInputs(rand, k, sizes[k]).1, sizes[k]) as real
  }

  /** One more run of the kernel, on the next two draws, extends KernelRuns. */
  lemma KernelRunsStep(rand: nat -> nat, sizes: seq<nat>, results: seq<real>, size: nat, result: real)
    requires KernelRuns(rand, sizes, results)
    requires result == Dot(SweepInputs(rand, |sizes|, size).0, SweepInputs(rand, |sizes|, size).1, size) as real
    ensures KernelRuns(rand, sizes + [size], results + [result])
  {
  }

  /** Every result of the sweep lies in [0, 9801 * size], since the drawn entries are in [0, 99]. */
  lemma KernelRunsBounded(rand: nat -> nat, sizes: seq<nat>, results: seq<real>)
    requires KernelRuns(rand, sizes, results)
    ensures forall k :: 0 <= k < |sizes| ==> 0.0 <= results[k] <= (9801 * sizes[k]) as real
  {
    forall k | 0 <= k < |sizes|
      ensures 0.0 <= results[k] <= (9801 * sizes[k]) as real
    {
      var inputs := SweepInputs(rand, k, sizes[k]);
      ProductsAndSumsFit(inputs.0, inputs.1, sizes[k]);
    }
  }

  /** The body of the driver's loop for the k-th size: draw two vectors of `size`
      entries, `drawn` values having been drawn before, and run the kernel on them. */
  method SweepIteration(rand: nat -> nat, ghost k: nat, drawn: nat, size: nat) returns (result: real)
    requires drawn == DrawnBefore(k)
    ensures result == Dot(SweepInputs(rand, k, size).0, SweepInputs(rand, k, size).1, size) as real
    ensures 0.0 <= result <= (9801 * size) as real
  {
    var vec1 := GenerateVector(size, rand, drawn);
    var vec2 := GenerateVector(size, rand, drawn + size);
    assert (vec1, vec2) == SweepInputs(rand, k, size);
    result := ComputeDotProduct(vec1, vec2);
    ProductsAndSumsFit(vec1, vec2, size);
  }

  /** The driver of main.cpp: for each size of the sweep it draws two vectors from the
      pseudo-random source and runs the kernel once. The timing and printing are not
      modelled; what is returned is the sizes visited and the kernel's result for each,
      which is the exact dot product of the two vectors drawn for that size. */
  method ScalarBenchmark(rand: nat -> nat) returns (sizes: seq<nat>, results: seq<real>)
    ensures sizes == SweepSizes()
    ensures |results| == |sizes|
    ensures forall k :: 0 <= k < |sizes| ==> 0.0 <= results[k] <= (9801 * sizes[k]) as real
    ensures forall k :: 0 <= k < |results| ==>
      results[k] == Dot(SweepInputs(rand, k, sizes[k]).0, SweepInputs(rand, k, sizes[k]).1, sizes[k]) as real
  {
    sizes, results := [], [];
    Pow2Bounds();
    var drawn: nat := 0;
    var size: nat := 16;
    while size <= 65536
      invariant |sizes| <= 13
      invariant size == Pow2(|sizes| + 4)
      invariant SweepPrefix(sizes)
      invariant drawn == DrawnBefore(|sizes|)
      invariant KernelRuns(rand, sizes, results)
      decreases 13 - |sizes|
    {
      SweepGuard(|sizes|);
      var result := SweepIteration(rand, |sizes|, drawn, size);
      DrawnBeforeStep(sizes, size);
      drawn := drawn + 2 * size;
      KernelRunsStep(rand, sizes, results, size, result);
      SweepPrefixStep(sizes, size);
      sizes, results := sizes + [size], results + [result];
      size := size * 2;
    }
    SweepGuard(|sizes|);
    SweepPrefixComplete(sizes);
    KernelRunsBounded(rand, sizes, results);
  }
}
