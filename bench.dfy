/** What the benchmark drivers share: the sweep of sizes, used by all three, and the
    random input generator, used by the scalar and AVX drivers (the DPPS driver fills
    its vectors with constants). */
module Bench {

  /** 2^k, computed exactly (the sizes are small integer powers of two). */
  function Pow2(k: nat): (r: nat)
    ensures r >= 1
  {
    if k == 0 then 1 else 2 * Pow2(k - 1)
  }

  lemma {:induction false} Pow2Monotone(i: nat, j: nat)
    requires i <= j
    ensures Pow2(i) <= Pow2(j)
  {
    if i < j {
      Pow2Monotone(i, j - 1);
    }
  }

  /** The two powers the sweep's bounds rest on. */
  lemma Pow2Bounds()
    ensures Pow2(4) == 16 && Pow2(16) == 65536 && Pow2(17) == 131072
  {
    assert Pow2(2) == 4;
    assert Pow2(4) == 16;
    assert Pow2(6) == 64;
    assert Pow2(8) == 256;
    assert Pow2(10) == 1024;
    assert Pow2(12) == 4096;
    assert Pow2(14) == 16384;
    assert Pow2(16) == 65536;
  }

  /** The sizes every driver visits: 2^4, 2^5, ..., 2^16. */
  function SweepSizes(): seq<nat>
  {
    seq(13, k requires 0 <= k < 13 => Pow2(k + 4))
  }

  /** s lists the first |s| sizes of the sweep: its k-th entry is 2^(k+4). */
  predicate SweepPrefix(s: seq<nat>)
  {
    forall k :: 0 <= k < |s| ==> s[k] == Pow2(k + 4)
  }

  /** Appending the next doubling extends a prefix of the sweep. */
  lemma SweepPrefixStep(s: seq<nat>, size: nat)
    requires SweepPrefix(s) && size == Pow2(|s| + 4)
    ensures SweepPrefix(s + [size])
    ensures size * 2 == Pow2(|s + [size]| + 4)
  {
  }

  /** A prefix of the sweep with 13 entries is the whole sweep. */
  lemma SweepPrefixComplete(s: seq<nat>)
    requires |s| == 13 && SweepPrefix(s)
    ensures s == SweepSizes()
  {
  }

  /** The sweep holds 13 strictly doubling sizes, from 16 up to 65536 inclusive. */
  lemma SweepSizesDoubling()
    ensures |SweepSizes()| == 13
    ensures SweepSizes()[0] == 16 && SweepSizes()[12] == 65536
    ensures forall k :: 0 <= k < 12 ==> SweepSizes()[k + 1] == 2 * SweepSizes()[k]
    ensures forall k :: 0 <= k < 13 ==> 16 <= SweepSizes()[k] <= 65536
  {
    Pow2Bounds();
    forall k | 0 <= k < 13
      ensures 16 <= SweepSizes()[k] <= 65536
    {
      Pow2Monotone(4, k + 4);
      Pow2Monotone(k + 4, 16);
    }
  }

  /** The loop test `size <= 65536` holds for the k-th doubling of 16 exactly while k < 13. */
  lemma SweepGuard(k: nat)
    ensures Pow2(k + 4) <= 65536 <==> k < 13
  {
    Pow2Bounds();
    if k < 13 {
      Pow2Monotone(k + 4, 16);
    } else {
      Pow2Monotone(17, k + 4);
    }
  }

  /** The vector that `size` calls of the generator return once `start` values have
      already been drawn from the pseudo-random source. */
  function Draws(rand: nat -> nat, start: nat, size: nat): seq<int>
  {
    seq(size, i requires 0 <= i < size => rand(start + i) % 100)
  }

  /** How many values a driver has drawn before it reaches the k-th size of the sweep:
      two vectors of each earlier size. */
  function DrawnBefore(k: nat): nat
  {
    if k == 0 then 0 else DrawnBefore(k - 1) + 2 * Pow2(k + 3)
  }

  /** Two vectors of each of the sizes 16, 32, ..., 2^(k+3) make 2^(k+5) - 32 draws. */
  lemma {:induction false} DrawnBeforeClosed(k: nat)
    ensures DrawnBefore(k) + 32 == 2 * Pow2(k + 4)
  {
    if k == 0 {
      assert Pow2(4) == 16;
    } else {
      DrawnBeforeClosed(k - 1);
    }
  }

  /** With the sizes s visited, drawing two vectors of the next size 2^(|s|+4) brings the
      count to DrawnBefore(|s| + 1). */
  lemma DrawnBeforeStep(s: seq<nat>, size: nat)
    requires size == Pow2(|s| + 4)
    ensures DrawnBefore(|s|) + 2 * size == DrawnBefore(|s + [size]|)
  {
  }

  /** The two vectors a driver draws for the k-th size of the sweep, that size being
      `size`: the first starts after DrawnBefore(k) draws, the second right after it. */
  function SweepInputs(rand: nat -> nat, k: nat, size: nat): (seq<int>, seq<int>)
  {
    (Draws(rand, DrawnBefore(k), size), Draws(rand, DrawnBefore(k) + size, size))
  }

  /** A vector of `size` entries, entry i being the (drawn + i)-th value of the
      pseudo-random source taken modulo 100. `rand(n)` stands for what the n-th call
      of `rand()` returns, a non-negative int. */
  method GenerateVector(size: nat, rand: nat -> nat, drawn: nat) returns (vec: seq<int>)
    ensures |vec| == size
    ensures forall i :: 0 <= i < size ==> vec[i] == rand(drawn + i) % 100
    ensures forall i :: 0 <= i < size ==> 0 <= vec[i] <= 99
    ensures vec == Draws(rand, drawn, size)
  {
    var v := new int[size](_ => 0);
    var i := 0;
    while i < size
      invariant 0 <= i <= size
      invariant forall j :: 0 <= j < i ==> v[j] == rand(drawn + j) % 100
    {
      v[i] := rand(drawn + i) % 100;
      i := i + 1;
    }
    vec := v[..];
    assert vec == Draws(rand, drawn, size);
  }
}
