# SIMD dot-product kernels, modelled in Dafny

The repository benchmarks three ways of computing the dot product of two vectors:

- a scalar loop over `int` vectors that accumulates into a `double` (`computeDotProduct`, main.cpp);
- a 4-lane SSE kernel over `float` vectors built on the DPPS instruction (`computeDotProductSSE`, DPPS.cpp);
- an 8-lane AVX kernel over `int` vectors (`dotProductAVX`, AVX.cpp).

Each kernel has a driver that sweeps the sizes 16, 32, …, 65536, builds two input vectors per size and calls the kernel once.

The two SIMD kernels split the index range into chunks of 4 or 8 plus a scalar tail; the scalar kernel is a single accumulate loop. The model keeps that structure as imperative Dafny:

- each kernel is a `method` with the source's loops (two for each SIMD kernel, one for the scalar kernel), and their invariants tie the accumulator to a reference sum;
- the input generators write into an `array` in a loop;
- the scalar and AVX drivers are loops that double `size`; the DPPS driver first builds its list of sizes, then loops over it.

Arithmetic is exact: `int` stays `int`, and `float`/`double` become `real`. The reference sums are the ghost functions `DotSpec.Dot` (integers) and `DotSpec.DotReal` (reals).

Files:

- `dot_spec.dfy` (module `DotSpec`): the reference sums.
- `bench.dfy` (module `Bench`): what the drivers share.
  - the sweep of sizes, used by all three drivers;
  - the generator `rand() % 100`, which `generateVector` (AVX.cpp) and `generateVector1` (main.cpp) both implement.
- `scalar.dfy` (module `Scalar`): main.cpp.
- `dpps.dfy` (module `Dpps`): DPPS.cpp.
  - An `__m128` register is a sequence of four reals.
  - `_mm_dp_ps` follows the DPPS instruction of the Intel 64 and IA-32 Architectures Software Developer's Manual, Vol. 2A.
    - Bits 4-7 of the immediate select the products.
    - The sum is formed as (p0 + p1) + (p2 + p3).
    - Bits 0-3 select the destination lanes.
- `avx.dfy` (module `Avx`): AVX.cpp.
  - An `__m256` register is a record of eight real lanes.
  - The vector loads read `int` storage through `reinterpret_cast<const float*>`: each lane holds the float whose bit pattern is the int, not the int's value. That decoding is the parameter `asFloatBits: int -> real`, and nothing is assumed about it.
  - The tail converts with `static_cast<float>` (`IntToFloat`).
  - `AvxSpec(a, b, asFloatBits)` is what the kernel computes.
  - The model proves `AvxSpec(a, b, asFloatBits)` equal to `Dot` only when the vector loop does not run (size < 8), and for a kernel whose loads convert (see Findings).

The comment at DPPS.cpp:23 says "mask: all 4 elements". Bits 4-7 of 0xF1 select all four products, and bit 0 alone writes their sum to lane 0; lanes 1-3 are zeroed. The code reads only lane 0 (DPPS.cpp:30).

`rand() % 100` of a non-negative `rand()` lies in [0, 99].

## Model

| member | source | states |
|---|---|---|
| Scalar.ComputeDotProduct | main.cpp:8-18 | the result is the exact dot product `Dot` over the whole of vec1; empty input gives 0.0; vec2 must be at least as long as vec1, because the loop reads vec2 at every index of vec1 unchecked |
| Scalar.ProductsAndSumsFit | main.cpp:14-16 | for entries in [0, 99] every product is in [0, 9801], so no 32-bit overflow; every prefix sum is in [0, 9801·n]; for n ≤ 65536 the total is ≤ 642,318,336 < 2^53, so accumulating in `double` is exact |
| Scalar.SweepIteration | main.cpp:35-40 | one pass of the loop body: with DrawnBefore(k) values drawn, the two vectors are `SweepInputs(rand, k, size)` and the result is their exact dot product, in [0, 9801·size] |
| Scalar.KernelRunsStep | main.cpp:32-40 | one more pass appends the next size and the exact dot product of the next two draws, keeping every earlier result tied to its inputs |
| Scalar.KernelRunsBounded | main.cpp:35-40 | every result of the sweep lies in [0, 9801·size], because the drawn entries lie in [0, 99] |
| Scalar.ScalarBenchmark | main.cpp:28-49 | the driver visits exactly the sweep 16 … 65536; result k is the exact dot product of the two vectors drawn for the k-th size (`SweepInputs`), and lies in [0, 9801·size] |
| Bench.GenerateVector | AVX.cpp:35-43 | the vector has the requested length; entry i is the (drawn+i)-th `rand()` value mod 100, hence in [0, 99], so the vector is `Draws(rand, drawn, size)`; `generateVector1` (main.cpp:20-26) is the same generator and is modelled by this member too |
| Bench.SweepSizesDoubling | DPPS.cpp:42-45 | the sweep has 13 entries, from 16 to 65536; each entry is twice the previous one, and all lie in [16, 65536] |
| Bench.DrawnBeforeClosed | main.cpp:32-36 | before the k-th size, two vectors of each earlier size, 2^(k+5) − 32 values in all, have been drawn |
| Bench.DrawnBeforeStep | main.cpp:35-36 | drawing the two vectors of the current size 2^(k+4) brings the count of draws to DrawnBefore(k + 1) |
| Bench.SweepGuard | AVX.cpp:48 | the guard `size <= 65536` holds for the k-th doubling of 16 exactly when k < 13, so the loop runs 13 times and stops |
| Bench.SweepPrefixStep | main.cpp:32 | `size *= 2` after visiting 2^(k+4) keeps the visited sizes a prefix of the sweep, and the next size is 2^(k+5) |
| Bench.SweepPrefixComplete | main.cpp:32 | 13 visited sizes that form a prefix of the sweep are the whole sweep |
| Dpps.DotProductPsMaskF1 | DPPS.cpp:23 | with mask 0xF1 all four lane products are summed as (p0+p1)+(p2+p3); the sum lands in lane 0 and lanes 1-3 are zero |
| DotSpec.DotRealChunk4 | DPPS.cpp:20-24 | extending the processed prefix by a chunk of four adds exactly that chunk's four products, grouped as DPPS groups them |
| Dpps.SseStep | DPPS.cpp:20-25 | one pass of the main loop turns the accumulator [Dot of i elements, 0, 0, 0] into [Dot of i+4 elements, 0, 0, 0] |
| Dpps.ChunkExit4 | DPPS.cpp:19-20 | a multiple of four that fails `i + 4 <= N` is N − N % 4 |
| Dpps.ComputeDotProductSSE | DPPS.cpp:9-38 | lengths differ → `invalid_argument("Vectors must have the same size")` before any element is read; otherwise the result is `DotReal(vecA, vecB, N)`; the main loop exits at N − N % 4, a multiple of 4; the tail runs N % 4 times; N = 0 gives 0 |
| Dpps.OnesTimesTwos | DPPS.cpp:56-57 | the dot product of n ones with n twos is 2n |
| Dpps.DppsBenchmark | DPPS.cpp:40-70 | `vectorSizes` is the sweep 2^4 … 2^16; the kernel runs once per size, is never given mismatched lengths, and returns 2·size each time |
| Avx.DotProductAVX | AVX.cpp:6-33 | the result is `AvxSpec(a, b, asFloatBits)`, built from the reinterpreting load `Load`, `MulPs`, `AddPs` and `HorizontalSum`; the main loop (`i + 7 < size`) exits at size − size % 8, a multiple of 8; the tail runs size % 8 times; for size < 8 the result is the exact dot product; b must be at least as long as a, because its length is never checked |
| Avx.ChunkExit8 | AVX.cpp:9-13 | a multiple of eight that fails `i + 7 < size` is size − size % 8, reached after size / 8 chunks |
| Avx.AccumulateTailStep | AVX.cpp:29 | proof step for the tail loop's invariant: one pass adds `static_cast<float>(a[i]) * static_cast<float>(b[i])` |
| Avx.SumOfAddPs | AVX.cpp:18-24 | the reduction `HorizontalSum`, ((r0 + r1) + …) + r7 as the code writes it, distributes over `_mm256_add_ps` |
| Avx.DecodedChunk | AVX.cpp:15-17 | the reduced lane-wise product of one loaded chunk is that chunk's share of the dot product of the decoded values |
| Avx.AccumulatorStep | AVX.cpp:13-18 | one pass of the main loop adds the next chunk's decoded products to the reduced accumulator |
| Avx.AccumulatorIsDecodedDot | AVX.cpp:13-24 | after k chunks, the reduced accumulator is the dot product of the decoded first 8k elements, for any decoding of the loads |
| Avx.AccumulateTailIsDecodedDot | AVX.cpp:27-30 | the tail adds exactly the converted products of the positions it visits |
| Avx.ConvertedProduct | AVX.cpp:29 | proof step for Avx.ConvertedDotIsDot: multiplying two converted ints equals converting their integer product |
| Avx.ConvertedDotIsDot | AVX.cpp:27-30 | the converted dot product equals the integer dot product `Dot` |
| Avx.AvxSpecSplit | AVX.cpp:6-33 | the kernel's value is the decoded-lane dot product over the first size − size % 8 elements plus the integer dot product of the tail |
| Avx.TailOnlyIsDot | AVX.cpp:10-30 | when size < 8 the vector loop does not run and the kernel equals `Dot`, whatever the decoding |
| Avx.ReinterpretedLoadsMissDot | AVX.cpp:15-16 | as written, for a vector of ≥ 8 ones against itself, with the int 1 decoding to a value in [0, 1), the kernel returns strictly less than `Dot` |
| Avx.ConvertedLoadsGiveDot | AVX.cpp:15-16 | with loads that convert ints to float values, the kernel equals `Dot` for every size |
| Avx.DotProductAVXConverted | AVX.cpp:15-16 | the corrected kernel (converting loads) returns the exact dot product for every size |
| Avx.SweepIteration | AVX.cpp:51-56 | one pass of the loop body: with DrawnBefore(k) values drawn, the two vectors are `SweepInputs(rand, k, size)`, they meet the kernel's length requirement, and the result is `AvxSpec` of them |
| Avx.KernelRunsStep | AVX.cpp:48-56 | one more pass appends the next size and `AvxSpec` of the next two draws, keeping every earlier result tied to its inputs |
| Avx.AvxBenchmark | AVX.cpp:45-64 | the driver visits exactly the sweep 16 … 65536; result k is `AvxSpec` of the two vectors drawn for the k-th size (`SweepInputs`) |

## Left out

- Timing with `std::chrono` and all console output: they are wall-clock I/O with no stateable behaviour.
- IEEE-754 rounding of `float` and `double`, and the precision of the SSE/AVX arithmetic: all arithmetic is exact.
- The bit-level meaning of `reinterpret_cast<const float*>` on `int` data: it is the parameter `asFloatBits`. The finding below assumes only that the int 1 decodes to a value in [0, 1), which holds because its bit pattern is the smallest positive subnormal float.
- `rand()`: it is the parameter `rand: nat -> nat`, the value of the n-th call. Seeding and the distribution are not modelled.
- `std::pow(2, i)`: it is modelled as exact 2^i, which it is for these small exponents.
- The OpenMP header and the commented-out `#pragma omp parallel for` (main.cpp:5,13): they concern concurrency, and the pragma is inactive.
- Alignment, and the unaligned `loadu`/`storeu` forms. The store of a register to a `float result[]` array is modelled by reading the lanes directly.
- The widths of `size_t` and `long`: sizes are unbounded naturals, and the drivers never exceed 65536.
- Scalar.ComputeDotProduct: does not model 32-bit overflow of `vec1[i] * vec2[i]` or rounding of the `double` sum. Scalar.ProductsAndSumsFit shows that neither can happen for the driver's inputs.
- Avx.DotProductAVX: states equality with `Dot` only for size < 8, because the code as written does not compute `Dot` for larger sizes (see Findings). For every size it is tied to `AvxSpec`, and Avx.AvxSpecSplit characterises that.
- Registers: `__m128` is a `seq<real>` of length 4. `__m256` is an eight-field record, which is the same value with cheaper proofs.

## Findings

| source | as written | input that shows it | evidently intended | confidence | as-written member | corrected member |
|---|---|---|---|---|---|---|
| AVX.cpp:15-16 | the vector loop loads `int` data with `_mm256_loadu_ps(reinterpret_cast<const float*>(&a[i]))`, so each lane holds the float whose bit pattern is the int | a = b = eight ones: the int 1 reads as the subnormal 2^-149; under exact arithmetic the vector part is 8·(2^-149)², and in `float` the products underflow and it is 0; either way it is far below the exact dot product 8; in general, any all-ones vector of length ≥ 8 falls short | convert the ints to float values (`_mm256_cvtepi32_ps` on an integer load), as the tail loop does with `static_cast<float>` | not executed | Avx.ReinterpretedLoadsMissDot | Avx.DotProductAVXConverted |
