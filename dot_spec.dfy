/** Reference dot products that every kernel is measured against.
    Arithmetic is exact: `int` for integer storage, `real` for `float`/`double`. */
module DotSpec {

  /** Sum of a[i] * b[i] over the first n positions of integer sequences. */
  ghost function Dot(a: seq<int>, b: seq<int>, n: nat): int
    requires n <= |a| && n <= |b|
  {
    if n == 0 then 0 else Dot(a, b, n - 1) + a[n - 1] * b[n - 1]
  }

  /** Sum of a[i] * b[i] over the first n positions of real sequences. */
  ghost function DotReal(a: seq<real>, b: seq<real>, n: nat): real
    requires n <= |a| && n <= |b|
  {
    if n == 0 then 0.0 else DotReal(a, b, n - 1) + a[n - 1] * b[n - 1]
  }

  /** Extending the processed prefix by one chunk of four adds exactly the four products. */
  lemma DotRealChunk4(a: seq<real>, b: seq<real>, i: nat)
    requires i + 4 <= |a| && i + 4 <= |b|
    ensures DotReal(a, b, i + 4)
         == DotReal(a, b, i) + ((a[i] * b[i] + a[i + 1] * b[i + 1]) + (a[i + 2] * b[i + 2] + a[i + 3] * b[i + 3]))
  {
    calc {
      DotReal(a, b, i + 4);
      DotReal(a, b, i + 3) + a[i + 3] * b[i + 3];
      DotReal(a, b, i + 2) + a[i + 2] * b[i + 2] + a[i + 3] * b[i + 3];
      DotReal(a, b, i + 1) + a[i + 1] * b[i + 1] + a[i + 2] * b[i + 2] + a[i + 3] * b[i + 3];
      DotReal(a, b, i) + a[i] * b[i] + a[i + 1] * b[i + 1] + a[i + 2] * b[i + 2] + a[i + 3] * b[i + 3];
    }
  }
}
