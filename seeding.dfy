/**
 * Deterministic seeding of the stream arrays from the linear congruential
 * generator, as done by the shared-memory `main`, by every local-memory
 * thread function and by the V2 thread function: `r` starts at 1 and is
 * advanced once per element before the element is written, so element `i`
 * depends only on the `(i + 1)`-th iterate of the generator.
 */
module Seeding {
  import opened StreamUtils

  /** The generator applied `n` times to the seed 1. */
  function Iterate(n: nat): uint32 {
    if n == 0 then 1 else GenerateRandomNumber(Iterate(n - 1))
  }

  /** The generator value from which element `i` is computed. */
  function SeedAt(i: nat): uint32 {
    Iterate(i + 1)
  }

  function SeedA(r: uint32): real { 1.0 + (r as int % 300) as real / 200.0 }
  function SeedB(r: uint32): real { 1.0 + (r as int % 400) as real / 300.0 }
  /** The shared-memory variant divides by 300.0, the local-memory one by 400.0. */
  function SeedC(r: uint32, divisor: real): real
    requires divisor > 0.0
  {
    1.0 + (r as int % 500) as real / divisor
  }

  /** Every seeded value lies in `[1, 3)`, in particular it is positive. */
  lemma SeedValuesBounded(r: uint32, divisor: real)
    requires divisor >= 300.0
    ensures 1.0 <= SeedA(r) < 3.0 && 1.0 <= SeedB(r) < 3.0 && 1.0 <= SeedC(r, divisor) < 3.0
  {
    assert (r as int % 500) as real < 500.0;
    assert (r as int % 500) as real / divisor < 500.0 / divisor;
    assert 500.0 / divisor <= 500.0 / 300.0;
  }

  /** The seeding loop over four arrays (`c` uses `cDivisor`). */
  method SeedABCD(a: array<real>, b: array<real>, c: array<real>, d: array<real>, cDivisor: real)
    requires cDivisor > 0.0
    requires b.Length == a.Length && c.Length == a.Length && d.Length == a.Length
    requires a != b && a != c && a != d && b != c && b != d && c != d
    modifies a, b, c, d
    ensures forall i :: 0 <= i < a.Length ==>
              a[i] == SeedA(SeedAt(i)) && b[i] == SeedB(SeedAt(i)) &&
              c[i] == SeedC(SeedAt(i), cDivisor) && d[i] == 0.0
  {
    var r: uint32 := 1;
    for i := 0 to a.Length
      invariant r == Iterate(i)
      invariant forall j :: 0 <= j < i ==>
                  a[j] == SeedA(SeedAt(j)) && b[j] == SeedB(SeedAt(j)) &&
                  c[j] == SeedC(SeedAt(j), cDivisor) && d[j] == 0.0
    {
      r := GenerateRandomNumber(r);
      a[i] := SeedA(r);
      b[i] := SeedB(r);
      c[i] := SeedC(r, cDivisor);
      d[i] := 0.0;
    }
  }

  /** The seeding loop over `a`, `b` and `d` only. */
  method SeedABD(a: array<real>, b: array<real>, d: array<real>)
    requires b.Length == a.Length && d.Length == a.Length
    requires a != b && a != d && b != d
    modifies a, b, d
    ensures forall i :: 0 <= i < a.Length ==>
              a[i] == SeedA(SeedAt(i)) && b[i] == SeedB(SeedAt(i)) && d[i] == 0.0
  {
    var r: uint32 := 1;
    for i := 0 to a.Length
      invariant r == Iterate(i)
      invariant forall j :: 0 <= j < i ==>
                  a[j] == SeedA(SeedAt(j)) && b[j] == SeedB(SeedAt(j)) && d[j] == 0.0
    {
      r := GenerateRandomNumber(r);
      a[i] := SeedA(r);
      b[i] := SeedB(r);
      d[i] := 0.0;
    }
  }

  /** The seeding loop over `a` and `d` only. */
  method SeedAD(a: array<real>, d: array<real>)
    requires d.Length == a.Length && a != d
    modifies a, d
    ensures forall i :: 0 <= i < a.Length ==> a[i] == SeedA(SeedAt(i)) && d[i] == 0.0
  {
    var r: uint32 := 1;
    for i := 0 to a.Length
      invariant r == Iterate(i)
      invariant forall j :: 0 <= j < i ==> a[j] == SeedA(SeedAt(j)) && d[j] == 0.0
    {
      r := GenerateRandomNumber(r);
      a[i] := SeedA(r);
      d[i] := 0.0;
    }
  }
}
