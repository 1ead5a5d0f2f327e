/**
 * The local-memory multi-threaded variant. Every worker allocates and seeds
 * its own private arrays of `batch` elements, runs its kernel over them
 * `benchmark_repetitions` times and stores the mean time per repetition and
 * its checksum in its descriptor; `execute_mt_benchmark` then averages the
 * workers' times and adds up their checksums.
 *
 * Workers share nothing but their descriptors, each writing only its own,
 * so the threads are modelled as a sequential loop in creation order. The
 * semaphore starts at `nr_cpu` and each worker holds it once at a time, so
 * it never blocks and is left out. Time samples and the checksums (which
 * read at `rand()` positions) are parameters.
 */
module LocalMemory {
  import opened Sizing
  import opened Kernels
  import opened VectorBlocks
  import opened Seeding
  import opened Timing

  /** `struct streams_args` without its semaphore pointer. */
  datatype StreamsArgs = StreamsArgs(size: nat, clock: Double, bandwidth: real, consumeOut: real, repetitions: nat)

  /** `struct benchmark_results`, with the bandwidth given by the bytes
      streamed per repetition (the division by the mean time is left out). */
  datatype BenchmarkResults = BenchmarkResults(bytes: nat, meanClock: Double, consume: real)

  /** The thread functions passed to `execute_mt_benchmark`. */
  datatype ThreadFn = AxpyThreadFn | CopyThreadFn | FmaThreadFn | AddMultThreadFn

  /** The order in which `main` runs the kernels. */
  const Phases: seq<ThreadFn> := [AxpyThreadFn, CopyThreadFn, FmaThreadFn, AddMultThreadFn]

  /** The stream count `main` passes with each thread function. */
  function Streams(t: ThreadFn): nat {
    match t
    case AxpyThreadFn => 3
    case CopyThreadFn => 2
    case FmaThreadFn => 4
    case AddMultThreadFn => 4
  }

  /** The kernel each thread function repeats; axpy's factor changes between
      repetitions, so the one of the first repetition stands for it here. */
  function KernelOf(t: ThreadFn): Kernel {
    match t
    case AxpyThreadFn => Axpy(InitialAlpha)
    case CopyThreadFn => Copy
    case FmaThreadFn => FmaACB
    case AddMultThreadFn => AddMult
  }

  /** Every stream count equals the number of private arrays the kernel
      reads or writes. */
  lemma StreamsAreTouchedArrays(t: ThreadFn)
    ensures Streams(t) == |Touched(KernelOf(t))|
  {
    match t
    case AxpyThreadFn =>
      assert Touched(KernelOf(t)) == {A, B} + {D};
      assert {A, B} + {D} == {A, B, D};
    case CopyThreadFn =>
      assert Touched(KernelOf(t)) == {A} + {D};
      assert {A} + {D} == {A, D};
    case FmaThreadFn =>
      assert Touched(KernelOf(t)) == {A, B, C} + {D};
      assert {A, B, C} + {D} == {A, B, C, D};
    case AddMultThreadFn =>
      assert Touched(KernelOf(t)) == {A, B} + {C, D};
      assert {A, B} + {C, D} == {A, B, C, D};
  }

  // ---------------------------------------------------------------------
  // The private arrays of one worker
  // ---------------------------------------------------------------------

  /** The divisor of `c`'s seed in this variant. */
  const CDivisor: real := 400.0

  /** A worker's private arrays of `size` elements right after seeding (the
      copy thread allocates only `a` and `d`, the axpy thread only `a`, `b`
      and `d`; their seeds are the same). */
  function Private(size: nat): (s: Arrays)
    ensures s.Valid() && |s.a| == size
  {
    Arrays(
      seq(size, i requires 0 <= i < size => SeedA(SeedAt(i))),
      seq(size, i requires 0 <= i < size => SeedB(SeedAt(i))),
      seq(size, i requires 0 <= i < size => SeedC(SeedAt(i), CDivisor)),
      seq(size, i requires 0 <= i < size => 0.0))
  }

  /** The elements the block loop covers: `8 * (size / 8)`. */
  function Blocked(size: nat): (n: nat)
    ensures n <= size
  {
    VectorLen * (size / VectorLen)
  }

  /** Batches are multiples of 8, so the block loop covers a whole batch. */
  lemma BlockedBatch(requested: nat, nrCpu: nat)
    requires nrCpu >= 1
    ensures Blocked(Batch(NormalizedSize(requested, nrCpu), nrCpu)) == Batch(NormalizedSize(requested, nrCpu), nrCpu)
  {
    NormalizedBatch(requested, nrCpu);
  }

  const InitialAlpha: real := 2.55

  /** The axpy factor of repetition `k`: `2.55`, multiplied by `1.01` after
      every repetition. */
  function AlphaAt(k: nat): real {
    if k == 0 then InitialAlpha else AlphaAt(k - 1) * 1.01
  }

  function Power(x: real, k: nat): real {
    if k == 0 then 1.0 else Power(x, k - 1) * x
  }

  /** The factor of repetition `k` is `2.55 * 1.01^k`. */
  lemma {:induction false} AlphaClosedForm(k: nat)
    ensures AlphaAt(k) == InitialAlpha * Power(1.01, k)
  {
    if k > 0 {
      AlphaClosedForm(k - 1);
    }
  }

  /** The factor grows strictly with every repetition. */
  lemma {:induction false} AlphaIncreasing(k: nat)
    ensures InitialAlpha <= AlphaAt(k) < AlphaAt(k + 1)
  {
    if k > 0 {
      AlphaIncreasing(k - 1);
    }
  }

  /** `reps` repetitions of axpy over `[lo, hi)` with the drifting factor. */
  function AxpyRuns(s: Arrays, lo: int, hi: int, reps: nat): (r: Arrays)
    requires s.Valid()
    ensures r.Valid() && r.a == s.a && r.b == s.b && r.c == s.c
  {
    if reps == 0 then s else ApplyOn(Axpy(AlphaAt(reps - 1)), AxpyRuns(s, lo, hi, reps - 1), lo, hi)
  }

  /** Only the last repetition's factor shows in the result. */
  lemma AxpyRunsIsLast(s: Arrays, lo: int, hi: int, reps: nat)
    requires s.Valid() && reps >= 1
    ensures AxpyRuns(s, lo, hi, reps) == ApplyOn(Axpy(AlphaAt(reps - 1)), s, lo, hi)
  {
    var k := Axpy(AlphaAt(reps - 1));
    var prev := AxpyRuns(s, lo, hi, reps - 1);
    forall j | 0 <= j < |s.a|
      ensures OutD(k, prev, j) == OutD(k, s, j)
    {
      OutputsDependOnlyOnReads(k, prev, s, j);
    }
  }

  /** Every seeded `a` is at least 1. */
  lemma PrivatePositive(size: nat, j: nat)
    requires j < size
    ensures Private(size).a[j] >= 1.0
  {
    SeedValuesBounded(SeedAt(j), CDivisor);
  }

  /** Unlike the other kernels, repeating axpy is not idempotent: one more
      repetition changes every covered element whose `a` is not 0, which
      holds for every seeded element (`PrivatePositive`). */
  lemma {:induction false} AxpyRunsNotIdempotent(s: Arrays, reps: nat, j: nat)
    requires s.Valid() && reps >= 1 && j < Blocked(|s.a|) && s.a[j] > 0.0
    ensures AxpyRuns(s, 0, Blocked(|s.a|), reps + 1).d[j] != AxpyRuns(s, 0, Blocked(|s.a|), reps).d[j]
  {
    AxpyRunsIsLast(s, 0, Blocked(|s.a|), reps);
    AxpyRunsIsLast(s, 0, Blocked(|s.a|), reps + 1);
    AlphaIncreasing(reps - 1);
    var x := s.a[j];
    assert AlphaAt(reps) * x > AlphaAt(reps - 1) * x;
  }

  // ---------------------------------------------------------------------
  // The thread functions
  // ---------------------------------------------------------------------

  /** The descriptor a worker leaves: its mean time per repetition (NaN when
      there are no repetitions) and its checksum. */
  function Finished(args: StreamsArgs, samples: seq<real>, consumeOut: real): StreamsArgs {
    args.(clock := Quotient(Sum(samples), args.repetitions), consumeOut := consumeOut)
  }

  /** The block loop's result on `d` is the kernel run over the blocks. */
  lemma BlocksAreApplyOn(k: Kernel, before: Arrays, hi: nat, d: seq<real>)
    requires before.Valid() && hi <= |before.a| && |d| == |before.a|
    requires forall j :: 0 <= j < |d| ==> d[j] == if j < hi then OutD(k, before, j) else before.d[j]
    ensures d == ApplyOn(k, before, 0, hi).d
  {
  }

  /** The timed repetition loop of `axpy_thread` on arrays seeded as `s`;
      it returns the summed time samples. */
  method AxpyRepetitions(a: array<real>, b: array<real>, d: array<real>, samples: seq<real>, ghost s: Arrays)
    returns (elapsed: real)
    requires b.Length == a.Length && d.Length == a.Length && a != d && b != d
    requires s.Valid() && a[..] == s.a && b[..] == s.b && d[..] == s.d
    modifies d
    ensures d[..] == AxpyRuns(s, 0, Blocked(a.Length), |samples|).d
    ensures elapsed == Sum(samples)
  {
    var sizeVec := a.Length / VectorLen;
    var alpha := InitialAlpha;
    elapsed := 0.0;
    for i := 0 to |samples|
      invariant alpha == AlphaAt(i)
      invariant elapsed == Sum(samples[..i])
      invariant d[..] == AxpyRuns(s, 0, Blocked(a.Length), i).d
    {
      ghost var before := AxpyRuns(s, 0, Blocked(a.Length), i);
      AxpyBlocks(alpha, a, b, d, 0, sizeVec);
      BlocksAreApplyOn(Axpy(alpha), before, Blocked(a.Length), d[..]);
      assert samples[..i + 1] == samples[..i] + [samples[i]];
      elapsed := elapsed + samples[i];
      alpha := alpha * 1.01;
    }
    assert samples[..|samples|] == samples;
  }

  /** `axpy_thread` for descriptor `w`: `samples[i]` is the time of
      repetition `i` and `consumeOut` the checksum it adds up. */
  method AxpyThread(th: array<StreamsArgs>, w: nat, samples: seq<real>, consumeOut: real)
    returns (a: array<real>, b: array<real>, d: array<real>)
    requires w < th.Length && |samples| == th[w].repetitions
    modifies th
    ensures fresh(a) && fresh(b) && fresh(d)
    ensures a.Length == old(th[w].size) && b.Length == a.Length && d.Length == a.Length
    ensures a[..] == Private(a.Length).a && b[..] == Private(a.Length).b
    ensures d[..] == AxpyRuns(Private(a.Length), 0, Blocked(a.Length), |samples|).d
    ensures th[w] == Finished(old(th[w]), samples, consumeOut)
    ensures forall i :: 0 <= i < th.Length && i != w ==> th[i] == old(th[i])
  {
    var size := th[w].size;
    a := new real[size];
    b := new real[size];
    d := new real[size];
    SeedABD(a, b, d);
    assert a[..] == Private(size).a && b[..] == Private(size).b && d[..] == Private(size).d;
    var elapsed := AxpyRepetitions(a, b, d, samples, Private(size));
    th[w] := th[w].(consumeOut := consumeOut, clock := Quotient(elapsed, th[w].repetitions));
  }

  /** The timed repetition loop of `copy_thread`. */
  method CopyRepetitions(a: array<real>, d: array<real>, samples: seq<real>, ghost s: Arrays)
    returns (elapsed: real)
    requires d.Length == a.Length && a != d
    requires s.Valid() && a[..] == s.a && d[..] == s.d
    modifies d
    ensures d[..] == Repeat(Copy, s, 0, Blocked(a.Length), |samples|).d
    ensures elapsed == Sum(samples)
  {
    var sizeVec := a.Length / VectorLen;
    elapsed := 0.0;
    for i := 0 to |samples|
      invariant elapsed == Sum(samples[..i])
      invariant d[..] == Repeat(Copy, s, 0, Blocked(a.Length), i).d
    {
      ghost var before := Repeat(Copy, s, 0, Blocked(a.Length), i);
      ApplyOnKeepsReads(Copy, s, 0, Blocked(a.Length));
      RepeatIsOnce(Copy, s, 0, Blocked(a.Length), i);
      CopyBlocks(a, d, 0, sizeVec);
      BlocksAreApplyOn(Copy, before, Blocked(a.Length), d[..]);
      assert samples[..i + 1] == samples[..i] + [samples[i]];
      elapsed := elapsed + samples[i];
    }
    assert samples[..|samples|] == samples;
  }

  /** `copy_thread` for descriptor `w`. */
  method CopyThread(th: array<StreamsArgs>, w: nat, samples: seq<real>, consumeOut: real)
    returns (a: array<real>, d: array<real>)
    requires w < th.Length && |samples| == th[w].repetitions
    modifies th
    ensures fresh(a) && fresh(d)
    ensures a.Length == old(th[w].size) && d.Length == a.Length
    ensures a[..] == Private(a.Length).a
    ensures d[..] == Repeat(Copy, Private(a.Length), 0, Blocked(a.Length), |samples|).d
    ensures th[w] == Finished(old(th[w]), samples, consumeOut)
    ensures forall i :: 0 <= i < th.Length && i != w ==> th[i] == old(th[i])
  {
    var size := th[w].size;
    a := new real[size];
    d := new real[size];
    SeedAD(a, d);
    assert a[..] == Private(size).a && d[..] == Private(size).d;
    var elapsed := CopyRepetitions(a, d, samples, Private(size));
    th[w] := th[w].(consumeOut := consumeOut, clock := Quotient(elapsed, th[w].repetitions));
  }

  /** One run of the fma block loop on arrays holding `before`. */
  method FmaStep(a: array<real>, b: array<real>, c: array<real>, d: array<real>, ghost before: Arrays)
    requires b.Length == a.Length && c.Length == a.Length && d.Length == a.Length
    requires a != d && b != d && c != d
    requires before.Valid() && a[..] == before.a && b[..] == before.b && c[..] == before.c && d[..] == before.d
    modifies d
    ensures d[..] == ApplyOn(FmaACB, before, 0, Blocked(a.Length)).d
  {
    FmaBlocks(a, c, b, d, 0, a.Length / VectorLen);
    BlocksAreApplyOn(FmaACB, before, Blocked(a.Length), d[..]);
  }

  /** The timed repetition loop of `FMA_thread`: `d = a * c + b`. */
  method FmaRepetitions(a: array<real>, b: array<real>, c: array<real>, d: array<real>, samples: seq<real>, ghost s: Arrays)
    returns (elapsed: real)
    requires b.Length == a.Length && c.Length == a.Length && d.Length == a.Length
    requires a != d && b != d && c != d
    requires s.Valid() && a[..] == s.a && b[..] == s.b && c[..] == s.c && d[..] == s.d
    modifies d
    ensures d[..] == Repeat(FmaACB, s, 0, Blocked(a.Length), |samples|).d
    ensures elapsed == Sum(samples)
  {
    elapsed := 0.0;
    for i := 0 to |samples|
      invariant elapsed == Sum(samples[..i])
      invariant d[..] == Repeat(FmaACB, s, 0, Blocked(a.Length), i).d
    {
      RepeatKeepsInputs(FmaACB, s, 0, Blocked(a.Length), i);
      FmaStep(a, b, c, d, Repeat(FmaACB, s, 0, Blocked(a.Length), i));
      assert samples[..i + 1] == samples[..i] + [samples[i]];
      elapsed := elapsed + samples[i];
    }
    assert samples[..|samples|] == samples;
  }

  /** `FMA_thread` for descriptor `w`. */
  method FmaThread(th: array<StreamsArgs>, w: nat, samples: seq<real>, consumeOut: real)
    returns (a: array<real>, b: array<real>, c: array<real>, d: array<real>)
    requires w < th.Length && |samples| == th[w].repetitions
    modifies th
    ensures fresh(a) && fresh(b) && fresh(c) && fresh(d)
    ensures a.Length == old(th[w].size) && b.Length == a.Length && c.Length == a.Length && d.Length == a.Length
    ensures a[..] == Private(a.Length).a && b[..] == Private(a.Length).b && c[..] == Private(a.Length).c
    ensures d[..] == Repeat(FmaACB, Private(a.Length), 0, Blocked(a.Length), |samples|).d
    ensures th[w] == Finished(old(th[w]), samples, consumeOut)
    ensures forall i :: 0 <= i < th.Length && i != w ==> th[i] == old(th[i])
  {
    var size := th[w].size;
    a := new real[size];
    b := new real[size];
    c := new real[size];
    d := new real[size];
    SeedABCD(a, b, c, d, CDivisor);
    assert a[..] == Private(size).a && b[..] == Private(size).b;
    assert c[..] == Private(size).c && d[..] == Private(size).d;
    var elapsed := FmaRepetitions(a, b, c, d, samples, Private(size));
    th[w] := th[w].(consumeOut := consumeOut, clock := Quotient(elapsed, th[w].repetitions));
  }

  /** The block loop of add-mult on `c` and `d` is the kernel run over the
      blocks. */
  lemma AddMultBlocksAreApplyOn(before: Arrays, hi: nat, c: seq<real>, d: seq<real>)
    requires before.Valid() && hi <= |before.a| && |c| == |before.a| && |d| == |before.a|
    requires forall j :: 0 <= j < |d| ==> d[j] == if j < hi then OutD(AddMult, before, j) else before.d[j]
    requires forall j :: 0 <= j < |c| ==> c[j] == if j < hi then OutC(before, j) else before.c[j]
    ensures c == ApplyOn(AddMult, before, 0, hi).c && d == ApplyOn(AddMult, before, 0, hi).d
  {
  }

  /** One run of the add-mult block loop on arrays holding `before`. */
  method AddMultStep(a: array<real>, b: array<real>, c: array<real>, d: array<real>, ghost before: Arrays)
    requires b.Length == a.Length && c.Length == a.Length && d.Length == a.Length
    requires a != c && a != d && b != c && b != d && c != d
    requires before.Valid() && a[..] == before.a && b[..] == before.b && c[..] == before.c && d[..] == before.d
    modifies c, d
    ensures c[..] == ApplyOn(AddMult, before, 0, Blocked(a.Length)).c
    ensures d[..] == ApplyOn(AddMult, before, 0, Blocked(a.Length)).d
  {
    AddMultBlocks(a, b, c, d, 0, a.Length / VectorLen);
    AddMultBlocksAreApplyOn(before, Blocked(a.Length), c[..], d[..]);
  }

  /** The timed repetition loop of `add_mult_thread`. */
  method AddMultRepetitions(a: array<real>, b: array<real>, c: array<real>, d: array<real>, samples: seq<real>, ghost s: Arrays)
    returns (elapsed: real)
    requires b.Length == a.Length && c.Length == a.Length && d.Length == a.Length
    requires a != c && a != d && b != c && b != d && c != d
    requires s.Valid() && a[..] == s.a && b[..] == s.b && c[..] == s.c && d[..] == s.d
    modifies c, d
    ensures c[..] == Repeat(AddMult, s, 0, Blocked(a.Length), |samples|).c
    ensures d[..] == Repeat(AddMult, s, 0, Blocked(a.Length), |samples|).d
    ensures elapsed == Sum(samples)
  {
    elapsed := 0.0;
    for i := 0 to |samples|
      invariant elapsed == Sum(samples[..i])
      invariant c[..] == Repeat(AddMult, s, 0, Blocked(a.Length), i).c
      invariant d[..] == Repeat(AddMult, s, 0, Blocked(a.Length), i).d
    {
      RepeatKeepsInputs(AddMult, s, 0, Blocked(a.Length), i);
      AddMultStep(a, b, c, d, Repeat(AddMult, s, 0, Blocked(a.Length), i));
      assert samples[..i + 1] == samples[..i] + [samples[i]];
      elapsed := elapsed + samples[i];
    }
    assert samples[..|samples|] == samples;
  }

  /** `add_mult_thread` for descriptor `w`. */
  method AddMultThread(th: array<StreamsArgs>, w: nat, samples: seq<real>, consumeOut: real)
    returns (a: array<real>, b: array<real>, c: array<real>, d: array<real>)
    requires w < th.Length && |samples| == th[w].repetitions
    modifies th
    ensures fresh(a) && fresh(b) && fresh(c) && fresh(d)
    ensures a.Length == old(th[w].size) && b.Length == a.Length && c.Length == a.Length && d.Length == a.Length
    ensures a[..] == Private(a.Length).a && b[..] == Private(a.Length).b
    ensures c[..] == Repeat(AddMult, Private(a.Length), 0, Blocked(a.Length), |samples|).c
    ensures d[..] == Repeat(AddMult, Private(a.Length), 0, Blocked(a.Length), |samples|).d
    ensures th[w] == Finished(old(th[w]), samples, consumeOut)
    ensures forall i :: 0 <= i < th.Length && i != w ==> th[i] == old(th[i])
  {
    var size := th[w].size;
    a := new real[size];
    b := new real[size];
    c := new real[size];
    d := new real[size];
    SeedABCD(a, b, c, d, CDivisor);
    assert a[..] == Private(size).a && b[..] == Private(size).b;
    assert c[..] == Private(size).c && d[..] == Private(size).d;
    var elapsed := AddMultRepetitions(a, b, c, d, samples, Private(size));
    th[w] := th[w].(consumeOut := consumeOut, clock := Quotient(elapsed, th[w].repetitions));
  }

  // ---------------------------------------------------------------------
  // What each worker leaves in its private arrays
  // ---------------------------------------------------------------------
  // The thread methods state their arrays as `AxpyRuns` or `Repeat` over
  // `Private(size)`; these lemmas say what that is, element by element, for
  // any seeded set `s` whose `d` starts at 0.

  /** After at least one repetition, axpy has stored `alpha_k * a + b` with
      the factor of the last repetition `k` into every covered element. */
  lemma {:induction false} AxpyThreadResult(s: Arrays, reps: nat, j: nat)
    requires s.Valid() && reps >= 1 && j < |s.a|
    ensures AxpyRuns(s, 0, Blocked(|s.a|), reps).d[j] ==
              if j < Blocked(|s.a|) then AlphaAt(reps - 1) * s.a[j] + s.b[j] else s.d[j]
  {
    AxpyRunsIsLast(s, 0, Blocked(|s.a|), reps);
  }

  /** After at least one repetition, copy has made `d` a copy of `a` on the
      covered elements. */
  lemma {:induction false} CopyThreadResult(s: Arrays, reps: nat, j: nat)
    requires s.Valid() && reps >= 1 && j < |s.a|
    ensures Repeat(Copy, s, 0, Blocked(|s.a|), reps).d[j] == if j < Blocked(|s.a|) then s.a[j] else s.d[j]
  {
    RepeatIsOnce(Copy, s, 0, Blocked(|s.a|), reps);
  }

  /** This variant's fma computes `a * c + b`. */
  lemma {:induction false} FmaThreadResult(s: Arrays, reps: nat, j: nat)
    requires s.Valid() && reps >= 1 && j < |s.a|
    ensures Repeat(FmaACB, s, 0, Blocked(|s.a|), reps).d[j] ==
              if j < Blocked(|s.a|) then s.a[j] * s.c[j] + s.b[j] else s.d[j]
  {
    RepeatIsOnce(FmaACB, s, 0, Blocked(|s.a|), reps);
  }

  /** After at least one repetition, add-mult has stored `a + b` into `d`
      and `a * b` into `c` on the covered elements. */
  lemma {:induction false} AddMultThreadResult(s: Arrays, reps: nat, j: nat)
    requires s.Valid() && reps >= 1 && j < |s.a|
    ensures Repeat(AddMult, s, 0, Blocked(|s.a|), reps).d[j] ==
              if j < Blocked(|s.a|) then s.a[j] + s.b[j] else s.d[j]
    ensures Repeat(AddMult, s, 0, Blocked(|s.a|), reps).c[j] ==
              if j < Blocked(|s.a|) then s.a[j] * s.b[j] else s.c[j]
  {
    RepeatIsOnce(AddMult, s, 0, Blocked(|s.a|), reps);
  }

  /** Every worker seeds the same values, so the private sets of all workers
      of one kernel are equal, and they equal the first `size` elements of
      the set of any larger size. */
  lemma {:induction false} PrivatePrefix(size: nat, larger: nat)
    requires size <= larger
    ensures Private(size).a == Private(larger).a[..size] && Private(size).b == Private(larger).b[..size]
    ensures Private(size).c == Private(larger).c[..size] && Private(size).d == Private(larger).d[..size]
  {
  }

  // ---------------------------------------------------------------------
  // Running the workers and aggregating their descriptors
  // ---------------------------------------------------------------------

  /** Runs thread function `t` for descriptor `w`; its private arrays are
      freed when it ends. */
  method RunThread(t: ThreadFn, th: array<StreamsArgs>, w: nat, samples: seq<real>, consumeOut: real)
    requires w < th.Length && |samples| == th[w].repetitions
    modifies th
    ensures th[w] == Finished(old(th[w]), samples, consumeOut)
    ensures forall i :: 0 <= i < th.Length && i != w ==> th[i] == old(th[i])
  {
    match t
    case AxpyThreadFn =>
      var a, b, d := AxpyThread(th, w, samples, consumeOut);
    case CopyThreadFn =>
      var a, d := CopyThread(th, w, samples, consumeOut);
    case FmaThreadFn =>
      var a, b, c, d := FmaThread(th, w, samples, consumeOut);
    case AddMultThreadFn =>
      var a, b, c, d := AddMultThread(th, w, samples, consumeOut);
  }

  function Clocks(ts: seq<StreamsArgs>): seq<Double>
  {
    seq(|ts|, i requires 0 <= i < |ts| => ts[i].clock)
  }

  /** `execute_mt_benchmark`: runs one worker per descriptor, then adds up
      their times, divides by the number of workers and adds up their
      checksums; `samples[i]` and `consumes[i]` belong to worker `i`. */
  method ExecuteMtBenchmark(th: array<StreamsArgs>, t: ThreadFn, streams: nat, samples: seq<seq<real>>, consumes: seq<real>)
    returns (results: BenchmarkResults)
    requires th.Length >= 1 && |samples| == th.Length && |consumes| == th.Length
    requires forall i :: 0 <= i < th.Length ==> |samples[i]| == th[i].repetitions
    modifies th
    ensures forall i :: 0 <= i < th.Length ==> th[i] == Finished(old(th[i]), samples[i], consumes[i])
    ensures results ==
              BenchmarkResults(StreamedBytes(th.Length, streams, th[0].size), DivBy(SumDoubles(Clocks(th[..])), th.Length), Sum(consumes))
  {
    for i := 0 to th.Length
      invariant forall k :: 0 <= k < i ==> th[k] == Finished(old(th[k]), samples[k], consumes[k])
      invariant forall k :: i <= k < th.Length ==> th[k] == old(th[k])
    {
      RunThread(t, th, i, samples[i], consumes[i]);
    }
    var avgTime := Finite(0.0);
    var consumeOut := 0.0;
    for i := 0 to th.Length
      invariant avgTime == SumDoubles(Clocks(th[..i]))
      invariant consumeOut == Sum(consumes[..i])
    {
      assert Clocks(th[..i + 1])[..i] == Clocks(th[..i]);
      assert consumes[..i + 1] == consumes[..i] + [consumes[i]];
      avgTime := Plus(avgTime, th[i].clock);
      consumeOut := consumeOut + th[i].consumeOut;
    }
    assert th[..th.Length] == th[..];
    assert consumes[..th.Length] == consumes;
    avgTime := DivBy(avgTime, th.Length);
    results := BenchmarkResults(StreamedBytes(th.Length, streams, th[0].size), avgTime, consumeOut);
  }

  /** The block in `main` that prepares every descriptor for the next
      kernel; the bandwidth field is left as it was. */
  method ResetDescriptors(th: array<StreamsArgs>, batch: nat, reps: nat)
    modifies th
    ensures forall i :: 0 <= i < th.Length ==>
              th[i] == old(th[i]).(size := batch, repetitions := reps, consumeOut := 0.0, clock := Finite(0.0))
  {
    for i := 0 to th.Length
      invariant forall k :: 0 <= k < i ==>
                  th[k] == old(th[k]).(size := batch, repetitions := reps, consumeOut := 0.0, clock := Finite(0.0))
      invariant forall k :: i <= k < th.Length ==> th[k] == old(th[k])
    {
      th[i] := th[i].(size := batch, repetitions := reps, consumeOut := 0.0, clock := Finite(0.0));
    }
  }

  // ---------------------------------------------------------------------
  // main
  // ---------------------------------------------------------------------

  /** The per-worker clocks of one kernel: worker `i`'s mean over its
      `reps` samples. */
  function WorkerClocks(samples: seq<seq<real>>, reps: nat): seq<Double>
  {
    seq(|samples|, i requires 0 <= i < |samples| => Quotient(Sum(samples[i]), reps))
  }

  /** The mean time `main` prints for one kernel run by `nrCpu` workers. */
  function MeanClock(samples: seq<seq<real>>, reps: nat, nrCpu: nat): Double
    requires nrCpu >= 1
  {
    DivBy(SumDoubles(WorkerClocks(samples, reps)), nrCpu)
  }

  /** What `main` obtains for phase `p` on arrays of `vecSize` elements. */
  function ExpectedResults(p: nat, vecSize: nat, nrCpu: nat, reps: nat, samples: seq<seq<real>>, consumes: seq<real>): BenchmarkResults
    requires p < |Phases| && nrCpu >= 1
  {
    BenchmarkResults(StreamedBytes(nrCpu, Streams(Phases[p]), Batch(vecSize, nrCpu)), MeanClock(samples, reps, nrCpu), Sum(consumes))
  }

  /** With no repetitions every worker divides 0 by 0, and so does the mean. */
  lemma MeanClockWithoutRepetitions(samples: seq<seq<real>>, nrCpu: nat)
    requires nrCpu >= 1 && |samples| == nrCpu
    ensures MeanClock(samples, 0, nrCpu) == NaN
  {
    SumDoublesNaN(WorkerClocks(samples, 0));
    assert WorkerClocks(samples, 0)[0] == NaN;
  }

  /** With at least one repetition the mean is a number, between the least
      and the greatest time sample of any worker. */
  lemma MeanClockBetween(samples: seq<seq<real>>, reps: nat, nrCpu: nat, lo: real, hi: real)
    requires nrCpu >= 1 && |samples| == nrCpu && reps >= 1
    requires forall i :: 0 <= i < nrCpu ==> |samples[i]| == reps
    requires forall i, k :: 0 <= i < nrCpu && 0 <= k < reps ==> lo <= samples[i][k] <= hi
    ensures MeanClock(samples, reps, nrCpu).Finite?
    ensures lo <= MeanClock(samples, reps, nrCpu).value <= hi
  {
    var clocks := WorkerClocks(samples, reps);
    forall i | 0 <= i < nrCpu
      ensures clocks[i].Finite? && lo <= clocks[i].value <= hi
    {
      AverageBetween(samples[i], lo, hi);
    }
    SumDoublesFinite(clocks);
    var values := Values(clocks);
    AverageBetween(values, lo, hi);
  }

  /** The bytes of every report are those of `Streams` whole arrays of the
      normalised size. */
  lemma ExpectedBytes(p: nat, requested: nat, nrCpu: nat, reps: nat, samples: seq<seq<real>>, consumes: seq<real>)
    requires p < |Phases| && nrCpu >= 1
    ensures ExpectedResults(p, NormalizedSize(requested, nrCpu), nrCpu, reps, samples, consumes).bytes ==
              Streams(Phases[p]) * NormalizedSize(requested, nrCpu) * WordSize
  {
    var n := NormalizedSize(requested, nrCpu);
    NormalizedBatch(requested, nrCpu);
    assert Streams(Phases[p]) * Batch(n, nrCpu) * nrCpu == Streams(Phases[p]) * (Batch(n, nrCpu) * nrCpu);
  }

  /** One block of `main`: reset the descriptors, run kernel `p`. */
  method Phase(th: array<StreamsArgs>, p: nat, batch: nat, reps: nat, samples: seq<seq<real>>, consumes: seq<real>)
    returns (results: BenchmarkResults)
    requires p < |Phases| && th.Length >= 1 && |samples| == th.Length && |consumes| == th.Length
    requires forall i :: 0 <= i < th.Length ==> |samples[i]| == reps
    modifies th
    ensures forall i :: 0 <= i < th.Length ==>
              th[i] == Finished(old(th[i]).(size := batch, repetitions := reps, consumeOut := 0.0, clock := Finite(0.0)),
                                samples[i], consumes[i])
    ensures Clocks(th[..]) == WorkerClocks(samples, reps)
    ensures results == BenchmarkResults(StreamedBytes(th.Length, Streams(Phases[p]), batch), MeanClock(samples, reps, th.Length), Sum(consumes))
  {
    ResetDescriptors(th, batch, reps);
    results := ExecuteMtBenchmark(th, Phases[p], Streams(Phases[p]), samples, consumes);
    assert Clocks(th[..]) == WorkerClocks(samples, reps);
  }

  /** `main` after the command line is parsed: `requested` elements,
      `reps` repetitions, `nrCpu` processors; `samples[p][i][k]` is the time
      worker `i` measures for repetition `k` of phase `p` and
      `consumes[p][i]` its checksum. */
  method Run(requested: nat, nrCpu: nat, reps: nat, samples: seq<seq<seq<real>>>, consumes: seq<seq<real>>)
    returns (vecSize: nat, results: seq<BenchmarkResults>)
    requires nrCpu >= 1 && |samples| == |Phases| && |consumes| == |Phases|
    requires forall p :: 0 <= p < |Phases| ==> |samples[p]| == nrCpu && |consumes[p]| == nrCpu
    requires forall p, i :: 0 <= p < |Phases| && 0 <= i < nrCpu ==> |samples[p][i]| == reps
    ensures vecSize == NormalizedSize(requested, nrCpu)
    ensures |results| == |Phases|
    ensures forall p :: 0 <= p < |Phases| ==>
              results[p] == ExpectedResults(p, vecSize, nrCpu, reps, samples[p], consumes[p])
  {
    vecSize := NormalizedSize(requested, nrCpu);
    var th := new StreamsArgs[nrCpu](_ => StreamsArgs(0, Finite(0.0), 0.0, 0.0, 0));
    var batch := vecSize / nrCpu;
    results := [];
    for p := 0 to |Phases|
      invariant |results| == p
      invariant forall q :: 0 <= q < p ==> results[q] == ExpectedResults(q, vecSize, nrCpu, reps, samples[q], consumes[q])
    {
      var r := Phase(th, p, batch, reps, samples[p], consumes[p]);
      results := results + [r];
    }
  }
}
