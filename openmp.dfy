/**
 * The OpenMP variant. One set of arrays of the normalised size is seeded
 * from the element index alone; then fma, axpy, copy and add-mult each run
 * `benchmark_repetitions` times over the whole arrays, every repetition
 * storing its time in its own slot of the kernel's clock array, and the
 * mean of each clock array is reported.
 *
 * A `parallel for` loop writes each element from the same element of other
 * arrays, so its iterations are independent and it is modelled as a
 * sequential loop. Time samples are parameters; the checksum, which reads
 * at `rand()` positions, is left out.
 */
module OpenMP {
  import opened Sizing
  import opened Kernels
  import opened Timing

  /** The constant axpy factor of this variant. */
  const Alpha: real := 2.56

  /** The kernels in the order they run: fma, axpy, copy, add-mult. */
  const OmpKernels: seq<Kernel> := [FmaABC, Axpy(Alpha), Copy, AddMult]

  // ---------------------------------------------------------------------
  // Seeding from the index
  // ---------------------------------------------------------------------

  function IndexSeedA(i: nat): real { 1.0 + (i % 300) as real / 200.0 }
  function IndexSeedB(i: nat): real { 1.0 + (i % 200) as real / 150.0 }
  function IndexSeedC(i: nat): real { 1.0 + (i % 150) as real / 100.0 }

  /** The arrays of `n` elements right after seeding. */
  function Seeded(n: nat): (s: Arrays)
    ensures s.Valid() && |s.a| == n
  {
    Arrays(
      seq(n, i requires 0 <= i < n => IndexSeedA(i)),
      seq(n, i requires 0 <= i < n => IndexSeedB(i)),
      seq(n, i requires 0 <= i < n => IndexSeedC(i)),
      seq(n, i requires 0 <= i < n => 0.0))
  }

  /** The seeding loop. */
  method Seed(a: array<real>, b: array<real>, c: array<real>, d: array<real>)
    requires Separate(a, b, c, d)
    modifies a, b, c, d
    ensures View(a, b, c, d) == Seeded(a.Length)
  {
    for i := 0 to a.Length
      invariant forall j :: 0 <= j < i ==>
                  a[j] == IndexSeedA(j) && b[j] == IndexSeedB(j) && c[j] == IndexSeedC(j) && d[j] == 0.0
    {
      a[i] := IndexSeedA(i);
      b[i] := IndexSeedB(i);
      c[i] := IndexSeedC(i);
      d[i] := 0.0;
    }
    assert View(a, b, c, d) == Seeded(a.Length);
  }

  /** A seed depends on nothing but the index: the first `n` elements are
      the same for every size. */
  lemma SeedsSizeIndependent(n: nat, m: nat, i: nat)
    requires i < n <= m
    ensures Seeded(n).a[i] == Seeded(m).a[i] && Seeded(n).b[i] == Seeded(m).b[i] && Seeded(n).c[i] == Seeded(m).c[i]
  {
  }

  /** The seed pattern repeats every 600 elements. */
  lemma {:induction false} SeedsPeriodic(n: nat, i: nat)
    requires i + 600 < n
    ensures Seeded(n).a[i + 600] == Seeded(n).a[i]
    ensures Seeded(n).b[i + 600] == Seeded(n).b[i]
    ensures Seeded(n).c[i + 600] == Seeded(n).c[i]
  {
    DivModUnique(i + 600, 300, i / 300 + 2, i % 300);
    DivModUnique(i + 600, 200, i / 200 + 3, i % 200);
    DivModUnique(i + 600, 150, i / 150 + 4, i % 150);
  }

  /** Every seeded value of `a`, `b` and `c` lies in `[1, 2.5)`. */
  lemma SeedsBounded(i: nat)
    ensures 1.0 <= IndexSeedA(i) < 2.5 && 1.0 <= IndexSeedB(i) < 2.5 && 1.0 <= IndexSeedC(i) < 2.5
  {
    assert (i % 300) as real <= 299.0;
    assert (i % 200) as real <= 199.0;
    assert (i % 150) as real <= 149.0;
  }

  // ---------------------------------------------------------------------
  // The kernels and their clock slots
  // ---------------------------------------------------------------------

  /** A slot of a clock array: `malloc` leaves it unset until a repetition
      writes its time. */
  datatype Slot = Unset | Sample(ms: real)

  /** One `parallel for` sweep of kernel `k` over the whole arrays. */
  method Sweep(k: Kernel, a: array<real>, b: array<real>, c: array<real>, d: array<real>)
    requires Separate(a, b, c, d)
    modifies c, d
    ensures View(a, b, c, d) == ApplyOn(k, old(View(a, b, c, d)), 0, a.Length)
  {
    ghost var s := View(a, b, c, d);
    for i := 0 to a.Length
      invariant forall j :: 0 <= j < a.Length ==> d[j] == if j < i then OutD(k, s, j) else s.d[j]
      invariant forall j :: 0 <= j < a.Length ==> c[j] == if k.AddMult? && j < i then OutC(s, j) else s.c[j]
    {
      match k
      case Copy =>
        d[i] := a[i];
      case Axpy(alpha) =>
        d[i] := alpha * a[i] + b[i];
      case FmaABC =>
        d[i] := a[i] * b[i] + c[i];
      case FmaACB =>
        d[i] := a[i] * c[i] + b[i];
      case AddMult =>
        d[i] := a[i] + b[i];
        c[i] := a[i] * b[i];
    }
    assert View(a, b, c, d) == ApplyOn(k, s, 0, a.Length);
  }

  /** The repetition loop of one kernel: repetition `r` runs the sweep and
      stores `samples[r]` into `clock[r]`. */
  method RepeatKernel(k: Kernel, a: array<real>, b: array<real>, c: array<real>, d: array<real>,
                      clock: array<Slot>, samples: seq<real>)
    requires Separate(a, b, c, d) && clock.Length == |samples|
    modifies c, d, clock
    ensures View(a, b, c, d) == Repeat(k, old(View(a, b, c, d)), 0, a.Length, |samples|)
    ensures forall r :: 0 <= r < clock.Length ==> clock[r] == Sample(samples[r])
  {
    ghost var s := View(a, b, c, d);
    for r := 0 to |samples|
      invariant View(a, b, c, d) == Repeat(k, s, 0, a.Length, r)
      invariant forall q :: 0 <= q < r ==> clock[q] == Sample(samples[q])
    {
      Sweep(k, a, b, c, d);
      clock[r] := Sample(samples[r]);
    }
  }

  /** The times held by filled clock slots, in order. */
  function SlotValues(slots: seq<Slot>): seq<real>
    requires forall i :: 0 <= i < |slots| ==> slots[i].Sample?
  {
    seq(|slots|, i requires 0 <= i < |slots| => slots[i].ms)
  }

  /** `average` over a clock array; every slot it reads must have been
      written. */
  method AverageClock(clock: array<Slot>) returns (avg: Double)
    requires forall r :: 0 <= r < clock.Length ==> clock[r].Sample?
    ensures avg == Average(SlotValues(clock[..]))
  {
    var sum := 0.0;
    for i := 0 to clock.Length
      invariant sum == Sum(SlotValues(clock[..])[..i])
    {
      assert SlotValues(clock[..])[..i + 1] == SlotValues(clock[..])[..i] + [clock[i].ms];
      sum := sum + clock[i].ms;
    }
    assert SlotValues(clock[..])[..clock.Length] == SlotValues(clock[..]);
    avg := Quotient(sum, clock.Length);
  }

  /** Once the repetition loop has run, the clock array holds exactly the
      samples, so its average is theirs. */
  method TimeKernel(k: Kernel, a: array<real>, b: array<real>, c: array<real>, d: array<real>,
                    clock: array<Slot>, samples: seq<real>)
    returns (avg: Double)
    requires Separate(a, b, c, d) && clock.Length == |samples|
    modifies c, d, clock
    ensures View(a, b, c, d) == Repeat(k, old(View(a, b, c, d)), 0, a.Length, |samples|)
    ensures forall r :: 0 <= r < clock.Length ==> clock[r] == Sample(samples[r])
    ensures avg == Average(samples)
  {
    RepeatKernel(k, a, b, c, d, clock, samples);
    assert SlotValues(clock[..]) == samples;
    avg := AverageClock(clock);
  }

  // ---------------------------------------------------------------------
  // Stream counts
  // ---------------------------------------------------------------------

  /** The stream counts `main` passes for the kernels in running order, as
      written: fma is counted with 3 streams. */
  function StreamsAsWritten(p: nat): nat
    requires p < |OmpKernels|
  {
    [3, 3, 2, 4][p]
  }

  /** The fma count as written leaves out one of the four arrays fma touches
      (it reads a, b and c and writes d). */
  lemma FmaStreamsAsWrittenUndercount()
    ensures OmpKernels[0] == FmaABC
    ensures StreamsAsWritten(0) == 3 && |Touched(FmaABC)| == 4
    ensures StreamsAsWritten(0) < |Touched(OmpKernels[0])|
  {
    assert Touched(FmaABC) == {A, B, C} + {D};
    assert {A, B, C} + {D} == {A, B, C, D};
  }

  /** The stream counts with fma counted as 4, as the threaded variants do. */
  function Streams(p: nat): nat
    requires p < |OmpKernels|
  {
    [4, 3, 2, 4][p]
  }

  /** Every corrected count is the number of arrays its kernel touches, and
      only the fma count differs from the one written. */
  lemma StreamsAreTouchedArrays(p: nat)
    requires p < |OmpKernels|
    ensures Streams(p) == |Touched(OmpKernels[p])|
    ensures Streams(p) != StreamsAsWritten(p) <==> p == 0
  {
    if p == 0 {
      FmaStreamsAsWrittenUndercount();
    } else if p == 1 {
      assert Touched(OmpKernels[p]) == {A, B} + {D};
      assert {A, B} + {D} == {A, B, D};
    } else if p == 2 {
      assert Touched(OmpKernels[p]) == {A} + {D};
      assert {A} + {D} == {A, D};
    } else {
      assert Touched(OmpKernels[p]) == {A, B} + {C, D};
      assert {A, B} + {C, D} == {A, B, C, D};
    }
  }

  // ---------------------------------------------------------------------
  // main
  // ---------------------------------------------------------------------

  /** What `main` reports for the kernel that runs `p`-th: the average of
      its samples, and the bytes of `StreamsAsWritten(p)` whole arrays with
      `nr_cpu = 1`, the count `main` passes to `compute_bandwidth`. */
  function ExpectedReport(p: nat, vecSize: nat, samples: seq<real>): KernelReport
    requires p < |OmpKernels|
  {
    KernelReport(Average(samples), StreamedBytes(1, StreamsAsWritten(p), vecSize))
  }

  /** The bytes `main` reports are the bytes the kernel moves for axpy, copy
      and add-mult; for fma they are three quarters of them, short of it on
      every non-empty array. */
  lemma ReportedBytesAgainstTouched(p: nat, vecSize: nat, samples: seq<real>)
    requires p < |OmpKernels|
    ensures p != 0 ==> ExpectedReport(p, vecSize, samples).bytes == StreamedBytes(1, |Touched(OmpKernels[p])|, vecSize)
    ensures p == 0 ==> 4 * ExpectedReport(p, vecSize, samples).bytes == 3 * StreamedBytes(1, |Touched(OmpKernels[p])|, vecSize)
    ensures p == 0 && vecSize > 0 ==> ExpectedReport(p, vecSize, samples).bytes < StreamedBytes(1, |Touched(OmpKernels[p])|, vecSize)
  {
    StreamsAreTouchedArrays(p);
    if p == 0 {
      assert StreamsAsWritten(0) == 3 && Streams(0) == 4;
      assert StreamedBytes(1, 3, vecSize) == 24 * vecSize;
      assert StreamedBytes(1, 4, vecSize) == 32 * vecSize;
    }
  }

  /** The arrays after the first `p` kernels. */
  function AfterKernels(s0: Arrays, p: nat, reps: nat): (s: Arrays)
    requires s0.Valid() && p <= |OmpKernels|
    ensures s.Valid() && |s.a| == |s0.a|
  {
    RunPhases(s0, OmpKernels[..p], reps)
  }

  /** One repetition loop of `main` and its report. */
  method Phase(p: nat, a: array<real>, b: array<real>, c: array<real>, d: array<real>,
               clock: array<Slot>, samples: seq<real>, ghost s0: Arrays)
    returns (report: KernelReport)
    requires p < |OmpKernels| && Separate(a, b, c, d) && clock.Length == |samples|
    requires s0.Valid() && |s0.a| == a.Length && View(a, b, c, d) == AfterKernels(s0, p, |samples|)
    modifies c, d, clock
    ensures View(a, b, c, d) == AfterKernels(s0, p + 1, |samples|)
    ensures forall r :: 0 <= r < clock.Length ==> clock[r] == Sample(samples[r])
    ensures report == ExpectedReport(p, a.Length, samples)
  {
    var avg := TimeKernel(OmpKernels[p], a, b, c, d, clock, samples);
    RunPhasesSplit(s0, OmpKernels, p, |samples|);
    report := KernelReport(avg, StreamedBytes(1, StreamsAsWritten(p), a.Length));
  }

  /** The arrays of `vecSize` elements, allocated and seeded. */
  method Setup(vecSize: nat) returns (a: array<real>, b: array<real>, c: array<real>, d: array<real>)
    ensures fresh(a) && fresh(b) && fresh(c) && fresh(d) && Separate(a, b, c, d)
    ensures a.Length == vecSize && View(a, b, c, d) == Seeded(vecSize)
  {
    a := new real[vecSize];
    b := new real[vecSize];
    c := new real[vecSize];
    d := new real[vecSize];
    Seed(a, b, c, d);
  }

  /** The four repetition loops, each with its own clock array. */
  method RunKernels(a: array<real>, b: array<real>, c: array<real>, d: array<real>, reps: nat, samples: seq<seq<real>>)
    returns (reports: seq<KernelReport>)
    requires Separate(a, b, c, d) && |samples| == |OmpKernels|
    requires forall p :: 0 <= p < |OmpKernels| ==> |samples[p]| == reps
    modifies c, d
    ensures View(a, b, c, d) == RunPhases(old(View(a, b, c, d)), OmpKernels, reps)
    ensures |reports| == |OmpKernels|
    ensures forall p :: 0 <= p < |OmpKernels| ==> reports[p] == ExpectedReport(p, a.Length, samples[p])
  {
    ghost var s0 := View(a, b, c, d);
    var clockFma := new Slot[reps](_ => Unset);
    var clockAxpy := new Slot[reps](_ => Unset);
    var clockCopy := new Slot[reps](_ => Unset);
    var clockAddMul := new Slot[reps](_ => Unset);
    assert OmpKernels[..0] == [];
    var fma := Phase(0, a, b, c, d, clockFma, samples[0], s0);
    var axpy := Phase(1, a, b, c, d, clockAxpy, samples[1], s0);
    var copy := Phase(2, a, b, c, d, clockCopy, samples[2], s0);
    var addMul := Phase(3, a, b, c, d, clockAddMul, samples[3], s0);
    assert OmpKernels[..4] == OmpKernels;
    reports := [fma, axpy, copy, addMul];
  }

  /** `main` after the command line is parsed: `requested` elements, `reps`
      repetitions, `nrCpu` processors; `samples[p]` are the times of the
      kernel that runs `p`-th. */
  method Run(requested: nat, nrCpu: nat, reps: nat, samples: seq<seq<real>>)
    returns (a: array<real>, b: array<real>, c: array<real>, d: array<real>, reports: seq<KernelReport>)
    requires nrCpu >= 1 && |samples| == |OmpKernels|
    requires forall p :: 0 <= p < |OmpKernels| ==> |samples[p]| == reps
    ensures fresh(a) && fresh(b) && fresh(c) && fresh(d) && Separate(a, b, c, d)
    ensures a.Length == NormalizedSize(requested, nrCpu)
    ensures View(a, b, c, d) == RunPhases(Seeded(a.Length), OmpKernels, reps)
    ensures |reports| == |OmpKernels|
    ensures forall p :: 0 <= p < |OmpKernels| ==> reports[p] == ExpectedReport(p, a.Length, samples[p])
  {
    a, b, c, d := Setup(NormalizedSize(requested, nrCpu));
    reports := RunKernels(a, b, c, d, reps, samples);
  }

  // ---------------------------------------------------------------------
  // What the kernels leave
  // ---------------------------------------------------------------------

  /** No kernel before add-mult writes `c`, so fma, which runs first, reads
      the seeded `c`: after the fma loop `d = a * b + c` of the seeds. */
  lemma FmaReadsSeededC(n: nat, reps: nat, x: nat)
    requires reps >= 1 && x < n
    ensures AfterKernels(Seeded(n), 1, reps).d[x] == Seeded(n).a[x] * Seeded(n).b[x] + Seeded(n).c[x]
  {
    PhaseComputesFromInitial(Seeded(n), OmpKernels, 0, reps, x);
  }

  /** After the axpy loop, `d = 2.56 * a + b` of the seeds. */
  lemma AxpyReadsSeeds(n: nat, reps: nat, x: nat)
    requires reps >= 1 && x < n
    ensures AfterKernels(Seeded(n), 2, reps).d[x] == Alpha * Seeded(n).a[x] + Seeded(n).b[x]
  {
    PhaseComputesFromInitial(Seeded(n), OmpKernels, 1, reps, x);
  }

  /** After the copy loop, `d = a`. */
  lemma CopyCopiesSeed(n: nat, reps: nat, x: nat)
    requires reps >= 1 && x < n
    ensures AfterKernels(Seeded(n), 3, reps).d[x] == Seeded(n).a[x]
  {
    PhaseComputesFromInitial(Seeded(n), OmpKernels, 2, reps, x);
  }

  /** At the end `a` and `b` still hold their seeds, `d = a + b` and
      `c = a * b`; with no repetitions nothing but the seeding happened. */
  lemma FinalArrays(n: nat, reps: nat)
    ensures RunPhases(Seeded(n), OmpKernels, reps).a == Seeded(n).a
    ensures RunPhases(Seeded(n), OmpKernels, reps).b == Seeded(n).b
    ensures reps >= 1 ==> forall x :: 0 <= x < n ==>
              RunPhases(Seeded(n), OmpKernels, reps).d[x] == Seeded(n).a[x] + Seeded(n).b[x]
    ensures reps >= 1 ==> forall x :: 0 <= x < n ==>
              RunPhases(Seeded(n), OmpKernels, reps).c[x] == Seeded(n).a[x] * Seeded(n).b[x]
    ensures reps == 0 ==> RunPhases(Seeded(n), OmpKernels, reps) == Seeded(n)
  {
    RunPhasesKeepsInputs(Seeded(n), OmpKernels, reps);
    if reps >= 1 {
      RunPhasesEndingInAddMult(Seeded(n), OmpKernels, reps);
    } else {
      NoRepetitions(Seeded(n), OmpKernels);
    }
  }

  /** With no repetitions every phase is empty. */
  lemma {:induction false} NoRepetitions(s: Arrays, ks: seq<Kernel>)
    requires s.Valid()
    ensures RunPhases(s, ks, 0) == s
    decreases |ks|
  {
    if ks != [] {
      NoRepetitions(s, ks[1..]);
    }
  }
}
