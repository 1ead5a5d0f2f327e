/**
 * The shared-memory multi-threaded variant. One set of arrays `a`, `b`, `c`,
 * `d` is allocated and seeded once; each of the `nrCpu` workers runs a
 * kernel over its own range of those arrays and stores the time it
 * measured in its descriptor.
 *
 * The threads are modelled as a sequential loop over a schedule: any order
 * in which every worker runs once. Their ranges are disjoint, so the order
 * does not change the result. The semaphore is initialised to `nrCpu` and
 * each thread waits on it once, so it never blocks and is left out. Time
 * samples are parameters.
 */
module SharedMemory {
  import opened Sizing
  import opened Kernels
  import opened VectorBlocks
  import opened Seeding
  import opened Timing

  /** `struct streams_args` without its array pointers, which are the same
      for every worker and are passed separately. */
  datatype StreamsArgs = StreamsArgs(startIndex: nat, endIndex: nat, clock: real)

  /** The thread functions passed to `MAKE_BENCHMARK_FUNC`. */
  datatype ThreadFn = AxpyThreadFn | CopyThreadFn | FmaThreadFn | AddMultThreadFn

  /** `axpy_thread` uses the fixed `alpha = 2.55`. */
  const Alpha: real := 2.55

  function KernelOf(t: ThreadFn): Kernel {
    match t
    case AxpyThreadFn => Axpy(Alpha)
    case CopyThreadFn => Copy
    case FmaThreadFn => FmaABC
    case AddMultThreadFn => AddMult
  }

  /** The stream count each bandwidth figure is computed with. */
  function Streams(t: ThreadFn): nat {
    match t
    case AxpyThreadFn => 3
    case CopyThreadFn => 2
    case FmaThreadFn => 4
    case AddMultThreadFn => 4
  }

  /** Every count equals the number of arrays the kernel reads or writes. */
  lemma StreamsAreTouchedArrays(t: ThreadFn)
    ensures Streams(t) == |Touched(KernelOf(t))|
  {
    match t
    case AxpyThreadFn =>
      assert Touched(KernelOf(t)) == {A, B} + {D};
      assert {A, B} + {D} == {A, B, D};
    case CopyThreadFn =>
      assert Touched(KernelOf(t)) == {A} + {D};
      assert {A} + {D} == {A, D};
    case FmaThreadFn =>
      assert Touched(KernelOf(t)) == {A, B, C} + {D};
      assert {A, B, C} + {D} == {A, B, C, D};
    case AddMultThreadFn =>
      assert Touched(KernelOf(t)) == {A, B} + {C, D};
      assert {A, B} + {C, D} == {A, B, C, D};
  }

  /** Bytes streamed per repetition, `streams * batch * nr_cpu * 8`, are those
      of the whole array. */
  lemma BytesCoverWholeArray(t: ThreadFn, nrCpu: nat, batch: nat, vecSize: nat)
    requires batch * nrCpu == vecSize
    ensures StreamedBytes(nrCpu, Streams(t), batch) == Streams(t) * vecSize * WordSize
  {
    assert Streams(t) * batch * nrCpu == Streams(t) * (batch * nrCpu);
  }

  /** `size_vec`: the number of whole blocks in the worker's range. */
  function SizeVec(args: StreamsArgs): nat
    requires args.startIndex <= args.endIndex
  {
    (args.endIndex - args.startIndex) / VectorLen
  }

  /** The end of what the block loop covers. */
  function BlocksEnd(args: StreamsArgs): nat
    requires args.startIndex <= args.endIndex
  {
    args.startIndex + VectorLen * SizeVec(args)
  }

  /** A range that is a whole number of blocks is covered exactly. */
  lemma BlocksCoverRange(args: StreamsArgs)
    requires args.startIndex <= args.endIndex
    ensures BlocksEnd(args) <= args.endIndex
    ensures (args.endIndex - args.startIndex) % VectorLen == 0 ==> BlocksEnd(args) == args.endIndex
  {
  }

  /** A worker's range is a whole number of blocks, so its block loop covers
      all of it. */
  lemma WorkerBlocks(args: StreamsArgs, w: nat, batch: nat)
    requires args.startIndex == WorkerStart(w, batch) && args.endIndex == WorkerEnd(w, batch)
    requires batch % VectorLen == 0
    ensures args.startIndex <= args.endIndex && BlocksEnd(args) == WorkerEnd(w, batch)
  {
    assert (w + 1) * batch == w * batch + batch;
    BlocksCoverRange(args);
  }

  predicate Runnable(a: array<real>, d: array<real>, th: array<StreamsArgs>, w: nat)
    reads th
  {
    w < th.Length && th[w].startIndex <= th[w].endIndex <= d.Length
  }

  /** `copy_thread`. */
  method CopyThread(a: array<real>, b: array<real>, c: array<real>, d: array<real>,
                    th: array<StreamsArgs>, w: nat, elapsed: real)
    requires Separate(a, b, c, d) && Runnable(a, d, th, w)
    modifies d, th
    ensures View(a, b, c, d) == ApplyOn(Copy, old(View(a, b, c, d)), old(th[w].startIndex), old(BlocksEnd(th[w])))
    ensures th[w] == old(th[w]).(clock := elapsed)
    ensures forall i :: 0 <= i < th.Length && i != w ==> th[i] == old(th[i])
  {
    var args := th[w];
    ghost var s0 := View(a, b, c, d);
    CopyBlocks(a, d, args.startIndex, SizeVec(args));
    ghost var want := ApplyOn(Copy, s0, args.startIndex, BlocksEnd(args));
    assert d[..] == want.d;
    th[w] := args.(clock := elapsed);
  }

  /** `axpy_thread`. */
  method AxpyThread(a: array<real>, b: array<real>, c: array<real>, d: array<real>,
                    th: array<StreamsArgs>, w: nat, elapsed: real)
    requires Separate(a, b, c, d) && Runnable(a, d, th, w)
    modifies d, th
    ensures View(a, b, c, d) == ApplyOn(Axpy(Alpha), old(View(a, b, c, d)), old(th[w].startIndex), old(BlocksEnd(th[w])))
    ensures th[w] == old(th[w]).(clock := elapsed)
    ensures forall i :: 0 <= i < th.Length && i != w ==> th[i] == old(th[i])
  {
    var args := th[w];
    ghost var s0 := View(a, b, c, d);
    AxpyBlocks(Alpha, a, b, d, args.startIndex, SizeVec(args));
    ghost var want := ApplyOn(Axpy(Alpha), s0, args.startIndex, BlocksEnd(args));
    assert d[..] == want.d;
    th[w] := args.(clock := elapsed);
  }

  /** `fma_thread`: `d = a * b + c`. */
  method FmaThread(a: array<real>, b: array<real>, c: array<real>, d: array<real>,
                   th: array<StreamsArgs>, w: nat, elapsed: real)
    requires Separate(a, b, c, d) && Runnable(a, d, th, w)
    modifies d, th
    ensures View(a, b, c, d) == ApplyOn(FmaABC, old(View(a, b, c, d)), old(th[w].startIndex), old(BlocksEnd(th[w])))
    ensures th[w] == old(th[w]).(clock := elapsed)
    ensures forall i :: 0 <= i < th.Length && i != w ==> th[i] == old(th[i])
  {
    var args := th[w];
    ghost var s0 := View(a, b, c, d);
    FmaBlocks(a, b, c, d, args.startIndex, SizeVec(args));
    ghost var want := ApplyOn(FmaABC, s0, args.startIndex, BlocksEnd(args));
    forall j | 0 <= j < d.Length
      ensures d[j] == want.d[j]
    {
    }
    assert d[..] == want.d;
    th[w] := args.(clock := elapsed);
  }

  /** `add_mult_thread`: the only kernel that writes `c`. */
  method AddMultThread(a: array<real>, b: array<real>, c: array<real>, d: array<real>,
                       th: array<StreamsArgs>, w: nat, elapsed: real)
    requires Separate(a, b, c, d) && Runnable(a, d, th, w)
    modifies c, d, th
    ensures View(a, b, c, d) == ApplyOn(AddMult, old(View(a, b, c, d)), old(th[w].startIndex), old(BlocksEnd(th[w])))
    ensures th[w] == old(th[w]).(clock := elapsed)
    ensures forall i :: 0 <= i < th.Length && i != w ==> th[i] == old(th[i])
  {
    var args := th[w];
    ghost var s0 := View(a, b, c, d);
    AddMultBlocks(a, b, c, d, args.startIndex, SizeVec(args));
    ghost var want := ApplyOn(AddMult, s0, args.startIndex, BlocksEnd(args));
    forall j | 0 <= j < d.Length
      ensures d[j] == want.d[j] && c[j] == want.c[j]
    {
    }
    assert d[..] == want.d;
    assert c[..] == want.c;
    th[w] := args.(clock := elapsed);
  }

  /** One thread of kind `t` on worker `w`'s descriptor. */
  method RunThread(t: ThreadFn, a: array<real>, b: array<real>, c: array<real>, d: array<real>,
                   th: array<StreamsArgs>, w: nat, elapsed: real)
    requires Separate(a, b, c, d) && Runnable(a, d, th, w)
    modifies c, d, th
    ensures View(a, b, c, d) == ApplyOn(KernelOf(t), old(View(a, b, c, d)), old(th[w].startIndex), old(BlocksEnd(th[w])))
    ensures th[w] == old(th[w]).(clock := elapsed)
    ensures forall i :: 0 <= i < th.Length && i != w ==> th[i] == old(th[i])
  {
    match t
    case AxpyThreadFn => AxpyThread(a, b, c, d, th, w, elapsed);
    case CopyThreadFn => CopyThread(a, b, c, d, th, w, elapsed);
    case FmaThreadFn => FmaThread(a, b, c, d, th, w, elapsed);
    case AddMultThreadFn => AddMultThread(a, b, c, d, th, w, elapsed);
  }

  /** A thread schedule: every worker `0 .. nrCpu - 1` runs exactly once. */
  ghost predicate IsSchedule(order: seq<nat>, nrCpu: nat) {
    |order| == nrCpu && forall w :: w in order <==> w < nrCpu
  }

  /** Descriptor `i` holds the range `[i * batch, (i + 1) * batch)`. */
  predicate HoldsPartition(th: array<StreamsArgs>, batch: nat)
    reads th
  {
    forall i :: 0 <= i < th.Length ==>
      th[i].startIndex == WorkerStart(i, batch) && th[i].endIndex == WorkerEnd(i, batch)
  }

  /** The loop of `main` that fills `th_args[i]` with worker `i`'s range. */
  method AssignRanges(nrCpu: nat, batch: nat) returns (th: array<StreamsArgs>)
    ensures fresh(th) && th.Length == nrCpu && HoldsPartition(th, batch)
  {
    th := new StreamsArgs[nrCpu];
    for i := 0 to nrCpu
      invariant forall j :: 0 <= j < i ==>
                  th[j].startIndex == WorkerStart(j, batch) && th[j].endIndex == WorkerEnd(j, batch)
    {
      th[i] := th[i].(startIndex := i * batch, endIndex := (i + 1) * batch);
    }
  }

  /** The clocks the descriptors hold. */
  function Clocks(ts: seq<StreamsArgs>): seq<real>
  {
    seq(|ts|, i requires 0 <= i < |ts| => ts[i].clock)
  }

  /** The threads of `MAKE_BENCHMARK_FUNC`, one after another in the order of
      `order`; worker `w`'s thread measures `elapsed[w]`. */
  method RunWorkers(t: ThreadFn, a: array<real>, b: array<real>, c: array<real>, d: array<real>,
                    th: array<StreamsArgs>, batch: nat, order: seq<nat>, elapsed: seq<real>)
    requires Separate(a, b, c, d) && HoldsPartition(th, batch) && |elapsed| == th.Length
    requires batch * th.Length <= a.Length && batch % VectorLen == 0
    requires forall k :: 0 <= k < |order| ==> order[k] < th.Length
    modifies c, d, th
    ensures View(a, b, c, d) == ApplyWorkers(KernelOf(t), old(View(a, b, c, d)), order, batch)
    ensures HoldsPartition(th, batch)
    ensures forall i :: 0 <= i < th.Length ==>
              th[i].clock == if i in order then elapsed[i] else old(th[i].clock)
  {
    ghost var s0 := View(a, b, c, d);
    ghost var th0 := th[..];
    for k := 0 to |order|
      invariant View(a, b, c, d) == ApplyWorkers(KernelOf(t), s0, order[..k], batch)
      invariant HoldsPartition(th, batch)
      invariant forall i :: 0 <= i < th.Length ==>
                  th[i].clock == if i in order[..k] then elapsed[i] else th0[i].clock
    {
      var w := order[k];
      ghost var before := View(a, b, c, d);
      MulMonotone(w + 1, th.Length, batch);
      WorkerBlocks(th[w], w, batch);
      RunThread(t, a, b, c, d, th, w, elapsed[w]);
      assert View(a, b, c, d) == ApplyOn(KernelOf(t), before, WorkerStart(w, batch), WorkerEnd(w, batch));
      assert order[..k + 1] == order[..k] + [w];
      assert order[..k + 1][..k] == order[..k];
    }
    assert order[..|order|] == order;
  }

  /** The final loop of `MAKE_BENCHMARK_FUNC`: the mean of the workers' clocks. */
  method AverageClock(th: array<StreamsArgs>) returns (averageTime: real)
    requires th.Length >= 1
    ensures averageTime == Sum(Clocks(th[..])) / th.Length as real
  {
    averageTime := 0.0;
    for i := 0 to th.Length
      invariant averageTime == Sum(Clocks(th[..i]))
    {
      assert Clocks(th[..i + 1])[..i] == Clocks(th[..i]);
      averageTime := averageTime + th[i].clock;
    }
    assert th[..th.Length] == th[..];
    averageTime := averageTime / th.Length as real;
  }

  /** The benchmark function made by `MAKE_BENCHMARK_FUNC`: every worker's
      thread runs once, in the order of `order`, and the result is the mean
      of their clocks. Together the threads run the kernel over the whole
      array. */
  method Benchmark(t: ThreadFn, a: array<real>, b: array<real>, c: array<real>, d: array<real>,
                   th: array<StreamsArgs>, batch: nat, order: seq<nat>, elapsed: seq<real>)
    returns (averageTime: real)
    requires th.Length >= 1 && |elapsed| == th.Length
    requires Separate(a, b, c, d) && batch * th.Length == a.Length && batch % VectorLen == 0
    requires HoldsPartition(th, batch) && IsSchedule(order, th.Length)
    modifies c, d, th
    ensures View(a, b, c, d) == ApplyOn(KernelOf(t), old(View(a, b, c, d)), 0, a.Length)
    ensures HoldsPartition(th, batch) && Clocks(th[..]) == elapsed
    ensures averageTime == Sum(elapsed) / th.Length as real
  {
    ghost var s0 := View(a, b, c, d);
    forall k | 0 <= k < |order|
      ensures order[k] < th.Length
    {
      assert order[k] in order;
    }
    RunWorkers(t, a, b, c, d, th, batch, order, elapsed);
    WorkersCoverWhole(KernelOf(t), s0, order, th.Length, batch);
    assert Clocks(th[..]) == elapsed;
    averageTime := AverageClock(th);
  }

  /** The per-repetition inputs of one benchmark phase that the model takes
      as parameters: the order in which the threads run in each repetition,
      and the time each thread measures. */
  datatype Runs = Runs(orders: seq<seq<nat>>, samples: seq<seq<real>>)

  ghost predicate ValidRuns(runs: Runs, nrCpu: nat) {
    |runs.samples| == |runs.orders| &&
    forall i :: 0 <= i < |runs.orders| ==> IsSchedule(runs.orders[i], nrCpu) && |runs.samples[i]| == nrCpu
  }

  /** The value each repetition's benchmark function returns: the mean over
      the workers. */
  function RepMeans(samples: seq<seq<real>>, nrCpu: nat): (r: seq<real>)
    requires nrCpu >= 1
    ensures |r| == |samples|
  {
    seq(|samples|, i requires 0 <= i < |samples| => Sum(samples[i]) / nrCpu as real)
  }

  /** `consume += a[100] + b[1002] + c[1002] + d[1002]`. */
  function Probe(s: Arrays): real
    requires s.Valid() && |s.a| > 1002
  {
    s.a[100] + s.b[1002] + s.c[1002] + s.d[1002]
  }

  /** What `consume` gains over `n` repetitions that each leave the arrays
      `s`: nothing without repetitions, when no probe is read at all. */
  function ProbeSum(n: nat, s: Arrays): real
    requires s.Valid() && (n == 0 || |s.a| > 1002)
  {
    if n == 0 then 0.0 else Times(n, Probe(s))
  }

  /** `p` added `n` times. */
  function Times(n: nat, p: real): real {
    if n == 0 then 0.0 else Times(n - 1, p) + p
  }

  lemma {:induction false} TimesIsProduct(n: nat, p: real)
    ensures Times(n, p) == n as real * p
  {
    if n > 0 {
      TimesIsProduct(n - 1, p);
    }
  }

  /** The state `main` sets up before the first phase: four distinct arrays
      of the normalised size and descriptors holding the partition into
      blocks of whole vectors. */
  predicate Prepared(a: array<real>, b: array<real>, c: array<real>, d: array<real>,
                     th: array<StreamsArgs>, batch: nat)
    reads th
  {
    th.Length >= 1 &&
    Separate(a, b, c, d) && batch * th.Length == a.Length && batch % VectorLen == 0 &&
    HoldsPartition(th, batch)
  }

  /** One repetition of a phase: a call of the benchmark function and the
      probe read afterwards. */
  method Repetition(t: ThreadFn, a: array<real>, b: array<real>, c: array<real>, d: array<real>,
                    th: array<StreamsArgs>, batch: nat, order: seq<nat>, elapsed: seq<real>)
    returns (m: real, probe: real)
    requires Prepared(a, b, c, d, th, batch) && a.Length > 1002
    requires |elapsed| == th.Length && IsSchedule(order, th.Length)
    modifies c, d, th
    ensures View(a, b, c, d) == ApplyOn(KernelOf(t), old(View(a, b, c, d)), 0, a.Length)
    ensures Prepared(a, b, c, d, th, batch)
    ensures m == Sum(elapsed) / th.Length as real
    ensures probe == Probe(View(a, b, c, d))
  {
    m := Benchmark(t, a, b, c, d, th, batch, order, elapsed);
    probe := a[100] + b[1002] + c[1002] + d[1002];
  }

  /** The repetition loop of one phase of `main`: `benchmark_repetitions`
      calls of the benchmark function, the sum of their results divided by
      the repetition count, and the probe added to `consume` after each. */
  method RepeatBenchmark(t: ThreadFn, a: array<real>, b: array<real>, c: array<real>, d: array<real>,
                         th: array<StreamsArgs>, batch: nat, runs: Runs, consume0: real)
    returns (averageTime: Double, consume: real)
    requires Prepared(a, b, c, d, th, batch) && ValidRuns(runs, th.Length)
    requires |runs.orders| == 0 || a.Length > 1002
    modifies c, d, th
    ensures View(a, b, c, d) == Repeat(KernelOf(t), old(View(a, b, c, d)), 0, a.Length, |runs.orders|)
    ensures Prepared(a, b, c, d, th, batch)
    ensures averageTime == Quotient(Sum(RepMeans(runs.samples, th.Length)), |runs.orders|)
    ensures consume == consume0 + ProbeSum(|runs.orders|, View(a, b, c, d))
  {
    ghost var s0 := View(a, b, c, d);
    ghost var once := ApplyOn(KernelOf(t), s0, 0, a.Length);
    ghost var p := if a.Length > 1002 then Probe(once) else 0.0;
    ghost var means := RepMeans(runs.samples, th.Length);
    var total := 0.0;
    consume := consume0;
    for i := 0 to |runs.orders|
      invariant View(a, b, c, d) == Repeat(KernelOf(t), s0, 0, a.Length, i)
      invariant Prepared(a, b, c, d, th, batch)
      invariant total == Sum(means[..i])
      invariant consume == consume0 + Times(i, p)
    {
      var m, probe := Repetition(t, a, b, c, d, th, batch, runs.orders[i], runs.samples[i]);
      RepeatIsOnce(KernelOf(t), s0, 0, a.Length, i + 1);
      assert probe == p;
      assert m == means[i];
      assert means[..i + 1][..i] == means[..i];
      total := total + m;
      consume := consume + probe;
    }
    assert means[..|runs.orders|] == means;
    RepeatIsOnce(KernelOf(t), s0, 0, a.Length, |runs.orders|);
    if |runs.orders| > 0 {
      assert Probe(View(a, b, c, d)) == p;
    }
    averageTime := Quotient(total, |runs.orders|);
  }

  /** The order in which `main` runs the phases. */
  const Phases: seq<ThreadFn> := [AxpyThreadFn, CopyThreadFn, FmaThreadFn, AddMultThreadFn]

  function PhaseKernels(): seq<Kernel>
  {
    [KernelOf(Phases[0]), KernelOf(Phases[1]), KernelOf(Phases[2]), KernelOf(Phases[3])]
  }

  /** The arrays after the seeding loop of `main` (`c` divided by 300.0). */
  function Seeded(n: nat): (s: Arrays)
    ensures s.Valid() && |s.a| == n
  {
    Arrays(seq(n, i requires 0 <= i < n => SeedA(SeedAt(i))), seq(n, i requires 0 <= i < n => SeedB(SeedAt(i))),
           seq(n, i requires 0 <= i < n => SeedC(SeedAt(i), 300.0)), seq(n, i requires 0 <= i < n => 0.0))
  }

  /** What `main` reports for phase `p` over arrays of `n` elements: the
      mean over the repetitions of the mean over the workers, and the bytes
      of `Streams` whole arrays. */
  function ExpectedReport(p: nat, runs: Runs, nrCpu: nat, n: nat, reps: nat): KernelReport
    requires p < |Phases| && nrCpu >= 1
  {
    KernelReport(Quotient(Sum(RepMeans(runs.samples, nrCpu)), reps), Streams(Phases[p]) * n * WordSize)
  }

  /** The arrays after the first `p` phases. */
  function AfterPhases(s0: Arrays, p: nat, reps: nat): (s: Arrays)
    requires s0.Valid() && p <= |Phases|
    ensures s.Valid() && |s.a| == |s0.a|
  {
    RunPhases(s0, PhaseKernels()[..p], reps)
  }

  /** One phase of `main`, from the arrays after the phases before it. */
  method Phase(p: nat, a: array<real>, b: array<real>, c: array<real>, d: array<real>,
               th: array<StreamsArgs>, batch: nat, runs: Runs, consume0: real, ghost s0: Arrays, ghost reps: nat)
    returns (report: KernelReport, consume: real)
    requires p < |Phases| && |runs.orders| == reps && s0.Valid() && |s0.a| == a.Length
    requires Prepared(a, b, c, d, th, batch) && ValidRuns(runs, th.Length)
    requires View(a, b, c, d) == AfterPhases(s0, p, reps)
    requires reps == 0 || a.Length > 1002
    modifies c, d, th
    ensures View(a, b, c, d) == AfterPhases(s0, p + 1, reps)
    ensures Prepared(a, b, c, d, th, batch)
    ensures report == ExpectedReport(p, runs, th.Length, a.Length, reps)
    ensures consume == consume0 + ProbeSum(reps, AfterPhases(s0, p + 1, reps))
  {
    var time;
    time, consume := RepeatBenchmark(Phases[p], a, b, c, d, th, batch, runs, consume0);
    RunPhasesSplit(s0, PhaseKernels(), p, reps);
    assert PhaseKernels()[..p + 1][..p] == PhaseKernels()[..p];
    BytesCoverWholeArray(Phases[p], th.Length, batch, a.Length);
    report := KernelReport(time, StreamedBytes(th.Length, Streams(Phases[p]), batch));
  }

  /** `consume` after the first `p` phases: each repetition of a phase adds
      the probe of the arrays that phase leaves. */
  function Consumed(s0: Arrays, p: nat, reps: nat): real
    requires s0.Valid() && (reps == 0 || |s0.a| > 1002) && p <= |Phases|
  {
    if p == 0 then 0.0 else Consumed(s0, p - 1, reps) + ProbeSum(reps, AfterPhases(s0, p, reps))
  }

  /** The part of `main` before the first phase: normalise the size,
      allocate and seed the arrays, and assign the workers' ranges. */
  method Setup(requested: nat, nrCpu: nat)
    returns (a: array<real>, b: array<real>, c: array<real>, d: array<real>,
             th: array<StreamsArgs>, batch: nat)
    requires nrCpu >= 1
    ensures fresh(a) && fresh(b) && fresh(c) && fresh(d) && fresh(th)
    ensures a.Length == NormalizedSize(requested, nrCpu) && th.Length == nrCpu
    ensures Prepared(a, b, c, d, th, batch)
    ensures View(a, b, c, d) == Seeded(a.Length)
  {
    var n := NormalizedSize(requested, nrCpu);
    NormalizedBatch(requested, nrCpu);
    a := new real[n];
    b := new real[n];
    c := new real[n];
    d := new real[n];
    SeedABCD(a, b, c, d, 300.0);
    assert View(a, b, c, d) == Seeded(n);
    batch := Batch(n, nrCpu);
    th := AssignRanges(nrCpu, batch);
  }

  /** The four phases of `main`, one after another. */
  method RunPhasesLoop(a: array<real>, b: array<real>, c: array<real>, d: array<real>,
                       th: array<StreamsArgs>, batch: nat, runs: seq<Runs>, ghost s0: Arrays, ghost reps: nat)
    returns (reports: seq<KernelReport>, consume: real)
    requires Prepared(a, b, c, d, th, batch) && s0.Valid() && |s0.a| == a.Length
    requires reps == 0 || a.Length > 1002
    requires View(a, b, c, d) == AfterPhases(s0, 0, reps)
    requires |runs| == |Phases|
    requires forall p :: 0 <= p < |Phases| ==> ValidRuns(runs[p], th.Length) && |runs[p].orders| == reps
    modifies c, d, th
    ensures View(a, b, c, d) == AfterPhases(s0, |Phases|, reps)
    ensures |reports| == |Phases|
    ensures forall p :: 0 <= p < |Phases| ==> reports[p] == ExpectedReport(p, runs[p], th.Length, a.Length, reps)
    ensures consume == Consumed(s0, |Phases|, reps)
  {
    reports := [];
    consume := 0.0;
    for p := 0 to |Phases|
      invariant Prepared(a, b, c, d, th, batch)
      invariant View(a, b, c, d) == AfterPhases(s0, p, reps)
      invariant |reports| == p
      invariant forall q :: 0 <= q < p ==> reports[q] == ExpectedReport(q, runs[q], th.Length, a.Length, reps)
      invariant consume == Consumed(s0, p, reps)
    {
      var report;
      report, consume := Phase(p, a, b, c, d, th, batch, runs[p], consume, s0, reps);
      reports := reports + [report];
    }
  }

  /** `main` of the shared-memory variant after its command line is parsed:
      normalise the size, allocate and seed the arrays, assign the ranges and
      run the axpy, copy, fma and add-mult phases, each `reps` times. */
  method Run(requested: nat, nrCpu: nat, runs: seq<Runs>, ghost reps: nat)
    returns (a: array<real>, b: array<real>, c: array<real>, d: array<real>,
             reports: seq<KernelReport>, consume: real)
    requires nrCpu >= 1 && (reps == 0 || NormalizedSize(requested, nrCpu) > 1002)
    requires |runs| == |Phases|
    requires forall p :: 0 <= p < |Phases| ==> ValidRuns(runs[p], nrCpu) && |runs[p].orders| == reps
    ensures fresh(a) && fresh(b) && fresh(c) && fresh(d) && Separate(a, b, c, d)
    ensures a.Length == NormalizedSize(requested, nrCpu)
    ensures View(a, b, c, d) == RunPhases(Seeded(a.Length), PhaseKernels(), reps)
    ensures |reports| == |Phases|
    ensures forall p :: 0 <= p < |Phases| ==> reports[p] == ExpectedReport(p, runs[p], nrCpu, a.Length, reps)
    ensures consume == Consumed(Seeded(a.Length), |Phases|, reps)
  {
    var th, batch;
    a, b, c, d, th, batch := Setup(requested, nrCpu);
    assert PhaseKernels()[..0] == [];
    reports, consume := RunPhasesLoop(a, b, c, d, th, batch, runs, Seeded(a.Length), reps);
    assert PhaseKernels()[..|Phases|] == PhaseKernels();
  }

  /** After at least one repetition of every phase, `a` and `b` still hold
      their seeds and the last phase has left `d = a + b` and `c = a * b`. */
  lemma FinalArrays(n: nat, reps: nat)
    requires reps >= 1
    ensures RunPhases(Seeded(n), PhaseKernels(), reps).a == Seeded(n).a
    ensures RunPhases(Seeded(n), PhaseKernels(), reps).b == Seeded(n).b
    ensures forall x :: 0 <= x < n ==>
              RunPhases(Seeded(n), PhaseKernels(), reps).d[x] == Seeded(n).a[x] + Seeded(n).b[x]
    ensures forall x :: 0 <= x < n ==>
              RunPhases(Seeded(n), PhaseKernels(), reps).c[x] == Seeded(n).a[x] * Seeded(n).b[x]
  {
    RunPhasesKeepsInputs(Seeded(n), PhaseKernels(), reps);
    RunPhasesEndingInAddMult(Seeded(n), PhaseKernels(), reps);
  }

  /** The fma phase reads the `c` the arrays started with (the seeded one in
      `main`): no earlier phase writes it. */
  lemma FmaReadsInitialC(s0: Arrays, reps: nat, x: nat)
    requires s0.Valid() && reps >= 1 && x < |s0.a|
    ensures AfterPhases(s0, 3, reps).d[x] == s0.a[x] * s0.b[x] + s0.c[x]
  {
    PhaseComputesFromInitial(s0, PhaseKernels(), 2, reps, x);
  }

  /** The reported time of a phase lies between any bounds of the measured
      samples. */
  lemma ReportedTimeBetween(runs: Runs, nrCpu: nat, lo: real, hi: real)
    requires nrCpu >= 1 && |runs.samples| >= 1
    requires forall i :: 0 <= i < |runs.samples| ==> |runs.samples[i]| == nrCpu
    requires forall i, j :: 0 <= i < |runs.samples| && 0 <= j < nrCpu ==> lo <= runs.samples[i][j] <= hi
    ensures Quotient(Sum(RepMeans(runs.samples, nrCpu)), |runs.samples|).Finite?
    ensures lo <= Quotient(Sum(RepMeans(runs.samples, nrCpu)), |runs.samples|).value <= hi
  {
    var means := RepMeans(runs.samples, nrCpu);
    forall i | 0 <= i < |means|
      ensures lo <= means[i] <= hi
    {
      AverageBetween(runs.samples[i], lo, hi);
    }
    AverageBetween(means, lo, hi);
  }
}
