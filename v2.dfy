/**
 * The second multi-threaded prototype. Like the local-memory variant, every
 * worker allocates private arrays, but only one thread function does any
 * work: `fma_thread`, which despite its name repeats axpy with a factor
 * that drifts from 2.55 by 1.01 per repetition. It allocates `c` too but
 * never writes it, and its checksum reads `c` at `rand()` positions; the
 * contents `c` happens to have are a parameter here. `execute_mt_fma_test`
 * averages the workers' times and counts 3 streams.
 */
module V2 {
  import opened Sizing
  import opened Kernels
  import opened Seeding
  import opened Timing
  import opened LocalMemory

  /** `fma_thread` for descriptor `w`: `samples[i]` is the time of
      repetition `i`, `consumeOut` the checksum it adds up and `garbage`
      what the freshly allocated `c` happens to hold. */
  method FmaThread(th: array<StreamsArgs>, w: nat, samples: seq<real>, consumeOut: real, garbage: seq<real>)
    returns (a: array<real>, b: array<real>, c: array<real>, d: array<real>)
    requires w < th.Length && |samples| == th[w].repetitions && |garbage| == th[w].size
    modifies th
    ensures fresh(a) && fresh(b) && fresh(c) && fresh(d)
    ensures a.Length == old(th[w].size) && b.Length == a.Length && c.Length == a.Length && d.Length == a.Length
    ensures a[..] == Private(a.Length).a && b[..] == Private(a.Length).b
    ensures c[..] == garbage
    ensures d[..] == AxpyRuns(Private(a.Length), 0, Blocked(a.Length), |samples|).d
    ensures th[w] == Finished(old(th[w]), samples, consumeOut)
    ensures forall i :: 0 <= i < th.Length && i != w ==> th[i] == old(th[i])
  {
    var size := th[w].size;
    a := new real[size];
    b := new real[size];
    c := new real[size](i requires 0 <= i < size => garbage[i]);
    d := new real[size];
    SeedABD(a, b, d);
    assert a[..] == Private(size).a && b[..] == Private(size).b && d[..] == Private(size).d;
    var elapsed := AxpyRepetitions(a, b, d, samples, Private(size));
    th[w] := th[w].(consumeOut := consumeOut, clock := Quotient(elapsed, th[w].repetitions));
  }

  /** What `fma_thread` leaves in `d` after at least one repetition is
      `2.55 * 1.01^(reps - 1) * a + b` on every covered element: an axpy,
      with neither `c` nor a product of two arrays involved. */
  lemma {:induction false} FmaThreadComputesAxpy(size: nat, reps: nat, j: nat)
    requires reps >= 1 && j < Blocked(size)
    ensures AxpyRuns(Private(size), 0, Blocked(size), reps).d[j] ==
              InitialAlpha * Power(1.01, reps - 1) * Private(size).a[j] + Private(size).b[j]
  {
    var s := Private(size);
    AxpyThreadResult(s, reps, j);
    AlphaClosedForm(reps - 1);
  }

  /** The stream count `execute_mt_fma_test` uses. */
  const FmaTestStreams: nat := 3

  /** 3 streams is what the kernel actually computed touches: `a`, `b`
      and `d`, whatever the factor of the last repetition. */
  lemma FmaTestStreamsAreTouched(alpha: real)
    ensures FmaTestStreams == |Touched(Axpy(alpha))|
  {
    assert Touched(Axpy(alpha)) == {A, B} + {D};
    assert {A, B} + {D} == {A, B, D};
  }

  /** `execute_mt_fma_test`: runs one `fma_thread` per descriptor, then adds
      up their times and divides by the number of workers. It returns the
      mean time, with the bytes and the checksum it prints. */
  method ExecuteMtFmaTest(th: array<StreamsArgs>, samples: seq<seq<real>>, consumes: seq<real>, garbage: seq<seq<real>>)
    returns (avgTime: Double, bytes: nat, consume: real)
    requires th.Length >= 1 && |samples| == th.Length && |consumes| == th.Length && |garbage| == th.Length
    requires forall i :: 0 <= i < th.Length ==> |samples[i]| == th[i].repetitions && |garbage[i]| == th[i].size
    modifies th
    ensures forall i :: 0 <= i < th.Length ==> th[i] == Finished(old(th[i]), samples[i], consumes[i])
    ensures avgTime == DivBy(SumDoubles(Clocks(th[..])), th.Length)
    ensures bytes == StreamedBytes(th.Length, FmaTestStreams, th[0].size)
    ensures consume == Sum(consumes)
  {
    for i := 0 to th.Length
      invariant forall k :: 0 <= k < i ==> th[k] == Finished(old(th[k]), samples[k], consumes[k])
      invariant forall k :: i <= k < th.Length ==> th[k] == old(th[k])
    {
      var a, b, c, d := FmaThread(th, i, samples[i], consumes[i], garbage[i]);
    }
    avgTime := Finite(0.0);
    consume := 0.0;
    for i := 0 to th.Length
      invariant avgTime == SumDoubles(Clocks(th[..i]))
      invariant consume == Sum(consumes[..i])
    {
      assert Clocks(th[..i + 1])[..i] == Clocks(th[..i]);
      assert consumes[..i + 1] == consumes[..i] + [consumes[i]];
      avgTime := Plus(avgTime, th[i].clock);
      consume := consume + th[i].consumeOut;
    }
    assert th[..th.Length] == th[..];
    assert consumes[..th.Length] == consumes;
    avgTime := DivBy(avgTime, th.Length);
    bytes := StreamedBytes(th.Length, FmaTestStreams, th[0].size);
  }

  /** `main` after the command line is parsed: `requested` elements, `reps`
      repetitions, `nrCpu` processors; worker `i` measures `samples[i]`,
      sums `consumes[i]` and finds `garbage[i]` in its `c`. */
  method Run(requested: nat, nrCpu: nat, reps: nat, samples: seq<seq<real>>, consumes: seq<real>, garbage: seq<seq<real>>)
    returns (vecSize: nat, avgTime: Double)
    requires nrCpu >= 1 && |samples| == nrCpu && |consumes| == nrCpu && |garbage| == nrCpu
    requires forall i :: 0 <= i < nrCpu ==> |samples[i]| == reps
    requires forall i :: 0 <= i < nrCpu ==> |garbage[i]| == Batch(NormalizedSize(requested, nrCpu), nrCpu)
    ensures vecSize == NormalizedSize(requested, nrCpu)
    ensures avgTime == MeanClock(samples, reps, nrCpu)
  {
    vecSize := NormalizedSize(requested, nrCpu);
    var th := new StreamsArgs[nrCpu](_ => StreamsArgs(0, Finite(0.0), 0.0, 0.0, 0));
    var batch := vecSize / nrCpu;
    ResetDescriptors(th, batch, reps);
    var bytes, consume;
    avgTime, bytes, consume := ExecuteMtFmaTest(th, samples, consumes, garbage);
    assert Clocks(th[..]) == WorkerClocks(samples, reps);
  }
}
