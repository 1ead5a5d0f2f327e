/**
 * What the four stream kernels compute, stated on values. Every variant of
 * the benchmark runs these kernels over some index range of four arrays
 * `a`, `b`, `c`, `d` of doubles (modelled as reals):
 *
 *   copy     d = a
 *   axpy     d = alpha * a + b
 *   fma      d = a * b + c   (the local-memory variant computes a * c + b)
 *   add-mult d = a + b and c = a * b
 *
 * No kernel reads an array it writes, which is why a kernel is idempotent,
 * why running it twice over overlapping ranges is harmless, and why the
 * workers of the shared-memory variant may run in any order.
 */
module Kernels {
  import opened Sizing

  datatype ArrayName = A | B | C | D

  /** The four stream arrays of one run (or of one worker's private set). */
  datatype Arrays = Arrays(a: seq<real>, b: seq<real>, c: seq<real>, d: seq<real>) {
    predicate Valid() {
      |b| == |a| && |c| == |a| && |d| == |a|
    }
  }

  datatype Kernel = Copy | Axpy(alpha: real) | FmaABC | FmaACB | AddMult

  /** The arrays a kernel's element operation reads. */
  function Reads(k: Kernel): set<ArrayName> {
    match k
    case Copy => {A}
    case Axpy(_) => {A, B}
    case FmaABC => {A, B, C}
    case FmaACB => {A, B, C}
    case AddMult => {A, B}
  }

  /** The arrays a kernel's element operation writes. */
  function Writes(k: Kernel): set<ArrayName> {
    if k.AddMult? then {C, D} else {D}
  }

  /** The arrays a kernel streams through memory: read or written. */
  function Touched(k: Kernel): set<ArrayName> {
    Reads(k) + Writes(k)
  }

  /** The value kernel `k` stores into `d[j]`. */
  function OutD(k: Kernel, s: Arrays, j: nat): real
    requires s.Valid() && j < |s.a|
  {
    match k
    case Copy => s.a[j]
    case Axpy(alpha) => alpha * s.a[j] + s.b[j]
    case FmaABC => s.a[j] * s.b[j] + s.c[j]
    case FmaACB => s.a[j] * s.c[j] + s.b[j]
    case AddMult => s.a[j] + s.b[j]
  }

  /** The value add-mult stores into `c[j]`. */
  function OutC(s: Arrays, j: nat): real
    requires s.Valid() && j < |s.a|
  {
    s.a[j] * s.b[j]
  }

  /** Two array sets agree on everything kernel `k` reads. */
  predicate AgreeOnReads(k: Kernel, s: Arrays, t: Arrays)
    requires s.Valid() && t.Valid()
  {
    |s.a| == |t.a| &&
    (A in Reads(k) ==> s.a == t.a) &&
    (B in Reads(k) ==> s.b == t.b) &&
    (C in Reads(k) ==> s.c == t.c)
  }

  /** A kernel's outputs depend on nothing but the arrays it reads, and no
      kernel reads an array it writes. */
  lemma OutputsDependOnlyOnReads(k: Kernel, s: Arrays, t: Arrays, j: nat)
    requires s.Valid() && t.Valid() && AgreeOnReads(k, s, t) && j < |s.a|
    ensures OutD(k, s, j) == OutD(k, t, j)
    ensures k.AddMult? ==> OutC(s, j) == OutC(t, j)
    ensures Reads(k) !! Writes(k)
  {
  }

  /** Kernel `k` run over the indices `lo <= j < hi` of `s`. */
  function ApplyOn(k: Kernel, s: Arrays, lo: int, hi: int): (r: Arrays)
    requires s.Valid()
    ensures r.Valid() && |r.a| == |s.a|
  {
    Arrays(
      s.a,
      s.b,
      if k.AddMult? then seq(|s.c|, j requires 0 <= j < |s.c| => if lo <= j < hi then OutC(s, j) else s.c[j])
      else s.c,
      seq(|s.d|, j requires 0 <= j < |s.d| => if lo <= j < hi then OutD(k, s, j) else s.d[j]))
  }

  /** Running a kernel writes nothing it reads: the result agrees with the
      input on the kernel's reads, so a second run computes the same values. */
  lemma ApplyOnKeepsReads(k: Kernel, s: Arrays, lo: int, hi: int)
    requires s.Valid()
    ensures AgreeOnReads(k, s, ApplyOn(k, s, lo, hi))
    ensures ApplyOn(k, s, lo, hi).a == s.a && ApplyOn(k, s, lo, hi).b == s.b
    ensures !k.AddMult? ==> ApplyOn(k, s, lo, hi).c == s.c
  {
  }

  /** Every kernel is idempotent. */
  lemma ApplyOnIdempotent(k: Kernel, s: Arrays, lo: int, hi: int)
    requires s.Valid()
    ensures ApplyOn(k, ApplyOn(k, s, lo, hi), lo, hi) == ApplyOn(k, s, lo, hi)
  {
    var once := ApplyOn(k, s, lo, hi);
    var twice := ApplyOn(k, once, lo, hi);
    forall j | 0 <= j < |s.a|
      ensures twice.d[j] == once.d[j]
      ensures twice.c[j] == once.c[j]
    {
      OutputsDependOnlyOnReads(k, s, once, j);
    }
    assert twice.d == once.d;
    assert twice.c == once.c;
  }

  /** `n` repetitions of the same kernel over the same range. */
  function Repeat(k: Kernel, s: Arrays, lo: int, hi: int, n: nat): (r: Arrays)
    requires s.Valid()
    ensures r.Valid() && |r.a| == |s.a|
  {
    if n == 0 then s else ApplyOn(k, Repeat(k, s, lo, hi, n - 1), lo, hi)
  }

  /** Repeating a kernel `n >= 1` times leaves the arrays as running it once. */
  lemma {:induction false} RepeatIsOnce(k: Kernel, s: Arrays, lo: int, hi: int, n: nat)
    requires s.Valid()
    ensures Repeat(k, s, lo, hi, n) == if n == 0 then s else ApplyOn(k, s, lo, hi)
  {
    if n >= 2 {
      RepeatIsOnce(k, s, lo, hi, n - 1);
      ApplyOnIdempotent(k, s, lo, hi);
    }
  }

  /** Index `j` lies in the range of some worker listed in `order`. */
  predicate Covered(order: seq<nat>, batch: nat, j: nat) {
    batch >= 1 && j / batch in order
  }

  lemma CoveredMeansInSomeRange(order: seq<nat>, batch: nat, j: nat)
    ensures Covered(order, batch, j) <==>
              exists t :: 0 <= t < |order| && WorkerStart(order[t], batch) <= j < WorkerEnd(order[t], batch)
  {
    if batch >= 1 {
      forall t | 0 <= t < |order|
        ensures WorkerStart(order[t], batch) <= j < WorkerEnd(order[t], batch) <==> order[t] == j / batch
      {
        OwnerIsQuotient(j, order[t], batch);
      }
    }
  }

  /** The workers of `order` run one after another, each over its own range. */
  function ApplyWorkers(k: Kernel, s: Arrays, order: seq<nat>, batch: nat): (r: Arrays)
    requires s.Valid()
    ensures r.Valid() && |r.a| == |s.a|
  {
    if order == [] then s
    else
      var w := order[|order| - 1];
      ApplyOn(k, ApplyWorkers(k, s, order[..|order| - 1], batch), WorkerStart(w, batch), WorkerEnd(w, batch))
  }

  /** After any sequence of workers, an element holds the kernel's output
      exactly when some listed worker's range contains it; a and b, and c
      unless the kernel is add-mult, are untouched. */
  lemma {:induction false} ApplyWorkersAt(k: Kernel, s: Arrays, order: seq<nat>, batch: nat)
    requires s.Valid()
    ensures AgreeOnReads(k, s, ApplyWorkers(k, s, order, batch))
    ensures ApplyWorkers(k, s, order, batch).a == s.a && ApplyWorkers(k, s, order, batch).b == s.b
    ensures forall j :: 0 <= j < |s.a| ==>
              ApplyWorkers(k, s, order, batch).d[j] == if Covered(order, batch, j) then OutD(k, s, j) else s.d[j]
    ensures forall j :: 0 <= j < |s.a| ==>
              ApplyWorkers(k, s, order, batch).c[j] ==
                if k.AddMult? && Covered(order, batch, j) then OutC(s, j) else s.c[j]
  {
    if order != [] {
      var front := order[..|order| - 1];
      var w := order[|order| - 1];
      assert order == front + [w];
      ApplyWorkersAt(k, s, front, batch);
      var mid := ApplyWorkers(k, s, front, batch);
      var r := ApplyWorkers(k, s, order, batch);
      forall j | 0 <= j < |s.a|
        ensures r.d[j] == if Covered(order, batch, j) then OutD(k, s, j) else s.d[j]
        ensures r.c[j] == if k.AddMult? && Covered(order, batch, j) then OutC(s, j) else s.c[j]
      {
        OutputsDependOnlyOnReads(k, s, mid, j);
        if batch >= 1 {
          OwnerIsQuotient(j, w, batch);
        }
      }
    }
  }

  /** Whatever the order in which the same workers run, the result is the same. */
  lemma WorkersAnyOrder(k: Kernel, s: Arrays, o1: seq<nat>, o2: seq<nat>, batch: nat)
    requires s.Valid()
    requires forall w :: w in o1 <==> w in o2
    ensures ApplyWorkers(k, s, o1, batch) == ApplyWorkers(k, s, o2, batch)
  {
    ApplyWorkersAt(k, s, o1, batch);
    ApplyWorkersAt(k, s, o2, batch);
    var r1 := ApplyWorkers(k, s, o1, batch);
    var r2 := ApplyWorkers(k, s, o2, batch);
    assert r1.c == r2.c;
    assert r1.d == r2.d;
  }

  /** When the listed workers are exactly `0 .. nrCpu - 1` and their batches
      make up the whole array, running them in any order equals one run of
      the kernel over the whole array. */
  lemma WorkersCoverWhole(k: Kernel, s: Arrays, order: seq<nat>, nrCpu: nat, batch: nat)
    requires s.Valid()
    requires batch * nrCpu == |s.a|
    requires forall w :: w in order <==> w < nrCpu
    ensures ApplyWorkers(k, s, order, batch) == ApplyOn(k, s, 0, |s.a|)
  {
    ApplyWorkersAt(k, s, order, batch);
    var r := ApplyWorkers(k, s, order, batch);
    var whole := ApplyOn(k, s, 0, |s.a|);
    forall j | 0 <= j < |s.a|
      ensures Covered(order, batch, j)
    {
      RangesCover(nrCpu, batch, j);
      var w :| 0 <= w < nrCpu && WorkerStart(w, batch) <= j < WorkerEnd(w, batch);
      OwnerIsQuotient(j, w, batch);
    }
    assert r.c == whole.c;
    assert r.d == whole.d;
  }

  /** The kernels of `ks` run one after another over the whole array, each
      repeated `reps` times before the next starts. */
  function RunPhases(s: Arrays, ks: seq<Kernel>, reps: nat): (r: Arrays)
    requires s.Valid()
    ensures r.Valid() && |r.a| == |s.a|
    decreases |ks|
  {
    if ks == [] then s else RunPhases(Repeat(ks[0], s, 0, |s.a|, reps), ks[1..], reps)
  }

  lemma RepeatKeepsInputs(k: Kernel, s: Arrays, lo: int, hi: int, n: nat)
    requires s.Valid()
    ensures Repeat(k, s, lo, hi, n).a == s.a && Repeat(k, s, lo, hi, n).b == s.b
    ensures !k.AddMult? ==> Repeat(k, s, lo, hi, n).c == s.c
  {
    RepeatIsOnce(k, s, lo, hi, n);
  }

  /** No phase writes a or b. */
  lemma {:induction false} RunPhasesKeepsInputs(s: Arrays, ks: seq<Kernel>, reps: nat)
    requires s.Valid()
    ensures RunPhases(s, ks, reps).a == s.a && RunPhases(s, ks, reps).b == s.b
    decreases |ks|
  {
    if ks != [] {
      RepeatKeepsInputs(ks[0], s, 0, |s.a|, reps);
      RunPhasesKeepsInputs(Repeat(ks[0], s, 0, |s.a|, reps), ks[1..], reps);
    }
  }

  /** c changes only in an add-mult phase. */
  lemma {:induction false} RunPhasesKeepsC(s: Arrays, ks: seq<Kernel>, reps: nat)
    requires s.Valid()
    requires forall i :: 0 <= i < |ks| ==> !ks[i].AddMult?
    ensures RunPhases(s, ks, reps).c == s.c
    decreases |ks|
  {
    if ks != [] {
      RepeatKeepsInputs(ks[0], s, 0, |s.a|, reps);
      RunPhasesKeepsC(Repeat(ks[0], s, 0, |s.a|, reps), ks[1..], reps);
    }
  }

  lemma {:induction false} RunPhasesSplit(s: Arrays, ks: seq<Kernel>, i: nat, reps: nat)
    requires s.Valid() && i < |ks|
    ensures RunPhases(s, ks[..i + 1], reps) ==
              Repeat(ks[i], RunPhases(s, ks[..i], reps), 0, |s.a|, reps)
    decreases i
  {
    if i > 0 {
      var s' := Repeat(ks[0], s, 0, |s.a|, reps);
      assert ks[..i + 1][1..] == ks[1..][..i];
      assert ks[..i][1..] == ks[1..][..i - 1];
      RunPhasesSplit(s', ks[1..], i - 1, reps);
    } else {
      assert ks[..1][1..] == [];
    }
  }

  /** A phase that no add-mult phase precedes computes its output from the
      arrays as they were before the first phase (for instance, fma reads
      the seeded c). */
  lemma PhaseComputesFromInitial(s: Arrays, ks: seq<Kernel>, i: nat, reps: nat, x: nat)
    requires s.Valid() && i < |ks| && reps >= 1 && x < |s.a|
    requires forall j :: 0 <= j < i ==> !ks[j].AddMult?
    ensures RunPhases(s, ks[..i + 1], reps).d[x] == OutD(ks[i], s, x)
  {
    RunPhasesSplit(s, ks, i, reps);
    var before := RunPhases(s, ks[..i], reps);
    RunPhasesKeepsInputs(s, ks[..i], reps);
    RunPhasesKeepsC(s, ks[..i], reps);
    RepeatIsOnce(ks[i], before, 0, |s.a|, reps);
    OutputsDependOnlyOnReads(ks[i], s, before, x);
  }

  /** When the last phase is add-mult and it runs at least once, the final
      arrays hold `d = a + b` and `c = a * b` of the initial a and b. */
  lemma {:induction false} RunPhasesEndingInAddMult(s: Arrays, ks: seq<Kernel>, reps: nat)
    requires s.Valid() && |ks| >= 1 && ks[|ks| - 1] == AddMult && reps >= 1
    ensures forall x :: 0 <= x < |s.a| ==>
              RunPhases(s, ks, reps).d[x] == s.a[x] + s.b[x] &&
              RunPhases(s, ks, reps).c[x] == s.a[x] * s.b[x]
    decreases |ks|
  {
    var s' := Repeat(ks[0], s, 0, |s.a|, reps);
    RepeatKeepsInputs(ks[0], s, 0, |s.a|, reps);
    if |ks| == 1 {
      RepeatIsOnce(AddMult, s, 0, |s.a|, reps);
      assert ks[1..] == [];
    } else {
      RunPhasesEndingInAddMult(s', ks[1..], reps);
    }
  }

  /** `sizeof(float_type)`. */
  const WordSize: nat := 8

  /** Bytes one repetition streams: `streams * batch * nr_cpu * sizeof(double)`. */
  function StreamedBytes(nrCpu: nat, streams: nat, batch: nat): nat {
    streams * batch * nrCpu * WordSize
  }

  /** Four distinct arrays of one length, as every variant allocates them. */
  predicate Separate(a: array<real>, b: array<real>, c: array<real>, d: array<real>) {
    b.Length == a.Length && c.Length == a.Length && d.Length == a.Length &&
    a != b && a != c && a != d && b != c && b != d && c != d
  }

  /** The current contents of four arrays. */
  function View(a: array<real>, b: array<real>, c: array<real>, d: array<real>): (s: Arrays)
    reads a, b, c, d
    ensures Separate(a, b, c, d) ==> s.Valid()
  {
    Arrays(a[..], b[..], c[..], d[..])
  }
}
