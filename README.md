# My_Stream_Benchmark in Dafny

This project models the core of a STREAM-style memory-bandwidth benchmark.
The benchmark streams four equal-length arrays of doubles `a`, `b`, `c` and `d` through four kernels:

- copy: `d = a`;
- axpy: `d = alpha * a + b`;
- fused multiply-add (fma): `d = a * b + c`, or `a * c + b` in one variant;
- add-multiply: `d = a + b` and `c = a * b`.

It times every repetition and turns the mean time into a byte count and a bandwidth.
The model covers the shared helpers in `src/my_stream_utils.c` and four program variants.

- **Shared memory (`my_stream_mt_gm.c`, module `SharedMemory`).**
  - One set of arrays is seeded once.
  - Each of `nrCpu` threads runs the kernel over its own range `[i * batch, (i + 1) * batch)`, in blocks of 8 elements.
  - `MAKE_BENCHMARK_FUNC` averages the threads' clocks.
  - `main` repeats each phase, accumulates a checksum at fixed indices and averages the repetition means.
- **Local memory (`my_stream_mt_lm.c`, module `LocalMemory`).**
  - Every thread allocates and seeds private arrays of size `batch` and repeats its kernel itself.
  - The axpy factor drifts by `* 1.01` per repetition.
  - `execute_mt_benchmark` averages the per-thread clocks, each `elapsed / repetitions`.
- **OpenMP (`my_stream_OMP.c`, module `OpenMP`).**
  - A single set of index-seeded arrays runs four whole-array kernel loops: fma, axpy, copy, add-multiply.
  - Each loop fills a clock slot per repetition, and the slots are averaged with `average`.
- **Second prototype (`my_stream_V2.c`, module `V2`).**
  - Only `fma_thread` does work, and what it computes is the drifting axpy.
  - `execute_mt_fma_test` averages the thread clocks and counts 3 streams.

The other modules are shared by the variants:

- `Sizing`: normalisation of the requested size and the partition into per-thread ranges.
- `Kernels`: the kernels as functions on the value `Arrays(a, b, c, d)`, with a whole run of phases as `RunPhases`.
- `Seeding`: the linear congruential seeding.
- `VectorBlocks`: the 8-lane vector loops.
- `Timing`: sums and means, with `Double = Finite(v) | NaN` so that `0.0 / 0` is represented.
- `StreamUtils`: the helpers.

Modelling choices:

- Doubles are modelled as reals.
- Threads run as a sequential loop over any schedule. In mt_gm their ranges are disjoint, so the order does not matter; `Kernels.WorkersAnyOrder` states this.
- Clock readings and `rand()`-based checksums are parameters.

The fma kernels of the variants differ. mt_gm and OpenMP compute `a * b + c`; mt_lm's `FMA_thread` computes `a * c + b` with `c` seeded by `/ 400`, a different value; V2's `fma_thread` computes an axpy. The model follows each.

## Model

| member | source | states |
|---|---|---|
| StreamUtils.FindCommandLineArgValue | src/my_stream_utils.c:13-26 | the result is the argument after the first match of `arg` at index 1 or later, when one follows and does not start with `-`; otherwise none |
| StreamUtils.FirstMatchIsLeast | src/my_stream_utils.c:16-17 | the match found is the first index at or after the start holding `arg`, and none is found exactly when no such index exists |
| StreamUtils.FirstMatchIgnoresBefore | src/my_stream_utils.c:16-17 | entries before the starting index never affect the search |
| StreamUtils.ProgramNameIgnored | src/my_stream_utils.c:16 | replacing `argv[0]` changes neither lookup's result |
| StreamUtils.FindCommandLineArgValueV2 | src/my_stream_utils.c:28-41 | returns `i + 1` for the first match `i` followed by a value, else -1 |
| StreamUtils.IndexAgreesWithValue | src/my_stream_utils.c:13-41 | the index lookup is -1 exactly when the pointer lookup finds nothing, and otherwise indexes the value it returns |
| StreamUtils.FlagExists | src/my_stream_utils.c:43-50 | returns 0 or 1, and 1 exactly when some `argv[i]` with `i >= 1` equals the flag |
| StreamUtils.IsNumber | src/my_stream_utils.c:52-59 | returns 0 or 1, and 1 exactly when every character is a decimal digit (the empty string included) |
| StreamUtils.WrapThenReduce | src/my_stream_utils.c:67-73 | reducing modulo 2^31 after the unsigned 32-bit wrap-around gives the same as reducing the exact value |
| StreamUtils.GenerateRandomNumber | src/my_stream_utils.c:67-73 | the next seed is below 2^31 and equals `(seed * 16807 + 214013) mod 2^31` computed without overflow |
| StreamUtils.Maximum | src/my_stream_utils.c:155-163 | the result is one of `v[0 .. n-1]` (or `v[0]` when `n == 0`) and no element among the first `n` exceeds it |
| StreamUtils.Minimum | src/my_stream_utils.c:165-173 | the result is one of `v[0 .. n-1]` (or `v[0]` when `n == 0`) and no element among the first `n` lies below it |
| Timing.Quotient | src/my_stream_utils.c:117-126 | dividing a sum by a count gives NaN exactly when the count is 0 |
| Timing.QuotientScales | src/my_stream_utils.c:125 | with a positive count the quotient is finite and times the count gives back the sum |
| Timing.Plus | src/my_stream_mt_lm.c:113 | adding clocks is NaN exactly when one of them is NaN |
| Timing.DivBy | src/my_stream_mt_lm.c:116 | dividing a clock by the thread count is NaN exactly when the clock is |
| Timing.DivByScales | src/my_stream_mt_lm.c:116 | a finite clock divided by a positive count is finite and scales back |
| Timing.SumOfConstant | src/my_stream_utils.c:117-126 | a sum of `n` equal samples is `n` times the sample |
| Timing.AverageOfConstant | src/my_stream_utils.c:117-126 | the average of equal samples is that sample |
| Timing.SumBounds | src/my_stream_utils.c:117-126 | a sum of samples in `[lo, hi]` lies between `n * lo` and `n * hi` |
| Timing.AverageBetween | src/my_stream_utils.c:117-126 | the average of one or more samples in `[lo, hi]` is finite and lies in `[lo, hi]` |
| Timing.SumDoublesNaN | src/my_stream_mt_lm.c:111-116 | the accumulated clock is NaN exactly when some thread's clock is |
| Timing.SumDoublesFinite | src/my_stream_mt_lm.c:111-116 | when every clock is finite, the accumulated clock is their real sum |
| Sizing.NormalizedSizeProperties | src/my_stream_mt_gm.c:374-375 | the normalised size is a multiple of `8 * nrCpu`, strictly above the requested size and at most `8 * nrCpu` above it |
| Sizing.DivModUnique | src/my_stream_mt_gm.c:374-375 | quotient and remainder are unique, which the normalisation proof rests on |
| Sizing.BatchProperties | src/my_stream_mt_gm.c:414 | for a normalised size, `batch * nrCpu` is the whole size and `batch` is a multiple of 8 |
| Sizing.NormalizedBatch | src/my_stream_mt_lm.c:463-481 | the batch of a normalised size is a non-empty whole number of 8-element vectors that tiles the size |
| Sizing.OwnerIsQuotient | src/my_stream_mt_gm.c:421-422 | element `x` lies in worker `w`'s range exactly when `w == x / batch` |
| Sizing.RangesAdjacent | src/my_stream_mt_gm.c:421-422 | each range ends where the next one starts |
| Sizing.RangesDisjoint | src/my_stream_mt_gm.c:421-422 | two different workers never share an element |
| Sizing.RangesCover | src/my_stream_mt_gm.c:412-423 | an element lies in some worker's range exactly when it is below `batch * nrCpu` |
| Kernels.OutputsDependOnlyOnReads | src/my_stream_mt_gm.c:131-133 | a kernel's output depends only on the arrays it reads, and it never reads an array it writes |
| Kernels.ApplyOnKeepsReads | src/my_stream_mt_gm.c:226-228 | a sweep leaves `a` and `b` unchanged, and `c` too unless it is add-multiply |
| Kernels.ApplyOnIdempotent | src/my_stream_mt_gm.c:269-272 | running a kernel twice over the same range gives what running it once gives |
| Kernels.RepeatIsOnce | src/my_stream_mt_gm.c:428-431 | `n >= 1` repetitions of a fixed kernel give the result of one |
| Kernels.CoveredMeansInSomeRange | src/my_stream_mt_gm.c:421-422 | an element is covered by a schedule exactly when its owner `x / batch` is scheduled |
| Kernels.ApplyWorkersAt | src/my_stream_mt_gm.c:79-86 | after the threads of a schedule, each element holds the kernel's output if covered and its old value otherwise |
| Kernels.WorkersAnyOrder | src/my_stream_mt_gm.c:79-86 | two schedules running the same set of workers give the same arrays |
| Kernels.WorkersCoverWhole | src/my_stream_mt_gm.c:79-86 | when `batch * nrCpu` is the size and every worker runs, the threads together apply the kernel to the whole array |
| Kernels.RepeatKeepsInputs | src/my_stream_mt_lm.c:169-183 | any number of repetitions keeps `a` and `b`, and `c` unless add-multiply |
| Kernels.RunPhasesKeepsInputs | src/my_stream_mt_gm.c:425-531 | a whole run of phases never changes `a` or `b` |
| Kernels.RunPhasesKeepsC | src/my_stream_OMP.c:171-223 | phases without add-multiply never change `c` |
| Kernels.RunPhasesSplit | src/my_stream_mt_gm.c:425-531 | a run of `i + 1` phases is the run of `i` phases followed by the repetitions of phase `i` |
| Kernels.PhaseComputesFromInitial | src/my_stream_mt_gm.c:483-488 | after a phase preceded only by phases that do not write `c`, `d` holds the kernel's output on the initial arrays |
| Kernels.RunPhasesEndingInAddMult | src/my_stream_mt_gm.c:510-515 | a run ending in add-multiply leaves `d = a + b` and `c = a * b` on the initial `a` and `b` |
| Kernels.View | src/my_stream_mt_gm.c:394-401 | four distinct arrays of equal length form a valid array set |
| Seeding.SeedValuesBounded | src/my_stream_mt_gm.c:406-408 | every seeded value lies in `[1, 3)` |
| Seeding.SeedABCD | src/my_stream_mt_gm.c:403-410 | element `i` gets the seed values of the `i + 1`-th generator output, and `d` is zero |
| Seeding.SeedABD | src/my_stream_mt_lm.c:148-155 | `a` and `b` are seeded from the generator and `d` is zero |
| Seeding.SeedAD | src/my_stream_mt_lm.c:213-217 | `a` is seeded from the generator and `d` is zero |
| VectorBlocks.CopyBlocks | src/my_stream_mt_gm.c:155-193 | inside the blocks `d[j] = a[j]`; everything else is unchanged |
| VectorBlocks.AxpyBlocks | src/my_stream_mt_gm.c:226-228 | inside the blocks `d[j] = alpha * a[j] + b[j]`; everything else is unchanged |
| VectorBlocks.FmaBlocks | src/my_stream_mt_gm.c:131-133 | inside the blocks `d[j] = x[j] * y[j] + z[j]`; everything else is unchanged |
| VectorBlocks.AddMultBlocks | src/my_stream_mt_gm.c:269-272 | inside the blocks `d[j] = a[j] + b[j]` and `c[j] = a[j] * b[j]`; everything else is unchanged |
| SharedMemory.StreamsAreTouchedArrays | src/my_stream_mt_gm.c:442-527 | the stream count of each phase (3, 2, 4, 4) is the number of arrays its kernel touches |
| SharedMemory.BytesCoverWholeArray | src/my_stream_mt_gm.c:442-443 | the bytes counted are the streams times the whole normalised size times 8 bytes |
| SharedMemory.BlocksCoverRange | src/my_stream_mt_gm.c:120-121 | the block loop stays inside the thread's range and covers it when its length is a multiple of 8 |
| SharedMemory.WorkerBlocks | src/my_stream_mt_gm.c:120-121 | a worker's range is covered by its blocks exactly |
| SharedMemory.CopyThread | src/my_stream_mt_gm.c:155-193 | the arrays become the copy applied to the thread's blocks, and only this thread's clock changes |
| SharedMemory.AxpyThread | src/my_stream_mt_gm.c:201-242 | the arrays become axpy with `alpha = 2.55` applied to the thread's blocks, and only this thread's clock changes |
| SharedMemory.FmaThread | src/my_stream_mt_gm.c:106-147 | the arrays become `a * b + c` applied to the thread's blocks, and only this thread's clock changes |
| SharedMemory.AddMultThread | src/my_stream_mt_gm.c:244-286 | the arrays become add-multiply applied to the thread's blocks, and only this thread's clock changes |
| SharedMemory.AssignRanges | src/my_stream_mt_gm.c:419-423 | descriptor `i` holds `[i * batch, (i + 1) * batch)` |
| SharedMemory.RunWorkers | src/my_stream_mt_gm.c:79-86 | running a schedule's threads applies each worker's range and records each worker's clock |
| SharedMemory.AverageClock | src/my_stream_mt_gm.c:89-95 | the mean time is the sum of the thread clocks divided by `nrCpu` |
| SharedMemory.Benchmark | src/my_stream_mt_gm.c:69-98 | one benchmark call applies the kernel to the whole arrays and returns the mean of the thread times |
| SharedMemory.TimesIsProduct | src/my_stream_mt_gm.c:428-431 | adding the same checksum in every repetition gives repetitions times it |
| SharedMemory.RepeatBenchmark | src/my_stream_mt_gm.c:425-433 | a phase's loop repeats the kernel, adds up the probe each time (nothing, and no probe read, without repetitions) and averages the repetition means |
| SharedMemory.Phase | src/my_stream_mt_gm.c:425-444 | a phase leaves the arrays as the run of phases so far and reports its mean time and byte count |
| SharedMemory.Setup | src/my_stream_mt_gm.c:374-423 | `main` allocates four arrays of the normalised size, whatever it is, seeds them and assigns the ranges |
| SharedMemory.Run | src/my_stream_mt_gm.c:373-545 | `main` leaves the arrays as the four phases applied to the seeded arrays, and reports each phase's time, bytes and the checksum |
| SharedMemory.FinalArrays | src/my_stream_mt_gm.c:510-515 | after the run `a` and `b` keep their seeds, `d = a + b` and `c = a * b` |
| SharedMemory.FmaReadsInitialC | src/my_stream_mt_gm.c:483-488 | the fma phase reads the seeded `c`, because no earlier phase writes it |
| SharedMemory.ReportedTimeBetween | src/my_stream_mt_gm.c:428-433 | the reported time is finite and lies within any bounds of the measured samples |
| LocalMemory.StreamsAreTouchedArrays | src/my_stream_mt_lm.c:498-540 | the stream counts 3, 2, 4, 4 are the numbers of arrays the kernels touch |
| LocalMemory.BlockedBatch | src/my_stream_mt_lm.c:160-172 | with a normalised size, the private block loop covers the whole private array |
| LocalMemory.AlphaClosedForm | src/my_stream_mt_lm.c:162-181 | the factor in repetition `k` is `2.55 * 1.01^k` |
| LocalMemory.AlphaIncreasing | src/my_stream_mt_lm.c:181 | the factor is at least 2.55 and strictly increases |
| LocalMemory.AxpyRunsIsLast | src/my_stream_mt_lm.c:169-183 | after `reps >= 1` repetitions `d` is the axpy with the last repetition's factor |
| LocalMemory.PrivatePositive | src/my_stream_mt_lm.c:151 | every seeded `a` is at least 1 |
| LocalMemory.AxpyRunsNotIdempotent | src/my_stream_mt_lm.c:181 | where `a` is positive, one more repetition changes `d`, unlike the fixed-factor kernels |
| LocalMemory.PrivatePrefix | src/my_stream_mt_lm.c:148-155 | every worker seeds the same values: a private set is the first `size` elements of any larger one |
| LocalMemory.AxpyRepetitions | src/my_stream_mt_lm.c:166-183 | the loop leaves `d` as the drifting axpy runs and the elapsed time is the sum of the samples |
| LocalMemory.AxpyThread | src/my_stream_mt_lm.c:134-193 | fresh private arrays are seeded, `d` ends as the drifting axpy, and the descriptor receives the clock `elapsed / repetitions` and the checksum |
| LocalMemory.CopyRepetitions | src/my_stream_mt_lm.c:229-243 | the loop copies `a` into `d` over the blocks and sums the samples |
| LocalMemory.CopyThread | src/my_stream_mt_lm.c:201-252 | fresh private arrays are seeded, `d` ends as the copy and the descriptor receives clock and checksum |
| LocalMemory.FmaStep | src/my_stream_mt_lm.c:302-304 | one sweep sets `d = a * c + b` over the blocks |
| LocalMemory.FmaRepetitions | src/my_stream_mt_lm.c:298-311 | the loop leaves `d` as the repeated `a * c + b` and sums the samples |
| LocalMemory.FmaThread | src/my_stream_mt_lm.c:260-322 | fresh arrays seeded with `c` over 400; `d` ends as `a * c + b`, and the descriptor receives clock and checksum |
| LocalMemory.AddMultStep | src/my_stream_mt_lm.c:372-375 | one sweep sets `d = a + b` and `c = a * b` over the blocks |
| LocalMemory.AddMultRepetitions | src/my_stream_mt_lm.c:368-383 | the loop leaves `c` and `d` as the repeated add-multiply and sums the samples |
| LocalMemory.AddMultThread | src/my_stream_mt_lm.c:330-394 | fresh seeded arrays; `c` and `d` end as add-multiply, and the descriptor receives clock and checksum |
| LocalMemory.AxpyThreadResult | src/my_stream_mt_lm.c:172-174 | after `reps >= 1` repetitions each blocked `d[j]` is `alpha_(reps-1) * a[j] + b[j]` and the rest keep their value |
| LocalMemory.CopyThreadResult | src/my_stream_mt_lm.c:234-236 | each blocked `d[j]` is `a[j]` and the rest keep their value |
| LocalMemory.FmaThreadResult | src/my_stream_mt_lm.c:302-304 | each blocked `d[j]` is `a[j] * c[j] + b[j]` |
| LocalMemory.AddMultThreadResult | src/my_stream_mt_lm.c:372-375 | each blocked `d[j]` is `a[j] + b[j]` and `c[j]` is `a[j] * b[j]` |
| LocalMemory.RunThread | src/my_stream_mt_lm.c:107-108 | the thread function named by the phase updates exactly its own descriptor |
| LocalMemory.ExecuteMtBenchmark | src/my_stream_mt_lm.c:94-126 | every descriptor is finished, the mean clock is the NaN-aware sum divided by `nrCpu`, the bytes are `streams * batch * nrCpu * 8` and the checksums are summed |
| LocalMemory.ResetDescriptors | src/my_stream_mt_lm.c:490-495 | every descriptor gets the batch size and repetitions and zero clock and checksum, and keeps its bandwidth |
| LocalMemory.MeanClockWithoutRepetitions | src/my_stream_mt_lm.c:185 | with zero repetitions the reported mean time is NaN |
| LocalMemory.MeanClockBetween | src/my_stream_mt_lm.c:111-116 | with repetitions, samples within `[lo, hi]` give a finite mean time in `[lo, hi]` |
| LocalMemory.ExpectedBytes | src/my_stream_mt_lm.c:118-119 | a phase counts its streams times the whole normalised size times 8 bytes |
| LocalMemory.Phase | src/my_stream_mt_lm.c:489-500 | a phase leaves every descriptor with `size == batch`, `repetitions == reps`, its worker's checksum and its `elapsed / repetitions` clock (NaN with none), with `bandwidth` kept, and reports bytes, mean clock and summed checksum |
| LocalMemory.Run | src/my_stream_mt_lm.c:463-542 | `main` uses the normalised size and reports each of the four phases as above |
| OpenMP.Seeded | src/my_stream_OMP.c:160-166 | the seeded arrays have the requested length |
| OpenMP.Seed | src/my_stream_OMP.c:160-166 | the seeding loop fills the arrays with the index-based seeds and zeroes `d` |
| OpenMP.SeedsSizeIndependent | src/my_stream_OMP.c:161-165 | every seed among the first `n` elements is the same for any size of at least `n` |
| OpenMP.SeedsPeriodic | src/my_stream_OMP.c:161-165 | the seeds of `a`, `b` and `c` repeat with period 600 |
| OpenMP.SeedsBounded | src/my_stream_OMP.c:162-164 | every seed lies in `[1, 2.5)` |
| OpenMP.Sweep | src/my_stream_OMP.c:175-178 | one parallel loop applies the kernel to the whole arrays |
| OpenMP.RepeatKernel | src/my_stream_OMP.c:171-187 | the repetition loop repeats the kernel and fills clock slot `r` with sample `r` |
| OpenMP.AverageClock | src/my_stream_OMP.c:255 | the average of the clock slots is the average of their values |
| OpenMP.TimeKernel | src/my_stream_OMP.c:171-187 | a kernel's loop leaves clock slot `r` holding sample `r`, and its average reports the average of the samples |
| OpenMP.FmaStreamsAsWrittenUndercount | src/my_stream_OMP.c:262-263 | the fma report counts 3 streams while the kernel touches 4 arrays |
| OpenMP.StreamsAreTouchedArrays | src/my_stream_OMP.c:260-269 | the corrected counts equal the arrays each kernel touches, and differ from the written ones only for fma |
| OpenMP.Phase | src/my_stream_OMP.c:171-205 | a kernel's loop leaves the arrays as the kernels so far and clock slot `r` holding sample `r`, and reports its average and the bytes of the stream count `main` passes (3 for fma) |
| OpenMP.ReportedBytesAgainstTouched | src/my_stream_OMP.c:260-269 | the reported bytes equal the bytes the kernel touches for axpy, copy and add-multiply, and are three quarters of them, short on every non-empty array, for fma |
| OpenMP.Setup | src/my_stream_OMP.c:147-166 | four fresh distinct arrays of the normalised size hold the seeds |
| OpenMP.RunKernels | src/my_stream_OMP.c:142-258 | the four loops apply fma, axpy (2.56), copy and add-multiply in that order and report each with the counts 3, 3, 2, 4 as written |
| OpenMP.Run | src/my_stream_OMP.c:126-269 | `main` leaves the arrays as the four kernels applied to the seeded arrays and reports each kernel's mean time and bytes, counted with the streams `main` passes |
| OpenMP.FmaReadsSeededC | src/my_stream_OMP.c:176-178 | the fma result is `a * b + c` on the seeds |
| OpenMP.AxpyReadsSeeds | src/my_stream_OMP.c:195-197 | the axpy result is `2.56 * a + b` on the seeds |
| OpenMP.CopyCopiesSeed | src/my_stream_OMP.c:213-215 | the copy result is the seeded `a` |
| OpenMP.FinalArrays | src/my_stream_OMP.c:226-242 | `a` and `b` keep their seeds; with repetitions `d = a + b` and `c = a * b`, and without any the arrays stay seeded |
| OpenMP.NoRepetitions | src/my_stream_OMP.c:171 | with zero repetitions no kernel runs |
| V2.FmaThread | src/my_stream_V2.c:77-138 | fresh arrays seeded like the axpy thread; `c` keeps whatever it held, `d` ends as the drifting axpy, and the descriptor receives clock and checksum |
| V2.FmaThreadComputesAxpy | src/my_stream_V2.c:106-126 | `d[j]` ends as `2.55 * 1.01^(reps-1) * a[j] + b[j]`, with neither `c` nor a product involved |
| V2.FmaTestStreamsAreTouched | src/my_stream_V2.c:165 | the 3 streams counted are the arrays the axpy touches |
| V2.ExecuteMtFmaTest | src/my_stream_V2.c:140-173 | every descriptor is finished, and the mean time is the NaN-aware sum of the clocks divided by `nrCpu` |
| V2.Run | src/my_stream_V2.c:245-272 | `main` uses the normalised size and returns the mean of the workers' `elapsed / repetitions` clocks |

## Left out

- Threads, `pthread` creation and joining, and the semaphores: threads run as a sequential loop over a schedule. In mt_gm the semaphore starts at `nrCpu`, so it never blocks.
- `clock_gettime` and `get_time`: every repetition's elapsed time is a parameter.
- `compute_bandwidth` and the bandwidth divisions: the model reports the byte count and the mean time; `bandwidth = bytes / (time / 1000)` is floating point.
- `variance` and `std_dev`: floating-point square root, and no variant uses them.
- The `rand()`-drawn checksum terms: they are parameters in mt_lm and V2 and omitted in OpenMP, which never reports them.
- Rounding of doubles: values are reals, so `a * b + c` and `a * c + b` are exact, and NaN comparisons in `maximum` and `minimum` are not modelled.
- C strings are the characters before their terminator, so the lookups, `FlagExists` and `IsNumber` require strings without NUL characters; a sequence with an embedded NUL has no C counterpart.
- `StreamUtils.Maximum`, `StreamUtils.Minimum`: require a non-empty vector, because the source reads `v[0]` unconditionally.
- Overflow of `size_t` and `int` sizes and counts: the model uses unbounded integers, except for the 32-bit seed generator.
- `SharedMemory.Run`, `SharedMemory.Phase`, `SharedMemory.RepeatBenchmark`: with at least one repetition they require the normalised size above 1002, because the checksum reads `b[1002]`, `c[1002]` and `d[1002]` after every repetition; out-of-bounds reads are not modelled. Without repetitions any size is accepted.
- Allocation failure of `malloc` and `aligned_alloc`: allocations are fresh arrays.
- Command-line parsing in each `main` (`strtoul`, `atoi`, error exits, `print_help`) and every `printf`: only the lookup helpers are modelled.
- `print_performance_metrics` and `make_results_csv`: formatting only.
- `my_stream.c`, `my_stream_MPI.c` and `my_stream_utils.h` are not part of this model.
- The V2 `copy_thread`, `axpy_thread` and `add_mult_thread` stubs return at once and are never called.
- V2's `c`: it is never written, so its contents are a parameter.
- `omp_get_num_procs`: the processor count is a parameter.

## Findings

| source | as written | input that shows it | evidently intended | confidence | as-written member | corrected member |
|---|---|---|---|---|---|---|
| src/my_stream_OMP.c:262-263 | the fma bandwidth counts 3 streams | any run: `d = a * b + c` reads `a`, `b` and `c` and writes `d`, so the bytes moved are 4 per element, and the reported fma bandwidth is three quarters of the true one | 4 streams, as the shared- and local-memory variants count for fma (src/my_stream_mt_gm.c:498, src/my_stream_mt_lm.c:526) | not executed | OpenMP.FmaStreamsAsWrittenUndercount | OpenMP.StreamsAreTouchedArrays |

The model's `OpenMP.Run` reports what `main` computes, with the written counts (`OpenMP.StreamsAsWritten`); `OpenMP.ReportedBytesAgainstTouched` states the gap against the corrected counts, `OpenMP.Streams`.
