/**
 * Size normalisation and work partitioning, which every variant's `main`
 * performs the same way: the requested element count is rounded so that
 * every worker gets a whole number of 8-element vector blocks, and worker
 * `i` of `nrCpu` is handed the half-open range `[i * batch, (i + 1) * batch)`.
 *
 * `nrCpu` is the processor count reported by OpenMP, a parameter here.
 * Sizes are unbounded: the 64-bit wrap-around of `size_t` is not modelled.
 */
module Sizing {

  /** Elements per vector block (`VECTOR_LEN`). */
  const VectorLen: nat := 8

  /** `vec_size / nr_cpu`, then down to a multiple of 8, plus 8, times `nr_cpu`. */
  function NormalizedSize(requested: nat, nrCpu: nat): nat
    requires nrCpu >= 1
  {
    var perCpu := requested / nrCpu;
    ((perCpu - perCpu % VectorLen) + VectorLen) * nrCpu
  }

  /** The normalised size is a multiple of `8 * nrCpu`, strictly larger than
      the request (an already aligned request grows too), and larger by at
      most `8 * nrCpu`. */
  lemma NormalizedSizeProperties(requested: nat, nrCpu: nat)
    requires nrCpu >= 1
    ensures NormalizedSize(requested, nrCpu) % (VectorLen * nrCpu) == 0
    ensures requested < NormalizedSize(requested, nrCpu) <= requested + VectorLen * nrCpu
  {
    var perCpu := requested / nrCpu;
    var blocks := perCpu / VectorLen + 1;
    var rounded := perCpu - perCpu % VectorLen + VectorLen;
    assert rounded == VectorLen * blocks;
    assert perCpu < rounded <= perCpu + VectorLen;
    var size := NormalizedSize(requested, nrCpu);
    assert size == rounded * nrCpu;
    assert size == (VectorLen * nrCpu) * blocks by {
      MulAssoc(VectorLen, blocks, nrCpu);
    }
    DivModUnique(size, VectorLen * nrCpu, blocks, 0);
    DivModUnique(requested, nrCpu, perCpu, requested % nrCpu);
    MulMonotone(perCpu + 1, rounded, nrCpu);
    MulMonotone(rounded, perCpu + VectorLen, nrCpu);
    assert (perCpu + 1) * nrCpu == perCpu * nrCpu + nrCpu;
    assert (perCpu + VectorLen) * nrCpu == perCpu * nrCpu + VectorLen * nrCpu;
  }

  lemma MulAssoc(x: int, y: int, z: int)
    ensures (x * y) * z == (x * z) * y
  {
  }

  lemma MulMonotone(x: int, y: int, z: nat)
    requires x <= y
    ensures x * z <= y * z
  {
    assert y * z - x * z == (y - x) * z;
  }

  /** Euclidean division is determined by any quotient and remainder pair. */
  lemma DivModUnique(x: nat, d: nat, q: nat, r: nat)
    requires d >= 1 && r < d && x == q * d + r
    ensures x / d == q && x % d == r
  {
    var q' := x / d;
    assert x == q' * d + x % d;
    if q' > q {
      MulMonotone(q + 1, q', d);
    } else if q' < q {
      MulMonotone(q' + 1, q, d);
    }
  }

  /** `batch_vec_size = vec_size / nr_cpu`. */
  function Batch(vecSize: nat, nrCpu: nat): nat
    requires nrCpu >= 1
  {
    vecSize / nrCpu
  }

  /** A size divisible by `8 * nrCpu` splits into `nrCpu` equal batches, each
      a whole number of vector blocks. */
  lemma BatchProperties(vecSize: nat, nrCpu: nat)
    requires nrCpu >= 1
    requires vecSize % (VectorLen * nrCpu) == 0
    ensures Batch(vecSize, nrCpu) * nrCpu == vecSize
    ensures Batch(vecSize, nrCpu) % VectorLen == 0
  {
    var blocks := vecSize / (VectorLen * nrCpu);
    assert vecSize == (VectorLen * nrCpu) * blocks;
    assert vecSize == (VectorLen * blocks) * nrCpu by {
      MulAssoc(VectorLen, nrCpu, blocks);
    }
    DivModUnique(vecSize, nrCpu, VectorLen * blocks, 0);
  }


  /** The normalised size of any request partitions into blocks of 8 per worker. */
  lemma NormalizedBatch(requested: nat, nrCpu: nat)
    requires nrCpu >= 1
    ensures Batch(NormalizedSize(requested, nrCpu), nrCpu) * nrCpu == NormalizedSize(requested, nrCpu)
    ensures Batch(NormalizedSize(requested, nrCpu), nrCpu) % VectorLen == 0
    ensures Batch(NormalizedSize(requested, nrCpu), nrCpu) >= VectorLen
  {
    NormalizedSizeProperties(requested, nrCpu);
    BatchProperties(NormalizedSize(requested, nrCpu), nrCpu);
    var batch := Batch(NormalizedSize(requested, nrCpu), nrCpu);
    assert batch * nrCpu > 0;
  }

  /** `th_args[i].start_index` and `th_args[i].end_index`. */
  function WorkerStart(i: nat, batch: nat): nat { i * batch }
  function WorkerEnd(i: nat, batch: nat): nat { (i + 1) * batch }

  /** The worker whose range holds index `x` is `x / batch`. */
  lemma OwnerIsQuotient(x: nat, w: nat, batch: nat)
    requires batch >= 1
    ensures WorkerStart(w, batch) <= x < WorkerEnd(w, batch) <==> w == x / batch
  {
    var q := x / batch;
    assert q * batch <= x < (q + 1) * batch;
    if w < q {
      MulMonotone(w + 1, q, batch);
    } else if w > q {
      MulMonotone(q + 1, w, batch);
    }
  }

  /** Consecutive ranges are adjacent. */
  lemma RangesAdjacent(i: nat, batch: nat)
    ensures WorkerEnd(i, batch) == WorkerStart(i + 1, batch)
    ensures WorkerStart(i, batch) <= WorkerEnd(i, batch)
  {
  }

  /** Distinct workers' ranges share no index. */
  lemma RangesDisjoint(i: nat, j: nat, batch: nat, x: nat)
    requires i != j
    ensures !(WorkerStart(i, batch) <= x < WorkerEnd(i, batch) &&
              WorkerStart(j, batch) <= x < WorkerEnd(j, batch))
  {
    if batch >= 1 {
      OwnerIsQuotient(x, i, batch);
      OwnerIsQuotient(x, j, batch);
    }
  }

  /** The ranges of workers `0 .. nrCpu - 1` cover exactly `[0, batch * nrCpu)`. */
  lemma RangesCover(nrCpu: nat, batch: nat, x: nat)
    ensures x < batch * nrCpu <==>
              exists w :: 0 <= w < nrCpu && WorkerStart(w, batch) <= x < WorkerEnd(w, batch)
  {
    if x < batch * nrCpu {
      var w := x / batch;
      OwnerIsQuotient(x, w, batch);
      if w >= nrCpu {
        MulMonotone(nrCpu, w, batch);
      }
      assert WorkerStart(w, batch) <= x < WorkerEnd(w, batch);
    } else {
      forall w | 0 <= w < nrCpu
        ensures !(WorkerStart(w, batch) <= x < WorkerEnd(w, batch))
      {
        MulMonotone(w + 1, nrCpu, batch);
      }
    }
  }
}
