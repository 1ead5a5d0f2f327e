/**
 * The kernel loops of the threaded variants. They view a run of doubles as
 * `size_vec` blocks of `VECTOR_LEN` = 8 elements (a GCC vector type) and
 * apply the element operation one block at a time; one block operation is a
 * `forall` statement over the block's 8 lanes. Only the first
 * `8 * size_vec` elements after `start` are written; a tail that is not a
 * whole block would be left alone, which never happens because every batch
 * is a multiple of 8.
 */
module VectorBlocks {
  import opened Sizing

  /** The elements a block loop of `sizeVec` blocks from `start` covers. */
  predicate InBlocks(j: int, start: nat, sizeVec: nat) {
    start <= j < start + VectorLen * sizeVec
  }

  /** `d_vec[i] = a_vec[i]` for `i < size_vec`. */
  method CopyBlocks(a: array<real>, d: array<real>, start: nat, sizeVec: nat)
    requires a.Length == d.Length && start + VectorLen * sizeVec <= d.Length && a != d
    modifies d
    ensures forall j :: 0 <= j < d.Length ==>
              d[j] == if InBlocks(j, start, sizeVec) then a[j] else old(d[j])
  {
    for i := 0 to sizeVec
      invariant forall j :: 0 <= j < d.Length ==>
                  d[j] == if InBlocks(j, start, i) then a[j] else old(d[j])
    {
      var base := start + VectorLen * i;
      forall lane | 0 <= lane < VectorLen {
        d[base + lane] := a[base + lane];
      }
    }
  }

  /** `d_vec[i] = alpha * a_vec[i] + b_vec[i]` for `i < size_vec`. */
  method AxpyBlocks(alpha: real, a: array<real>, b: array<real>, d: array<real>, start: nat, sizeVec: nat)
    requires a.Length == d.Length && b.Length == d.Length && start + VectorLen * sizeVec <= d.Length
    requires a != d && b != d
    modifies d
    ensures forall j :: 0 <= j < d.Length ==>
              d[j] == if InBlocks(j, start, sizeVec) then alpha * a[j] + b[j] else old(d[j])
  {
    for i := 0 to sizeVec
      invariant forall j :: 0 <= j < d.Length ==>
                  d[j] == if InBlocks(j, start, i) then alpha * a[j] + b[j] else old(d[j])
    {
      var base := start + VectorLen * i;
      forall lane | 0 <= lane < VectorLen {
        d[base + lane] := alpha * a[base + lane] + b[base + lane];
      }
    }
  }

  /** `d_vec[i] = x_vec[i] * y_vec[i] + z_vec[i]` for `i < size_vec`; the
      shared-memory fma passes `(a, b, c)`, the local-memory one `(a, c, b)`. */
  method FmaBlocks(x: array<real>, y: array<real>, z: array<real>, d: array<real>, start: nat, sizeVec: nat)
    requires x.Length == d.Length && y.Length == d.Length && z.Length == d.Length
    requires start + VectorLen * sizeVec <= d.Length
    requires x != d && y != d && z != d
    modifies d
    ensures forall j :: 0 <= j < d.Length ==>
              d[j] == if InBlocks(j, start, sizeVec) then x[j] * y[j] + z[j] else old(d[j])
  {
    for i := 0 to sizeVec
      invariant forall j :: 0 <= j < d.Length ==>
                  d[j] == if InBlocks(j, start, i) then x[j] * y[j] + z[j] else old(d[j])
    {
      var base := start + VectorLen * i;
      forall lane | 0 <= lane < VectorLen {
        d[base + lane] := x[base + lane] * y[base + lane] + z[base + lane];
      }
    }
  }

  /** `d_vec[i] = a_vec[i] + b_vec[i]; c_vec[i] = a_vec[i] * b_vec[i]` for `i < size_vec`. */
  method AddMultBlocks(a: array<real>, b: array<real>, c: array<real>, d: array<real>, start: nat, sizeVec: nat)
    requires a.Length == d.Length && b.Length == d.Length && c.Length == d.Length
    requires start + VectorLen * sizeVec <= d.Length
    requires a != c && a != d && b != c && b != d && c != d
    modifies c, d
    ensures forall j :: 0 <= j < d.Length ==>
              d[j] == (if InBlocks(j, start, sizeVec) then a[j] + b[j] else old(d[j])) &&
              c[j] == (if InBlocks(j, start, sizeVec) then a[j] * b[j] else old(c[j]))
  {
    for i := 0 to sizeVec
      invariant forall j :: 0 <= j < d.Length ==>
                  d[j] == (if InBlocks(j, start, i) then a[j] + b[j] else old(d[j])) &&
                  c[j] == (if InBlocks(j, start, i) then a[j] * b[j] else old(c[j]))
    {
      var base := start + VectorLen * i;
      forall lane | 0 <= lane < VectorLen {
        d[base + lane] := a[base + lane] + b[base + lane];
      }
      forall lane | 0 <= lane < VectorLen {
        c[base + lane] := a[base + lane] * b[base + lane];
      }
    }
  }
}
