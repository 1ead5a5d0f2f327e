/**
 * The arithmetic the benchmark does on measured times, over reals. A time
 * sample itself comes from the monotonic clock and enters the model as a
 * parameter. The only floating-point outcome kept is NaN: a mean over zero
 * repetitions divides 0.0 by 0.
 */
module Timing {

  datatype Double = Finite(value: real) | NaN

  /** What a variant reports for one kernel: its mean time in milliseconds
      and the bytes one timed run streams; the bandwidth it prints is
      `bytes / (time / 1000)`. */
  datatype KernelReport = KernelReport(time: Double, bytes: nat)

  function Sum(xs: seq<real>): real {
    if xs == [] then 0.0 else Sum(xs[..|xs| - 1]) + xs[|xs| - 1]
  }

  /** `total / n` in double arithmetic, where a zero `n` only ever meets a
      total of 0.0 (an empty sum) and so yields NaN. */
  function Quotient(total: real, n: nat): (q: Double)
    ensures n == 0 <==> q == NaN
  {
    if n == 0 then NaN else Finite(total / n as real)
  }

  /** A quotient by a positive count, multiplied back, gives the total. */
  lemma QuotientScales(total: real, n: nat)
    requires n > 0
    ensures Quotient(total, n).Finite? && Quotient(total, n).value * n as real == total
  {
  }

  /** `average(v, n)`: the sum of the samples divided by their count. */
  function Average(xs: seq<real>): Double {
    Quotient(Sum(xs), |xs|)
  }

  /** `avg += x` in double arithmetic: NaN is absorbing. */
  function Plus(x: Double, y: Double): (r: Double)
    ensures r == NaN <==> x == NaN || y == NaN
  {
    if x.NaN? || y.NaN? then NaN else Finite(x.value + y.value)
  }

  /** `avg /= n` for a positive count. */
  function DivBy(x: Double, n: nat): (r: Double)
    requires n > 0
    ensures r == NaN <==> x == NaN
  {
    if x.NaN? then NaN else Finite(x.value / n as real)
  }

  /** A finite value divided by a positive count, multiplied back, gives the
      value. */
  lemma DivByScales(x: Double, n: nat)
    requires n > 0 && x.Finite?
    ensures DivBy(x, n).Finite? && DivBy(x, n).value * n as real == x.value
  {
  }

  lemma {:induction false} SumOfConstant(xs: seq<real>, x: real)
    requires forall i :: 0 <= i < |xs| ==> xs[i] == x
    ensures Sum(xs) == |xs| as real * x
  {
    if xs != [] {
      SumOfConstant(xs[..|xs| - 1], x);
    }
  }

  /** The average of n copies of x is x, for n >= 1. */
  lemma AverageOfConstant(xs: seq<real>, x: real)
    requires |xs| >= 1
    requires forall i :: 0 <= i < |xs| ==> xs[i] == x
    ensures Average(xs) == Finite(x)
  {
    SumOfConstant(xs, x);
  }

  lemma {:induction false} SumBounds(xs: seq<real>, lo: real, hi: real)
    requires forall i :: 0 <= i < |xs| ==> lo <= xs[i] <= hi
    ensures |xs| as real * lo <= Sum(xs) <= |xs| as real * hi
  {
    if xs != [] {
      SumBounds(xs[..|xs| - 1], lo, hi);
    }
  }

  /** The average lies between any lower and upper bound of the samples,
      so between the values `minimum` and `maximum` report. */
  lemma AverageBetween(xs: seq<real>, lo: real, hi: real)
    requires |xs| >= 1
    requires forall i :: 0 <= i < |xs| ==> lo <= xs[i] <= hi
    ensures Average(xs).Finite? && lo <= Average(xs).value <= hi
  {
    SumBounds(xs, lo, hi);
    var n := |xs| as real;
    var m := Sum(xs) / n;
    assert m * n == Sum(xs);
    assert (m - lo) * n >= 0.0;
    assert (hi - m) * n >= 0.0;
  }

  /** `avg += x` over a sequence of doubles, from 0.0. */
  function SumDoubles(xs: seq<Double>): Double {
    if xs == [] then Finite(0.0) else Plus(SumDoubles(xs[..|xs| - 1]), xs[|xs| - 1])
  }

  function Values(xs: seq<Double>): seq<real>
    requires forall i :: 0 <= i < |xs| ==> xs[i].Finite?
  {
    seq(|xs|, i requires 0 <= i < |xs| => xs[i].value)
  }

  /** A sum of doubles is NaN exactly when one of the summands is. */
  lemma {:induction false} SumDoublesNaN(xs: seq<Double>)
    ensures SumDoubles(xs) == NaN <==> exists i :: 0 <= i < |xs| && xs[i] == NaN
  {
    if xs != [] {
      var front := xs[..|xs| - 1];
      SumDoublesNaN(front);
      if SumDoubles(front) == NaN {
        var i :| 0 <= i < |front| && front[i] == NaN;
        assert xs[i] == NaN;
      }
      forall i | 0 <= i < |xs| - 1 && xs[i] == NaN
        ensures SumDoubles(front) == NaN
      {
        assert front[i] == NaN;
      }
    }
  }

  /** Without NaN, the sum of doubles is the sum of their values. */
  lemma {:induction false} SumDoublesFinite(xs: seq<Double>)
    requires forall i :: 0 <= i < |xs| ==> xs[i].Finite?
    ensures SumDoubles(xs) == Finite(Sum(Values(xs)))
  {
    if xs != [] {
      var front := xs[..|xs| - 1];
      SumDoublesFinite(front);
      assert Values(xs)[..|xs| - 1] == Values(front);
    }
  }
}
