/**
 * The arithmetic of the measured trial loop.  After rep k the loop reads the
 * clock and knows E_k, the time elapsed since the baseline reading; it stores
 * in res[k] the increment E_k - E_(k-1) (E_0 for the first rep) and leaves
 * `total` at E_k.  `Deltas` is that transformation, `RunningTotals` its inverse.
 */
module Samples {

  /** E_0 .. E_(k-1): readings t+1 .. t+k of the clock, relative to reading t. */
  function Elapsed(clock: nat -> int, t: nat, k: nat): seq<int>
  {
    seq(k, j requires 0 <= j < k => clock(t + 1 + j) - clock(t))
  }

  /** The per-trial increments of a sequence of cumulative times. */
  function Deltas(e: seq<int>): seq<int>
  {
    seq(|e|, j requires 0 <= j < |e| => if j == 0 then e[0] else e[j] - e[j - 1])
  }

  function Sum(xs: seq<int>): int
  {
    if xs == [] then 0 else Sum(xs[..|xs| - 1]) + xs[|xs| - 1]
  }

  /** The cumulative sums of a sequence of increments. */
  function RunningTotals(xs: seq<int>): (r: seq<int>)
    ensures |r| == |xs|
  {
    if xs == [] then [] else RunningTotals(xs[..|xs| - 1]) + [Sum(xs)]
  }

  /** How far the clock moves between reading i and reading i + 1. */
  function Tick(clock: nat -> int, i: nat): int
  {
    clock(i + 1) - clock(i)
  }

  ghost predicate Nondecreasing(clock: nat -> int)
  {
    forall i: nat :: Tick(clock, i) >= 0
  }

  /** Every reading of the clock advances it by the same `step` milliseconds. */
  ghost predicate FixedLatency(clock: nat -> int, step: int)
  {
    forall i: nat :: Tick(clock, i) == step
  }

  lemma DeltasPrefix(e: seq<int>, k: nat)
    requires k <= |e|
    ensures Deltas(e)[..k] == Deltas(e[..k])
  {
  }

  /** The increments add up to the last cumulative time. */
  lemma {:induction false} SumOfDeltas(e: seq<int>)
    requires |e| > 0
    ensures Sum(Deltas(e)) == e[|e| - 1]
  {
    if |e| > 1 {
      DeltasPrefix(e, |e| - 1);
      SumOfDeltas(e[..|e| - 1]);
    }
  }

  /** Adding the increments back up gives the cumulative times again. */
  lemma {:induction false} RunningTotalsOfDeltas(e: seq<int>)
    ensures RunningTotals(Deltas(e)) == e
  {
    if e != [] {
      var n := |e|;
      DeltasPrefix(e, n - 1);
      RunningTotalsOfDeltas(e[..n - 1]);
      SumOfDeltas(e);
      assert e == e[..n - 1] + [e[n - 1]];
    }
  }

  lemma {:induction false} RunningTotalsPrefix(xs: seq<int>, k: nat)
    requires k <= |xs|
    ensures RunningTotals(xs)[..k] == RunningTotals(xs[..k])
    decreases |xs|
  {
    if k < |xs| {
      var n := |xs|;
      RunningTotalsPrefix(xs[..n - 1], k);
      assert xs[..n - 1][..k] == xs[..k];
      assert RunningTotals(xs)[..k] == RunningTotals(xs[..n - 1])[..k];
    } else {
      assert xs[..k] == xs;
    }
  }

  /** Taking increments of the running totals gives the increments back. */
  lemma {:induction false} DeltasOfRunningTotals(xs: seq<int>)
    ensures Deltas(RunningTotals(xs)) == xs
  {
    var r := RunningTotals(xs);
    forall j | 0 <= j < |xs|
      ensures Deltas(r)[j] == xs[j]
    {
      RunningTotalsPrefix(xs, j + 1);
      var p := xs[..j + 1];
      assert r[j] == RunningTotals(p)[j] == Sum(p);
      assert p[..j] == xs[..j];
      if j > 0 {
        RunningTotalsPrefix(xs, j);
        assert r[j - 1] == RunningTotals(xs[..j])[j - 1] == Sum(xs[..j]);
      } else {
        assert p[..0] == [];
      }
    }
  }

  /** On a clock that never runs backwards, no elapsed time is negative. */
  lemma {:induction false} ClockMonotone(clock: nat -> int, t: nat, k: nat)
    requires Nondecreasing(clock)
    ensures clock(t) <= clock(t + k)
  {
    if k > 0 {
      ClockMonotone(clock, t, k - 1);
      assert Tick(clock, t + (k - 1)) >= 0;
    }
  }

  /** On a clock that never runs backwards, every increment is nonnegative. */
  lemma ElapsedIncrementsNonnegative(clock: nat -> int, t: nat, k: nat)
    requires Nondecreasing(clock)
    ensures forall j :: 0 <= j < k ==> Deltas(Elapsed(clock, t, k))[j] >= 0
  {
    forall j | 0 <= j < k
      ensures Deltas(Elapsed(clock, t, k))[j] >= 0
    {
      if j == 0 {
        ClockMonotone(clock, t, 1);
      } else {
        assert Tick(clock, t + j) >= 0;
      }
    }
  }

  /** With a fixed latency per reading, k readings later the clock is k steps on. */
  lemma {:induction false} FixedLatencyAdvance(clock: nat -> int, step: int, t: nat, k: nat)
    requires FixedLatency(clock, step)
    ensures clock(t + k) - clock(t) == k * step
  {
    if k > 0 {
      FixedLatencyAdvance(clock, step, t, k - 1);
      assert Tick(clock, t + (k - 1)) == step;
    }
  }

  /** With a fixed latency, the elapsed times do not depend on when they were taken. */
  lemma ElapsedUnderFixedLatency(clock: nat -> int, step: int, t: nat, u: nat, k: nat)
    requires FixedLatency(clock, step)
    ensures Elapsed(clock, t, k) == Elapsed(clock, u, k)
  {
    forall j | 0 <= j < k
      ensures Elapsed(clock, t, k)[j] == Elapsed(clock, u, k)[j]
    {
      FixedLatencyAdvance(clock, step, t, 1 + j);
      FixedLatencyAdvance(clock, step, u, 1 + j);
    }
  }
}
