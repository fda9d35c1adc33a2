/**
 * One engine path of runTest / runTestCompiled (lines 191-263 and 287-361):
 * `count` unbenched warm-up calls, a baseline clock reading, TESTITER reps of
 * `count` timed calls each with one clock reading after every rep, and, when
 * not silent, one more reading for the average line.  Any engine exception
 * ends the path; the partial `total` is what the caller adds to its total.
 */
module Trials {
  import opened Wrappers
  import opened Numerics
  import opened Samples
  import opened Format

  const TESTITER: nat := 5

  /** What an engine does on a path: run every call, or throw on call `step`
      (calls are numbered from 0, the warm-up calls first). */
  datatype Outcome = Completes | ThrowsAt(step: nat)

  /**
   * A report line of a path: the average line, recorded as the window of
   * clock time it averages and the res contents it lists, or the failure line.
   */
  datatype Report =
    | Measured(window: int, samples: seq<int>)
    | CouldNotExecute

  /** The average the line shows, in hundredths of a millisecond. */
  function ShownAverage(r: Report): int
    requires r.Measured?
  {
    Average(r.window)
  }

  /** The res listing at the end of the line, as resultsToString renders it. */
  function ShownSamples(r: Report): string
    requires r.Measured?
  {
    SamplesString(r.samples)
  }

  /** What a path left behind: the `total` it reached, the entries it wrote
      into res (from index 0), how many clock readings it took, and its line. */
  datatype PathResult = PathResult(total: int, samples: seq<int>, ticks: nat, report: Option<Report>)

  predicate CallSucceeds(o: Outcome, call: nat)
  {
    o.Completes? || call < o.step
  }

  predicate WarmupFails(o: Outcome, count: nat)
  {
    o.ThrowsAt? && o.step < count
  }

  /** The number of the first call of rep `reps`, after the warm-up and the earlier reps. */
  function RepStart(count: nat, reps: nat): nat
  {
    if reps == 0 then count else RepStart(count, reps - 1) + count
  }

  /** Reps finished before the engine threw (all of them if it never did). */
  function RepsCompleted(o: Outcome, count: nat): (k: nat)
    ensures k <= TESTITER
  {
    if WarmupFails(o, count) then 0 else RepsFrom(o, count, 0)
  }

  /** Starting at rep r, with no earlier rep thrown: the first rep that throws, or TESTITER. */
  function RepsFrom(o: Outcome, count: nat, r: nat): (k: nat)
    ensures k <= TESTITER
    decreases TESTITER - r
  {
    if r >= TESTITER then TESTITER
    else if o.ThrowsAt? && o.step < RepStart(count, r) + count then r
    else RepsFrom(o, count, r + 1)
  }

  /** The average line: elapsed / TESTITER, HALF_UP at scale 2 (lines 215, 251, 309, 348). */
  function Average(elapsed: int): (a: int)
    ensures NearestHalfUp(Abs(elapsed) * 100, TESTITER, Abs(a))
    ensures a >= 0 <==> elapsed >= 0
  {
    RoundHalfUp(elapsed, TESTITER, 2)
  }

  /** The effect of one engine path started when the clock is at reading `t`. */
  function Path(o: Outcome, count: nat, silent: bool, clock: nat -> int, t: nat): PathResult
  {
    var line := if silent then None else Some(CouldNotExecute);
    if WarmupFails(o, count) then PathResult(0, [], 0, line)
    else
      var k := RepsCompleted(o, count);
      var e := Elapsed(clock, t, k);
      var total := if k == 0 then 0 else e[k - 1];
      if k < TESTITER then PathResult(total, Deltas(e), 1 + k, line)
      else if silent then PathResult(total, Deltas(e), 1 + TESTITER, None)
      else
        PathResult(total, Deltas(e), 2 + TESTITER, Some(Measured(clock(t + 1 + TESTITER) - clock(t), Deltas(e))))
  }

  lemma {:induction false} RepStartIs(count: nat, reps: nat)
    ensures RepStart(count, reps) == count + reps * count
  {
    if reps > 0 {
      RepStartIs(count, reps - 1);
    }
  }

  lemma {:induction false} RepStartMonotone(count: nat, i: nat, j: nat)
    requires i <= j
    ensures RepStart(count, i) <= RepStart(count, j)
    decreases j - i
  {
    if i < j {
      RepStartMonotone(count, i, j - 1);
    }
  }

  /** An engine that has not thrown by the start of rep r lets every rep before r finish. */
  lemma {:induction false} RepsFromReaches(o: Outcome, count: nat, i: nat, r: nat)
    requires i <= r <= TESTITER
    requires o.ThrowsAt? ==> RepStart(count, r) <= o.step
    ensures RepsFrom(o, count, i) == RepsFrom(o, count, r)
    decreases r - i
  {
    if i < r {
      RepStartMonotone(count, i + 1, r);
      RepsFromReaches(o, count, i + 1, r);
    }
  }

  /** Throwing on the j-th call of rep r leaves exactly r reps completed. */
  lemma FailureInRep(o: Outcome, count: nat, r: nat, j: nat)
    requires o.ThrowsAt? && r < TESTITER && j < count
    requires o.step == count + r * count + j
    ensures !WarmupFails(o, count) && RepsCompleted(o, count) == r
  {
    RepStartIs(count, r);
    RepsFromReaches(o, count, 0, r);
  }

  /** After the last rep, an engine that has not thrown yet will not throw on this path. */
  lemma NoFailureInReps(o: Outcome, count: nat)
    requires !WarmupFails(o, count)
    requires o.ThrowsAt? ==> count + TESTITER * count <= o.step
    ensures RepsCompleted(o, count) == TESTITER
  {
    RepStartIs(count, TESTITER);
    RepsFromReaches(o, count, 0, TESTITER);
  }

  /** Path once the warm-up has passed: the reps loop decides the rest. */
  lemma PathWhenWarmed(o: Outcome, count: nat, silent: bool, clock: nat -> int, t: nat)
    requires !WarmupFails(o, count)
    ensures var k := RepsCompleted(o, count);
      var e := Elapsed(clock, t, k);
      var p := Path(o, count, silent, clock, t);
      && p.total == (if k == 0 then 0 else e[k - 1])
      && p.samples == Deltas(e)
      && p.ticks == (if k < TESTITER || silent then 1 + k else 2 + TESTITER)
      && p.report == (if silent then None
                      else if k < TESTITER then Some(CouldNotExecute)
                      else Some(Measured(clock(t + 1 + TESTITER) - clock(t), Deltas(e))))
  {
  }

  /** The entries of res add up to the path's total: they are increments, not running totals. */
  lemma PathSamplesSumToTotal(o: Outcome, count: nat, silent: bool, clock: nat -> int, t: nat)
    ensures Sum(Path(o, count, silent, clock, t).samples) == Path(o, count, silent, clock, t).total
  {
    var p := Path(o, count, silent, clock, t);
    if p.samples != [] {
      SumOfDeltas(Elapsed(clock, t, RepsCompleted(o, count)));
    }
  }

  /**
   * The running totals of the entries are the cumulative elapsed times E_0..E_(k-1),
   * the last of which is the path's total.
   */
  lemma PathSamplesAreIncrements(o: Outcome, count: nat, silent: bool, clock: nat -> int, t: nat)
    requires !WarmupFails(o, count)
    ensures var p := Path(o, count, silent, clock, t);
      && RunningTotals(p.samples) == Elapsed(clock, t, RepsCompleted(o, count))
      && (p.samples != [] ==> p.total == clock(t + |p.samples|) - clock(t))
      && (p.samples == [] ==> p.total == 0)
  {
    PathWhenWarmed(o, count, silent, clock, t);
    RunningTotalsOfDeltas(Elapsed(clock, t, RepsCompleted(o, count)));
  }

  /** A path that does not throw writes all TESTITER entries and prints its average and samples. */
  lemma CompletedPath(o: Outcome, count: nat, silent: bool, clock: nat -> int, t: nat)
    requires RepsCompleted(o, count) == TESTITER && !WarmupFails(o, count)
    ensures var p := Path(o, count, silent, clock, t);
      && |p.samples| == TESTITER
      && p.total == clock(t + TESTITER) - clock(t)
      && p.ticks == (if silent then 1 + TESTITER else 2 + TESTITER)
      && (silent <==> p.report.None?)
      && (!silent ==> p.report == Some(Measured(clock(t + 1 + TESTITER) - clock(t), p.samples)))
  {
  }

  /**
   * The average line of a path that does not throw: its listing reads back
   * to exactly the entries written into res, which add up to the path's
   * total; its average is the window / TESTITER, and the window runs one
   * reading past the last rep, so on a clock that never runs backwards it is
   * at least the total and the average shown is nonnegative.
   */
  lemma CompletedPathLine(o: Outcome, count: nat, clock: nat -> int, t: nat)
    requires RepsCompleted(o, count) == TESTITER && !WarmupFails(o, count)
    ensures var p := Path(o, count, false, clock, t);
      && p.report.Some? && p.report.value.Measured?
      && ParseSamples(ShownSamples(p.report.value)) == Some(p.samples)
      && Sum(p.samples) == p.total
      && NearestHalfUp(Abs(p.report.value.window) * 100, TESTITER, Abs(ShownAverage(p.report.value)))
      && (Nondecreasing(clock) ==> p.report.value.window >= p.total >= 0 && ShownAverage(p.report.value) >= 0)
  {
    var p := Path(o, count, false, clock, t);
    CompletedPath(o, count, false, clock, t);
    SamplesRoundTrip(p.samples);
    PathSamplesSumToTotal(o, count, false, clock, t);
    if Nondecreasing(clock) {
      PathNonnegative(o, count, false, clock, t);
      ClockMonotone(clock, t + TESTITER, 1);
      assert t + TESTITER + 1 == t + 1 + TESTITER;
    }
  }

  /**
   * Failure accounting: a throw during warm-up contributes 0 and reads no clock;
   * a throw in rep r still contributes the time elapsed through rep r-1.
   */
  lemma FailedPath(o: Outcome, count: nat, silent: bool, clock: nat -> int, t: nat, r: nat, j: nat)
    requires o.ThrowsAt?
    requires o.step < count || (r < TESTITER && j < count && o.step == count + r * count + j)
    ensures var p := Path(o, count, silent, clock, t);
      && (o.step < count ==> p.total == 0 && p.ticks == 0 && p.samples == [])
      && (o.step >= count ==> |p.samples| == r && p.ticks == 1 + r
                              && p.total == (if r == 0 then 0 else clock(t + r) - clock(t)))
      && (silent <==> p.report.None?)
      && (!silent ==> p.report == Some(CouldNotExecute))
  {
    if o.step >= count {
      FailureInRep(o, count, r, j);
    }
  }

  /** On a clock that never runs backwards, the path's total and every entry are nonnegative. */
  lemma PathNonnegative(o: Outcome, count: nat, silent: bool, clock: nat -> int, t: nat)
    requires Nondecreasing(clock)
    ensures var p := Path(o, count, silent, clock, t);
      p.total >= 0 && forall j :: 0 <= j < |p.samples| ==> p.samples[j] >= 0
  {
    var k := RepsCompleted(o, count);
    ElapsedIncrementsNonnegative(clock, t, k);
    if k > 0 {
      ClockMonotone(clock, t, k);
    }
  }

  /** With a fixed latency per clock reading, a path's effect does not depend on when it starts. */
  lemma PathUnderFixedLatency(o: Outcome, count: nat, silent: bool, clock: nat -> int, step: int, t: nat, u: nat)
    requires FixedLatency(clock, step)
    ensures Path(o, count, silent, clock, t) == Path(o, count, silent, clock, u)
  {
    var k := RepsCompleted(o, count);
    ElapsedUnderFixedLatency(clock, step, t, u, k);
    FixedLatencyAdvance(clock, step, t, 1 + TESTITER);
    FixedLatencyAdvance(clock, step, u, 1 + TESTITER);
  }
}
