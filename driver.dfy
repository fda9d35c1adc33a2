/**
 * The concurrency sweep of ELComparisons.main (lines 97-155): for thread
 * counts 1, 6, ..., 96, a fresh OGNL-only object and a fresh MVEL-only object
 * each run the catalog once per "thread", and the two totals and their ratio
 * are printed.  Thread.run() is called directly, so the passes are sequential.
 */
module Driver {
  import opened Wrappers
  import opened Numerics
  import opened Flags
  import opened Samples
  import opened Trials
  import opened Runner
  import opened Cli

  /** Thread counts go 1, 6, ..., 96: twenty steps. */
  const SWEEP_STEPS: nat := 20

  function ThreadCount(k: nat): nat { 1 + 5 * k }

  /** What one step prints about its totals; `ratio` is the unscaled 4-digit
      quotient mvelTotals / ognlTotals, None where BigDecimal.divide throws. */
  datatype SweepRecord = SweepRecord(threads: nat, threadMax: int, ognlTotals: int, mvelTotals: int, ratio: Option<int>)

  /** One step of the sweep: its record, the clock readings it took and the report lines of its passes. */
  datatype Stress = Stress(record: SweepRecord, ticks: nat, reports: seq<Report>)

  /** The sweep so far, and the exception it ended with, if any. */
  datatype Sweep = Sweep(records: seq<SweepRecord>, failure: Option<Failure>, ticks: nat, reports: seq<Report>)

  /** `n` runs of run() on a fresh object with the given flags, started at reading u. */
  function PassRunner(silent: bool, tests: seq<PerfTest>, engines: Engines, clock: nat -> int): (nat, bv32, nat) -> Gains
  {
    (n: nat, flags: bv32, u: nat) => Passes(n, flags, silent, tests, engines, clock, u)
  }

  /** One step with `n` threads, started at clock reading t (lines 103-151), over the fresh objects' `passes`. */
  function StressTest(passes: (nat, bv32, nat) -> Gains, n: nat, ognlFlags: bv32, mvelFlags: bv32, threadMax: int, t: nat): Stress
  {
    var og := passes(n, ognlFlags, t + 1);
    var mv := passes(n, mvelFlags, t + 1 + og.ticks);
    Totals(n, threadMax, og, mv)
  }

  /** The step's record from the two objects' gains, with the two readings around them. */
  function Totals(n: nat, threadMax: int, og: Gains, mv: Gains): Stress
  {
    Stress(SweepRecord(n, threadMax, og.ognl, mv.mvel, DivideHalfUp(mv.mvel, og.ognl, 4)),
           2 + og.ticks + mv.ticks, og.reports + mv.reports)
  }

  /** StressTest for each thread count and start reading. */
  function Stressor(flags: bv32, silent: bool, threadMax: int, tests: seq<PerfTest>, engines: Engines,
                    clock: nat -> int): (nat, nat) -> Stress
  {
    (n: nat, u: nat) => StressTest(PassRunner(silent, tests, engines, clock), n, flags + RUN_OGNL, flags + RUN_MVEL, threadMax, u)
  }

  /** The first k steps of the sweep; a division by zero ends it. */
  function SweepSteps(stress: (nat, nat) -> Stress, k: nat, t: nat): Sweep
  {
    if k == 0 then Sweep([], None, 0, [])
    else
      var before := SweepSteps(stress, k - 1, t);
      if before.failure.Some? then before
      else
        var s := stress(ThreadCount(k - 1), t + before.ticks);
        Sweep(before.records + [s.record], if s.record.ratio.None? then Some(DivisionByZero) else None,
              before.ticks + s.ticks, before.reports + s.reports)
  }

  /** main from its arguments on: a parse failure, nothing without `-threaded`, or the sweep. */
  function MainSpec(args: seq<string>, parseInt: string -> Option<int>, tests: seq<PerfTest>, engines: Engines,
                    clock: nat -> int, t: nat): Sweep
  {
    match ParseSpec(args, parseInt)
    case Err(f) => Sweep([], Some(f), 0, [])
    case Ok(o) =>
      if !o.multithreaded then Sweep([], None, 0, [])
      else SweepSteps(Stressor(ModeOf(o), o.silent, o.threadMax, tests, engines, clock), SWEEP_STEPS, t)
  }

  /** main (lines 66-157); its sweep records are returned rather than printed. */
  method Launch(args: seq<string>, parseInt: string -> Option<int>, engines: Engines, jvm: Jvm)
    returns (records: seq<SweepRecord>, failure: Option<Failure>)
    modifies jvm
    ensures var m := MainSpec(args, parseInt, Catalog, engines, jvm.clock, old(jvm.ticks));
      records == m.records && failure == m.failure && jvm.ticks == old(jvm.ticks) + m.ticks && jvm.out == old(jvm.out) + m.reports
  {
    var omc := new ELComparisons();
    var parsed := ParseArgs(args, parseInt);
    if parsed.Err? {
      return [], Some(parsed.error);
    }
    var o := parsed.value;
    var flags := ModeOf(o);
    if o.multithreaded {
      records, failure := StressSweep(flags, o.silent, o.threadMax, engines, jvm);
    } else {
      records, failure := [], None;
      assert jvm.out + [] == jvm.out;
    }
  }

  /** The loop of lines 102-153 over thread counts 1, 6, ..., 96. */
  method StressSweep(flags: bv32, silent: bool, threadMax: int, engines: Engines, jvm: Jvm)
    returns (records: seq<SweepRecord>, failure: Option<Failure>)
    modifies jvm
    ensures Recorded(SweepSteps(Stressor(flags, silent, threadMax, Catalog, engines, jvm.clock), SWEEP_STEPS, old(jvm.ticks)),
                     records, failure, old(jvm.ticks), old(jvm.out), jvm.ticks, jvm.out)
  {
    records, failure := [], None;
    ghost var stress := Stressor(flags, silent, threadMax, Catalog, engines, jvm.clock);
    ghost var t0, out0 := jvm.ticks, jvm.out;
    assert out0 + [] == out0;
    for k := 0 to SWEEP_STEPS
      invariant Recorded(SweepSteps(stress, k, t0), records, None, t0, out0, jvm.ticks, jvm.out)
    {
      var rec := SweepOnce(flags, silent, threadMax, engines, ThreadCount(k), stress, k, t0, out0, records, jvm);
      records := records + [rec];
      if rec.ratio.None? {
        failure := Some(DivisionByZero);
        FailedSweepStops(stress, k + 1, SWEEP_STEPS, t0);
        return;
      }
    }
  }

  /** One more step of the sweep, after k steps that did not fail. */
  method SweepOnce(flags: bv32, silent: bool, threadMax: int, engines: Engines, threadNumber: nat,
                   ghost stress: (nat, nat) -> Stress, ghost k: nat, ghost t0: nat, ghost out0: seq<Report>,
                   ghost records: seq<SweepRecord>, jvm: Jvm)
    returns (rec: SweepRecord)
    requires stress == Stressor(flags, silent, threadMax, Catalog, engines, jvm.clock)
    requires threadNumber == ThreadCount(k)
    requires Recorded(SweepSteps(stress, k, t0), records, None, t0, out0, jvm.ticks, jvm.out)
    modifies jvm
    ensures Recorded(SweepSteps(stress, k + 1, t0), records + [rec], if rec.ratio.None? then Some(DivisionByZero) else None,
                     t0, out0, jvm.ticks, jvm.out)
  {
    ghost var t1, out1 := jvm.ticks, jvm.out;
    rec := StressRun(threadNumber, flags + RUN_OGNL, flags + RUN_MVEL, silent, threadMax, engines, jvm);
    StressorApplies(flags, silent, threadMax, Catalog, engines, jvm.clock, threadNumber, t1);
    SweepStep(stress, k, threadNumber, t0, out0, records, t1, out1, rec, jvm.ticks, jvm.out);
  }

  /** One step of the sweep: two fresh objects, `n` synchronous runs each, and the ratio. */
  method StressRun(n: nat, ognlFlags: bv32, mvelFlags: bv32, silent: bool, threadMax: int, engines: Engines, jvm: Jvm) returns (rec: SweepRecord)
    modifies jvm
    ensures var s := StressTest(PassRunner(silent, Catalog, engines, jvm.clock), n, ognlFlags, mvelFlags, threadMax, old(jvm.ticks));
      rec == s.record && jvm.ticks == old(jvm.ticks) + s.ticks && jvm.out == old(jvm.out) + s.reports
  {
    ghost var passes := PassRunner(silent, Catalog, engines, jvm.clock);
    ghost var t0 := jvm.ticks;
    var totaltime := jvm.CurrentTimeMillis();
    ghost var t1, out1 := jvm.ticks, jvm.out;
    ghost var og := passes(n, ognlFlags, t1);
    var ognlTotals, ognlTestsMvel := FreshPasses(n, ognlFlags, silent, engines, jvm);
    ghost var t2, out2 := jvm.ticks, jvm.out;
    ghost var mv := passes(n, mvelFlags, t2);
    var mvelTestsOgnl, mvelTotals := FreshPasses(n, mvelFlags, silent, engines, jvm);
    ghost var t3, out3 := jvm.ticks, jvm.out;
    var stop := jvm.CurrentTimeMillis();
    totaltime := stop - totaltime;
    rec := SweepRecord(n, threadMax, ognlTotals, mvelTotals, DivideHalfUp(mvelTotals, ognlTotals, 4));
    StressAccounted(n, threadMax, og, mv, ognlTotals, mvelTotals, ognlTestsMvel, mvelTestsOgnl,
                    t1, out1, t2, out2, t3, out3);
    StressTestIs(passes, n, ognlFlags, mvelFlags, threadMax, t0, t1, t2, og, mv);
  }

  lemma StressTestIs(passes: (nat, bv32, nat) -> Gains, n: nat, ognlFlags: bv32, mvelFlags: bv32, threadMax: int,
                     t: nat, t1: nat, t2: nat, og: Gains, mv: Gains)
    requires t1 == t + 1 && og == passes(n, ognlFlags, t1)
    requires t2 == t1 + og.ticks && mv == passes(n, mvelFlags, t2)
    ensures StressTest(passes, n, ognlFlags, mvelFlags, threadMax, t) == Totals(n, threadMax, og, mv)
  {
  }

  /**
   * A fresh object with the given flags and `silent`, run by `n` threads
   * (lines 106-121 and 125-140); its two totals afterwards.
   */
  method FreshPasses(n: nat, testFlags: bv32, silent: bool, engines: Engines, jvm: Jvm) returns (ognlTotal: int, mvelTotal: int)
    modifies jvm
    ensures Accounted(PassRunner(silent, Catalog, engines, jvm.clock)(n, testFlags, old(jvm.ticks)),
                      0, 0, old(jvm.ticks), old(jvm.out), ognlTotal, mvelTotal, jvm.ticks, jvm.out)
  {
    var tests := new ELComparisons();
    tests.SetTestFlags(testFlags);
    tests.SetSilent(silent);
    RunThreads(tests, n, engines, jvm);
    ognlTotal := tests.GetOgnlTotal();
    mvelTotal := tests.GetMvelTotal();
  }

  /** `n` threads over the same object, each run() directly on the calling thread. */
  method RunThreads(obj: ELComparisons, n: nat, engines: Engines, jvm: Jvm)
    modifies obj`ognlTotal, obj`mvelTotal, jvm
    ensures Accounted(Passes(n, obj.testFlags, obj.silent, obj.tests, engines, jvm.clock, old(jvm.ticks)),
                      old(obj.ognlTotal), old(obj.mvelTotal), old(jvm.ticks), old(jvm.out),
                      obj.ognlTotal, obj.mvelTotal, jvm.ticks, jvm.out)
  {
    ghost var pass := CatalogRunner(obj.testFlags, obj.silent, obj.tests, engines, jvm.clock);
    ghost var o0, m0, t0, out0 := obj.ognlTotal, obj.mvelTotal, jvm.ticks, jvm.out;
    for i := 0 to n
      invariant Accounted(Repeat(pass, i, t0), o0, m0, t0, out0, obj.ognlTotal, obj.mvelTotal, jvm.ticks, jvm.out)
    {
      ghost var o1, m1, t1, out1 := obj.ognlTotal, obj.mvelTotal, jvm.ticks, jvm.out;
      obj.Run(engines, jvm);
      assert pass(t1) == CatalogPass(obj.testFlags, obj.silent, obj.tests, engines, jvm.clock, t1);
      RepeatStep(pass, i, o0, m0, t0, out0, o1, m1, t1, out1, obj.ognlTotal, obj.mvelTotal, jvm.ticks, jvm.out);
    }
  }

  /** The sweep kept in (records, failure) and the JVM's readings and lines is `s` from (t0, out0). */
  ghost predicate Recorded(s: Sweep, records: seq<SweepRecord>, failure: Option<Failure>, t0: nat, out0: seq<Report>,
                           t1: nat, out1: seq<Report>)
  {
    s.records == records && s.failure == failure && t1 == t0 + s.ticks && out1 == out0 + s.reports
  }

  /** One more run() extends n runs to n + 1. */
  lemma RepeatStep(pass: nat -> Gains, k: nat,
                   o0: int, m0: int, t0: nat, out0: seq<Report>, o1: int, m1: int, t1: nat, out1: seq<Report>,
                   o2: int, m2: int, t2: nat, out2: seq<Report>)
    requires Accounted(Repeat(pass, k, t0), o0, m0, t0, out0, o1, m1, t1, out1)
    requires Accounted(pass(t1), o1, m1, t1, out1, o2, m2, t2, out2)
    ensures Accounted(Repeat(pass, k + 1, t0), o0, m0, t0, out0, o2, m2, t2, out2)
  {
    ThenAccounted(Repeat(pass, k, t0), pass(t1), o0, m0, t0, out0, o1, m1, t1, out1, o2, m2, t2, out2);
  }

  /** The two fresh objects' gains and the two clock readings around them make up the step. */
  lemma StressAccounted(n: nat, threadMax: int, og: Gains, mv: Gains, ognlTotals: int, mvelTotals: int, m: int, o: int,
                        t1: nat, out1: seq<Report>, t2: nat, out2: seq<Report>, t3: nat, out3: seq<Report>)
    requires Accounted(og, 0, 0, t1, out1, ognlTotals, m, t2, out2)
    requires Accounted(mv, 0, 0, t2, out2, o, mvelTotals, t3, out3)
    ensures var s := Totals(n, threadMax, og, mv);
      && s.record == SweepRecord(n, threadMax, ognlTotals, mvelTotals, DivideHalfUp(mvelTotals, ognlTotals, 4))
      && t3 + 1 == t1 - 1 + s.ticks && out3 == out1 + s.reports
  {
    assert out1 + og.reports + mv.reports == out1 + (og.reports + mv.reports);
  }

  lemma StressorApplies(flags: bv32, silent: bool, threadMax: int, tests: seq<PerfTest>, engines: Engines,
                        clock: nat -> int, n: nat, u: nat)
    ensures Stressor(flags, silent, threadMax, tests, engines, clock)(n, u)
            == StressTest(PassRunner(silent, tests, engines, clock), n, flags + RUN_OGNL, flags + RUN_MVEL, threadMax, u)
  {
  }

  /** One more step extends the sweep of k steps, while no step has failed. */
  lemma SweepStep(stress: (nat, nat) -> Stress, k: nat, n: nat, t0: nat, out0: seq<Report>, records: seq<SweepRecord>,
                  t1: nat, out1: seq<Report>, rec: SweepRecord, t2: nat, out2: seq<Report>)
    requires n == ThreadCount(k)
    requires Recorded(SweepSteps(stress, k, t0), records, None, t0, out0, t1, out1)
    requires var s := stress(n, t1); rec == s.record && t2 == t1 + s.ticks && out2 == out1 + s.reports
    ensures Recorded(SweepSteps(stress, k + 1, t0), records + [rec], if rec.ratio.None? then Some(DivisionByZero) else None,
                     t0, out0, t2, out2)
  {
    var before := SweepSteps(stress, k, t0);
    assert out0 + before.reports + stress(ThreadCount(k), t1).reports == out0 + (before.reports + stress(ThreadCount(k), t1).reports);
  }

  /** After a failed step, later steps change nothing: main has already thrown. */
  lemma {:induction false} FailedSweepStops(stress: (nat, nat) -> Stress, k: nat, j: nat, t: nat)
    requires k <= j
    requires SweepSteps(stress, k, t).failure.Some?
    ensures SweepSteps(stress, j, t) == SweepSteps(stress, k, t)
    decreases j - k
  {
    if k < j {
      FailedSweepStops(stress, k, j - 1, t);
    }
  }

  /** What line 151 prints for a step with `n` threads: its thread count, threadMax, and the ratio of its two totals. */
  predicate RecordOf(r: SweepRecord, n: nat, threadMax: int)
  {
    r.threads == n && r.threadMax == threadMax && r.ratio == DivideHalfUp(r.mvelTotals, r.ognlTotals, 4)
  }

  /**
   * The sweep runs all k steps unless a ratio is undefined, and then that step
   * is its last: every record before the last has a ratio.
   */
  lemma {:induction false} SweepStops(stress: (nat, nat) -> Stress, k: nat, t: nat)
    ensures var s := SweepSteps(stress, k, t);
      && |s.records| <= k
      && (forall i :: 0 <= i < |s.records| - 1 ==> s.records[i].ratio.Some?)
      && (s.failure.None? ==> |s.records| == k && forall i :: 0 <= i < |s.records| ==> s.records[i].ratio.Some?)
      && (s.failure.Some? ==> s.failure == Some(DivisionByZero) && |s.records| > 0 && s.records[|s.records| - 1].ratio.None?)
  {
    if k > 0 {
      SweepStops(stress, k - 1, t);
    }
  }

  /** Record i of the sweep is step i, run with ThreadCount(i) threads from the reading where the first i steps left off. */
  lemma {:induction false} SweepRecordAt(stress: (nat, nat) -> Stress, k: nat, t: nat, i: nat)
    requires i < |SweepSteps(stress, k, t).records|
    ensures SweepSteps(stress, k, t).records[i] == stress(ThreadCount(i), t + SweepSteps(stress, i, t).ticks).record
  {
    var before := SweepSteps(stress, k - 1, t);
    if before.failure.None? {
      SweepStops(stress, k - 1, t);
    }
    if i < |before.records| {
      SweepRecordAt(stress, k - 1, t, i);
    }
  }

  /** A step of the sweep records its own thread count and threadMax, and the ratio of its totals. */
  lemma StressorRecords(flags: bv32, silent: bool, threadMax: int, tests: seq<PerfTest>, engines: Engines,
                        clock: nat -> int, n: nat, u: nat)
    ensures RecordOf(Stressor(flags, silent, threadMax, tests, engines, clock)(n, u).record, n, threadMax)
  {
    StressorApplies(flags, silent, threadMax, tests, engines, clock, n, u);
  }

  /**
   * With `-threaded`, main prints up to twenty records for 1, 6, ..., 96 threads;
   * it finishes all twenty exactly when no OGNL total is 0, and otherwise stops
   * with an ArithmeticException after the first record whose OGNL total is 0.
   */
  lemma MainSweep(args: seq<string>, parseInt: string -> Option<int>, tests: seq<PerfTest>, engines: Engines,
                  clock: nat -> int, t: nat, o: Options)
    requires ParseSpec(args, parseInt) == Ok(o) && o.multithreaded
    ensures var m := MainSpec(args, parseInt, tests, engines, clock, t);
      && |m.records| <= SWEEP_STEPS
      && (forall i :: 0 <= i < |m.records| ==> m.records[i].threads == ThreadCount(i) && m.records[i].threadMax == o.threadMax)
      && (forall i :: 0 <= i < |m.records| - 1 ==> m.records[i].ognlTotals != 0)
      && (m.failure.None? <==> forall i :: 0 <= i < |m.records| ==> m.records[i].ognlTotals != 0)
      && (m.failure.None? ==> |m.records| == SWEEP_STEPS)
      && (m.failure.Some? ==> m.failure == Some(DivisionByZero) && m.records[|m.records| - 1].ognlTotals == 0)
  {
    var stress := Stressor(ModeOf(o), o.silent, o.threadMax, tests, engines, clock);
    var s := SweepSteps(stress, SWEEP_STEPS, t);
    SweepStops(stress, SWEEP_STEPS, t);
    forall i | 0 <= i < |s.records|
      ensures RecordOf(s.records[i], ThreadCount(i), o.threadMax)
    {
      SweepRecordAt(stress, SWEEP_STEPS, t, i);
      StressorRecords(ModeOf(o), o.silent, o.threadMax, tests, engines, clock, ThreadCount(i), t + SweepSteps(stress, i, t).ticks);
    }
  }

  /** Without `-threaded` among the arguments, main parses them and runs no sweep at all. */
  lemma MainWithoutThreaded(args: seq<string>, parseInt: string -> Option<int>, tests: seq<PerfTest>, engines: Engines,
                            clock: nat -> int, t: nat)
    requires "-threaded" !in args
    ensures MainSpec(args, parseInt, tests, engines, clock, t) == Sweep([], None, 0, [])
  {
    NoThreadedOptions(args, parseInt);
  }

  /**
   * `-threaded` as the last argument: main throws before any step, reading no
   * clock and printing nothing; the exception is that of line 84 when no
   * earlier `-threaded` is reached.
   */
  lemma MainMissingThreadCount(args: seq<string>, parseInt: string -> Option<int>, tests: seq<PerfTest>, engines: Engines,
                               clock: nat -> int, t: nat)
    requires |args| > 0 && args[|args| - 1] == "-threaded" && parseInt("-threaded").None?
    ensures var m := MainSpec(args, parseInt, tests, engines, clock, t);
      m.records == [] && m.ticks == 0 && m.reports == []
      && m.failure.Some? && (m.failure.value.MissingThreadCount? || m.failure.value.BadThreadCount?)
    ensures "-threaded" !in args[..|args| - 1] ==>
      MainSpec(args, parseInt, tests, engines, clock, t) == Sweep([], Some(MissingThreadCount), 0, [])
  {
    MissingThreadCountFails(args, parseInt);
  }

  /** Without the compiled mode the OGNL object adds nothing, so every step's OGNL total is 0. */
  lemma StressorWithoutCompiled(o: Options, tests: seq<PerfTest>, engines: Engines, clock: nat -> int, n: nat, u: nat)
    requires !o.compiled
    ensures Stressor(ModeOf(o), o.silent, o.threadMax, tests, engines, clock)(n, u).record.ognlTotals == 0
  {
    var flags := ModeOf(o);
    StressorApplies(flags, o.silent, o.threadMax, tests, engines, clock, n, u);
    ComposedFlags(o.compiled, o.interpreted, RUN_OGNL);
    PassesAddsNothing(n, flags + RUN_OGNL, o.silent, tests, engines, clock, u + 1, Ognl);
  }

  /**
   * `-threaded` with `-nocompiled`: the interpreted OGNL path never runs, so the
   * first step's ratio divides by zero and main throws after one record.
   */
  lemma MainWithoutCompiled(args: seq<string>, parseInt: string -> Option<int>, tests: seq<PerfTest>, engines: Engines,
                            clock: nat -> int, t: nat, o: Options)
    requires ParseSpec(args, parseInt) == Ok(o) && o.multithreaded && !o.compiled
    ensures var m := MainSpec(args, parseInt, tests, engines, clock, t);
      && |m.records| == 1 && m.failure == Some(DivisionByZero)
      && m.records[0].threads == 1 && m.records[0].ognlTotals == 0 && m.records[0].ratio.None?
  {
    var stress := Stressor(ModeOf(o), o.silent, o.threadMax, tests, engines, clock);
    StressorWithoutCompiled(o, tests, engines, clock, ThreadCount(0), t);
    StressorRecords(ModeOf(o), o.silent, o.threadMax, tests, engines, clock, ThreadCount(0), t);
    assert SweepSteps(stress, 1, t).failure.Some?;
    FailedSweepStops(stress, 1, SWEEP_STEPS, t);
  }

  /** On a clock with a fixed latency, n runs of a fresh object total n times one run(). */
  lemma PassRunnerUnderFixedLatency(silent: bool, tests: seq<PerfTest>, engines: Engines, clock: nat -> int, step: int)
    requires FixedLatency(clock, step)
    ensures forall n: nat, flags: bv32, u: nat ::
      && PassRunner(silent, tests, engines, clock)(n, flags, u).ognl == n * CatalogPass(flags, silent, tests, engines, clock, 0).ognl
      && PassRunner(silent, tests, engines, clock)(n, flags, u).mvel == n * CatalogPass(flags, silent, tests, engines, clock, 0).mvel
  {
    forall n: nat, flags: bv32, u: nat
      ensures PassRunner(silent, tests, engines, clock)(n, flags, u).ognl == n * CatalogPass(flags, silent, tests, engines, clock, 0).ognl
      ensures PassRunner(silent, tests, engines, clock)(n, flags, u).mvel == n * CatalogPass(flags, silent, tests, engines, clock, 0).mvel
    {
      PassesUnderFixedLatency(n, flags, silent, tests, engines, clock, step, u);
    }
  }

  /**
   * When n runs of either object total n times a fixed amount, a step with n
   * threads shows those totals and, for n > 0, a ratio that does not depend on n.
   */
  lemma StressScaled(passes: (nat, bv32, nat) -> Gains, n: nat, ognlFlags: bv32, mvelFlags: bv32, threadMax: int, t: nat,
                     a: int, b: int)
    requires forall u: nat :: passes(n, ognlFlags, u).ognl == n * a && passes(n, mvelFlags, u).mvel == n * b
    ensures var r := StressTest(passes, n, ognlFlags, mvelFlags, threadMax, t).record;
      r.ognlTotals == n * a && r.mvelTotals == n * b && (n > 0 ==> r.ratio == DivideHalfUp(b, a, 4))
  {
    if n > 0 {
      DivideHalfUpScaled(n, b, a, 4);
    }
  }

  /**
   * When every step with at least one thread has the same ratio q, all records
   * show q, and the sweep either runs every step (q defined) or stops after the first.
   */
  lemma {:induction false} SweepConstantRatio(stress: (nat, nat) -> Stress, k: nat, t: nat, q: Option<int>)
    requires forall n: nat, u: nat :: n > 0 ==> stress(n, u).record.ratio == q
    ensures var s := SweepSteps(stress, k, t);
      && (forall i :: 0 <= i < |s.records| ==> s.records[i].ratio == q)
      && (q.Some? ==> |s.records| == k && s.failure.None?)
      && (q.None? && k > 0 ==> |s.records| == 1 && s.failure == Some(DivisionByZero))
  {
    if k > 0 {
      SweepConstantRatio(stress, k - 1, t, q);
      assert ThreadCount(k - 1) > 0;
    }
  }

  /**
   * On a clock with a fixed latency, the sweep prints one ratio q for every
   * thread count, totals that grow linearly with the thread count, and either
   * all twenty records (q defined) or just the first (q undefined).
   */
  lemma MainUnderFixedLatency(args: seq<string>, parseInt: string -> Option<int>, tests: seq<PerfTest>, engines: Engines,
                              clock: nat -> int, step: int, t: nat, o: Options)
    requires ParseSpec(args, parseInt) == Ok(o) && o.multithreaded
    requires FixedLatency(clock, step)
    ensures var m := MainSpec(args, parseInt, tests, engines, clock, t);
      var og1 := CatalogPass(ModeOf(o) + RUN_OGNL, o.silent, tests, engines, clock, 0);
      var mv1 := CatalogPass(ModeOf(o) + RUN_MVEL, o.silent, tests, engines, clock, 0);
      var q := DivideHalfUp(mv1.mvel, og1.ognl, 4);
      && (forall i :: 0 <= i < |m.records| ==>
            m.records[i].ognlTotals == ThreadCount(i) * og1.ognl && m.records[i].mvelTotals == ThreadCount(i) * mv1.mvel
            && m.records[i].ratio == q)
      && (q.Some? ==> |m.records| == SWEEP_STEPS && m.failure.None?)
      && (q.None? ==> |m.records| == 1 && m.failure == Some(DivisionByZero))
  {
    var flags := ModeOf(o);
    var stress := Stressor(flags, o.silent, o.threadMax, tests, engines, clock);
    var passes := PassRunner(o.silent, tests, engines, clock);
    var s := SweepSteps(stress, SWEEP_STEPS, t);
    var a := CatalogPass(flags + RUN_OGNL, o.silent, tests, engines, clock, 0).ognl;
    var b := CatalogPass(flags + RUN_MVEL, o.silent, tests, engines, clock, 0).mvel;
    var q := DivideHalfUp(b, a, 4);
    PassRunnerUnderFixedLatency(o.silent, tests, engines, clock, step);
    forall n: nat, u: nat
      ensures stress(n, u).record.ognlTotals == n * a && stress(n, u).record.mvelTotals == n * b
      ensures n > 0 ==> stress(n, u).record.ratio == q
    {
      StressorApplies(flags, o.silent, o.threadMax, tests, engines, clock, n, u);
      StressScaled(passes, n, flags + RUN_OGNL, flags + RUN_MVEL, o.threadMax, u, a, b);
    }
    SweepConstantRatio(stress, SWEEP_STEPS, t, q);
    forall i | 0 <= i < |s.records|
      ensures s.records[i].ognlTotals == ThreadCount(i) * a && s.records[i].mvelTotals == ThreadCount(i) * b
    {
      SweepRecordAt(stress, SWEEP_STEPS, t, i);
    }
  }

  /** On a clock that never runs backwards, no run of a fresh object gains a negative amount. */
  lemma PassRunnerNonnegative(silent: bool, tests: seq<PerfTest>, engines: Engines, clock: nat -> int)
    requires Nondecreasing(clock)
    ensures forall n: nat, flags: bv32, u: nat :: Nonnegative(PassRunner(silent, tests, engines, clock)(n, flags, u))
  {
    forall n: nat, flags: bv32, u: nat
      ensures Nonnegative(PassRunner(silent, tests, engines, clock)(n, flags, u))
    {
      PassesNonnegative(n, flags, silent, tests, engines, clock, u);
    }
  }

  /** Nonnegative gains give a step nonnegative totals and, where defined, a nonnegative ratio. */
  lemma StressNonnegative(passes: (nat, bv32, nat) -> Gains, n: nat, ognlFlags: bv32, mvelFlags: bv32, threadMax: int, t: nat)
    requires forall u: nat :: Nonnegative(passes(n, ognlFlags, u)) && Nonnegative(passes(n, mvelFlags, u))
    ensures var r := StressTest(passes, n, ognlFlags, mvelFlags, threadMax, t).record;
      r.ognlTotals >= 0 && r.mvelTotals >= 0 && (r.ratio.Some? ==> r.ratio.value >= 0)
  {
    var og := passes(n, ognlFlags, t + 1);
    var mv := passes(n, mvelFlags, t + 1 + og.ticks);
    DivideHalfUpNonnegative(mv.mvel, og.ognl, 4);
  }

  /** On a clock that never runs backwards, the sweep records no negative total and no negative ratio. */
  lemma SweepNonnegative(o: Options, tests: seq<PerfTest>, engines: Engines, clock: nat -> int, t: nat)
    requires Nondecreasing(clock)
    ensures var s := SweepSteps(Stressor(ModeOf(o), o.silent, o.threadMax, tests, engines, clock), SWEEP_STEPS, t);
      forall i :: 0 <= i < |s.records| ==>
        s.records[i].ognlTotals >= 0 && s.records[i].mvelTotals >= 0
        && (s.records[i].ratio.Some? ==> s.records[i].ratio.value >= 0)
  {
    var flags := ModeOf(o);
    var stress := Stressor(flags, o.silent, o.threadMax, tests, engines, clock);
    var passes := PassRunner(o.silent, tests, engines, clock);
    var s := SweepSteps(stress, SWEEP_STEPS, t);
    PassRunnerNonnegative(o.silent, tests, engines, clock);
    forall n: nat, u: nat
      ensures stress(n, u).record.ognlTotals >= 0 && stress(n, u).record.mvelTotals >= 0
      ensures stress(n, u).record.ratio.Some? ==> stress(n, u).record.ratio.value >= 0
    {
      StressorApplies(flags, o.silent, o.threadMax, tests, engines, clock, n, u);
      StressNonnegative(passes, n, flags + RUN_OGNL, flags + RUN_MVEL, o.threadMax, u);
    }
    forall i | 0 <= i < |s.records|
      ensures s.records[i].ognlTotals >= 0 && s.records[i].mvelTotals >= 0
      ensures s.records[i].ratio.Some? ==> s.records[i].ratio.value >= 0
    {
      SweepRecordAt(stress, SWEEP_STEPS, t, i);
    }
  }

  /** On a clock that never runs backwards, main prints no negative total and no negative ratio. */
  lemma MainNonnegative(args: seq<string>, parseInt: string -> Option<int>, tests: seq<PerfTest>, engines: Engines,
                        clock: nat -> int, t: nat)
    requires Nondecreasing(clock)
    ensures var m := MainSpec(args, parseInt, tests, engines, clock, t);
      forall i :: 0 <= i < |m.records| ==>
        m.records[i].ognlTotals >= 0 && m.records[i].mvelTotals >= 0
        && (m.records[i].ratio.Some? ==> m.records[i].ratio.value >= 0)
  {
    var r := ParseSpec(args, parseInt);
    if r.Ok? && r.value.multithreaded {
      var o := r.value;
      SweepNonnegative(o, tests, engines, clock, t);
      assert MainSpec(args, parseInt, tests, engines, clock, t)
          == SweepSteps(Stressor(ModeOf(o), o.silent, o.threadMax, tests, engines, clock), SWEEP_STEPS, t);
    }
  }

}
