/**
 * ELComparisons as an object: its two accumulators, its flags and its
 * `silent` switch, and the methods runTest, runTestCompiled and run that
 * update them.  The JVM's clock and console are the `Jvm` object; each engine
 * call is reduced to the `Outcome` the engine has for that test and mode.
 */
module Runner {
  import opened Wrappers
  import opened Flags
  import opened Samples
  import opened Format
  import opened Trials

  const TESTNUM: nat := 50000

  datatype Engine = Ognl | Mvel
  datatype Mode = Interpreted | Compiled

  /** A catalog entry: its name, its expression and the engines it applies to. */
  datatype PerfTest = PerfTest(name: string, expression: string, runFlags: bv32)

  /** How each engine behaves on each test in each mode. */
  type Engines = (Engine, Mode, PerfTest) -> Outcome

  /** The catalog built by the static initializer (line 48; the other entries are commented out). */
  const Catalog: seq<PerfTest> := [PerfTest("Collection Access + Method Call", "funMap['foo'].happy()", ALL)]

  /** What some work adds to the two accumulators, how many clock readings it
      takes and the report lines it prints. */
  datatype Gains = Gains(ognl: int, mvel: int, ticks: nat, reports: seq<Report>)

  function NoGains(): Gains { Gains(0, 0, 0, []) }

  function Then(a: Gains, b: Gains): Gains
  {
    Gains(a.ognl + b.ognl, a.mvel + b.mvel, a.ticks + b.ticks, a.reports + b.reports)
  }

  function Emitted(r: Option<Report>): seq<Report>
  {
    if r.Some? then [r.value] else []
  }

  /** One engine path behind its gate: a closed gate runs nothing and adds 0. */
  function EnginePath(e: Engine, gate: bool, o: Outcome, count: nat, silent: bool, clock: nat -> int, t: nat): Gains
  {
    if !gate then NoGains()
    else
      var p := Path(o, count, silent, clock, t);
      Gains(if e == Ognl then p.total else 0, if e == Mvel then p.total else 0, p.ticks, Emitted(p.report))
  }

  /** One gated engine path of runTest or runTestCompiled: the engine, whether its gate is open, what the engine does. */
  datatype Stage = Stage(engine: Engine, gate: bool, outcome: Outcome)

  /** Stage s run for `count` calls, started at reading u. */
  function StageRunner(count: nat, silent: bool, clock: nat -> int): (Stage, nat) -> Gains
  {
    (s: Stage, u: nat) => EnginePath(s.engine, s.gate, s.outcome, count, silent, clock, u)
  }

  /** The interpreted OGNL gate of line 191, which tests the local `total`, still 0 there. */
  predicate InterpretedOgnlGate(testFlags: bv32)
  {
    Has(testFlags, RUN_OGNL) && LongHas(0, RUN_OGNL)
  }

  /** The stages of runTest's interpreted block (lines 181-265): none unless INTERPRETED is set. */
  function InterpretedStages(testFlags: bv32, test: PerfTest, engines: Engines): seq<Stage>
  {
    if !Has(testFlags, INTERPRETED) then []
    else [Stage(Ognl, InterpretedOgnlGate(testFlags), engines(Ognl, Interpreted, test)),
          Stage(Mvel, Has(testFlags, RUN_MVEL) && Has(test.runFlags, RUN_MVEL), engines(Mvel, Interpreted, test))]
  }

  /** The stages of runTestCompiled (lines 275-362): `compiledOgnl`/`compiledMvel` stand for the handles. */
  function CompiledStages(testFlags: bv32, compiledOgnl: Outcome, compiledMvel: Outcome, totest: bv32): seq<Stage>
  {
    [Stage(Ognl, Has(testFlags, RUN_OGNL) && Has(totest, RUN_OGNL), compiledOgnl),
     Stage(Mvel, Has(testFlags, RUN_MVEL) && Has(totest, RUN_MVEL), compiledMvel)]
  }

  /** What runTest does after its interpreted block: runTestCompiled in compiled mode (lines 267-269). */
  function CompiledPart(testFlags: bv32, test: PerfTest, engines: Engines): seq<Stage>
  {
    if Has(testFlags, COMPILED)
    then CompiledStages(testFlags, engines(Ognl, Compiled, test), engines(Mvel, Compiled, test), test.runFlags)
    else []
  }

  function InterpretedRun(testFlags: bv32, silent: bool, test: PerfTest, engines: Engines, count: nat,
                          clock: nat -> int, t: nat): Gains
  {
    Chain(StageRunner(count, silent, clock), InterpretedStages(testFlags, test, engines), t)
  }

  function CompiledRun(testFlags: bv32, silent: bool, compiledOgnl: Outcome, compiledMvel: Outcome, count: nat,
                       totest: bv32, clock: nat -> int, t: nat): Gains
  {
    Chain(StageRunner(count, silent, clock), CompiledStages(testFlags, compiledOgnl, compiledMvel, totest), t)
  }

  /** runTest's schedule: the interpreted stages, then the compiled ones, each stage's effect given by `run`. */
  function TestSchedule(run: (Stage, nat) -> Gains, testFlags: bv32, test: PerfTest, engines: Engines, t: nat): Gains
  {
    var i := Chain(run, InterpretedStages(testFlags, test, engines), t);
    Then(i, Chain(run, CompiledPart(testFlags, test, engines), t + i.ticks))
  }

  /** runTest (lines 170-273). */
  function TestRun(testFlags: bv32, silent: bool, test: PerfTest, engines: Engines, count: nat,
                   clock: nat -> int, t: nat): Gains
  {
    TestSchedule(StageRunner(count, silent, clock), testFlags, test, engines, t)
  }

  /** `run` on each of `xs` in turn, each run starting at the reading where the previous one stopped. */
  function Chain<T>(run: (T, nat) -> Gains, xs: seq<T>, t: nat): Gains
  {
    if |xs| == 0 then NoGains()
    else
      var before := Chain(run, xs[..|xs| - 1], t);
      Then(before, run(xs[|xs| - 1], t + before.ticks))
  }

  /** `pass` n times in a row, each starting at the reading where the previous one stopped. */
  function Repeat(pass: nat -> Gains, n: nat, t: nat): Gains
  {
    if n == 0 then NoGains()
    else
      var before := Repeat(pass, n - 1, t);
      Then(before, pass(t + before.ticks))
  }

  /** runTest(test, TESTNUM) started at reading u, for each test and u. */
  function TestRunner(testFlags: bv32, silent: bool, engines: Engines, clock: nat -> int): (PerfTest, nat) -> Gains
  {
    (test: PerfTest, u: nat) => TestRun(testFlags, silent, test, engines, TESTNUM, clock, u)
  }

  /** run() (lines 159-168) over the tests of a catalog, in catalog order. */
  function CatalogPass(testFlags: bv32, silent: bool, tests: seq<PerfTest>, engines: Engines,
                       clock: nat -> int, t: nat): Gains
  {
    Chain(TestRunner(testFlags, silent, engines, clock), tests, t)
  }

  /** run() over the catalog started at reading u, for each u. */
  function CatalogRunner(testFlags: bv32, silent: bool, tests: seq<PerfTest>, engines: Engines, clock: nat -> int): nat -> Gains
  {
    (u: nat) => CatalogPass(testFlags, silent, tests, engines, clock, u)
  }

  /** n calls of run() one after the other on the same object. */
  function Passes(n: nat, testFlags: bv32, silent: bool, tests: seq<PerfTest>, engines: Engines, clock: nat -> int, t: nat): Gains
  {
    Repeat(CatalogRunner(testFlags, silent, tests, engines, clock), n, t)
  }

  /** The JVM around the benchmark: `currentTimeMillis` and the console. */
  class Jvm {
    /** The successive readings of the clock. */
    const clock: nat -> int
    /** How many readings have been taken. */
    var ticks: nat
    /** The report lines printed so far. */
    var out: seq<Report>

    constructor (clock: nat -> int)
      ensures this.clock == clock && ticks == 0 && out == []
    {
      this.clock := clock;
      ticks := 0;
      out := [];
    }

    method CurrentTimeMillis() returns (now: int)
      modifies this`ticks
      ensures now == clock(old(ticks)) && ticks == old(ticks) + 1
    {
      now := clock(ticks);
      ticks := ticks + 1;
    }

    method Println(r: Report)
      modifies this`out
      ensures out == old(out) + [r]
    {
      out := out + [r];
    }
  }

  class ELComparisons {
    var ognlTotal: int
    var mvelTotal: int
    var testFlags: bv32
    var silent: bool
    /** The static `tests` list, as the static initializer leaves it. */
    const tests: seq<PerfTest>

    constructor ()
      ensures ognlTotal == 0 && mvelTotal == 0 && testFlags == 0 && !silent && tests == Catalog
    {
      tests := Catalog;
      ognlTotal := 0;
      mvelTotal := 0;
      testFlags := 0;
      silent := false;
    }

    method SetTestFlags(testFlags: bv32)
      modifies this`testFlags
      ensures this.testFlags == testFlags
    {
      this.testFlags := testFlags;
    }

    method GetOgnlTotal() returns (r: int)
      ensures r == ognlTotal
    {
      r := ognlTotal;
    }

    method SetOgnlTotal(ognlTotal: int)
      modifies this`ognlTotal
      ensures this.ognlTotal == ognlTotal
    {
      this.ognlTotal := ognlTotal;
    }

    method GetMvelTotal() returns (r: int)
      ensures r == mvelTotal
    {
      r := mvelTotal;
    }

    method SetMvelTotal(mvelTotal: int)
      modifies this`mvelTotal
      ensures this.mvelTotal == mvelTotal
    {
      this.mvelTotal := mvelTotal;
    }

    method IsSilent() returns (r: bool)
      ensures r == silent
    {
      r := silent;
    }

    method SetSilent(silent: bool)
      modifies this`silent
      ensures this.silent == silent
    {
      this.silent := silent;
    }

    /** run(): one pass over the catalog. */
    method Run(engines: Engines, jvm: Jvm)
      modifies this`ognlTotal, this`mvelTotal, jvm
      ensures Accounted(CatalogPass(old(testFlags), old(silent), tests, engines, jvm.clock, old(jvm.ticks)),
                        old(ognlTotal), old(mvelTotal), old(jvm.ticks), old(jvm.out), ognlTotal, mvelTotal, jvm.ticks, jvm.out)
    {
      ghost var run := TestRunner(testFlags, silent, engines, jvm.clock);
      ghost var tf, sl := testFlags, silent;
      ghost var o0, m0, t0, out0 := ognlTotal, mvelTotal, jvm.ticks, jvm.out;
      for k := 0 to |tests|
        invariant tf == testFlags && sl == silent
        invariant Accounted(Chain(run, tests[..k], t0), o0, m0, t0, out0, ognlTotal, mvelTotal, jvm.ticks, jvm.out)
      {
        ghost var o1, m1, t1, out1 := ognlTotal, mvelTotal, jvm.ticks, jvm.out;
        RunTest(tests[k], TESTNUM, engines, jvm);
        assert run(tests[k], t1) == TestRun(tf, sl, tests[k], engines, TESTNUM, jvm.clock, t1);
        ChainStep(run, tests, k, o0, m0, t0, out0, o1, m1, t1, out1, ognlTotal, mvelTotal, jvm.ticks, jvm.out);
      }
      assert tests[..|tests|] == tests;
    }

    /** runTest: the interpreted gates and accumulation, then runTestCompiled. */
    method RunTest(test: PerfTest, count: nat, engines: Engines, jvm: Jvm)
      modifies this`ognlTotal, this`mvelTotal, jvm
      ensures Accounted(TestRun(old(testFlags), old(silent), test, engines, count, jvm.clock, old(jvm.ticks)),
                        old(ognlTotal), old(mvelTotal), old(jvm.ticks), old(jvm.out), ognlTotal, mvelTotal, jvm.ticks, jvm.out)
    {
      var exFlags := test.runFlags;
      ghost var run := StageRunner(count, silent, jvm.clock);
      ghost var tf, sl := testFlags, silent;
      ghost var s0 := (ognlTotal, mvelTotal, jvm.ticks, jvm.out);
      RunTestInterpreted(test, count, engines, jvm);
      ghost var s1 := (ognlTotal, mvelTotal, jvm.ticks, jvm.out);
      if Has(testFlags, COMPILED) {
        RunTestCompiled(test.name, engines(Ognl, Compiled, test), engines(Mvel, Compiled, test), count, exFlags, jvm);
      } else {
        assert jvm.out + [] == jvm.out;
      }
      ScheduleAccounted(run, tf, test, engines,
                        s0.0, s0.1, s0.2, s0.3, s1.0, s1.1, s1.2, s1.3, ognlTotal, mvelTotal, jvm.ticks, jvm.out);
    }

    /** The interpreted block of runTest (lines 181-265). */
    method RunTestInterpreted(test: PerfTest, count: nat, engines: Engines, jvm: Jvm)
      modifies this`ognlTotal, this`mvelTotal, jvm
      ensures Accounted(InterpretedRun(testFlags, silent, test, engines, count, jvm.clock, old(jvm.ticks)),
                        old(ognlTotal), old(mvelTotal), old(jvm.ticks), old(jvm.out), ognlTotal, mvelTotal, jvm.ticks, jvm.out)
    {
      if Has(testFlags, INTERPRETED) {
        ghost var run := StageRunner(count, silent, jvm.clock);
        ghost var s0 := (ognlTotal, mvelTotal, jvm.ticks, jvm.out);
        var total: bv64 := 0;
        var res := new int[TESTITER];
        // the OGNL gate tests the local `long total` (still 0), not the test's flags
        GatedPath(Ognl, Has(testFlags, RUN_OGNL) && LongHas(total, RUN_OGNL), engines(Ognl, Interpreted, test), count, res, jvm);
        ghost var s1 := (ognlTotal, mvelTotal, jvm.ticks, jvm.out);
        GatedPath(Mvel, Has(testFlags, RUN_MVEL) && Has(test.runFlags, RUN_MVEL), engines(Mvel, Interpreted, test), count, res, jvm);
        ghost var stages := InterpretedStages(testFlags, test, engines);
        PairAccounted(run, stages[0], stages[1], s0.0, s0.1, s0.2, s0.3, s1.0, s1.1, s1.2, s1.3, ognlTotal, mvelTotal, jvm.ticks, jvm.out);
        assert [stages[0], stages[1]] == stages;
      } else {
        assert jvm.out + [] == jvm.out;
      }
    }

    /** runTestCompiled: the compiled gates and accumulation. */
    method RunTestCompiled(name: string, compiledOgnl: Outcome, compiledMvel: Outcome, count: nat, totest: bv32, jvm: Jvm)
      modifies this`ognlTotal, this`mvelTotal, jvm
      ensures Accounted(CompiledRun(testFlags, silent, compiledOgnl, compiledMvel, count, totest, jvm.clock, old(jvm.ticks)),
                        old(ognlTotal), old(mvelTotal), old(jvm.ticks), old(jvm.out), ognlTotal, mvelTotal, jvm.ticks, jvm.out)
    {
      ghost var run := StageRunner(count, silent, jvm.clock);
      ghost var s0 := (ognlTotal, mvelTotal, jvm.ticks, jvm.out);
      var res := new int[TESTITER];
      GatedPath(Ognl, Has(testFlags, RUN_OGNL) && Has(totest, RUN_OGNL), compiledOgnl, count, res, jvm);
      ghost var s1 := (ognlTotal, mvelTotal, jvm.ticks, jvm.out);
      GatedPath(Mvel, Has(testFlags, RUN_MVEL) && Has(totest, RUN_MVEL), compiledMvel, count, res, jvm);
      ghost var stages := CompiledStages(testFlags, compiledOgnl, compiledMvel, totest);
      PairAccounted(run, stages[0], stages[1], s0.0, s0.1, s0.2, s0.3, s1.0, s1.1, s1.2, s1.3, ognlTotal, mvelTotal, jvm.ticks, jvm.out);
    }

    /**
     * One engine path behind its gate, and the addition of the path's `total`
     * (0 when the gate is closed) to that engine's accumulator.
     */
    method GatedPath(e: Engine, gate: bool, o: Outcome, count: nat, res: array<int>, jvm: Jvm)
      requires res.Length == TESTITER
      modifies this`ognlTotal, this`mvelTotal, res, jvm
      ensures Accounted(EnginePath(e, gate, o, count, silent, jvm.clock, old(jvm.ticks)),
                        old(ognlTotal), old(mvelTotal), old(jvm.ticks), old(jvm.out), ognlTotal, mvelTotal, jvm.ticks, jvm.out)
      ensures !gate ==> res[..] == old(res[..])
      ensures gate ==> var d := Path(o, count, silent, jvm.clock, old(jvm.ticks)).samples;
        res[..] == d + old(res[..])[|d|..]
    {
      var total := 0;
      if gate {
        total := MeasurePath(o, count, res, jvm);
      }
      if e == Ognl {
        ognlTotal := ognlTotal + total;
      } else {
        mvelTotal := mvelTotal + total;
      }
    }

    /**
     * One engine path: the try block with its warm-up and trial loops, and the
     * catch block that prints the failure line.  It returns the `total` the
     * path reached, including when the engine threw part-way.
     */
    method MeasurePath(o: Outcome, count: nat, res: array<int>, jvm: Jvm) returns (total: int)
      requires res.Length == TESTITER
      modifies res, jvm
      ensures var p := Path(o, count, silent, jvm.clock, old(jvm.ticks));
        && total == p.total
        && res[..] == p.samples + old(res[..])[|p.samples|..]
        && jvm.ticks == old(jvm.ticks) + p.ticks
        && jvm.out == old(jvm.out) + Emitted(p.report)
    {
      total := 0;
      var threw := true;
      // unbenched warm-up
      var warmed := Invoke(o, 0, count);
      if warmed {
        var time;
        PathWhenWarmed(o, count, silent, jvm.clock, jvm.ticks);
        total, time, threw := TimedReps(o, count, res, jvm);
        if !threw && !silent {
          assert res[..] == Path(o, count, silent, jvm.clock, old(jvm.ticks)).samples;
          var end := jvm.CurrentTimeMillis();
          jvm.Println(Measured(end - time, res[..]));
        }
      }
      if threw && !silent {
        jvm.Println(CouldNotExecute);
      }
    }
  }

  /** `count` engine calls numbered from `first`; false as soon as one throws. */
  method Invoke(o: Outcome, first: nat, count: nat) returns (ok: bool)
    ensures ok <==> (count == 0 || o.Completes? || first + count <= o.step)
  {
    for i := 0 to count
      invariant i == 0 || o.Completes? || first + i <= o.step
    {
      if !CallSucceeds(o, first + i) {
        return false;
      }
    }
    return true;
  }

  /** The store after rep `reps` (lines 208-209): one clock reading, and res[reps] gets the time of that rep alone. */
  method RecordRep(reps: nat, total: int, time: int, res: array<int>, jvm: Jvm, ghost t0: nat) returns (newTotal: int)
    requires reps < res.Length == TESTITER
    requires jvm.ticks == t0 + 1 + reps && time == jvm.clock(t0)
    requires total == if reps == 0 then 0 else jvm.clock(t0 + reps) - time
    modifies res, jvm`ticks
    ensures jvm.ticks == old(jvm.ticks) + 1
    ensures newTotal == jvm.clock(t0 + reps + 1) - time
    ensures res[..] == old(res[..])[reps := Deltas(Elapsed(jvm.clock, t0, TESTITER))[reps]]
  {
    var now := jvm.CurrentTimeMillis();
    newTotal := total;
    if reps == 0 {
      newTotal := newTotal + (now - time);
      res[0] := newTotal;
    } else {
      var negated := newTotal * -1;
      newTotal := newTotal + (now - time - newTotal);
      res[reps] := negated + newTotal;
    }
  }

  /**
   * The state of the reps loop after `reps` reps that did not throw: the next
   * call number, the readings taken, the running total and the res entries.
   */
  ghost predicate RepsState(o: Outcome, count: nat, clock: nat -> int, t0: nat, res0: seq<int>,
                            reps: nat, first: nat, ticks: nat, time: int, total: int, res: seq<int>)
  {
    && reps <= TESTITER && |res0| == TESTITER
    && first == RepStart(count, reps)
    && (o.ThrowsAt? ==> first <= o.step)
    && RepsFrom(o, count, reps) == RepsCompleted(o, count)
    && ticks == t0 + 1 + reps
    && time == clock(t0)
    && total == (if reps == 0 then 0 else clock(t0 + reps) - time)
    && res == Deltas(Elapsed(clock, t0, TESTITER))[..reps] + res0[reps..]
  }

  /** One turn of the reps loop (lines 203-209): `count` calls, then the store, unless a call throws. */
  method OneRep(o: Outcome, count: nat, reps: nat, first: nat, total: int, time: int, res: array<int>, jvm: Jvm,
                ghost t0: nat, ghost res0: seq<int>)
    returns (ok: bool, next: nat, newTotal: int)
    requires reps < TESTITER == res.Length
    requires RepsState(o, count, jvm.clock, t0, res0, reps, first, jvm.ticks, time, total, res[..])
    modifies res, jvm`ticks
    ensures ok ==> RepsState(o, count, jvm.clock, t0, res0, reps + 1, next, jvm.ticks, time, newTotal, res[..])
    ensures !ok ==> RepsCompleted(o, count) == reps && next == first && newTotal == total
                    && RepsState(o, count, jvm.clock, t0, res0, reps, first, jvm.ticks, time, total, res[..])
  {
    ok := Invoke(o, first, count);
    if !ok {
      return ok, first, total;
    }
    next := first + count;
    newTotal := RecordRep(reps, total, time, res, jvm, t0);
    FillStep(Deltas(Elapsed(jvm.clock, t0, TESTITER)), res0, reps);
  }

  /** The loop state after the last rep that ran, as TimedReps reports it. */
  lemma RepsResult(o: Outcome, count: nat, clock: nat -> int, t0: nat, res0: seq<int>,
                   k: nat, first: nat, ticks: nat, time: int, total: int, res: seq<int>)
    requires RepsState(o, count, clock, t0, res0, k, first, ticks, time, total, res)
    requires k == TESTITER || RepsCompleted(o, count) == k
    ensures RepsCompleted(o, count) == k
    ensures var e := Elapsed(clock, t0, k);
      && total == (if k == 0 then 0 else e[k - 1])
      && time == clock(t0)
      && res == Deltas(e) + res0[k..]
      && ticks == t0 + 1 + k
  {
    PathEntries(clock, t0, k);
  }

  /**
   * The baseline reading and the TESTITER timed reps after a warm-up that did
   * not throw: res[k] receives the time of rep k alone, `total` the time of
   * all reps so far, and `threw` says whether the engine threw in some rep.
   */
  method TimedReps(o: Outcome, count: nat, res: array<int>, jvm: Jvm) returns (total: int, time: int, threw: bool)
    requires res.Length == TESTITER && !WarmupFails(o, count)
    modifies res, jvm`ticks
    ensures var k := RepsCompleted(o, count);
      var e := Elapsed(jvm.clock, old(jvm.ticks), k);
      && threw == (k < TESTITER)
      && total == (if k == 0 then 0 else e[k - 1])
      && time == jvm.clock(old(jvm.ticks))
      && res[..] == Deltas(e) + old(res[..])[k..]
      && jvm.ticks == old(jvm.ticks) + 1 + k
  {
    ghost var t0 := jvm.ticks;
    ghost var res0 := res[..];
    time := jvm.CurrentTimeMillis();
    total := 0;
    var first := count;
    for reps := 0 to TESTITER
      invariant RepsState(o, count, jvm.clock, t0, res0, reps, first, jvm.ticks, time, total, res[..])
    {
      var ok;
      ok, first, total := OneRep(o, count, reps, first, total, time, res, jvm, t0, res0);
      if !ok {
        RepsResult(o, count, jvm.clock, t0, res0, reps, first, jvm.ticks, time, total, res[..]);
        return total, time, true;
      }
    }
    RepsResult(o, count, jvm.clock, t0, res0, TESTITER, first, jvm.ticks, time, total, res[..]);
    threw := false;
  }

  /** Two runs, one after the other, add up to the chain of the two. */
  lemma PairAccounted<T>(run: (T, nat) -> Gains, x: T, y: T,
                         o0: int, m0: int, t0: nat, out0: seq<Report>, o1: int, m1: int, t1: nat, out1: seq<Report>,
                         o2: int, m2: int, t2: nat, out2: seq<Report>)
    requires Accounted(run(x, t0), o0, m0, t0, out0, o1, m1, t1, out1)
    requires Accounted(run(y, t1), o1, m1, t1, out1, o2, m2, t2, out2)
    ensures Accounted(Chain(run, [x, y], t0), o0, m0, t0, out0, o2, m2, t2, out2)
  {
    assert Chain(run, [x], t0) == Then(NoGains(), run(x, t0)) by {
      assert [x][..0] == [];
    }
    ThenNoGains(run(x, t0));
    assert [x, y][..1] == [x];
    ThenAccounted(run(x, t0), run(y, t1), o0, m0, t0, out0, o1, m1, t1, out1, o2, m2, t2, out2);
  }

  /** The interpreted chain followed by the compiled chain accounts for the whole schedule. */
  lemma ScheduleAccounted(run: (Stage, nat) -> Gains, testFlags: bv32, test: PerfTest, engines: Engines,
                          o0: int, m0: int, t0: nat, out0: seq<Report>, o1: int, m1: int, t1: nat, out1: seq<Report>,
                          o2: int, m2: int, t2: nat, out2: seq<Report>)
    requires Accounted(Chain(run, InterpretedStages(testFlags, test, engines), t0), o0, m0, t0, out0, o1, m1, t1, out1)
    requires Accounted(Chain(run, CompiledPart(testFlags, test, engines), t1), o1, m1, t1, out1, o2, m2, t2, out2)
    ensures Accounted(TestSchedule(run, testFlags, test, engines, t0), o0, m0, t0, out0, o2, m2, t2, out2)
  {
    ThenAccounted(Chain(run, InterpretedStages(testFlags, test, engines), t0), Chain(run, CompiledPart(testFlags, test, engines), t1),
                  o0, m0, t0, out0, o1, m1, t1, out1, o2, m2, t2, out2);
  }

  /** One more element extends a chain of runs by that element's run. */
  lemma ChainStep<T>(run: (T, nat) -> Gains, xs: seq<T>, k: nat,
                     o0: int, m0: int, t0: nat, out0: seq<Report>, o1: int, m1: int, t1: nat, out1: seq<Report>,
                     o2: int, m2: int, t2: nat, out2: seq<Report>)
    requires k < |xs|
    requires Accounted(Chain(run, xs[..k], t0), o0, m0, t0, out0, o1, m1, t1, out1)
    requires Accounted(run(xs[k], t1), o1, m1, t1, out1, o2, m2, t2, out2)
    ensures Accounted(Chain(run, xs[..k + 1], t0), o0, m0, t0, out0, o2, m2, t2, out2)
  {
    assert xs[..k + 1][..k] == xs[..k];
    ThenAccounted(Chain(run, xs[..k], t0), run(xs[k], t1), o0, m0, t0, out0, o1, m1, t1, out1, o2, m2, t2, out2);
  }

  /** The state (o1, m1, t1, out1) is (o0, m0, t0, out0) with `g` added. */
  ghost predicate Accounted(g: Gains, o0: int, m0: int, t0: nat, out0: seq<Report>, o1: int, m1: int, t1: nat, out1: seq<Report>)
  {
    o1 == o0 + g.ognl && m1 == m0 + g.mvel && t1 == t0 + g.ticks && out1 == out0 + g.reports
  }

  lemma ThenAccounted(a: Gains, b: Gains, o0: int, m0: int, t0: nat, out0: seq<Report>,
                      o1: int, m1: int, t1: nat, out1: seq<Report>, o2: int, m2: int, t2: nat, out2: seq<Report>)
    requires Accounted(a, o0, m0, t0, out0, o1, m1, t1, out1)
    requires Accounted(b, o1, m1, t1, out1, o2, m2, t2, out2)
    ensures Accounted(Then(a, b), o0, m0, t0, out0, o2, m2, t2, out2)
  {
    assert out0 + a.reports + b.reports == out0 + (a.reports + b.reports);
  }

  /** Writing entry k of d after the first k extends the filled prefix by one. */
  lemma FillStep(d: seq<int>, res0: seq<int>, k: nat)
    requires k < |d| == |res0|
    ensures (d[..k] + res0[k..])[k := d[k]] == d[..k + 1] + res0[k + 1..]
  {
  }

  /** The first k increments over TESTITER readings are the increments over k readings. */
  lemma PathEntries(clock: nat -> int, t: nat, k: nat)
    requires k <= TESTITER
    ensures Deltas(Elapsed(clock, t, k)) == Deltas(Elapsed(clock, t, TESTITER))[..k]
  {
  }

  /** The engine bit a flag word uses to select engine e. */
  function EngineBit(e: Engine): bv32 { if e == Ognl then RUN_OGNL else RUN_MVEL }

  /** What some work adds to engine e's accumulator. */
  function Share(g: Gains, e: Engine): int { if e == Ognl then g.ognl else g.mvel }

  lemma ThenNoGains(g: Gains)
    ensures Then(NoGains(), g) == g
  {
    assert [] + g.reports == g.reports;
  }

  lemma ThenShare(a: Gains, b: Gains, e: Engine)
    ensures Share(Then(a, b), e) == Share(a, e) + Share(b, e)
  {
  }

  /** An engine path adds only to its own engine's accumulator, and nothing behind a closed gate. */
  lemma EnginePathShares(e: Engine, gate: bool, o: Outcome, count: nat, silent: bool, clock: nat -> int, t: nat, f: Engine)
    ensures e != f || !gate ==> Share(EnginePath(e, gate, o, count, silent, clock, t), f) == 0
    ensures !gate ==> EnginePath(e, gate, o, count, silent, clock, t) == NoGains()
  {
  }

  /** A chain none of whose runs adds to engine e adds nothing to it. */
  lemma {:induction false} ChainAddsNothing<T>(run: (T, nat) -> Gains, xs: seq<T>, t: nat, e: Engine)
    requires forall i: nat, u: nat :: i < |xs| ==> Share(run(xs[i], u), e) == 0
    ensures Share(Chain(run, xs, t), e) == 0
  {
    if xs != [] {
      var n := |xs|;
      ChainAddsNothing(run, xs[..n - 1], t, e);
      assert Share(run(xs[n - 1], t + Chain(run, xs[..n - 1], t).ticks), e) == 0;
    }
  }

  lemma {:induction false} RepeatAddsNothing(pass: nat -> Gains, n: nat, t: nat, e: Engine)
    requires forall u: nat :: Share(pass(u), e) == 0
    ensures Share(Repeat(pass, n, t), e) == 0
  {
    if n > 0 {
      RepeatAddsNothing(pass, n - 1, t, e);
    }
  }

  /**
   * An open stage of runTest runs an engine that both the object's flags and
   * the test's flags select, and an open OGNL stage is a compiled one.
   */
  predicate Admitted(testFlags: bv32, runFlags: bv32, s: Stage)
  {
    s.gate ==> Has(testFlags, EngineBit(s.engine)) && Has(runFlags, EngineBit(s.engine))
               && (s.engine == Ognl ==> Has(testFlags, COMPILED))
  }

  lemma StagesAdmitted(testFlags: bv32, test: PerfTest, engines: Engines)
    ensures forall i :: 0 <= i < |InterpretedStages(testFlags, test, engines)| ==>
      Admitted(testFlags, test.runFlags, InterpretedStages(testFlags, test, engines)[i])
    ensures forall i :: 0 <= i < |CompiledPart(testFlags, test, engines)| ==>
      Admitted(testFlags, test.runFlags, CompiledPart(testFlags, test, engines)[i])
  {
    assert !LongHas(0, RUN_OGNL);
  }

  /** `run` adds nothing to engine e's accumulator for a stage of another engine or behind a closed gate. */
  ghost predicate RunShares(run: (Stage, nat) -> Gains, e: Engine)
  {
    forall s: Stage, u: nat :: s.engine != e || !s.gate ==> Share(run(s, u), e) == 0
  }

  lemma StageRunnerShares(count: nat, silent: bool, clock: nat -> int, e: Engine)
    ensures RunShares(StageRunner(count, silent, clock), e)
  {
    forall s: Stage, u: nat | s.engine != e || !s.gate
      ensures Share(StageRunner(count, silent, clock)(s, u), e) == 0
    {
      EnginePathShares(s.engine, s.gate, s.outcome, count, silent, clock, u, e);
    }
  }

  /**
   * The interpreted OGNL path never runs: its gate tests the local `total`,
   * which is 0, so the interpreted block adds nothing to OGNL's accumulator.
   */
  lemma InterpretedOgnlDead(testFlags: bv32, silent: bool, test: PerfTest, engines: Engines, count: nat,
                            clock: nat -> int, t: nat)
    ensures !InterpretedOgnlGate(testFlags)
    ensures InterpretedRun(testFlags, silent, test, engines, count, clock, t).ognl == 0
  {
    assert !InterpretedOgnlGate(testFlags) by {
      assert !LongHas(0, RUN_OGNL);
    }
    StageRunnerShares(count, silent, clock, Ognl);
    ChainAddsNothing(StageRunner(count, silent, clock), InterpretedStages(testFlags, test, engines), t, Ognl);
  }

  /** A test whose stages give engine e no open gate adds nothing to e's accumulator. */
  lemma TestScheduleAddsNothing(run: (Stage, nat) -> Gains, testFlags: bv32, test: PerfTest, engines: Engines, t: nat, e: Engine)
    requires RunShares(run, e)
    requires !(Has(testFlags, EngineBit(e)) && Has(test.runFlags, EngineBit(e))) || (e == Ognl && !Has(testFlags, COMPILED))
    ensures Share(TestSchedule(run, testFlags, test, engines, t), e) == 0
  {
    var interpreted := InterpretedStages(testFlags, test, engines);
    var compiled := CompiledPart(testFlags, test, engines);
    StagesAdmitted(testFlags, test, engines);
    forall i: nat, u: nat | i < |interpreted|
      ensures Share(run(interpreted[i], u), e) == 0
    {
      assert Admitted(testFlags, test.runFlags, interpreted[i]);
    }
    forall i: nat, u: nat | i < |compiled|
      ensures Share(run(compiled[i], u), e) == 0
    {
      assert Admitted(testFlags, test.runFlags, compiled[i]);
    }
    var a := Chain(run, interpreted, t);
    ChainAddsNothing(run, interpreted, t, e);
    ChainAddsNothing(run, compiled, t + a.ticks, e);
    ThenShare(a, Chain(run, compiled, t + a.ticks), e);
  }

  /** A test whose stages give engine e no open gate adds nothing to e's accumulator. */
  lemma TestRunAddsNothing(testFlags: bv32, silent: bool, test: PerfTest, engines: Engines, count: nat,
                      clock: nat -> int, t: nat, e: Engine)
    requires !(Has(testFlags, EngineBit(e)) && Has(test.runFlags, EngineBit(e))) || (e == Ognl && !Has(testFlags, COMPILED))
    ensures Share(TestRun(testFlags, silent, test, engines, count, clock, t), e) == 0
  {
    StageRunnerShares(count, silent, clock, e);
    TestScheduleAddsNothing(StageRunner(count, silent, clock), testFlags, test, engines, t, e);
  }

  /**
   * A test adds to an engine's accumulator only when both the object's flags
   * and the test's flags select that engine, and to OGNL's only in compiled mode.
   */
  lemma TestRunSelects(testFlags: bv32, silent: bool, test: PerfTest, engines: Engines, count: nat,
                       clock: nat -> int, t: nat, e: Engine)
    ensures !(Has(testFlags, EngineBit(e)) && Has(test.runFlags, EngineBit(e))) ==>
      Share(TestRun(testFlags, silent, test, engines, count, clock, t), e) == 0
    ensures !Has(testFlags, COMPILED) ==> TestRun(testFlags, silent, test, engines, count, clock, t).ognl == 0
  {
    if !(Has(testFlags, EngineBit(e)) && Has(test.runFlags, EngineBit(e))) {
      TestRunAddsNothing(testFlags, silent, test, engines, count, clock, t, e);
    }
    if !Has(testFlags, COMPILED) {
      TestRunAddsNothing(testFlags, silent, test, engines, count, clock, t, Ognl);
    }
  }

  /**
   * Any number of run() calls on an object whose flags lack an engine's bit
   * leave that engine's total where it was; without COMPILED, OGNL's too.
   */
  lemma PassesAddsNothing(n: nat, testFlags: bv32, silent: bool, tests: seq<PerfTest>, engines: Engines,
                     clock: nat -> int, t: nat, e: Engine)
    requires !Has(testFlags, EngineBit(e)) || (e == Ognl && !Has(testFlags, COMPILED))
    ensures Share(Passes(n, testFlags, silent, tests, engines, clock, t), e) == 0
  {
    var run := TestRunner(testFlags, silent, engines, clock);
    forall i: nat, u: nat | i < |tests|
      ensures Share(run(tests[i], u), e) == 0
    {
      TestRunAddsNothing(testFlags, silent, tests[i], engines, TESTNUM, clock, u, e);
    }
    var pass := CatalogRunner(testFlags, silent, tests, engines, clock);
    forall u: nat
      ensures Share(pass(u), e) == 0
    {
      ChainAddsNothing(run, tests, u, e);
    }
    RepeatAddsNothing(pass, n, t, e);
  }

  /** Both accumulator additions of some work are nonnegative. */
  predicate Nonnegative(g: Gains)
  {
    g.ognl >= 0 && g.mvel >= 0
  }

  lemma EnginePathNonnegative(e: Engine, gate: bool, o: Outcome, count: nat, silent: bool, clock: nat -> int, t: nat)
    requires Nondecreasing(clock)
    ensures Nonnegative(EnginePath(e, gate, o, count, silent, clock, t))
  {
    PathNonnegative(o, count, silent, clock, t);
  }

  lemma {:induction false} ChainNonnegative<T>(run: (T, nat) -> Gains, xs: seq<T>, t: nat)
    requires forall i: nat, u: nat :: i < |xs| ==> Nonnegative(run(xs[i], u))
    ensures Nonnegative(Chain(run, xs, t))
  {
    if xs != [] {
      var n := |xs|;
      ChainNonnegative(run, xs[..n - 1], t);
      assert Nonnegative(run(xs[n - 1], t + Chain(run, xs[..n - 1], t).ticks));
    }
  }

  lemma {:induction false} RepeatNonnegative(pass: nat -> Gains, n: nat, t: nat)
    requires forall u: nat :: Nonnegative(pass(u))
    ensures Nonnegative(Repeat(pass, n, t))
  {
    if n > 0 {
      RepeatNonnegative(pass, n - 1, t);
    }
  }

  /** On a clock that never runs backwards, no test lowers either accumulator. */
  ghost predicate RunNonnegative(run: (Stage, nat) -> Gains)
  {
    forall s: Stage, u: nat :: Nonnegative(run(s, u))
  }

  lemma StageRunnerNonnegative(count: nat, silent: bool, clock: nat -> int)
    requires Nondecreasing(clock)
    ensures RunNonnegative(StageRunner(count, silent, clock))
  {
    forall s: Stage, u: nat
      ensures Nonnegative(StageRunner(count, silent, clock)(s, u))
    {
      EnginePathNonnegative(s.engine, s.gate, s.outcome, count, silent, clock, u);
    }
  }

  lemma TestScheduleNonnegative(run: (Stage, nat) -> Gains, testFlags: bv32, test: PerfTest, engines: Engines, t: nat)
    requires RunNonnegative(run)
    ensures Nonnegative(TestSchedule(run, testFlags, test, engines, t))
  {
    var a := Chain(run, InterpretedStages(testFlags, test, engines), t);
    ChainNonnegative(run, InterpretedStages(testFlags, test, engines), t);
    ChainNonnegative(run, CompiledPart(testFlags, test, engines), t + a.ticks);
  }

  /** On a clock that never runs backwards, no test lowers either accumulator. */
  lemma TestRunNonnegative(testFlags: bv32, silent: bool, test: PerfTest, engines: Engines, count: nat,
                           clock: nat -> int, t: nat)
    requires Nondecreasing(clock)
    ensures Nonnegative(TestRun(testFlags, silent, test, engines, count, clock, t))
  {
    StageRunnerNonnegative(count, silent, clock);
    TestScheduleNonnegative(StageRunner(count, silent, clock), testFlags, test, engines, t);
  }

  /** On a clock that never runs backwards, run() calls only ever raise the two totals. */
  lemma PassesNonnegative(n: nat, testFlags: bv32, silent: bool, tests: seq<PerfTest>, engines: Engines,
                          clock: nat -> int, t: nat)
    requires Nondecreasing(clock)
    ensures Nonnegative(Passes(n, testFlags, silent, tests, engines, clock, t))
  {
    var run := TestRunner(testFlags, silent, engines, clock);
    forall i: nat, u: nat | i < |tests|
      ensures Nonnegative(run(tests[i], u))
    {
      TestRunNonnegative(testFlags, silent, tests[i], engines, TESTNUM, clock, u);
    }
    var pass := CatalogRunner(testFlags, silent, tests, engines, clock);
    forall u: nat
      ensures Nonnegative(pass(u))
    {
      ChainNonnegative(run, tests, u);
    }
    RepeatNonnegative(pass, n, t);
  }

  lemma EnginePathUnderFixedLatency(e: Engine, gate: bool, o: Outcome, count: nat, silent: bool, clock: nat -> int,
                                    step: int, t: nat, u: nat)
    requires FixedLatency(clock, step)
    ensures EnginePath(e, gate, o, count, silent, clock, t) == EnginePath(e, gate, o, count, silent, clock, u)
  {
    PathUnderFixedLatency(o, count, silent, clock, step, t, u);
  }

  /** A chain of two runs is the first followed by the second, started where the first stopped. */
  lemma ChainPair<T>(run: (T, nat) -> Gains, x: T, y: T, t: nat)
    ensures Chain(run, [x, y], t) == Then(run(x, t), run(y, t + run(x, t).ticks))
  {
    assert Chain(run, [x], t) == run(x, t) by {
      assert [x][..0] == [];
      ThenNoGains(run(x, t));
    }
    assert [x, y][..1] == [x];
  }

  /** runTestCompiled is its OGNL path followed by its MVEL path, started where the OGNL path stopped. */
  lemma CompiledRunIs(testFlags: bv32, silent: bool, og: Outcome, mv: Outcome, count: nat, totest: bv32,
                      clock: nat -> int, t: nat)
    ensures var a := EnginePath(Ognl, Has(testFlags, RUN_OGNL) && Has(totest, RUN_OGNL), og, count, silent, clock, t);
      CompiledRun(testFlags, silent, og, mv, count, totest, clock, t)
      == Then(a, EnginePath(Mvel, Has(testFlags, RUN_MVEL) && Has(totest, RUN_MVEL), mv, count, silent, clock, t + a.ticks))
  {
    ChainPair(StageRunner(count, silent, clock), Stage(Ognl, Has(testFlags, RUN_OGNL) && Has(totest, RUN_OGNL), og),
              Stage(Mvel, Has(testFlags, RUN_MVEL) && Has(totest, RUN_MVEL), mv), t);
  }

  /**
   * runTestCompiled resets `total` between its two paths (line 323), so what
   * the MVEL path adds does not depend on the OGNL path: with a fixed latency
   * it is what the MVEL path adds run on its own, however the OGNL path
   * ended (completed, threw in warm-up or threw in a rep).  The OGNL path
   * runs first, so the MVEL path cannot change what it adds, on any clock.
   */
  lemma CompiledPathsIsolated(testFlags: bv32, silent: bool, og1: Outcome, og2: Outcome, mv1: Outcome, mv2: Outcome,
                              count: nat, totest: bv32, clock: nat -> int, step: int, t: nat)
    requires FixedLatency(clock, step)
    ensures CompiledRun(testFlags, silent, og1, mv1, count, totest, clock, t).mvel
         == CompiledRun(testFlags, silent, og2, mv1, count, totest, clock, t).mvel
    ensures CompiledRun(testFlags, silent, og1, mv1, count, totest, clock, t).mvel
         == EnginePath(Mvel, Has(testFlags, RUN_MVEL) && Has(totest, RUN_MVEL), mv1, count, silent, clock, t).mvel
    ensures CompiledRun(testFlags, silent, og1, mv1, count, totest, clock, t).ognl
         == CompiledRun(testFlags, silent, og1, mv2, count, totest, clock, t).ognl
  {
    var run := StageRunner(count, silent, clock);
    var gate := Has(testFlags, RUN_OGNL) && Has(totest, RUN_OGNL);
    var mv := Stage(Mvel, Has(testFlags, RUN_MVEL) && Has(totest, RUN_MVEL), mv1);
    StageRunnerShiftInvariant(count, silent, clock, step);
    SecondOfPairAlone(run, Stage(Ognl, gate, og1), mv, t);
    SecondOfPairAlone(run, Stage(Ognl, gate, og2), mv, t);
    EnginePathShares(Ognl, gate, og1, count, silent, clock, t, Mvel);
    EnginePathShares(Ognl, gate, og2, count, silent, clock, t, Mvel);
    CompiledOgnlFirst(testFlags, silent, og1, mv1, count, totest, clock, t);
    CompiledOgnlFirst(testFlags, silent, og1, mv2, count, totest, clock, t);
  }

  /** Of two start-independent runs in a row, the second adds what it adds on its own. */
  lemma SecondOfPairAlone(run: (Stage, nat) -> Gains, x: Stage, y: Stage, t: nat)
    requires ShiftInvariant(run)
    ensures Chain(run, [x, y], t).mvel == run(x, t).mvel + run(y, t).mvel
  {
    ChainPair(run, x, y, t);
    assert run(y, t + run(x, t).ticks) == run(y, 0) == run(y, t);
  }

  /**
   * On any clock, what runTestCompiled adds to MVEL is what its MVEL path adds
   * started where the OGNL path stopped; the OGNL path's total is not carried
   * over into it.
   */
  lemma CompiledMvelAfter(testFlags: bv32, silent: bool, og: Outcome, mv: Outcome, count: nat, totest: bv32,
                          clock: nat -> int, t: nat)
    ensures var a := EnginePath(Ognl, Has(testFlags, RUN_OGNL) && Has(totest, RUN_OGNL), og, count, silent, clock, t);
      CompiledRun(testFlags, silent, og, mv, count, totest, clock, t).mvel
      == EnginePath(Mvel, Has(testFlags, RUN_MVEL) && Has(totest, RUN_MVEL), mv, count, silent, clock, t + a.ticks).mvel
  {
    var gate := Has(testFlags, RUN_OGNL) && Has(totest, RUN_OGNL);
    var mvGate := Has(testFlags, RUN_MVEL) && Has(totest, RUN_MVEL);
    var a := EnginePath(Ognl, gate, og, count, silent, clock, t);
    var b := EnginePath(Mvel, mvGate, mv, count, silent, clock, t + a.ticks);
    CompiledRunIs(testFlags, silent, og, mv, count, totest, clock, t);
    EnginePathShares(Ognl, gate, og, count, silent, clock, t, Mvel);
    ThenShare(a, b, Mvel);
  }

  /** The OGNL path of runTestCompiled runs first, so it adds what it adds on its own, on any clock. */
  lemma CompiledOgnlFirst(testFlags: bv32, silent: bool, og: Outcome, mv: Outcome, count: nat, totest: bv32,
                          clock: nat -> int, t: nat)
    ensures CompiledRun(testFlags, silent, og, mv, count, totest, clock, t).ognl
         == EnginePath(Ognl, Has(testFlags, RUN_OGNL) && Has(totest, RUN_OGNL), og, count, silent, clock, t).ognl
  {
    var gate := Has(testFlags, RUN_OGNL) && Has(totest, RUN_OGNL);
    var mvGate := Has(testFlags, RUN_MVEL) && Has(totest, RUN_MVEL);
    var a := EnginePath(Ognl, gate, og, count, silent, clock, t);
    var b := EnginePath(Mvel, mvGate, mv, count, silent, clock, t + a.ticks);
    CompiledRunIs(testFlags, silent, og, mv, count, totest, clock, t);
    EnginePathShares(Mvel, mvGate, mv, count, silent, clock, t + a.ticks, Ognl);
    ThenShare(a, b, Ognl);
  }

  /**
   * In the interpreted block (reset of line 229) the MVEL path's addition
   * does not depend on how OGNL behaves interpreted, on any clock, since the
   * dead OGNL gate runs nothing: it is what the MVEL path adds on its own.
   */
  lemma InterpretedPathsIsolated(testFlags: bv32, silent: bool, test: PerfTest, engines1: Engines, engines2: Engines,
                                 count: nat, clock: nat -> int, t: nat)
    requires engines1(Mvel, Interpreted, test) == engines2(Mvel, Interpreted, test)
    ensures InterpretedRun(testFlags, silent, test, engines1, count, clock, t).mvel
         == InterpretedRun(testFlags, silent, test, engines2, count, clock, t).mvel
    ensures Has(testFlags, INTERPRETED) ==>
      InterpretedRun(testFlags, silent, test, engines1, count, clock, t).mvel
      == EnginePath(Mvel, Has(testFlags, RUN_MVEL) && Has(test.runFlags, RUN_MVEL),
                    engines1(Mvel, Interpreted, test), count, silent, clock, t).mvel
  {
    if Has(testFlags, INTERPRETED) {
      var run := StageRunner(count, silent, clock);
      var mvStage := Stage(Mvel, Has(testFlags, RUN_MVEL) && Has(test.runFlags, RUN_MVEL), engines1(Mvel, Interpreted, test));
      assert !InterpretedOgnlGate(testFlags) by {
        assert !LongHas(0, RUN_OGNL);
      }
      var s1 := Stage(Ognl, false, engines1(Ognl, Interpreted, test));
      var s2 := Stage(Ognl, false, engines2(Ognl, Interpreted, test));
      assert InterpretedStages(testFlags, test, engines1) == [s1, mvStage];
      assert InterpretedStages(testFlags, test, engines2) == [s2, mvStage];
      ChainPair(run, s1, mvStage, t);
      ChainPair(run, s2, mvStage, t);
      EnginePathShares(Ognl, false, s1.outcome, count, silent, clock, t, Mvel);
      EnginePathShares(Ognl, false, s2.outcome, count, silent, clock, t, Mvel);
    }
  }

  /** A chain of runs that do not depend on their start does not depend on its start. */
  lemma {:induction false} ChainShiftInvariant<T>(run: (T, nat) -> Gains, xs: seq<T>, t: nat)
    requires forall i: nat, u: nat :: i < |xs| ==> run(xs[i], u) == run(xs[i], 0)
    ensures Chain(run, xs, t) == Chain(run, xs, 0)
  {
    if xs != [] {
      var n := |xs|;
      ChainShiftInvariant(run, xs[..n - 1], t);
      var before := Chain(run, xs[..n - 1], t);
      assert run(xs[n - 1], t + before.ticks) == run(xs[n - 1], 0 + before.ticks);
    }
  }

  /** What `run` adds for a stage does not depend on the reading it starts at. */
  ghost predicate ShiftInvariant(run: (Stage, nat) -> Gains)
  {
    forall s: Stage, u: nat :: run(s, u) == run(s, 0)
  }

  lemma StageRunnerShiftInvariant(count: nat, silent: bool, clock: nat -> int, step: int)
    requires FixedLatency(clock, step)
    ensures ShiftInvariant(StageRunner(count, silent, clock))
  {
    forall s: Stage, u: nat
      ensures StageRunner(count, silent, clock)(s, u) == StageRunner(count, silent, clock)(s, 0)
    {
      EnginePathUnderFixedLatency(s.engine, s.gate, s.outcome, count, silent, clock, step, u, 0);
    }
  }

  lemma TestScheduleShiftInvariant(run: (Stage, nat) -> Gains, testFlags: bv32, test: PerfTest, engines: Engines, t: nat)
    requires ShiftInvariant(run)
    ensures TestSchedule(run, testFlags, test, engines, t) == TestSchedule(run, testFlags, test, engines, 0)
  {
    var interpreted := InterpretedStages(testFlags, test, engines);
    var compiled := CompiledPart(testFlags, test, engines);
    ChainShiftInvariant(run, interpreted, t);
    var a := Chain(run, interpreted, t);
    ChainShiftInvariant(run, compiled, t + a.ticks);
    ChainShiftInvariant(run, compiled, 0 + a.ticks);
  }

  /** With a fixed latency per clock reading, what a test adds does not depend on when it starts. */
  lemma TestRunUnderFixedLatency(testFlags: bv32, silent: bool, test: PerfTest, engines: Engines, count: nat,
                                 clock: nat -> int, step: int, t: nat)
    requires FixedLatency(clock, step)
    ensures TestRun(testFlags, silent, test, engines, count, clock, t) == TestRun(testFlags, silent, test, engines, count, clock, 0)
  {
    StageRunnerShiftInvariant(count, silent, clock, step);
    TestScheduleShiftInvariant(StageRunner(count, silent, clock), testFlags, test, engines, t);
  }

  /** n repetitions of a pass whose gains do not depend on its start add n times its gains. */
  lemma {:induction false} RepeatConstant(pass: nat -> Gains, n: nat, t: nat)
    requires forall u: nat :: pass(u) == pass(0)
    ensures Repeat(pass, n, t).ognl == n * pass(0).ognl
    ensures Repeat(pass, n, t).mvel == n * pass(0).mvel
  {
    if n > 0 {
      RepeatConstant(pass, n - 1, t);
      assert (n - 1) * pass(0).ognl + pass(0).ognl == n * pass(0).ognl;
      assert (n - 1) * pass(0).mvel + pass(0).mvel == n * pass(0).mvel;
    }
  }

  /**
   * With a fixed latency per clock reading, n run() calls add n times what
   * one pass over the catalog adds: the totals are sums of n passes.
   */
  lemma PassesUnderFixedLatency(n: nat, testFlags: bv32, silent: bool, tests: seq<PerfTest>, engines: Engines,
                                clock: nat -> int, step: int, t: nat)
    requires FixedLatency(clock, step)
    ensures var one := CatalogPass(testFlags, silent, tests, engines, clock, 0);
      && Passes(n, testFlags, silent, tests, engines, clock, t).ognl == n * one.ognl
      && Passes(n, testFlags, silent, tests, engines, clock, t).mvel == n * one.mvel
  {
    var run := TestRunner(testFlags, silent, engines, clock);
    forall i: nat, u: nat | i < |tests|
      ensures run(tests[i], u) == run(tests[i], 0)
    {
      TestRunUnderFixedLatency(testFlags, silent, tests[i], engines, TESTNUM, clock, step, u);
    }
    var pass := CatalogRunner(testFlags, silent, tests, engines, clock);
    forall u: nat
      ensures pass(u) == pass(0)
    {
      ChainShiftInvariant(run, tests, u);
    }
    RepeatConstant(pass, n, t);
  }
}
