# ELComparisons: the bookkeeping of the MVEL/OGNL benchmark harness

`ELComparisons` is MVEL's benchmark harness. For every catalog test it times
both expression engines, OGNL and MVEL, in an interpreted mode and a compiled
mode. It keeps a running total per engine. With `-threaded` it repeats the
comparison over a sweep of thread counts and prints the ratio of the two totals.

Timing, printing and the engines themselves are outside the model. Under them
sits a small core of integer bookkeeping, and that is what this project models
and proves things about:

- **The trial loop.** Each path takes a baseline clock reading, runs five reps
  (`TESTITER`) of `count` calls, and reads the clock after every rep.
  - The update of `res`/`total` at lines 208-209 stores in `res[k]` the time of
    rep k alone: the increment E_k - E_(k-1), with E_0 for the first rep. It is
    not a running total.
  - `total` ends as the cumulative elapsed time.
  - So the entries add up to `total`, and on a clock that never runs backwards
    they are nonnegative.
- **Engine and mode gating.** A path runs only when the engine's bit is set both
  in the object's `testFlags` and in the test's own flags.
  - The interpreted OGNL gate (line 191) tests the local `long total`, which is
    still 0 at that point, instead of the test's flags.
  - That path can therefore never run, and the interpreted block never adds
    anything to `ognlTotal`.
- **Failure accounting.** An engine that throws during warm-up contributes 0. An
  engine that throws in rep r still contributes the time elapsed through rep
  r-1, because the partial `total` is added after the `catch`.
- **`resultsToString`.** A `StringBuffer` loop that renders `res` as "[" plus
  the decimal forms joined by "," plus "]".
- **Argument parsing.** The index-advancing loop in `main`, and the mode flags
  it composes with `+`. The bits are disjoint, so `+` equals bitwise OR.
  `INTERPRETED` is the sign bit of a Java `int`.
- **The sweep.** Thread counts run 1, 6, ..., 96: twenty steps.
  - Each "thread" is started with `Thread.run()`, not `start()`. So a step is
    `n` sequential catalog passes on one fresh object per engine, whose totals
    are never reset between passes.
  - The step's ratio is `mvelTotals / ognlTotals`, rounded HALF_UP to 4
    decimals. `BigDecimal.divide` throws when `ognlTotals` is 0, and that ends
    `main`.
  - Because the interpreted OGNL path is dead, `-threaded -nocompiled` always
    throws after the first step.
- **Rounded quotients.** Both the four-decimal ratio and the two-decimal
  average (elapsed / 5) are computed exactly on integers.

## How it is modelled

- **The clock (`Runner.Jvm`).** The JVM's clock is a stream of readings,
  `clock: nat -> int`, inside a `Jvm` object. `ticks` counts the readings taken
  so far, and `CurrentTimeMillis` takes the next one.
- **The console.** It is the sequence of report lines printed so far, `out`. A
  report line records either the window of time the average line divides and
  the `res` contents it lists (`Trials.Report.Measured`), or `<<COULD NOT
  EXECUTE>>` (`CouldNotExecute`). `Trials.ShownAverage` and
  `Trials.ShownSamples` give the two figures the line shows.
- **The engines.** An engine's behaviour on a path is an `Outcome`: it either
  completes every call, or throws on call number `step` (warm-up calls are
  numbered first).
- **The harness object (`Runner.ELComparisons`).** It is a class with the
  fields `ognlTotal`, `mvelTotal`, `testFlags` and `silent`. Its methods `Run`,
  `RunTest`, `RunTestInterpreted`, `RunTestCompiled`, `GatedPath` and
  `MeasurePath` update those fields, the `res` array and the `Jvm` the way the
  Java methods do. The reps loop and its steps are the module-level methods
  `Runner.TimedReps`, `Runner.OneRep` and `Runner.RecordRep`, which change only
  `res` and the clock's reading count, and `Runner.Invoke`, which changes nothing.
  - Each method is proved against a function of its inputs that gives the
    effect of the work: the amounts added to the two totals, the clock readings
    taken, and the lines printed. These are `Trials.Path`,
    `Runner.EnginePath`, `Runner.TestRun`, `Runner.CatalogPass` and
    `Runner.Passes`.
  - Those functions carry the lemmas.
- **`main` (`Driver.Launch`).** `Cli.ParseArgs` parses the arguments, and
  `Driver.StressSweep` runs the sweep. Both are proved against
  `Driver.MainSpec`.
- **Flags.** They are `bv32`, so `+` wraps exactly as Java `int` addition does.
  The interpreted OGNL gate tests a Java `long`. It is modelled as a `bv64`, and
  the `int` bit is sign-extended first, as Java widens it.

Two points where the code does not do what a reader of the harness might expect:

- Line 209 stores each rep's own increment in `res[k]`, not a running total
  through rep k. `Trials.PathSamplesAreIncrements` and
  `Trials.PathSamplesSumToTotal` state what the code does.
- `Thread.run()` is called directly (lines 117-119 and 133-135), so every pass
  runs sequentially on the calling thread. `Driver.RunThreads` is a plain loop
  of `Run` calls on one object.

Two more points:

- The four-decimal ratio of each sweep step is returned as a `SweepRecord`, not
  printed.
- `totaltime` (lines 104 and 146) is computed but never used. Its two clock
  readings are kept, because they shift every later reading.

## Model

| member | source | states |
|---|---|---|
| Flags.ModeFlags | test/java/org/mvel/tests/perftests/ELComparisons.java:97 | the mode word main composes with `+` from the two mode booleans |
| Flags.LongHas | test/java/org/mvel/tests/perftests/ELComparisons.java:191 | the test `(x & bit) != 0` on a Java long, with the int bit sign-extended to 64 bits first as Java widens it |
| Flags.JavaInt | test/java/org/mvel/tests/perftests/ELComparisons.java:22-23 | the signed value of a 32-bit flag word: within the int range, negative exactly when the top bit is set |
| Flags.ComposedFlags | test/java/org/mvel/tests/perftests/ELComparisons.java:97 | the mode flags plus an engine bit equal their bitwise OR; each of COMPILED, INTERPRETED, RUN_OGNL and RUN_MVEL is set in the sum exactly when it was chosen |
| Flags.InterpretedIsSignBit | test/java/org/mvel/tests/perftests/ELComparisons.java:19-25 | INTERPRETED is Integer.MIN_VALUE as an int, the composed word for both modes and OGNL is -2^30 + 2, and ALL is 3 |
| Numerics.RoundHalfUp | test/java/org/mvel/tests/perftests/ELComparisons.java:215 | the magnitude of the result is \|n\|·10^scale / \|d\| rounded to nearest with ties upward, and its sign agrees with the sign of n/d |
| Numerics.HalfUp | test/java/org/mvel/tests/perftests/ELComparisons.java:215 | the nearest integer to num/den, ties upward, and 0 when num is 0 |
| Numerics.DivideHalfUp | test/java/org/mvel/tests/perftests/ELComparisons.java:151 | the divide of line 151: undefined (ArithmeticException) exactly when the divisor is 0, otherwise the HALF_UP quotient with the sign of n/d |
| Numerics.NearestHalfUpUnique | test/java/org/mvel/tests/perftests/ELComparisons.java:151 | at most one integer satisfies the half-up characterisation, so the rounded quotient is determined by it |
| Numerics.RoundHalfUpExact | test/java/org/mvel/tests/perftests/ELComparisons.java:151 | a quotient with at most `scale` decimals is not rounded |
| Numerics.RatioExample | test/java/org/mvel/tests/perftests/ELComparisons.java:151 | totals 1000 and 250 print the ratio 4.0000 |
| Numerics.HalfUpTieExample | test/java/org/mvel/tests/perftests/ELComparisons.java:215 | a tie rounds away from zero: 5/2 gives 3 and -5/2 gives -3 |
| Numerics.DivideHalfUpScaled | test/java/org/mvel/tests/perftests/ELComparisons.java:151 | multiplying both totals by the same k > 0 leaves the ratio unchanged |
| Numerics.DivideHalfUpNonnegative | test/java/org/mvel/tests/perftests/ELComparisons.java:151 | nonnegative totals give a nonnegative ratio, and 0 over a positive total gives 0 |
| Samples.Elapsed | test/java/org/mvel/tests/perftests/ELComparisons.java:200-209 | the cumulative times E_0..E_(k-1): the readings after each rep minus the baseline reading `time` |
| Samples.Deltas | test/java/org/mvel/tests/perftests/ELComparisons.java:208-209 | what line 209 stores: E_0 for the first rep and E_k - E_(k-1) for each later one |
| Samples.SumOfDeltas | test/java/org/mvel/tests/perftests/ELComparisons.java:208-209 | the per-rep increments add up to the last cumulative elapsed time |
| Samples.RunningTotalsOfDeltas | test/java/org/mvel/tests/perftests/ELComparisons.java:208-209 | the running totals of the increments are the cumulative elapsed times again |
| Samples.DeltasOfRunningTotals | test/java/org/mvel/tests/perftests/ELComparisons.java:208-209 | the increments of the running totals are the original entries: Deltas and RunningTotals are mutual inverses |
| Samples.ClockMonotone | test/java/org/mvel/tests/perftests/ELComparisons.java:200-209 | on a clock that never runs backwards, a later reading is never smaller |
| Samples.ElapsedIncrementsNonnegative | test/java/org/mvel/tests/perftests/ELComparisons.java:208-209 | on a clock that never runs backwards, every stored increment is nonnegative |
| Samples.FixedLatencyAdvance | test/java/org/mvel/tests/perftests/ELComparisons.java:200-215 | with a fixed latency per reading, k readings later the clock has moved k steps |
| Samples.ElapsedUnderFixedLatency | test/java/org/mvel/tests/perftests/ELComparisons.java:200-209 | with a fixed latency, the elapsed times of the reps do not depend on when the path starts |
| Format.Joined | test/java/org/mvel/tests/perftests/ELComparisons.java:366-370 | the elements' decimal forms separated by "," with no separator after the last |
| Format.SamplesString | test/java/org/mvel/tests/perftests/ELComparisons.java:364-374 | the reference text of resultsToString: "[" + Joined + "]" |
| Format.DecimalString | test/java/org/mvel/tests/perftests/ELComparisons.java:367 | the rendering of a long is nonempty, holds no ',', '[' or ']', and ends in a digit |
| Format.ResultsToString | test/java/org/mvel/tests/perftests/ELComparisons.java:364-374 | the StringBuffer loop produces "[" + the elements' decimal forms joined by "," + "]" |
| Format.JoinedSnoc | test/java/org/mvel/tests/perftests/ELComparisons.java:366-370 | appending an element adds "," and its decimal form after a nonempty prefix, and only its form after an empty one |
| Format.DecimalStringRoundTrip | test/java/org/mvel/tests/perftests/ELComparisons.java:367 | the decimal form of any long reads back as that long |
| Format.JoinedRoundTrip | test/java/org/mvel/tests/perftests/ELComparisons.java:365-371 | splitting the joined forms at "," and reading each field gives back the elements |
| Format.SamplesRoundTrip | test/java/org/mvel/tests/perftests/ELComparisons.java:364-374 | the printed vector reads back to exactly the array's contents |
| Format.SamplesStringShape | test/java/org/mvel/tests/perftests/ELComparisons.java:364-374 | an empty array prints "[]" and only an empty one does; a nonempty one ends in a digit before "]", so there is no trailing comma |
| Format.CommaCount | test/java/org/mvel/tests/perftests/ELComparisons.java:369 | a nonempty vector has exactly one separator fewer than elements |
| Trials.Path | test/java/org/mvel/tests/perftests/ELComparisons.java:192-221 | the reference effect of one engine path: the total it leaves, the entries it writes into res, the readings it takes and the line it prints, for every outcome of the engine |
| Trials.RepsCompleted | test/java/org/mvel/tests/perftests/ELComparisons.java:203-206 | the number of reps completed before the engine throws is at most TESTITER |
| Trials.RepStartIs | test/java/org/mvel/tests/perftests/ELComparisons.java:194-206 | rep r starts at call count + r·count, after the warm-up and the earlier reps |
| Trials.FailureInRep | test/java/org/mvel/tests/perftests/ELComparisons.java:203-206 | an engine throwing on call j of rep r leaves exactly r reps completed and passes the warm-up |
| Trials.NoFailureInReps | test/java/org/mvel/tests/perftests/ELComparisons.java:203-212 | an engine that does not throw before call count + 5·count completes all five reps |
| Trials.Average | test/java/org/mvel/tests/perftests/ELComparisons.java:215 | the average line is elapsed·100 / 5 rounded HALF_UP, in hundredths, with the sign of elapsed |
| Trials.PathSamplesSumToTotal | test/java/org/mvel/tests/perftests/ELComparisons.java:208-209 | the entries a path writes into res add up to the total it adds to the accumulator |
| Trials.PathSamplesAreIncrements | test/java/org/mvel/tests/perftests/ELComparisons.java:203-212 | the running totals of the entries are the cumulative elapsed times E_0..E_(k-1); the total is the last of them, or 0 when no rep completed |
| Trials.CompletedPath | test/java/org/mvel/tests/perftests/ELComparisons.java:192-216 | a path that never throws writes all five entries, totals clock(t+5) - clock(t), and prints the average line over the whole window with those entries unless silent |
| Trials.CompletedPathLine | test/java/org/mvel/tests/perftests/ELComparisons.java:214-216 | the average line of a path that completes lists exactly the entries written into res, which add up to the total; its average is the window / 5 rounded HALF_UP; on a clock that never runs backwards the window is at least the total and the average is nonnegative |
| Trials.FailedPath | test/java/org/mvel/tests/perftests/ELComparisons.java:192-221 | a throw in warm-up adds 0 and reads no clock; a throw in rep r writes r entries and adds the time through rep r-1; either prints the failure line unless silent |
| Trials.PathNonnegative | test/java/org/mvel/tests/perftests/ELComparisons.java:200-212 | on a clock that never runs backwards, a path's total and every entry are nonnegative |
| Trials.PathUnderFixedLatency | test/java/org/mvel/tests/perftests/ELComparisons.java:200-215 | with a fixed latency per reading, a path's effect does not depend on when it starts |
| Runner.EnginePath | test/java/org/mvel/tests/perftests/ELComparisons.java:191-227 | one engine path behind its gate: a closed gate adds nothing; an open one adds the path total to its own engine's accumulator only |
| Runner.InterpretedOgnlGate | test/java/org/mvel/tests/perftests/ELComparisons.java:191 | the interpreted OGNL gate as written: the object's RUN_OGNL bit and the RUN_OGNL bit of the local long `total` |
| Runner.InterpretedStages | test/java/org/mvel/tests/perftests/ELComparisons.java:181-265 | the two gated paths of the interpreted block, OGNL then MVEL, and none without INTERPRETED |
| Runner.CompiledStages | test/java/org/mvel/tests/perftests/ELComparisons.java:287-361 | the two gated paths of runTestCompiled, OGNL then MVEL, each gated on testFlags and the test's flags |
| Runner.InterpretedRun | test/java/org/mvel/tests/perftests/ELComparisons.java:181-265 | the effect of the interpreted block: its stages one after the other |
| Runner.CompiledRun | test/java/org/mvel/tests/perftests/ELComparisons.java:275-362 | the effect of runTestCompiled: its OGNL path, then its MVEL path started where the OGNL path stopped |
| Runner.CompiledPart | test/java/org/mvel/tests/perftests/ELComparisons.java:267-269 | the stages runTest runs after its interpreted block: runTestCompiled's two paths when COMPILED is set, none otherwise |
| Runner.TestSchedule | test/java/org/mvel/tests/perftests/ELComparisons.java:170-273 | the structure of runTest: the interpreted stages, then the compiled part started where they stopped |
| Runner.TestRun | test/java/org/mvel/tests/perftests/ELComparisons.java:170-273 | the effect of runTest: the interpreted block, then runTestCompiled when COMPILED is set |
| Runner.CatalogPass | test/java/org/mvel/tests/perftests/ELComparisons.java:159-168 | the effect of run(): runTest on each catalog entry in order |
| Runner.Passes | test/java/org/mvel/tests/perftests/ELComparisons.java:117-119 | the effect of n calls of run() on one object, each started where the previous stopped |
| Runner.Jvm.CurrentTimeMillis | test/java/org/mvel/tests/perftests/ELComparisons.java:200 | returns the next clock reading and advances the reading count by one |
| Runner.Jvm.Println | test/java/org/mvel/tests/perftests/ELComparisons.java:214-216 | appends one report line to the console |
| Runner.ELComparisons.constructor | test/java/org/mvel/tests/perftests/ELComparisons.java:30-59 | a fresh object has both totals 0, no flags, silent off, and the static catalog |
| Runner.ELComparisons.SetTestFlags | test/java/org/mvel/tests/perftests/ELComparisons.java:62-64 | sets testFlags and nothing else |
| Runner.ELComparisons.GetOgnlTotal | test/java/org/mvel/tests/perftests/ELComparisons.java:377-379 | returns ognlTotal |
| Runner.ELComparisons.SetOgnlTotal | test/java/org/mvel/tests/perftests/ELComparisons.java:381-383 | sets ognlTotal and nothing else |
| Runner.ELComparisons.GetMvelTotal | test/java/org/mvel/tests/perftests/ELComparisons.java:385-387 | returns mvelTotal |
| Runner.ELComparisons.SetMvelTotal | test/java/org/mvel/tests/perftests/ELComparisons.java:389-391 | sets mvelTotal and nothing else |
| Runner.ELComparisons.IsSilent | test/java/org/mvel/tests/perftests/ELComparisons.java:394-396 | returns silent |
| Runner.ELComparisons.SetSilent | test/java/org/mvel/tests/perftests/ELComparisons.java:398-400 | sets silent and nothing else |
| Runner.ELComparisons.Run | test/java/org/mvel/tests/perftests/ELComparisons.java:159-168 | run() adds to the totals, clock and console exactly the effect of runTest over the catalog in order |
| Runner.ELComparisons.RunTest | test/java/org/mvel/tests/perftests/ELComparisons.java:170-273 | runTest adds exactly the effect of its interpreted stages followed by its compiled stages |
| Runner.ELComparisons.RunTestInterpreted | test/java/org/mvel/tests/perftests/ELComparisons.java:181-265 | the interpreted block adds the effect of its two gated paths, OGNL's behind the gate on the local total; nothing without INTERPRETED |
| Runner.ELComparisons.RunTestCompiled | test/java/org/mvel/tests/perftests/ELComparisons.java:275-362 | runTestCompiled adds the effect of its OGNL and MVEL paths, each behind its flag-and-test gate |
| Runner.ELComparisons.GatedPath | test/java/org/mvel/tests/perftests/ELComparisons.java:191-229 | a gated path adds its total (0 when the gate is closed) to its own engine's accumulator only, and takes its readings and prints its line |
| Runner.ELComparisons.MeasurePath | test/java/org/mvel/tests/perftests/ELComparisons.java:192-221 | the try/catch of one path returns the path's total, leaves its entries in res before the untouched rest, and takes its readings and prints its line |
| Runner.Invoke | test/java/org/mvel/tests/perftests/ELComparisons.java:194-196 | count calls from call `first` all succeed exactly when the engine does not throw on any of them |
| Runner.RecordRep | test/java/org/mvel/tests/perftests/ELComparisons.java:208-209 | after rep r the store takes one reading, leaves total at the elapsed time E_r, and sets res[r] to that rep's increment alone |
| Runner.OneRep | test/java/org/mvel/tests/perftests/ELComparisons.java:203-209 | one rep either throws, leaving the count of completed reps at r, or keeps the loop state one rep further |
| Runner.RepsResult | test/java/org/mvel/tests/perftests/ELComparisons.java:203-212 | when the loop stops after k reps, k is the number of reps completed, and total, res and the readings are those of k reps |
| Runner.TimedReps | test/java/org/mvel/tests/perftests/ELComparisons.java:200-212 | the reps loop: threw says a rep threw; total is the elapsed time through the last completed rep; res holds that many increments before the untouched rest |
| Runner.EnginePathShares | test/java/org/mvel/tests/perftests/ELComparisons.java:225-227 | a path adds only to its own engine's accumulator, and a closed gate adds nothing, reads no clock and prints nothing |
| Runner.StagesAdmitted | test/java/org/mvel/tests/perftests/ELComparisons.java:181-269 | every open stage of runTest has its engine's bit in both testFlags and the test's flags, and an open OGNL stage is a compiled one |
| Runner.InterpretedOgnlDead | test/java/org/mvel/tests/perftests/ELComparisons.java:187-227 | the interpreted OGNL gate is false for every testFlags, so the interpreted block adds nothing to ognlTotal |
| Runner.CompiledPathsIsolated | test/java/org/mvel/tests/perftests/ELComparisons.java:279-323 | with a fixed latency, what runTestCompiled adds to MVEL does not depend on how the OGNL path ended and equals the MVEL path run on its own; what it adds to OGNL does not depend on the MVEL engine |
| Runner.CompiledMvelAfter | test/java/org/mvel/tests/perftests/ELComparisons.java:319-361 | on any clock, what runTestCompiled adds to MVEL is the MVEL path's own total from where the OGNL path stopped; the OGNL total is not carried over |
| Runner.CompiledOgnlFirst | test/java/org/mvel/tests/perftests/ELComparisons.java:279-317 | on any clock, what runTestCompiled adds to OGNL is the OGNL path's own total, whatever the MVEL engine does |
| Runner.InterpretedPathsIsolated | test/java/org/mvel/tests/perftests/ELComparisons.java:225-265 | on any clock, what the interpreted block adds to MVEL does not depend on how OGNL behaves interpreted, and with INTERPRETED set it is the MVEL path run on its own |
| Runner.TestRunAddsNothing | test/java/org/mvel/tests/perftests/ELComparisons.java:170-273 | a test whose flags give an engine no open gate adds nothing to that engine's accumulator |
| Runner.TestRunSelects | test/java/org/mvel/tests/perftests/ELComparisons.java:170-273 | a test adds to an engine only when both testFlags and the test's flags select it, and to OGNL only with COMPILED |
| Runner.PassesAddsNothing | test/java/org/mvel/tests/perftests/ELComparisons.java:159-168 | any number of run() calls without an engine's bit (or OGNL's without COMPILED) leave that engine's total unchanged |
| Runner.ChainAddsNothing | test/java/org/mvel/tests/perftests/ELComparisons.java:161-163 | a sequence of runs none of which adds to an engine adds nothing to it |
| Runner.RepeatAddsNothing | test/java/org/mvel/tests/perftests/ELComparisons.java:117-119 | repeated passes none of which adds to an engine add nothing to it |
| Runner.TestScheduleAddsNothing | test/java/org/mvel/tests/perftests/ELComparisons.java:170-273 | the interpreted and compiled stages of a test whose flags close an engine's gates add nothing to that engine |
| Runner.StageRunnerShares | test/java/org/mvel/tests/perftests/ELComparisons.java:225-263 | a stage adds nothing to the other engine, nor anything behind a closed gate |
| Runner.EnginePathNonnegative | test/java/org/mvel/tests/perftests/ELComparisons.java:225-227 | on a clock that never runs backwards, a path never lowers an accumulator |
| Runner.ChainNonnegative | test/java/org/mvel/tests/perftests/ELComparisons.java:161-163 | a sequence of runs that never lower the totals never lowers them |
| Runner.RepeatNonnegative | test/java/org/mvel/tests/perftests/ELComparisons.java:117-119 | repeated passes that never lower the totals never lower them |
| Runner.StageRunnerNonnegative | test/java/org/mvel/tests/perftests/ELComparisons.java:225-263 | on a clock that never runs backwards, no stage lowers either total |
| Runner.TestScheduleNonnegative | test/java/org/mvel/tests/perftests/ELComparisons.java:170-273 | the schedule of a test whose stages never lower the totals never lowers them |
| Runner.TestRunNonnegative | test/java/org/mvel/tests/perftests/ELComparisons.java:170-273 | on a clock that never runs backwards, runTest never lowers either total |
| Runner.PassesNonnegative | test/java/org/mvel/tests/perftests/ELComparisons.java:159-168 | on a clock that never runs backwards, run() calls only ever raise the two totals |
| Runner.EnginePathUnderFixedLatency | test/java/org/mvel/tests/perftests/ELComparisons.java:192-227 | with a fixed latency, a gated path's effect does not depend on when it starts |
| Runner.ChainShiftInvariant | test/java/org/mvel/tests/perftests/ELComparisons.java:161-163 | a sequence of runs that do not depend on their start does not depend on its start |
| Runner.StageRunnerShiftInvariant | test/java/org/mvel/tests/perftests/ELComparisons.java:181-362 | with a fixed latency, no stage's effect depends on when it starts |
| Runner.TestScheduleShiftInvariant | test/java/org/mvel/tests/perftests/ELComparisons.java:170-273 | a test's schedule over start-independent stages is start-independent |
| Runner.TestRunUnderFixedLatency | test/java/org/mvel/tests/perftests/ELComparisons.java:170-273 | with a fixed latency, what runTest adds does not depend on when it starts |
| Runner.RepeatConstant | test/java/org/mvel/tests/perftests/ELComparisons.java:117-119 | n repetitions of a start-independent pass add n times its amounts |
| Runner.PassesUnderFixedLatency | test/java/org/mvel/tests/perftests/ELComparisons.java:117-125 | with a fixed latency, n run() calls on one object add n times what one pass adds, since nothing resets the totals |
| Cli.ParseFrom | test/java/org/mvel/tests/perftests/ELComparisons.java:80-92 | the reference argument loop from index i: each switch updates its option, `-threaded` consumes the next argument as the thread count or throws |
| Cli.ParseSpec | test/java/org/mvel/tests/perftests/ELComparisons.java:70-92 | the argument loop from index 0 with the initial values of main's locals |
| Cli.Switch | test/java/org/mvel/tests/perftests/ELComparisons.java:81-92 | what one argument other than `-threaded` does to the options |
| Cli.ModeOf | test/java/org/mvel/tests/perftests/ELComparisons.java:97 | the mode word main composes from the parsed options |
| Cli.ParseArgs | test/java/org/mvel/tests/perftests/ELComparisons.java:79-95 | the index-advancing argument loop gives the same options or exception as the parse from index 0 with the defaults |
| Cli.SwitchEffect | test/java/org/mvel/tests/perftests/ELComparisons.java:81-92 | each switch other than -threaded sets only its own option |
| Cli.ParsesAsSwitches | test/java/org/mvel/tests/perftests/ELComparisons.java:80-93 | without -threaded, parsing cannot fail and applies each switch in turn |
| Cli.SwitchesApplied | test/java/org/mvel/tests/perftests/ELComparisons.java:80-93 | applying the switches sets each option exactly when its switch appears, whatever the order, and leaves multithreaded and threadMax alone |
| Cli.NoThreadedOptions | test/java/org/mvel/tests/perftests/ELComparisons.java:70-95 | without -threaded: not multithreaded, threadMax 1, compiled iff no -nocompiled, interpreted iff no -nointerpret, silent iff -silent, continuous iff -continuous |
| Cli.ModesKeptUnlessSwitchedOff | test/java/org/mvel/tests/perftests/ELComparisons.java:80-93 | a successful parse keeps compiled unless -nocompiled appears and interpreted unless -nointerpret appears |
| Cli.ModesKept | test/java/org/mvel/tests/perftests/ELComparisons.java:97 | COMPILED is set unless -nocompiled appears, and INTERPRETED unless -nointerpret appears |
| Cli.ThreadedLastFails | test/java/org/mvel/tests/perftests/ELComparisons.java:82-85 | reaching -threaded as the last argument throws MissingThreadCount |
| Cli.ThreadedLastThrows | test/java/org/mvel/tests/perftests/ELComparisons.java:80-92 | from any index, an argument list whose last element is `-threaded` makes the loop throw: MissingThreadCount, or BadThreadCount for an earlier `-threaded` whose count Integer.parseInt refuses |
| Cli.MissingThreadCountFails | test/java/org/mvel/tests/perftests/ELComparisons.java:80-92 | any argument list ending in -threaded makes the parse throw (MissingThreadCount or BadThreadCount); it is MissingThreadCount when no earlier -threaded is reached |
| Driver.ThreadCount | test/java/org/mvel/tests/perftests/ELComparisons.java:102 | the thread count of sweep step k: 1 + 5k, so the `threadNumber` loop visits 1, 6, ..., 96 |
| Driver.PassRunner | test/java/org/mvel/tests/perftests/ELComparisons.java:112-123 | n run() calls of the thread loop on one object with the given flags, one after the other |
| Driver.Stressor | test/java/org/mvel/tests/perftests/ELComparisons.java:108-129 | a step's two fresh objects: the OGNL one with flags + RUN_OGNL, the MVEL one with flags + RUN_MVEL |
| Driver.Totals | test/java/org/mvel/tests/perftests/ELComparisons.java:125-151 | the record of one step: the OGNL object's OGNL total, the MVEL object's MVEL total and their HALF_UP ratio, with the two readings of `totaltime` |
| Driver.StressTest | test/java/org/mvel/tests/perftests/ELComparisons.java:103-151 | one sweep step: a reading, the OGNL object's passes, the MVEL object's passes, a reading, and the record |
| Driver.SweepSteps | test/java/org/mvel/tests/perftests/ELComparisons.java:102-153 | the first k steps of the sweep for thread counts 1, 6, ..., each started where the previous stopped, ending at the first division by zero |
| Driver.MainSpec | test/java/org/mvel/tests/perftests/ELComparisons.java:66-157 | the reference effect of main: a parse failure, nothing without -threaded, or the twenty-step sweep |
| Driver.Launch | test/java/org/mvel/tests/perftests/ELComparisons.java:66-157 | main returns the records and exception of its specification, and takes its readings and prints its lines |
| Driver.StressSweep | test/java/org/mvel/tests/perftests/ELComparisons.java:102-153 | the sweep loop produces the twenty-step sweep, stopping at the first division by zero |
| Driver.SweepOnce | test/java/org/mvel/tests/perftests/ELComparisons.java:103-151 | one more step extends the sweep by its record, failing exactly when its ratio is undefined |
| Driver.StressRun | test/java/org/mvel/tests/perftests/ELComparisons.java:104-151 | one step: a reading, n passes of a fresh OGNL object, n passes of a fresh MVEL object, a reading, and the record of the two totals and their ratio |
| Driver.FreshPasses | test/java/org/mvel/tests/perftests/ELComparisons.java:108-125 | a fresh object with the given flags, run by n threads, ends with totals equal to n sequential passes from 0 |
| Driver.RunThreads | test/java/org/mvel/tests/perftests/ELComparisons.java:112-123 | n threads started with run() add exactly n sequential catalog passes on the same object |
| Driver.FailedSweepStops | test/java/org/mvel/tests/perftests/ELComparisons.java:151 | after a failed step, later steps change nothing: main has already thrown |
| Driver.SweepStops | test/java/org/mvel/tests/perftests/ELComparisons.java:102-153 | the sweep has at most k records; all but the last have a ratio; no failure means all k records with ratios; a failure is a division by zero at the last record |
| Driver.SweepRecordAt | test/java/org/mvel/tests/perftests/ELComparisons.java:103-151 | record i is the step with ThreadCount(i) threads, run from the reading where the first i steps stopped |
| Driver.StressorRecords | test/java/org/mvel/tests/perftests/ELComparisons.java:149-151 | a step records its thread count, threadMax and the ratio of its two totals |
| Driver.MainSweep | test/java/org/mvel/tests/perftests/ELComparisons.java:102-155 | with -threaded: at most twenty records for 1, 6, ..., 96 threads; all twenty exactly when no OGNL total is 0; otherwise an ArithmeticException right after the first record with OGNL total 0 |
| Driver.MainWithoutThreaded | test/java/org/mvel/tests/perftests/ELComparisons.java:102 | without -threaded, main runs no test, reads no clock and prints nothing |
| Driver.MainMissingThreadCount | test/java/org/mvel/tests/perftests/ELComparisons.java:80-92 | -threaded as the last argument: main throws with no records, no readings and no lines; the exception is MissingThreadCount when no earlier -threaded is reached |
| Driver.StressorWithoutCompiled | test/java/org/mvel/tests/perftests/ELComparisons.java:108-125 | without the compiled mode the OGNL object's total is 0 at every step |
| Driver.MainWithoutCompiled | test/java/org/mvel/tests/perftests/ELComparisons.java:151 | -threaded with -nocompiled: exactly one record, for 1 thread, with OGNL total 0 and no ratio, and a division by zero |
| Driver.PassRunnerUnderFixedLatency | test/java/org/mvel/tests/perftests/ELComparisons.java:112-125 | with a fixed latency, n passes of a fresh object total n times one pass |
| Driver.StressScaled | test/java/org/mvel/tests/perftests/ELComparisons.java:125-151 | totals that scale with n give a step totals n·a and n·b and, for n > 0, the ratio of b to a |
| Driver.SweepConstantRatio | test/java/org/mvel/tests/perftests/ELComparisons.java:102-153 | if every step has ratio q, all records show q, and the sweep runs every step (q defined) or stops after the first (q undefined) |
| Driver.MainUnderFixedLatency | test/java/org/mvel/tests/perftests/ELComparisons.java:102-153 | with a fixed latency, step i's totals are ThreadCount(i) times one pass, every ratio is the same q, and there are twenty records or, when q is undefined, one |
| Driver.PassRunnerNonnegative | test/java/org/mvel/tests/perftests/ELComparisons.java:108-143 | on a clock that never runs backwards, no fresh object's passes gain a negative amount |
| Driver.StressNonnegative | test/java/org/mvel/tests/perftests/ELComparisons.java:125-151 | nonnegative gains give a step nonnegative totals and, where defined, a nonnegative ratio |
| Driver.SweepNonnegative | test/java/org/mvel/tests/perftests/ELComparisons.java:102-153 | on a clock that never runs backwards, no sweep record has a negative total or ratio |
| Driver.MainNonnegative | test/java/org/mvel/tests/perftests/ELComparisons.java:149-151 | on a clock that never runs backwards, main prints no negative total and no negative ratio |

## Left out

- The clock is an input stream of readings, `clock: nat -> int`. No real time is read.
- `System.gc()`, `Runtime.freeMemory()` and the memory-delta figure of the average lines are left out. These are runtime calls, and nothing else depends on them.
- `Ognl.getValue`, `MVEL.eval`, `MVEL.executeExpression` and the `Base` context object are foreign code. Each call is reduced to success or an exception, according to the path's `Outcome`. `getOgnlCompiled`/`getMvelCompiled` become the compiled-mode outcomes.
- `Thread` construction, `join()` and the `synchronized` blocks are left out. Every thread is started with `run()`, so nothing runs concurrently, and the accumulator updates are plain sequential field updates.
- Console text other than the two report lines of a path is left out: the test header lines, the separator, and the sweep's summary text. The sweep's records are returned.
- `Integer.parseInt` is a parameter, `string -> Option<int>`. `None` stands for NumberFormatException (`Cli.Failure.BadThreadCount`).
- The `args != null` check (line 79) is left out: a Dafny sequence is never null.
- Runner.ELComparisons.GatedPath: the totals are unbounded integers. Java `long` wrap-around beyond 2^63 - 1 milliseconds is not modelled, because no realistic run reaches it. The same holds for `total` and `res` in `Runner.TimedReps` and `Runner.RecordRep`.
- Runner.ELComparisons.MeasurePath: the interpreted block (line 188) and each runTestCompiled call (line 280) allocate one `res` of zeros, which both paths of that block share, so the compiled MVEL path starts from the entries the compiled OGNL path wrote. The model does not state that the fresh array holds zeros; it states that each path writes its entries from index 0 and leaves the rest as they were, which covers the sharing.
- The exception handler of `run()` (line 165) is left out. Every exception an engine call raises is caught inside `runTest`/`runTestCompiled`, and the calls around them (`getRunFlags`, `getOgnlCompiled`, ...) are not part of this model.
- `-continuous` and `threadMax` are parsed and carried along but steer nothing. `threadMax` appears only in the summary record.
- Driver.StressSweep: the source's `threadNumber` loop (`1; < 100; += 5`) is modelled as twenty steps `k`, with `threadNumber = 1 + 5k`. These are the same thread counts in the same order.
- The static `tests` list is a constant field of each object, set to the one active catalog entry (line 48). The commented-out entries are not modelled.
- Runner.Engines: an engine's outcome on a test in a mode is one fixed `Outcome` for the whole run. Every run() pass, every sweep step and both fresh objects see the same outcome, although nothing in the source guarantees that an expression behaves the same from one pass to the next. `Runner.PassesUnderFixedLatency`, `Driver.PassRunnerUnderFixedLatency`, `Driver.StressScaled`, `Driver.SweepConstantRatio` and `Driver.MainUnderFixedLatency` rely on this; the other lemmas hold for any fixed assignment of outcomes.
- Trials.Report: a report line does not record which engine and mode printed it, so the `(OGNL)` and `(MVEL)` labels of the lines are not modelled; the order of the lines in `out` follows the order of the paths.
- Cli.MissingThreadCountFails: Integer.parseInt is a parameter, so the lemma requires that it refuses the literal `-threaded`, as Java's Integer.parseInt does; an earlier `-threaded` could otherwise consume the last argument as its count.
