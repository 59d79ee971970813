/** `main` of src/unittest_parallel/main.py from the parsed command line on: discovery inside
    a coverage session, partitioning, the process count, the run over the pool, the
    aggregated report, the exit status and the combined coverage report. */
module Orchestrator {
  import opened Wrappers
  import opened Text
  import opened Partition
  import opened Cli
  import opened Report
  import opened Coverage
  import opened Worker

  /** The first line `main` writes to standard error. */
  function RunningLine(units: nat, totalTests: nat, processes: nat): string
  {
    "Running " + Decimal(units) + " test suites (" + Decimal(totalTests) + " total tests) across "
      + Decimal(processes) + " processes"
  }

  /** The calls of the combined coverage report: a combiner built with the configuration
      file only, combining every data file, the terminal report, then the HTML and XML
      reports when their options are non-empty. */
  function CoverageTail(args: Args, dataFiles: nat): seq<Call>
  {
    [ConstructCombiner(ConfigArgOf(args.coverageRcfile)), Combine(Range(dataFiles)), ReportCall]
      + (if args.coverageHtml.Some? && args.coverageHtml.value != "" then [HtmlReport(args.coverageHtml.value)] else [])
      + (if args.coverageXml.Some? && args.coverageXml.value != "" then [XmlReport(args.coverageXml.value)] else [])
  }

  /** The lines after the test report when coverage is on; the coverage library's own
      table, written in between, is not part of this model. */
  function CoverageLines(percentText: string): seq<string>
  {
    ["", "Total coverage is " + percentText + "%"]
  }

  /** What the pool returns for the units of `discovered`, fail-fast flag clear at the start. */
  function PoolRun(args: Args, discovered: Test, runner: Runner): Result<seq<ResultRecord>, string>
    requires discovered.Suite?
  {
    MapUnits(false, Outcomes(Units(discovered, args.level), runner, ConfigOf(args)))
  }

  /** How many of those units actually ran a test runner. */
  function PoolUnitsRun(args: Args, discovered: Test, runner: Runner): nat
    requires discovered.Suite?
  {
    UnitsRun(false, Outcomes(Units(discovered, args.level), runner, ConfigOf(args)))
  }

  /** The exit status once the pool has returned `mapped`, or the exception it raised. */
  function StatusAfter(args: Args, mapped: Result<seq<ResultRecord>, string>, percent: real): Result<nat, string>
  {
    match mapped
    case Failure(e) => Failure(e)
    case Success(rs) => Success(ExitStatus(Totals(rs), args.coverage, args.coverageFailUnder, percent))
  }

  /** The lines written once the pool has returned `mapped`: nothing when it raised,
      otherwise the report and, on success with coverage, the coverage total. */
  function LinesAfter(args: Args, mapped: Result<seq<ResultRecord>, string>, duration: string, percentText: string): seq<string>
  {
    match mapped
    case Failure(_) => []
    case Success(rs) =>
      ReportLines(Totals(rs), args.verbose, args.runner.Some? || args.result.Some?, duration)
      + (if args.coverage && Succeeded(Totals(rs)) then CoverageLines(percentText) else [])
  }

  /** The whole coverage trace when `sessions` sessions were measured and the pool returned
      `mapped`: the sessions, then the combined report on success. */
  function TraceAfter(args: Args, mapped: Result<seq<ResultRecord>, string>, sessions: nat): seq<Call>
  {
    (if args.coverage then Sessions(args, 0, sessions) else [])
    + (if args.coverage && mapped.Success? && Succeeded(Totals(mapped.value)) then CoverageTail(args, sessions) else [])
  }

  /** `main` after argument parsing. The discovered suite, the CPU count, the test runner,
      the formatted duration and the coverage percentage (with its two-decimal text) come
      from outside. Returns the exit status, or the exception that escapes the pool; the
      lines written to standard error; and the calls made on the coverage library. */
  method Execute(rawArgs: Args, cpuCount: nat, discovered: Test, runner: Runner,
                 duration: string, percent: real, percentText: string)
    returns (status: Result<nat, string>, processes: nat, lines: seq<string>, trace: seq<Call>)
    requires discovered.Suite?
    ensures var args := Normalize(rawArgs);
      processes == ClampProcesses(|Units(discovered, args.level)|, RequestedProcesses(args.jobs, cpuCount))
    ensures var args := Normalize(rawArgs);
      status == StatusAfter(args, PoolRun(args, discovered, runner), percent)
    ensures var args := Normalize(rawArgs);
      lines == [RunningLine(|Units(discovered, args.level)|, CountTestCases(discovered), processes)]
        + (if args.verbose > 1 then [""] else [])
        + LinesAfter(args, PoolRun(args, discovered, runner), duration, percentText)
    ensures var args := Normalize(rawArgs);
      trace == TraceAfter(args, PoolRun(args, discovered, runner), 1 + PoolUnitsRun(args, discovered, runner))
  {
    var args := Normalize(rawArgs);
    var env := Discover(args);
    var units := Units(discovered, args.level);
    processes := ClampProcesses(|units|, RequestedProcesses(args.jobs, cpuCount));
    // The `Running ...` line, and a blank line after it in verbose mode.
    var head := [RunningLine(|units|, CountTestCases(discovered), processes)]
      + (if args.verbose > 1 then [""] else []);
    var tail;
    status, tail, trace := RunAndReport(env, args, discovered, units, runner, duration, percent, percentText);
    lines := head + tail;
    // The three results follow the same branch of the pool's result.
    ghost var mapped := PoolRun(args, discovered, runner);
    if mapped.Success? {
      assert status == Success(ExitStatus(Totals(mapped.value), args.coverage, args.coverageFailUnder, percent));
    } else {
      assert status == Failure(mapped.error) && tail == [];
    }
  }

  /** The temporary directory, and discovery inside its own coverage session. */
  method Discover(args: Args) returns (env: Collaborator)
    ensures fresh(env)
    ensures env.dataFiles == (if args.coverage then 1 else 0)
    ensures env.calls == (if args.coverage then Sessions(args, 0, 1) else [])
  {
    env := new Collaborator();
    var active := Enter(env, args);
    Exit(env, active);
    assert args.coverage ==> env.calls == Sessions(args, 0, 1);
  }

  /** The pool over the units, then, unless an exception escaped it, the report and the
      coverage step; the discovery session is already recorded. */
  method RunAndReport(env: Collaborator, args: Args, discovered: Test, units: seq<Test>, runner: Runner,
                      duration: string, percent: real, percentText: string)
    returns (status: Result<nat, string>, lines: seq<string>, trace: seq<Call>)
    requires discovered.Suite? && units == Units(discovered, args.level)
    requires env.dataFiles == (if args.coverage then 1 else 0)
    requires env.calls == (if args.coverage then Sessions(args, 0, 1) else [])
    modifies env
    ensures status == StatusAfter(args, PoolRun(args, discovered, runner), percent)
    ensures lines == LinesAfter(args, PoolRun(args, discovered, runner), duration, percentText)
    ensures trace == env.calls
    ensures trace == TraceAfter(args, PoolRun(args, discovered, runner), 1 + PoolUnitsRun(args, discovered, runner))
  {
    ghost var outs := Outcomes(units, runner, ConfigOf(args));
    var manager := new ParallelTestManager(args, env);
    var mapped := PoolMap(manager, units, runner);
    ghost var ran := UnitsRun(false, outs);
    if args.coverage {
      SessionsShift(args, ran);
    }
    ghost var runTrace := if args.coverage then Sessions(args, 0, 1 + ran) else [];
    assert env.calls == runTrace;
    assert env.dataFiles == if args.coverage then 1 + ran else 0;
    if mapped.Failure? {
      status := Failure(mapped.error);
      lines := [];
      assert env.calls == runTrace + [];
      return status, lines, env.calls;
    }
    var status';
    status', lines := Finish(env, args, mapped.value, duration, percent, percentText);
    status := Success(status');
    trace := env.calls;
  }

  /** Everything after a pool run that returned: the aggregation, the report, the exit
      status and, on success with coverage, the combined coverage report. */
  method Finish(env: Collaborator, args: Args, records: seq<ResultRecord>,
                duration: string, percent: real, percentText: string)
    returns (status: nat, lines: seq<string>)
    modifies env
    ensures status == ExitStatus(Totals(records), args.coverage, args.coverageFailUnder, percent)
    ensures lines == ReportLines(Totals(records), args.verbose, args.runner.Some? || args.result.Some?, duration)
      + (if args.coverage && Succeeded(Totals(records)) then CoverageLines(percentText) else [])
    ensures env.calls == old(env.calls)
      + (if args.coverage && Succeeded(Totals(records)) then CoverageTail(args, old(env.dataFiles)) else [])
    ensures env.dataFiles == old(env.dataFiles)
  {
    var total, isSuccess := Aggregate(records);
    SucceededIffEveryUnitSucceeded(records);
    lines := ReportLines(total, args.verbose, args.runner.Some? || args.result.Some?, duration);
    if !isSuccess {
      return TestStatus(total), lines + [];
    }
    status := 0;
    if args.coverage {
      CombineCoverage(env, args);
      lines := lines + CoverageLines(percentText);
      if FailsUnder(args.coverageFailUnder, percent) {
        status := 2;
      }
    } else {
      lines := lines + [];
    }
  }

  /** The combined report at the end of a successful run with coverage. */
  method CombineCoverage(env: Collaborator, args: Args)
    modifies env
    ensures env.calls == old(env.calls) + CoverageTail(args, old(env.dataFiles))
    ensures env.dataFiles == old(env.dataFiles)
  {
    env.Record(ConstructCombiner(ConfigArgOf(args.coverageRcfile)));
    env.Record(Combine(Range(env.dataFiles)));
    env.Record(ReportCall);
    if args.coverageHtml.Some? && args.coverageHtml.value != "" {
      env.Record(HtmlReport(args.coverageHtml.value));
    }
    if args.coverageXml.Some? && args.coverageXml.value != "" {
      env.Record(XmlReport(args.coverageXml.value));
    }
  }

  /** The discovery session followed by `n` unit sessions is `1 + n` sessions from file 0. */
  lemma {:induction false} SessionsShift(args: Args, n: nat)
    ensures Sessions(args, 0, 1) + Sessions(args, 1, n) == Sessions(args, 0, 1 + n)
  {
    if n > 0 {
      SessionsShift(args, n - 1);
    } else {
      assert Sessions(args, 1, 0) == [];
    }
  }
}
