/** The second version of the runner, unittest_parallel/main.py: the same pool over the
    non-empty top-level suites, now with a `Ran` line, an exit status, and optional coverage
    driven through `_coverage_start`/`_coverage_end`. */
module LegacyMain {
  import opened Wrappers
  import opened Text
  import opened Partition
  import opened Cli
  import opened Coverage
  import Worker
  import Report
  import LegacyInit

  /** What `_runtest` returns for one suite: tests run, formatted errors, formatted failures. */
  datatype Triple = Triple(run: nat, errors: seq<string>, failures: seq<string>)

  // ---------------------------------------------------------------------------
  // Coverage sessions

  /** A session measures only when coverage is asked for (`--coverage-branch` implies it)
      and the coverage module could be imported. */
  predicate Measuring(args: Args, available: bool)
  {
    args.coverage && available
  }

  /** This version always passes `config_file`, `None` when no rcfile is given. */
  function LegacySettings(args: Args, dataFile: nat): (s: Settings)
    ensures s.configFile == Passed(args.coverageRcfile)
    ensures |s.omit| >= 1 && s.omit[|s.omit| - 1] == OwnFile
  {
    Settings(args.coverageBranch, dataFile, args.coverageInclude,
             OmitList(args.coverageOmit, OwnFile), args.coverageSource,
             Passed(args.coverageRcfile))
  }

  function LegacySessionCalls(args: Args, dataFile: nat): seq<Call>
  {
    [Construct(LegacySettings(args, dataFile)), Start, Stop, Save]
  }

  /** The calls of `n` complete sessions on the data files `first .. first + n - 1`. */
  function LegacySessions(args: Args, first: nat, n: nat): seq<Call>
  {
    if n == 0 then [] else LegacySessions(args, first, n - 1) + LegacySessionCalls(args, first + n - 1)
  }

  lemma {:induction false} LegacySessionsAreBracketed(args: Args, first: nat, n: nat)
    ensures |LegacySessions(args, first, n)| == 4 * n
    ensures Bracketed(LegacySessions(args, first, n), first)
  {
    if n > 0 {
      LegacySessionsAreBracketed(args, first, n - 1);
      BracketedSnoc(LegacySessions(args, first, n - 1), first, n - 1, LegacySessionCalls(args, first + n - 1));
    }
  }

  /** `_coverage_start`: a fresh data file, a coverage object for it, measurement started. */
  method CoverageStart(env: Collaborator, args: Args, available: bool)
    modifies env
    ensures Measuring(args, available) ==>
      env.dataFiles == old(env.dataFiles) + 1
      && env.calls == old(env.calls) + [Construct(LegacySettings(args, old(env.dataFiles))), Start]
    ensures !Measuring(args, available) ==> env.dataFiles == old(env.dataFiles) && env.calls == old(env.calls)
  {
    if Measuring(args, available) {
      var dataFile := env.NewDataFile();
      env.Record(Construct(LegacySettings(args, dataFile)));
      env.Record(Start);
    }
  }

  /** `_coverage_end`: measurement stopped and saved. */
  method CoverageEnd(env: Collaborator, args: Args, available: bool)
    modifies env
    ensures env.calls == old(env.calls) + (if Measuring(args, available) then [Stop, Save] else [])
    ensures env.dataFiles == old(env.dataFiles)
  {
    if Measuring(args, available) {
      env.Record(Stop);
      env.Record(Save);
    }
  }

  // ---------------------------------------------------------------------------
  // Running the suites

  function ConfigOf(verbose: bool): Worker.RunnerConfig
  {
    Worker.RunnerConfig(LegacyInit.Verbosity(verbose), false, false, None, None)
  }

  /** The triple for a suite the runner completed, or its exception. */
  function TripleOf(o: Worker.RunOutcome): Result<Triple, string>
  {
    match o
    case Raised(e) => Failure(e)
    case Completed(res) => Success(Triple(res.testsRun, LegacyInit.FormatAll(res.errors), LegacyInit.FormatAll(res.failures)))
  }

  /** `_runtest`: one suite inside a coverage session that is closed however the run ends. */
  method RunTest(env: Collaborator, args: Args, available: bool, verbose: bool, suite: Test, runner: Worker.Runner)
    returns (r: Result<Triple, string>)
    modifies env
    ensures r == TripleOf(runner(suite, ConfigOf(verbose)))
    ensures env.dataFiles == old(env.dataFiles) + (if Measuring(args, available) then 1 else 0)
    ensures env.calls == old(env.calls)
      + (if Measuring(args, available) then LegacySessionCalls(args, old(env.dataFiles)) else [])
  {
    CoverageStart(env, args, available);
    r := TripleOf(runner(suite, ConfigOf(verbose)));
    CoverageEnd(env, args, available);
  }

  /** What `_runtest` gives for each suite, in order. */
  function TriplesOf(outs: seq<Worker.RunOutcome>): (rs: seq<Result<Triple, string>>)
    ensures |rs| == |outs|
  {
    if outs == [] then [] else [TripleOf(outs[0])] + TriplesOf(outs[1..])
  }

  lemma {:induction false} TriplesOfAt(outs: seq<Worker.RunOutcome>, i: nat)
    requires i < |outs|
    ensures TriplesOf(outs)[i] == TripleOf(outs[i])
  {
    if i > 0 {
      TriplesOfAt(outs[1..], i - 1);
    }
  }

  /** `pool.map` over the suites' results: every triple in suite order, or the first
      exception. */
  function MapTriples(rs: seq<Result<Triple, string>>): (r: Result<seq<Triple>, string>)
    ensures r.Success? ==> |r.value| == |rs|
  {
    if rs == [] then Success([])
    else match rs[0]
      case Failure(e) => Failure(e)
      case Success(t) =>
        match MapTriples(rs[1..])
        case Failure(e) => Failure(e)
        case Success(ts) => Success([t] + ts)
  }

  /** How many suites reach the runner: all of them, or up to and including the first that
      raises. */
  function Reached(rs: seq<Result<Triple, string>>): (n: nat)
    ensures n <= |rs|
  {
    if rs == [] then 0
    else if rs[0].Failure? then 1
    else 1 + Reached(rs[1..])
  }

  /** When no suite raises, every suite reaches the runner. */
  lemma {:induction false} ReachedAll(rs: seq<Result<Triple, string>>)
    requires MapTriples(rs).Success?
    ensures Reached(rs) == |rs|
  {
    if rs != [] {
      ReachedAll(rs[1..]);
    }
  }

  lemma {:induction false} MapTriplesSnoc(rs: seq<Result<Triple, string>>, r: Result<Triple, string>)
    requires MapTriples(rs).Success?
    ensures MapTriples(rs + [r]) ==
      match r
      case Failure(e) => Failure(e)
      case Success(t) => Success(MapTriples(rs).value + [t])
    ensures Reached(rs + [r]) == |rs| + 1
  {
    if rs == [] {
      assert rs + [r] == [r];
      assert [r][1..] == [];
      if r.Success? {
        assert [r.value] + [] == [] + [r.value];
      }
    } else {
      assert (rs + [r])[0] == rs[0];
      assert (rs + [r])[1..] == rs[1..] + [r];
      MapTriplesSnoc(rs[1..], r);
      var t0, rest := rs[0].value, MapTriples(rs[1..]).value;
      if r.Success? {
        assert [t0] + (rest + [r.value]) == ([t0] + rest) + [r.value];
      }
    }
  }

  /** Once a suite raises, nothing after it changes the result. */
  lemma {:induction false} MapTriplesAborts(rs: seq<Result<Triple, string>>, rest: seq<Result<Triple, string>>)
    requires MapTriples(rs).Failure?
    ensures MapTriples(rs + rest) == MapTriples(rs)
    ensures Reached(rs + rest) == Reached(rs)
  {
    assert (rs + rest)[0] == rs[0];
    if rs[0].Success? {
      assert (rs + rest)[1..] == rs[1..] + rest;
      MapTriplesAborts(rs[1..], rest);
    }
  }

  lemma LegacySessionsSnoc(args: Args, calls0: seq<Call>, first: nat, n: nat)
    ensures calls0 + LegacySessions(args, first, n) + LegacySessionCalls(args, first + n)
         == calls0 + LegacySessions(args, first, n + 1)
  {
  }

  /** One more suite mapped after the first `i`, all of which completed. */
  lemma MapStep(rs: seq<Result<Triple, string>>, i: nat)
    requires i < |rs| && MapTriples(rs[..i]).Success? && rs[i].Success?
    ensures MapTriples(rs[..i + 1]) == Success(MapTriples(rs[..i]).value + [rs[i].value])
    ensures Reached(rs[..i + 1]) == i + 1
  {
    assert rs[..i + 1] == rs[..i] + [rs[i]];
    MapTriplesSnoc(rs[..i], rs[i]);
  }

  /** A suite that raises after `i` completed ones ends the map with its exception. */
  lemma MapAborts(rs: seq<Result<Triple, string>>, i: nat)
    requires i < |rs| && MapTriples(rs[..i]).Success? && rs[i].Failure?
    ensures MapTriples(rs) == Failure(rs[i].error) && Reached(rs) == i + 1
  {
    var upTo, later := rs[..i + 1], rs[i + 1..];
    assert rs == upTo + later;
    assert upTo == rs[..i] + [rs[i]];
    MapTriplesSnoc(rs[..i], rs[i]);
    MapTriplesAborts(upTo, later);
  }

  /** `_runtest` on the suite after the first `i`, seen as one more complete session. */
  method RunNext(env: Collaborator, args: Args, available: bool, verbose: bool, suite: Test,
                 runner: Worker.Runner, ghost calls0: seq<Call>, ghost files0: nat, ghost i: nat)
    returns (r: Result<Triple, string>)
    requires env.dataFiles == files0 + (if Measuring(args, available) then i else 0)
    requires env.calls == calls0 + (if Measuring(args, available) then LegacySessions(args, files0, i) else [])
    modifies env
    ensures r == TripleOf(runner(suite, ConfigOf(verbose)))
    ensures env.dataFiles == files0 + (if Measuring(args, available) then i + 1 else 0)
    ensures env.calls == calls0 + (if Measuring(args, available) then LegacySessions(args, files0, i + 1) else [])
  {
    ghost var before := env.calls;
    r := RunTest(env, args, available, verbose, suite, runner);
    if Measuring(args, available) {
      assert env.calls == calls0 + LegacySessions(args, files0, i) + LegacySessionCalls(args, files0 + i);
      LegacySessionsSnoc(args, calls0, files0, i);
    } else {
      assert env.calls == before + [] == calls0 + [];
    }
  }

  /** `pool.map(_runtest, ...)`, one suite after another. */
  method PoolMap(env: Collaborator, args: Args, available: bool, verbose: bool, suites: seq<Test>, runner: Worker.Runner)
    returns (r: Result<seq<Triple>, string>)
    modifies env
    ensures r == MapTriples(TriplesOf(Worker.Outcomes(suites, runner, ConfigOf(verbose))))
    ensures var n := Reached(TriplesOf(Worker.Outcomes(suites, runner, ConfigOf(verbose))));
      && env.dataFiles == old(env.dataFiles) + (if Measuring(args, available) then n else 0)
      && env.calls == old(env.calls) + (if Measuring(args, available) then LegacySessions(args, old(env.dataFiles), n) else [])
  {
    ghost var outs := Worker.Outcomes(suites, runner, ConfigOf(verbose));
    ghost var rs := TriplesOf(outs);
    ghost var calls0, files0 := env.calls, env.dataFiles;
    var triples: seq<Triple> := [];
    var i := 0;
    while i < |suites|
      invariant 0 <= i <= |suites|
      invariant MapTriples(rs[..i]) == Success(triples)
      invariant Reached(rs[..i]) == i
      invariant env.dataFiles == files0 + (if Measuring(args, available) then i else 0)
      invariant env.calls == calls0 + (if Measuring(args, available) then LegacySessions(args, files0, i) else [])
    {
      var one := RunNext(env, args, available, verbose, suites[i], runner, calls0, files0, i);
      TriplesOfAt(outs, i);
      assert one == rs[i];
      if one.Failure? {
        MapAborts(rs, i);
        return Failure(one.error);
      }
      MapStep(rs, i);
      triples := triples + [one.value];
      i := i + 1;
    }
    assert rs[..i] == rs;
    r := Success(triples);
  }

  // ---------------------------------------------------------------------------
  // The report

  /** `sum(run for run, _, _ in results)`. */
  function RunCount(ts: seq<Triple>): nat
  {
    if ts == [] then 0 else ts[0].run + RunCount(ts[1..])
  }

  function AllErrors(ts: seq<Triple>): seq<string>
  {
    if ts == [] then [] else ts[0].errors + AllErrors(ts[1..])
  }

  function AllFailures(ts: seq<Triple>): seq<string>
  {
    if ts == [] then [] else ts[0].failures + AllFailures(ts[1..])
  }

  /** Summing a longer run adds the last suite's count. */
  lemma {:induction false} RunCountSnoc(ts: seq<Triple>, t: Triple)
    ensures RunCount(ts + [t]) == RunCount(ts) + t.run
    ensures AllErrors(ts + [t]) == AllErrors(ts) + t.errors
    ensures AllFailures(ts + [t]) == AllFailures(ts) + t.failures
  {
    if ts == [] {
      assert ts + [t] == [t];
      assert [t][1..] == [];
    } else {
      assert (ts + [t])[0] == ts[0];
      assert (ts + [t])[1..] == ts[1..] + [t];
      RunCountSnoc(ts[1..], t);
    }
  }

  /** The report: a blank line, `Ran n tests` (always plural), then the error and failure
      block of the first version. */
  function ReportLines(ts: seq<Triple>): (lines: seq<string>)
    ensures |lines| >= 2 && lines[..2] == ["", "Ran " + Decimal(RunCount(ts)) + " tests"]
    ensures lines[2..] == LegacyInit.ProblemLines(AllErrors(ts), AllFailures(ts))
    ensures |lines| == 2 <==> AllErrors(ts) == [] && AllFailures(ts) == []
  {
    ["", "Ran " + Decimal(RunCount(ts)) + " tests"] + LegacyInit.ProblemLines(AllErrors(ts), AllFailures(ts))
  }

  /** The exit status: the error and failure count when there are any (unexpected
      successes do not count); otherwise 2 when coverage was measured and falls under a
      non-zero threshold, else 0. */
  function ExitStatus(ts: seq<Triple>, measuring: bool, threshold: Option<real>, percent: real): (s: nat)
    ensures AllErrors(ts) != [] || AllFailures(ts) != [] ==> s == |AllErrors(ts)| + |AllFailures(ts)| && s >= 1
    ensures AllErrors(ts) == [] && AllFailures(ts) == [] ==>
      (s == 2 <==> measuring && Report.FailsUnder(threshold, percent))
      && (s == 0 <==> !(measuring && Report.FailsUnder(threshold, percent)))
  {
    var problems := |AllErrors(ts)| + |AllFailures(ts)|;
    if problems > 0 then problems
    else if measuring && Report.FailsUnder(threshold, percent) then 2
    else 0
  }

  /** The calls of the combined report: this version always passes `config_file`. */
  function CoverageTail(args: Args, dataFiles: nat): seq<Call>
  {
    [ConstructCombiner(Passed(args.coverageRcfile)), Combine(Range(dataFiles)), ReportCall]
      + (if args.coverageHtml.Some? && args.coverageHtml.value != "" then [HtmlReport(args.coverageHtml.value)] else [])
      + (if args.coverageXml.Some? && args.coverageXml.value != "" then [XmlReport(args.coverageXml.value)] else [])
  }

  /** The combined report at the end of a run without errors or failures. */
  method CombineCoverage(env: Collaborator, args: Args)
    modifies env
    ensures env.calls == old(env.calls) + CoverageTail(args, old(env.dataFiles))
    ensures env.dataFiles == old(env.dataFiles)
  {
    env.Record(ConstructCombiner(Passed(args.coverageRcfile)));
    env.Record(Combine(Range(env.dataFiles)));
    env.Record(ReportCall);
    if args.coverageHtml.Some? && args.coverageHtml.value != "" {
      env.Record(HtmlReport(args.coverageHtml.value));
    }
    if args.coverageXml.Some? && args.coverageXml.value != "" {
      env.Record(XmlReport(args.coverageXml.value));
    }
  }

  /** The lines after the report when coverage was measured; the coverage library's own
      table, written after the first blank line, is not part of this model. */
  function CoverageLines(percentText: string): seq<string>
  {
    ["", "", "Total coverage is " + percentText + "%"]
  }

  /** What the pool returns for the suites. */
  function PoolRun(verbose: bool, suites: seq<Test>, runner: Worker.Runner): Result<seq<Triple>, string>
  {
    MapTriples(TriplesOf(Worker.Outcomes(suites, runner, ConfigOf(verbose))))
  }

  /** No error and no failure in any suite. */
  predicate Clean(ts: seq<Triple>)
  {
    AllErrors(ts) == [] && AllFailures(ts) == []
  }

  /** The exit status once the pool has returned `mapped`, or the exception it raised. */
  function StatusAfter(args: Args, available: bool, mapped: Result<seq<Triple>, string>, percent: real): Result<nat, string>
  {
    match mapped
    case Failure(e) => Failure(e)
    case Success(ts) => Success(ExitStatus(ts, Measuring(args, available), args.coverageFailUnder, percent))
  }

  /** The lines written once the pool has returned `mapped`: nothing when it raised,
      otherwise the report and, when nothing failed and coverage was measured, the total. */
  function LinesAfter(args: Args, available: bool, mapped: Result<seq<Triple>, string>, percentText: string): seq<string>
  {
    match mapped
    case Failure(_) => []
    case Success(ts) =>
      ReportLines(ts) + (if Measuring(args, available) && Clean(ts) then CoverageLines(percentText) else [])
  }

  /** The whole coverage trace when `sessions` sessions were measured and the pool returned
      `mapped`: the sessions, then the combined report when nothing failed. */
  function TraceAfter(args: Args, available: bool, mapped: Result<seq<Triple>, string>, sessions: nat): seq<Call>
  {
    (if Measuring(args, available) then LegacySessions(args, 0, sessions) else [])
    + (if Measuring(args, available) && mapped.Success? && Clean(mapped.value) then CoverageTail(args, sessions) else [])
  }

  /** `main` after argument parsing: discovery inside a coverage session, the pool over the
      non-empty top-level suites (with as many processes as asked for, not clamped), the
      report, and the coverage step when nothing failed. Returns the exit status, or the
      exception that escapes the pool; the lines written to standard output; the calls on
      the coverage library. */
  method Execute(rawArgs: Args, verbose: bool, available: bool, cpuCount: nat, discovered: Test,
                 runner: Worker.Runner, percent: real, percentText: string)
    returns (status: Result<nat, string>, processes: nat, lines: seq<string>, trace: seq<Call>)
    requires discovered.Suite?
    ensures processes == RequestedProcesses(Normalize(rawArgs).jobs, cpuCount)
    ensures var args := Normalize(rawArgs);
      status == StatusAfter(args, available, PoolRun(verbose, ModuleSuites(discovered), runner), percent)
    ensures var args := Normalize(rawArgs);
      lines == LinesAfter(args, available, PoolRun(verbose, ModuleSuites(discovered), runner), percentText)
    ensures var args := Normalize(rawArgs);
      var rs := TriplesOf(Worker.Outcomes(ModuleSuites(discovered), runner, ConfigOf(verbose)));
      trace == TraceAfter(args, available, MapTriples(rs), 1 + Reached(rs))
  {
    var args := Normalize(rawArgs);
    processes := RequestedProcesses(args.jobs, cpuCount);
    var env := Discover(args, available);
    var suites := ModuleSuites(discovered);
    status, lines, trace := RunAndReport(env, args, available, verbose, suites, runner, percent, percentText);
  }

  /** The temporary directory, and discovery measured like a suite. */
  method Discover(args: Args, available: bool) returns (env: Collaborator)
    ensures fresh(env)
    ensures env.dataFiles == (if Measuring(args, available) then 1 else 0)
    ensures env.calls == (if Measuring(args, available) then LegacySessions(args, 0, 1) else [])
  {
    env := new Collaborator();
    CoverageStart(env, args, available);
    CoverageEnd(env, args, available);
    assert Measuring(args, available) ==> env.calls == LegacySessions(args, 0, 1);
  }

  /** The pool over the suites, then, unless an exception escaped it, the report and the
      coverage step; the discovery session is already recorded. */
  method RunAndReport(env: Collaborator, args: Args, available: bool, verbose: bool, suites: seq<Test>,
                      runner: Worker.Runner, percent: real, percentText: string)
    returns (status: Result<nat, string>, lines: seq<string>, trace: seq<Call>)
    requires env.dataFiles == (if Measuring(args, available) then 1 else 0)
    requires env.calls == (if Measuring(args, available) then LegacySessions(args, 0, 1) else [])
    modifies env
    ensures status == StatusAfter(args, available, PoolRun(verbose, suites, runner), percent)
    ensures lines == LinesAfter(args, available, PoolRun(verbose, suites, runner), percentText)
    ensures var rs := TriplesOf(Worker.Outcomes(suites, runner, ConfigOf(verbose)));
      trace == TraceAfter(args, available, MapTriples(rs), 1 + Reached(rs))
  {
    ghost var rs := TriplesOf(Worker.Outcomes(suites, runner, ConfigOf(verbose)));
    var mapped := PoolMap(env, args, available, verbose, suites, runner);
    ghost var n := Reached(rs);
    if Measuring(args, available) {
      LegacySessionsShift(args, n);
    }
    ghost var runTrace := if Measuring(args, available) then LegacySessions(args, 0, 1 + n) else [];
    assert env.calls == runTrace;
    assert env.dataFiles == if Measuring(args, available) then 1 + n else 0;
    if mapped.Failure? {
      status := Failure(mapped.error);
      lines := [];
      trace := env.calls;
      assert trace == runTrace + [];
      return;
    }
    var code;
    code, lines := Finish(env, args, available, mapped.value, percent, percentText);
    status := Success(code);
    trace := env.calls;
  }

  /** Everything after a pool run that returned: the report, the exit status and, when
      nothing failed and coverage was measured, the combined coverage report. */
  method Finish(env: Collaborator, args: Args, available: bool, ts: seq<Triple>, percent: real, percentText: string)
    returns (status: nat, lines: seq<string>)
    modifies env
    ensures var clean := Clean(ts);
      && status == ExitStatus(ts, Measuring(args, available), args.coverageFailUnder, percent)
      && lines == ReportLines(ts) + (if Measuring(args, available) && clean then CoverageLines(percentText) else [])
      && env.calls == old(env.calls) + (if Measuring(args, available) && clean then CoverageTail(args, old(env.dataFiles)) else [])
      && env.dataFiles == old(env.dataFiles)
  {
    lines := ReportLines(ts);
    var clean := Clean(ts);
    if !clean {
      status := ExitStatus(ts, Measuring(args, available), args.coverageFailUnder, percent);
      assert lines == ReportLines(ts) + [];
      assert env.calls == old(env.calls) + [];
      return;
    }
    status := 0;
    if Measuring(args, available) {
      CombineCoverage(env, args);
      lines := lines + CoverageLines(percentText);
      if Report.FailsUnder(args.coverageFailUnder, percent) {
        status := 2;
      }
    } else {
      assert lines == ReportLines(ts) + [];
      assert env.calls == old(env.calls) + [];
    }
  }

  /** The discovery session followed by `n` suite sessions is `1 + n` sessions from file 0. */
  lemma {:induction false} LegacySessionsShift(args: Args, n: nat)
    ensures LegacySessions(args, 0, 1) + LegacySessions(args, 1, n) == LegacySessions(args, 0, 1 + n)
  {
    if n > 0 {
      LegacySessionsShift(args, n - 1);
    } else {
      assert LegacySessions(args, 1, 0) == [];
    }
  }
}
