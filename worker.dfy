/** The worker side of src/unittest_parallel/main.py: `ParallelTestManager.run_tests`
    with its shared fail-fast flag and coverage session, `_format_error`, and the pool's
    order-preserving map over the work units, run one unit after another. */
module Worker {
  import opened Wrappers
  import opened Text
  import opened Partition
  import opened Cli
  import opened Report
  import opened Coverage

  /** One error or failure as the test runner reports it: the test's description
      (`result.getDescription(test)`) and the formatted traceback. */
  datatype Entry = Entry(description: string, text: string)

  /** What the test runner returns for one unit, `shouldStop` included. */
  datatype RunnerResult = RunnerResult(
    testsRun: nat,
    errors: seq<Entry>,
    failures: seq<Entry>,
    skipped: nat,
    expectedFailures: nat,
    unexpectedSuccesses: nat,
    shouldStop: bool)

  /** `runner.run(test_suite)` either completes or raises. */
  datatype RunOutcome = Completed(result: RunnerResult) | Raised(exception: string)

  /** The keyword arguments the runner is built with; custom classes are named. */
  datatype RunnerConfig = RunnerConfig(
    verbosity: int,
    failfast: bool,
    buffer: bool,
    runnerClass: Option<string>,
    resultClass: Option<string>)

  /** The test runner: an external collaborator, here any function of the unit and the
      configuration. */
  type Runner = (Test, RunnerConfig) -> RunOutcome

  function ConfigOf(args: Args): RunnerConfig
  {
    RunnerConfig(args.verbose, args.failfast, args.buffer, args.runner, args.result)
  }

  /** `unittest.TextTestResult.separator1`. */
  const Separator1 := Repeat('=', 70)

  /** `_format_error`: the 70-character rules of `unittest.TextTestResult` around the
      description, then the text. */
  function FormatError(e: Entry): (r: string)
    ensures |r| == 143 + |e.description| + |e.text|
  {
    ErrorBlock(Separator1, e.description, Separator2, e.text)
  }

  /** A block whose description is one line splits back into the rules, the description
      and the traceback. */
  lemma FormatErrorSplits(e: Entry)
    requires '\n' !in e.description
    ensures SplitLines(FormatError(e), 3) == [Separator1, e.description, Separator2, e.text]
  {
    ErrorBlockSplits(Separator1, e.description, Separator2, e.text);
  }

  /** `[self._format_error(result, error) for error in ...]`. */
  function FormatAll(es: seq<Entry>): (r: seq<string>)
    ensures |r| == |es|
  {
    if es == [] then [] else [FormatError(es[0])] + FormatAll(es[1..])
  }

  /** Every error is formatted, in the runner's order. */
  lemma {:induction false} FormatAllEach(es: seq<Entry>)
    ensures forall i :: 0 <= i < |es| ==> FormatAll(es)[i] == FormatError(es[i])
  {
    if es != [] {
      FormatAllEach(es[1..]);
      assert FormatAll(es) == [FormatError(es[0])] + FormatAll(es[1..]);
    }
  }

  /** The six-field record `run_tests` returns for a completed run. */
  function ToRecord(res: RunnerResult): ResultRecord
  {
    ResultRecord(res.testsRun, FormatAll(res.errors), FormatAll(res.failures),
                 res.skipped, res.expectedFailures, res.unexpectedSuccesses)
  }

  /** The record of a unit the runner reached, or its exception. */
  function RecordOf(o: RunOutcome): Result<ResultRecord, string>
  {
    match o
    case Raised(e) => Failure(e)
    case Completed(res) => Success(ToRecord(res))
  }

  /** Whether a unit the runner reached asks the others to stop. */
  predicate Stops(o: RunOutcome)
  {
    o.Completed? && o.result.shouldStop
  }

  class ParallelTestManager {
    const args: Args
    const env: Collaborator
    /** The shared fail-fast event. */
    var failfast: bool

    constructor (args: Args, env: Collaborator)
      ensures this.args == args && this.env == env && !failfast
    {
      this.args := args;
      this.env := env;
      failfast := false;
    }

    /** `run_tests`: short-circuits to the zero record once fail-fast is set; otherwise runs
        the unit inside a coverage session, sets fail-fast when the runner asks to stop, and
        returns the unit's record, or lets the runner's exception through after the session
        is closed. */
    method RunTests(unit: Test, runner: Runner) returns (r: Result<ResultRecord, string>)
      modifies this, env
      ensures old(failfast) ==> r == Success(Zero) && failfast
      ensures old(failfast) ==> env.calls == old(env.calls) && env.dataFiles == old(env.dataFiles)
      ensures !old(failfast) ==> r == RecordOf(runner(unit, ConfigOf(args)))
      ensures !old(failfast) ==> failfast == Stops(runner(unit, ConfigOf(args)))
      ensures !old(failfast) ==>
        env.calls == old(env.calls) + (if args.coverage then SessionCalls(args, old(env.dataFiles)) else [])
        && env.dataFiles == old(env.dataFiles) + (if args.coverage then 1 else 0)
    {
      if failfast {
        return Success(Zero);
      }
      var active := Enter(env, args);
      var outcome := runner(unit, ConfigOf(args));
      match outcome {
        case Raised(e) =>
          Exit(env, active);
          r := Failure(e);
        case Completed(res) =>
          if res.shouldStop {
            failfast := true;
          }
          r := Success(ToRecord(res));
          Exit(env, active);
      }
    }
  }

  // ---------------------------------------------------------------------------
  // The pool's map, one unit after another

  /** What the runner would do with each unit. */
  function Outcomes(units: seq<Test>, runner: Runner, config: RunnerConfig): (outs: seq<RunOutcome>)
    ensures |outs| == |units| && forall i :: 0 <= i < |units| ==> outs[i] == runner(units[i], config)
  {
    if units == [] then [] else [runner(units[0], config)] + Outcomes(units[1..], runner, config)
  }

  /** The records of `pool.map(run_tests, units)` with the pool running one unit after
      another, starting with the fail-fast flag `stopped`; the first exception aborts it. */
  function MapUnits(stopped: bool, outs: seq<RunOutcome>): Result<seq<ResultRecord>, string>
    decreases outs
  {
    if outs == [] then Success([])
    else if stopped then Prepend(Zero, MapUnits(true, outs[1..]))
    else match outs[0]
      case Raised(e) => Failure(e)
      case Completed(res) => Prepend(ToRecord(res), MapUnits(res.shouldStop, outs[1..]))
  }

  /** Puts a record in front of the records of the units after it, or passes an exception on. */
  function Prepend(record: ResultRecord, rest: Result<seq<ResultRecord>, string>): Result<seq<ResultRecord>, string>
  {
    match rest
    case Failure(e) => Failure(e)
    case Success(rs) => Success([record] + rs)
  }

  /** The fail-fast flag after the units of `outs`. */
  function FlagAfter(stopped: bool, outs: seq<RunOutcome>): bool
    decreases outs
  {
    if outs == [] then stopped
    else FlagAfter(stopped || (outs[0].Completed? && outs[0].result.shouldStop), outs[1..])
  }

  /** How many units actually reach the runner (and open a coverage session). */
  function UnitsRun(stopped: bool, outs: seq<RunOutcome>): nat
    decreases outs
  {
    if outs == [] || stopped then 0
    else if outs[0].Raised? then 1
    else 1 + UnitsRun(outs[0].result.shouldStop, outs[1..])
  }

  /** The records of a first group of units followed by those of the rest; an exception in
      either group is passed on. */
  function Concat(a: Result<seq<ResultRecord>, string>, b: Result<seq<ResultRecord>, string>): Result<seq<ResultRecord>, string>
  {
    match a
    case Failure(e) => Failure(e)
    case Success(rs) =>
      match b
      case Failure(e) => Failure(e)
      case Success(rs') => Success(rs + rs')
  }

  lemma PrependConcat(record: ResultRecord, a: Result<seq<ResultRecord>, string>, b: Result<seq<ResultRecord>, string>)
    ensures Prepend(record, Concat(a, b)) == Concat(Prepend(record, a), b)
  {
    if a.Success? && b.Success? {
      assert [record] + (a.value + b.value) == ([record] + a.value) + b.value;
    }
  }

  /** Mapping a first group of units, then the rest starting from the flag the first group
      left behind, is mapping all of them. */
  lemma {:induction false} MapUnitsAppend(stopped: bool, p: seq<RunOutcome>, q: seq<RunOutcome>)
    ensures MapUnits(stopped, p + q) == Concat(MapUnits(stopped, p), MapUnits(FlagAfter(stopped, p), q))
    ensures UnitsRun(stopped, p + q) ==
      UnitsRun(stopped, p) + (if MapUnits(stopped, p).Failure? then 0 else UnitsRun(FlagAfter(stopped, p), q))
    decreases p
  {
    if p == [] {
      assert p + q == q;
      if MapUnits(stopped, q).Success? {
        assert [] + MapUnits(stopped, q).value == MapUnits(stopped, q).value;
      }
    } else {
      assert (p + q)[0] == p[0];
      assert (p + q)[1..] == p[1..] + q;
      if stopped {
        MapUnitsAppend(true, p[1..], q);
        PrependConcat(Zero, MapUnits(true, p[1..]), MapUnits(FlagAfter(true, p[1..]), q));
      } else if p[0].Completed? {
        var res := p[0].result;
        MapUnitsAppend(res.shouldStop, p[1..], q);
        PrependConcat(ToRecord(res), MapUnits(res.shouldStop, p[1..]), MapUnits(FlagAfter(res.shouldStop, p[1..]), q));
      }
    }
  }

  /** The flag only ever goes from false to true. */
  lemma {:induction false} StoppedStaysStopped(outs: seq<RunOutcome>)
    ensures FlagAfter(true, outs)
    decreases outs
  {
    if outs != [] {
      StoppedStaysStopped(outs[1..]);
    }
  }

  /** Once the flag is set, every later unit is short-circuited to the zero record and
      none reaches the runner. */
  lemma {:induction false} StoppedShortCircuits(outs: seq<RunOutcome>)
    ensures MapUnits(true, outs).Success?
    ensures |MapUnits(true, outs).value| == |outs|
    ensures forall j :: 0 <= j < |outs| ==> MapUnits(true, outs).value[j] == Zero
    ensures UnitsRun(true, outs) == 0
  {
    if outs != [] {
      StoppedShortCircuits(outs[1..]);
    }
  }

  /** A completed map returns one record per unit. */
  lemma {:induction false} MapUnitsLength(stopped: bool, outs: seq<RunOutcome>)
    ensures MapUnits(stopped, outs).Success? ==> |MapUnits(stopped, outs).value| == |outs|
    decreases outs
  {
    if outs != [] {
      if stopped {
        MapUnitsLength(true, outs[1..]);
      } else if outs[0].Completed? {
        MapUnitsLength(outs[0].result.shouldStop, outs[1..]);
      }
    }
  }

  /** With the flag clear and no unit asking to stop or raising, every unit runs and each
      record is that unit's own, in unit order. */
  lemma {:induction false} NoStopRunsEveryUnit(outs: seq<RunOutcome>)
    requires forall i :: 0 <= i < |outs| ==> outs[i].Completed? && !outs[i].result.shouldStop
    ensures MapUnits(false, outs).Success?
    ensures |MapUnits(false, outs).value| == |outs|
    ensures forall i :: 0 <= i < |outs| ==> MapUnits(false, outs).value[i] == ToRecord(outs[i].result)
    ensures UnitsRun(false, outs) == |outs|
  {
    if outs != [] {
      NoStopRunsEveryUnit(outs[1..]);
      var rs := MapUnits(false, outs).value;
      assert rs == [ToRecord(outs[0].result)] + MapUnits(false, outs[1..]).value;
      forall i | 0 <= i < |outs|
        ensures rs[i] == ToRecord(outs[i].result)
      {
        if i > 0 {
          assert rs[i] == MapUnits(false, outs[1..]).value[i - 1];
        }
      }
    }
  }

  /** While the flag stays clear and nothing raises, every unit reaches the runner. */
  lemma {:induction false} UnitsRunWhileClear(stopped: bool, outs: seq<RunOutcome>)
    requires MapUnits(stopped, outs).Success? && !FlagAfter(stopped, outs)
    ensures !stopped && UnitsRun(stopped, outs) == |outs|
    decreases outs
  {
    if stopped {
      StoppedStaysStopped(outs);
    } else if outs != [] {
      UnitsRunWhileClear(outs[0].result.shouldStop, outs[1..]);
    }
  }

  /** An exception from a unit the runner reaches aborts the whole map. */
  lemma RaisedAbortsMap(outs: seq<RunOutcome>, k: nat)
    requires k < |outs| && MapUnits(false, outs[..k]).Success? && !FlagAfter(false, outs[..k])
    requires outs[k].Raised?
    ensures MapUnits(false, outs) == Failure(outs[k].exception)
    ensures UnitsRun(false, outs) == k + 1
  {
    var p, q := outs[..k], outs[k..];
    assert outs == p + q;
    MapUnitsAppend(false, p, q);
    assert q[0] == outs[k];
    MapUnitsLength(false, p);
    UnitsRunWhileClear(false, p);
  }

  /** When the unit at `k` runs and asks to stop, the records up to it are kept, every later
      unit gets the zero record, and exactly the units up to `k` reach the runner. */
  lemma AfterStopEveryUnitIsZero(outs: seq<RunOutcome>, k: nat)
    requires k < |outs| && MapUnits(false, outs[..k]).Success? && !FlagAfter(false, outs[..k])
    requires outs[k].Completed? && outs[k].result.shouldStop
    ensures MapUnits(false, outs).Success?
    ensures |MapUnits(false, outs).value| == |outs|
    ensures MapUnits(false, outs).value[..k] == MapUnits(false, outs[..k]).value
    ensures MapUnits(false, outs).value[k] == ToRecord(outs[k].result)
    ensures forall j :: k < j < |outs| ==> MapUnits(false, outs).value[j] == Zero
    ensures UnitsRun(false, outs) == k + 1
  {
    var p, q := outs[..k], outs[k..];
    assert outs == p + q;
    MapUnitsAppend(false, p, q);
    MapUnitsLength(false, p);
    UnitsRunWhileClear(false, p);
    var rs := MapUnits(false, p).value;
    assert q[0] == outs[k];
    StoppedShortCircuits(q[1..]);
    var zs := MapUnits(true, q[1..]).value;
    assert MapUnits(false, q) == Success([ToRecord(outs[k].result)] + zs);
    var all := MapUnits(false, outs).value;
    assert all == rs + ([ToRecord(outs[k].result)] + zs);
    forall j | k < j < |outs|
      ensures all[j] == Zero
    {
      assert all[j] == zs[j - k - 1];
    }
  }

  /** The pool's map over the units, one after another (`pool.map(test_manager.run_tests,
      test_suites)` with the order-preserving sequential pool). */
  method PoolMap(manager: ParallelTestManager, units: seq<Test>, runner: Runner)
    returns (r: Result<seq<ResultRecord>, string>)
    modifies manager, manager.env
    ensures r == MapUnits(old(manager.failfast), Outcomes(units, runner, ConfigOf(manager.args)))
    ensures var outs := Outcomes(units, runner, ConfigOf(manager.args));
      var ran := UnitsRun(old(manager.failfast), outs);
      && manager.env.dataFiles == old(manager.env.dataFiles) + (if manager.args.coverage then ran else 0)
      && manager.env.calls == old(manager.env.calls)
           + (if manager.args.coverage then Sessions(manager.args, old(manager.env.dataFiles), ran) else [])
    ensures r.Success? ==>
      manager.failfast == FlagAfter(old(manager.failfast), Outcomes(units, runner, ConfigOf(manager.args)))
  {
    ghost var outs := Outcomes(units, runner, ConfigOf(manager.args));
    ghost var f0 := manager.failfast;
    ghost var calls0, files0 := manager.env.calls, manager.env.dataFiles;
    ghost var ran: nat := 0;
    var results: seq<ResultRecord> := [];
    var i := 0;
    while i < |units|
      invariant 0 <= i <= |units|
      invariant ran == UnitsRun(f0, outs[..i])
      invariant MapUnits(f0, outs[..i]) == Success(results)
      invariant manager.failfast == FlagAfter(f0, outs[..i])
      invariant Traced(manager.env, manager.args, calls0, files0, ran)
    {
      ghost var flag := manager.failfast;
      var one := RunNext(manager, units[i], runner, calls0, files0, ran);
      assert outs[i] == runner(units[i], ConfigOf(manager.args));
      if one.Failure? {
        MapAborts(f0, outs, i);
        return Failure(one.error);
      }
      MapStep(f0, outs, i);
      if !flag {
        ran := ran + 1;
      }
      results := results + [one.value];
      i := i + 1;
    }
    assert outs[..i] == outs;
    r := Success(results);
  }

  /** The collaborator holds, after `calls0` and `files0`, the sessions of the `ran` units
      that reached the runner (none when coverage is off). */
  ghost predicate Traced(env: Collaborator, args: Args, calls0: seq<Call>, files0: nat, ran: nat)
    reads env
  {
    && env.dataFiles == files0 + (if args.coverage then ran else 0)
    && env.calls == calls0 + (if args.coverage then Sessions(args, files0, ran) else [])
  }

  /** One step of the pool's map: `run_tests` on the next unit, after `ran` units have
      reached the runner; the trace gains one more session when this one reaches it too. */
  method RunNext(manager: ParallelTestManager, unit: Test, runner: Runner,
                 ghost calls0: seq<Call>, ghost files0: nat, ghost ran: nat)
    returns (r: Result<ResultRecord, string>)
    modifies manager, manager.env
    requires Traced(manager.env, manager.args, calls0, files0, ran)
    ensures r == if old(manager.failfast) then Success(Zero) else RecordOf(runner(unit, ConfigOf(manager.args)))
    ensures manager.failfast == (old(manager.failfast) || Stops(runner(unit, ConfigOf(manager.args))))
    ensures Traced(manager.env, manager.args, calls0, files0, ran + if old(manager.failfast) then 0 else 1)
  {
    ghost var stopped := manager.failfast;
    r := manager.RunTests(unit, runner);
    if manager.args.coverage && !stopped {
      SessionsSnoc(manager.args, calls0, files0, ran);
      assert manager.env.calls == calls0 + Sessions(manager.args, files0, ran + 1);
    }
  }

  /** One more unit mapped after the first `i`. */
  lemma MapStep(f0: bool, outs: seq<RunOutcome>, i: nat)
    requires i < |outs| && MapUnits(f0, outs[..i]).Success?
    requires FlagAfter(f0, outs[..i]) || RecordOf(outs[i]).Success?
    ensures MapUnits(f0, outs[..i + 1]) == Success(MapUnits(f0, outs[..i]).value
      + [if FlagAfter(f0, outs[..i]) then Zero else RecordOf(outs[i]).value])
    ensures FlagAfter(f0, outs[..i + 1]) == (FlagAfter(f0, outs[..i]) || Stops(outs[i]))
    ensures UnitsRun(f0, outs[..i + 1]) == UnitsRun(f0, outs[..i]) + if FlagAfter(f0, outs[..i]) then 0 else 1
  {
    var p := outs[..i];
    assert outs[..i + 1] == p + [outs[i]];
    MapUnitsAppend(f0, p, [outs[i]]);
    FlagAfterAppend(f0, p, [outs[i]]);
    MapOne(FlagAfter(f0, p), outs[i]);
  }

  /** A unit the runner reaches that raises ends the map with its exception. */
  lemma MapAborts(f0: bool, outs: seq<RunOutcome>, i: nat)
    requires i < |outs| && MapUnits(f0, outs[..i]).Success?
    requires !FlagAfter(f0, outs[..i]) && RecordOf(outs[i]).Failure?
    ensures MapUnits(f0, outs) == Failure(RecordOf(outs[i]).error)
    ensures UnitsRun(f0, outs) == UnitsRun(f0, outs[..i]) + 1
  {
    var p := outs[..i];
    assert outs[..i + 1] == p + [outs[i]];
    MapUnitsAppend(f0, p, [outs[i]]);
    FlagAfterAppend(f0, p, [outs[i]]);
    MapOne(FlagAfter(f0, p), outs[i]);
    MapUnitsAppend(f0, outs[..i + 1], outs[i + 1..]);
    assert outs == outs[..i + 1] + outs[i + 1..];
  }

  lemma SessionsSnoc(args: Args, calls0: seq<Call>, first: nat, n: nat)
    ensures calls0 + Sessions(args, first, n) + SessionCalls(args, first + n) == calls0 + Sessions(args, first, n + 1)
  {
  }

  /** The map over a single unit. */
  lemma MapOne(stopped: bool, o: RunOutcome)
    ensures MapUnits(stopped, [o]) ==
      if stopped then Success([Zero])
      else match RecordOf(o)
        case Failure(e) => Failure(e)
        case Success(record) => Success([record])
    ensures FlagAfter(stopped, [o]) == (stopped || Stops(o))
    ensures UnitsRun(stopped, [o]) == if stopped then 0 else 1
  {
    assert [o][1..] == [];
    assert [Zero] + [] == [Zero];
    if RecordOf(o).Success? {
      assert [RecordOf(o).value] + [] == [RecordOf(o).value];
    }
  }

  lemma {:induction false} FlagAfterAppend(stopped: bool, p: seq<RunOutcome>, q: seq<RunOutcome>)
    ensures FlagAfter(stopped, p + q) == FlagAfter(FlagAfter(stopped, p), q)
    decreases p
  {
    if p == [] {
      assert p + q == q;
    } else {
      assert (p + q)[0] == p[0];
      assert (p + q)[1..] == p[1..] + q;
      FlagAfterAppend(stopped || (p[0].Completed? && p[0].result.shouldStop), p[1..], q);
    }
  }
}
