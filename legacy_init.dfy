/** The first version of the runner, unittest_parallel/__init__.py: the non-empty top-level
    suites run over the pool, and `main` prints the error and failure blocks and returns
    their number. */
module LegacyInit {
  import opened Wrappers
  import opened Text
  import opened Partition
  import Worker

  /** What `_runtest` returns for one suite: its formatted errors and failures. */
  datatype Pair = Pair(errors: seq<string>, failures: seq<string>)

  const Rule1 := Repeat('=', 40)
  const Rule2 := Repeat('-', 40)

  /** `_format_error`: 40-character rules around the description, then the text. */
  function FormatError(e: Worker.Entry): (r: string)
    ensures |r| == 83 + |e.description| + |e.text|
  {
    ErrorBlock(Rule1, e.description, Rule2, e.text)
  }

  /** A block whose description is one line splits back into the rules, the description
      and the traceback. */
  lemma FormatErrorSplits(e: Worker.Entry)
    requires '\n' !in e.description
    ensures SplitLines(FormatError(e), 3) == [Rule1, e.description, Rule2, e.text]
  {
    ErrorBlockSplits(Rule1, e.description, Rule2, e.text);
  }

  /** `[self._format_error(result, error) for error in ...]` of the first version. */
  function FormatAll(es: seq<Worker.Entry>): (r: seq<string>)
    ensures |r| == |es|
  {
    if es == [] then [] else [FormatError(es[0])] + FormatAll(es[1..])
  }

  /** Every error is formatted, in the runner's order. */
  lemma {:induction false} FormatAllEach(es: seq<Worker.Entry>)
    ensures forall i :: 0 <= i < |es| ==> FormatAll(es)[i] == FormatError(es[i])
  {
    if es != [] {
      FormatAllEach(es[1..]);
      assert FormatAll(es) == [FormatError(es[0])] + FormatAll(es[1..]);
    }
  }

  /** The runner's verbosity: 2 when verbose, 1 otherwise. */
  function Verbosity(verbose: bool): (v: int)
    ensures v == 1 || v == 2
    ensures v > 1 <==> verbose
  {
    if verbose then 2 else 1
  }

  /** `_runtest`: run one suite with a `TextTestRunner` of that verbosity and keep the
      formatted errors and failures, or let the runner's exception through. */
  function RunTest(suite: Test, verbose: bool, runner: Worker.Runner): (r: Result<Pair, string>)
    ensures var o := runner(suite, Worker.RunnerConfig(Verbosity(verbose), false, false, None, None));
      && (o.Raised? <==> r.Failure?)
      && (o.Raised? ==> r.error == o.exception)
      && (o.Completed? ==>
            r.value.errors == FormatAll(o.result.errors)
            && r.value.failures == FormatAll(o.result.failures))
      && (o.Completed? ==> |r.value.errors| == |o.result.errors| && |r.value.failures| == |o.result.failures|)
  {
    match runner(suite, Worker.RunnerConfig(Verbosity(verbose), false, false, None, None))
    case Raised(e) => Failure(e)
    case Completed(res) => Success(Pair(FormatAll(res.errors), FormatAll(res.failures)))
  }

  /** `pool.map(_runtest, ...)` over the dispatched suites, in order; the first exception
      ends it. */
  function MapRunTest(suites: seq<Test>, verbose: bool, runner: Worker.Runner): (r: Result<seq<Pair>, string>)
    ensures r.Success? ==> |r.value| == |suites|
  {
    if suites == [] then Success([])
    else match RunTest(suites[0], verbose, runner)
      case Failure(e) => Failure(e)
      case Success(p) =>
        match MapRunTest(suites[1..], verbose, runner)
        case Failure(e) => Failure(e)
        case Success(ps) => Success([p] + ps)
  }

  /** The map keeps suite order: the i-th pair is what `_runtest` gave for the i-th suite. */
  lemma {:induction false} MapRunTestAt(suites: seq<Test>, verbose: bool, runner: Worker.Runner, i: nat)
    requires MapRunTest(suites, verbose, runner).Success? && i < |suites|
    ensures RunTest(suites[i], verbose, runner).Success?
    ensures MapRunTest(suites, verbose, runner).value[i] == RunTest(suites[i], verbose, runner).value
  {
    if i > 0 {
      MapRunTestAt(suites[1..], verbose, runner, i - 1);
    }
  }

  /** The map completes exactly when no suite's run raises; otherwise it fails with the
      exception of the first suite that raised. */
  lemma {:induction false} MapRunTestSucceeds(suites: seq<Test>, verbose: bool, runner: Worker.Runner)
    ensures MapRunTest(suites, verbose, runner).Success?
      <==> forall i :: 0 <= i < |suites| ==> RunTest(suites[i], verbose, runner).Success?
    ensures MapRunTest(suites, verbose, runner).Failure? ==>
      exists k :: 0 <= k < |suites| && RunTest(suites[k], verbose, runner) == Failure(MapRunTest(suites, verbose, runner).error)
        && forall i :: 0 <= i < k ==> RunTest(suites[i], verbose, runner).Success?
  {
    if suites != [] {
      MapRunTestSucceeds(suites[1..], verbose, runner);
      var m := MapRunTest(suites, verbose, runner);
      if RunTest(suites[0], verbose, runner).Success? {
        assert forall i :: 1 <= i < |suites| ==> suites[i] == suites[1..][i - 1];
        if m.Failure? {
          var k' :| 0 <= k' < |suites| - 1 && RunTest(suites[1..][k'], verbose, runner) == Failure(m.error)
            && forall i :: 0 <= i < k' ==> RunTest(suites[1..][i], verbose, runner).Success?;
          assert RunTest(suites[k' + 1], verbose, runner) == Failure(m.error);
        }
      }
    }
  }

  /** `sum(len(result[0]) for result in results)`. */
  function ErrorCount(rs: seq<Pair>): nat
  {
    if rs == [] then 0 else |rs[0].errors| + ErrorCount(rs[1..])
  }

  /** `sum(len(result[1]) for result in results)`. */
  function FailureCount(rs: seq<Pair>): nat
  {
    if rs == [] then 0 else |rs[0].failures| + FailureCount(rs[1..])
  }

  /** Every suite's errors, suite after suite (`chain.from_iterable`). */
  function AllErrors(rs: seq<Pair>): seq<string>
  {
    if rs == [] then [] else rs[0].errors + AllErrors(rs[1..])
  }

  function AllFailures(rs: seq<Pair>): seq<string>
  {
    if rs == [] then [] else rs[0].failures + AllFailures(rs[1..])
  }

  /** The counts are the numbers of texts printed. */
  lemma {:induction false} CountsAreLengths(rs: seq<Pair>)
    ensures ErrorCount(rs) == |AllErrors(rs)|
    ensures FailureCount(rs) == |AllFailures(rs)|
  {
    if rs != [] {
      CountsAreLengths(rs[1..]);
    }
  }

  /** The chained texts keep suite order: the texts of the suites before `k` come first,
      then those of suite `k`. */
  lemma {:induction false} AllErrorsInSuiteOrder(rs: seq<Pair>, k: nat)
    requires k <= |rs|
    ensures AllErrors(rs) == AllErrors(rs[..k]) + AllErrors(rs[k..])
    ensures AllFailures(rs) == AllFailures(rs[..k]) + AllFailures(rs[k..])
  {
    if k > 0 {
      AllErrorsInSuiteOrder(rs[1..], k - 1);
      assert rs[..k][0] == rs[0] && rs[..k][1..] == rs[1..][..k - 1];
      assert rs[k..] == rs[1..][k - 1..];
    } else {
      assert rs[..0] == [] && rs[0..] == rs;
    }
  }

  /** The lines `main` prints: nothing when all went well, otherwise two blank lines, the
      counts that are not zero, a blank line and every error text before every failure
      text. Shared with the later unittest_parallel/main.py, which prints the same block. */
  function ProblemLines(errors: seq<string>, failures: seq<string>): (lines: seq<string>)
    ensures errors == [] && failures == [] <==> lines == []
    ensures errors != [] || failures != [] ==>
      var k := |lines| - |errors| - |failures|;
      && 3 <= k <= 5 && lines[..2] == ["", ""] && lines[k - 1] == ""
      && lines[k..] == errors + failures
      && (lines[2] == "ERRORS: " + Decimal(|errors|) <==> errors != [])
      && (lines[k - 2] == "FAILURES: " + Decimal(|failures|) <==> failures != [])
      && k == 3 + (if errors != [] then 1 else 0) + (if failures != [] then 1 else 0)
  {
    if errors == [] && failures == [] then []
    else
      var header := ["", ""]
        + (if errors != [] then ["ERRORS: " + Decimal(|errors|)] else [])
        + (if failures != [] then ["FAILURES: " + Decimal(|failures|)] else [])
        + [""];
      var problems := errors + failures;
      var lines := header + problems;
      assert lines[..2] == ["", ""];
      assert lines[|header|..] == problems;
      HeaderWordsDiffer(|failures|, |errors|);
      lines
  }

  /** The failure header never reads as an error header. */
  lemma HeaderWordsDiffer(m: nat, n: nat)
    ensures "FAILURES: " + Decimal(m) != "ERRORS: " + Decimal(n)
  {
    assert ("FAILURES: " + Decimal(m))[0] == 'F';
  }

  /** `main` after discovery: the report lines and the return value, 0 iff there are no
      errors and no failures; or the exception that escaped the pool. */
  function Main(discovered: Test, verbose: bool, runner: Worker.Runner): (r: Result<(seq<string>, nat), string>)
    requires discovered.Suite?
    ensures r.Success? ==> (r.value.1 == 0 <==> r.value.0 == [])
  {
    match MapRunTest(ModuleSuites(discovered), verbose, runner)
    case Failure(e) => Failure(e)
    case Success(rs) =>
      CountsAreLengths(rs);
      Success((ProblemLines(AllErrors(rs), AllFailures(rs)), ErrorCount(rs) + FailureCount(rs)))
  }

  /** The return value counts every error and failure and nothing else. */
  lemma MainReturnsProblemCount(discovered: Test, verbose: bool, runner: Worker.Runner)
    requires discovered.Suite?
    ensures var r := Main(discovered, verbose, runner);
      r.Success? ==>
        var rs := MapRunTest(ModuleSuites(discovered), verbose, runner).value;
        r.value.1 == |AllErrors(rs)| + |AllFailures(rs)|
  {
    var m := MapRunTest(ModuleSuites(discovered), verbose, runner);
    if m.Success? {
      CountsAreLengths(m.value);
    }
  }
}
