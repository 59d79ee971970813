/** The progress text `ParallelTextTestResult` writes to standard error
    (src/unittest_parallel/main.py): a line per test when verbose, one character per
    test otherwise. */
module Progress {

  /** How a test ended, as reported to the result object; a skip carries the `repr` of
      its reason. */
  datatype Outcome =
    | Passed
    | Errored
    | Failed
    | Skipped(reasonRepr: string)
    | ExpectedFailure
    | UnexpectedSuccess

  /** The character written for an outcome in the compact (dots) mode. */
  function DotMessage(k: Outcome): char
  {
    match k
    case Passed => '.'
    case Errored => 'E'
    case Failed => 'F'
    case Skipped(_) => 's'
    case ExpectedFailure => 'x'
    case UnexpectedSuccess => 'u'
  }

  /** The word written after the test's description in the verbose mode. */
  function ShowAllMessage(k: Outcome): string
  {
    match k
    case Passed => "ok"
    case Errored => "ERROR"
    case Failed => "FAIL"
    case Skipped(r) => "skipped " + r
    case ExpectedFailure => "expected failure"
    case UnexpectedSuccess => "unexpected success"
  }

  /** Whether two outcomes are of the same kind, skip reasons aside. */
  predicate SameKind(a: Outcome, b: Outcome)
  {
    (a.Passed? && b.Passed?) || (a.Errored? && b.Errored?) || (a.Failed? && b.Failed?)
    || (a.Skipped? && b.Skipped?) || (a.ExpectedFailure? && b.ExpectedFailure?)
    || (a.UnexpectedSuccess? && b.UnexpectedSuccess?)
  }

  /** The compact mode tells every kind of outcome apart, and nothing more. */
  lemma DotMessageIdentifiesKind(a: Outcome, b: Outcome)
    ensures DotMessage(a) == DotMessage(b) <==> SameKind(a, b)
  {
  }

  /** The verbose mode tells every outcome apart, skip reasons included. */
  lemma ShowAllMessageInjective(a: Outcome, b: Outcome)
    ensures ShowAllMessage(a) == ShowAllMessage(b) <==> a == b
  {
    if ShowAllMessage(a) == ShowAllMessage(b) {
      assert ShowAllMessage(a)[0] == ShowAllMessage(b)[0];
      if a.Skipped? && b.Skipped? {
        assert a.reasonRepr == ShowAllMessage(a)[8..];
        assert b.reasonRepr == ShowAllMessage(b)[8..];
      }
    }
  }

  /** What `_add_helper` writes for one outcome. */
  function Echo(showAll: bool, dots: bool, description: string, k: Outcome): (r: string)
    ensures showAll ==> |r| > 0 && r[|r| - 1] == '\n'
    ensures showAll ==>
              && |r| == |description| + 6 + |ShowAllMessage(k)|
              && r[..|description|] == description
              && r[|description|..|description| + 5] == " ... "
              && r[|description| + 5..|r| - 1] == ShowAllMessage(k)
    ensures !showAll && dots ==> r == [DotMessage(k)]
    ensures !showAll && !dots ==> r == []
  {
    if showAll then description + " ... " + ShowAllMessage(k) + "\n"
    else if dots then [DotMessage(k)]
    else ""
  }

  /** For one test, the verbose echo names the exact outcome, skip reason included, and the
      compact echo names its kind. */
  lemma EchoIdentifiesOutcome(dots: bool, description: string, a: Outcome, b: Outcome)
    ensures Echo(true, dots, description, a) == Echo(true, dots, description, b) <==> a == b
    ensures Echo(false, true, description, a) == Echo(false, true, description, b) <==> SameKind(a, b)
  {
    ShowAllMessageInjective(a, b);
    DotMessageIdentifiesKind(a, b);
    var ra, rb := Echo(true, dots, description, a), Echo(true, dots, description, b);
    if ra == rb {
      assert ShowAllMessage(a) == ra[|description| + 5..|ra| - 1] == ShowAllMessage(b);
    }
    if Echo(false, true, description, a) == Echo(false, true, description, b) {
      assert [DotMessage(a)][0] == [DotMessage(b)][0];
    }
  }

  /** The compact mode's output for a run of outcomes: one character each, in order. */
  function DotsLine(ks: seq<Outcome>): (r: string)
    ensures |r| == |ks| && forall i :: 0 <= i < |ks| ==> r[i] == DotMessage(ks[i])
  {
    if ks == [] then [] else [DotMessage(ks[0])] + DotsLine(ks[1..])
  }

  /** How many outcomes in a run are errors. */
  function CountErrored(ks: seq<Outcome>): nat
  {
    if ks == [] then 0 else CountErrored(ks[..|ks| - 1]) + (if ks[|ks| - 1].Errored? then 1 else 0)
  }

  /** How many times a character occurs in a string. */
  function Occurrences(s: string, c: char): nat
  {
    if s == [] then 0 else Occurrences(s[..|s| - 1], c) + (if s[|s| - 1] == c then 1 else 0)
  }

  /** In the compact mode, the `E`s on the screen count the errors. */
  lemma {:induction false} DotsCountErrors(ks: seq<Outcome>)
    ensures Occurrences(DotsLine(ks), 'E') == CountErrored(ks)
  {
    if ks != [] {
      var init := ks[..|ks| - 1];
      DotsCountErrors(init);
      assert DotsLine(ks)[..|ks| - 1] == DotsLine(init);
      DotMessageIdentifiesKind(ks[|ks| - 1], Errored);
    }
  }

  /** The result object's progress output and the outcomes reported to it. */
  class ParallelTextTestResult {
    const showAll: bool
    const dots: bool
    /** The text written to standard error so far. */
    var output: string
    var testsRun: nat
    var reported: seq<Outcome>

    /** Outside the verbose mode there is nothing on the screen but one character per
        reported outcome (or nothing at all below verbosity 1). */
    predicate Valid()
      reads this
    {
      && (!showAll && dots ==> output == DotsLine(reported))
      && (!showAll && !dots ==> output == [])
    }

    /** `unittest.TextTestResult`'s modes: verbose above 1, compact at exactly 1. */
    constructor (verbosity: int)
      ensures showAll == (verbosity > 1) && dots == (verbosity == 1)
      ensures output == [] && testsRun == 0 && reported == []
      ensures Valid()
    {
      showAll := verbosity > 1;
      dots := verbosity == 1;
      output := [];
      testsRun := 0;
      reported := [];
    }

    /** `startTest`: the verbose mode announces the test on a line of its own. */
    method StartTest(description: string)
      requires Valid()
      modifies this
      ensures Valid()
      ensures output == old(output) + (if showAll then description + " ...\n" else "")
      ensures testsRun == old(testsRun) + 1 && reported == old(reported)
    {
      if showAll {
        output := output + description + " ...\n";
      }
      testsRun := testsRun + 1;
    }

    /** `_add_helper`. */
    method AddHelper(description: string, dotsMessage: string, showAllMessage: string)
      modifies this
      ensures output == old(output) +
        (if showAll then description + " ... " + showAllMessage + "\n" else if dots then dotsMessage else "")
      ensures testsRun == old(testsRun) && reported == old(reported)
    {
      if showAll {
        output := output + (description + " ... " + showAllMessage + "\n");
      } else if dots {
        output := output + dotsMessage;
      }
    }

    /** `addSuccess`, `addError`, `addFailure`, `addSkip`, `addExpectedFailure` and
        `addUnexpectedSuccess`: record the outcome, then echo it. */
    method Add(description: string, k: Outcome)
      requires Valid()
      modifies this
      ensures Valid()
      ensures output == old(output) + Echo(showAll, dots, description, k)
      ensures reported == old(reported) + [k] && testsRun == old(testsRun)
    {
      reported := reported + [k];
      AddHelper(description, [DotMessage(k)], ShowAllMessage(k));
      assert !showAll && dots ==> DotsLine(reported) == DotsLine(old(reported)) + [DotMessage(k)];
    }
  }
}
