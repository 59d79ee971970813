/** The suite partitioner: the three generators that cut a discovered test tree into the
    ordered work units of one parallelism level (module, class or test). */
module Partition {

  /** A discovered test tree: a single test case (a leaf), or a suite whose members are
      test cases and further suites, in discovery order. */
  datatype Test = Case(name: string) | Suite(tests: seq<Test>)

  /** The parallelism level chosen with `--level`. */
  datatype Level = Module | Class | TestLevel

  /** `countTestCases()`: the number of leaves of the tree. */
  function CountTestCases(t: Test): nat
  {
    match t
    case Case(_) => 1
    case Suite(ts) => CountAll(ts)
  }

  function CountAll(ts: seq<Test>): nat
  {
    if ts == [] then 0 else CountTestCases(ts[0]) + CountAll(ts[1..])
  }

  /** `x` is `t` itself or lies somewhere inside it. */
  predicate Within(x: Test, t: Test)
  {
    x == t || (t.Suite? && exists i :: 0 <= i < |t.tests| && Within(x, t.tests[i]))
  }

  /** Some member of the suite is a test case (the `has_cases` test of the class level). */
  predicate HasCases(ts: seq<Test>)
  {
    exists i :: 0 <= i < |ts| && ts[i].Case?
  }

  /** `s` is `t`, or is reached from `t` through suites none of which holds a test case
      directly: `s` is not nested below a suite that the class level would yield. */
  predicate Shallow(s: Test, t: Test)
  {
    s == t || (t.Suite? && !HasCases(t.tests) && exists i :: 0 <= i < |t.tests| && Shallow(s, t.tests[i]))
  }

  /** `a` is `b` with some elements left out, the rest kept in their order. */
  predicate Subsequence<T(==)>(a: seq<T>, b: seq<T>)
  {
    if a == [] then true
    else if b == [] then false
    else (a[0] == b[0] && Subsequence(a[1..], b[1..])) || Subsequence(a, b[1..])
  }

  // ---------------------------------------------------------------------------
  // Test level: _iter_test_cases

  /** Every test case of the tree, depth first and left to right (`_iter_test_cases`). */
  function TestCases(t: Test): (r: seq<Test>)
    ensures |r| == CountTestCases(t)
    ensures forall i :: 0 <= i < |r| ==> r[i].Case?
  {
    match t
    case Case(_) => [t]
    case Suite(ts) => TestCasesAll(ts)
  }

  function TestCasesAll(ts: seq<Test>): (r: seq<Test>)
    ensures |r| == CountAll(ts)
    ensures forall i :: 0 <= i < |r| ==> r[i].Case?
  {
    if ts == [] then [] else TestCases(ts[0]) + TestCasesAll(ts[1..])
  }

  /** The leaves of a sequence of units, unit after unit. */
  function Flatten(units: seq<Test>): (r: seq<Test>)
  {
    if units == [] then [] else TestCases(units[0]) + Flatten(units[1..])
  }

  lemma {:induction false} FlattenAppend(a: seq<Test>, b: seq<Test>)
    ensures Flatten(a + b) == Flatten(a) + Flatten(b)
  {
    if a == [] {
      assert a + b == b;
    } else {
      assert (a + b)[0] == a[0];
      assert (a + b)[1..] == a[1..] + b;
      FlattenAppend(a[1..], b);
    }
  }

  lemma {:induction false} FlattenIsTestCasesAll(ts: seq<Test>)
    ensures Flatten(ts) == TestCasesAll(ts)
  {
    if ts != [] {
      FlattenIsTestCasesAll(ts[1..]);
    }
  }

  /** The test level yields exactly the leaves of the tree: a test case is yielded iff it
      lies in the tree. */
  lemma {:induction false} TestCasesAreTheLeaves(t: Test, x: Test)
    ensures x in TestCases(t) <==> x.Case? && Within(x, t)
    decreases t, 1
  {
    match t
    case Case(_) =>
    case Suite(ts) =>
      TestCasesAllAreTheLeaves(ts, x);
  }

  lemma {:induction false} TestCasesAllAreTheLeaves(ts: seq<Test>, x: Test)
    ensures x in TestCasesAll(ts) <==> x.Case? && exists i :: 0 <= i < |ts| && Within(x, ts[i])
    decreases ts, 0
  {
    if ts != [] {
      TestCasesAreTheLeaves(ts[0], x);
      TestCasesAllAreTheLeaves(ts[1..], x);
      if x.Case? && exists i :: 0 <= i < |ts| && Within(x, ts[i]) {
        var i :| 0 <= i < |ts| && Within(x, ts[i]);
        if i > 0 {
          assert ts[1..][i - 1] == ts[i];
        }
      }
      if x.Case? && exists i :: 0 <= i < |ts[1..]| && Within(x, ts[1..][i]) {
        var i :| 0 <= i < |ts[1..]| && Within(x, ts[1..][i]);
        assert ts[i + 1] == ts[1..][i];
      }
    }
  }

  // ---------------------------------------------------------------------------
  // Module level: _iter_module_suites

  /** The members of `ts` that hold at least one test, in their order. */
  function NonEmpty(ts: seq<Test>): (r: seq<Test>)
    ensures forall i :: 0 <= i < |r| ==> CountTestCases(r[i]) > 0
  {
    if ts == [] then []
    else if CountTestCases(ts[0]) > 0 then [ts[0]] + NonEmpty(ts[1..])
    else NonEmpty(ts[1..])
  }

  /** The module-level units (`_iter_module_suites`): the members of the discovered suite
      that hold at least one test. The discovered root is always a suite. */
  function ModuleSuites(root: Test): (r: seq<Test>)
    requires root.Suite?
  {
    NonEmpty(root.tests)
  }

  lemma {:induction false} NonEmptyIsSubsequence(ts: seq<Test>)
    ensures Subsequence(NonEmpty(ts), ts)
  {
    if ts != [] {
      NonEmptyIsSubsequence(ts[1..]);
      var r := NonEmpty(ts[1..]);
      if CountTestCases(ts[0]) == 0 && r != [] {
        assert Subsequence(r, ts[1..]);
      }
    }
  }

  lemma {:induction false} NonEmptyKeepsEveryNonEmpty(ts: seq<Test>)
    ensures forall i :: 0 <= i < |ts| && CountTestCases(ts[i]) > 0 ==> ts[i] in NonEmpty(ts)
    ensures forall x :: x in NonEmpty(ts) ==> x in ts
  {
    if ts != [] {
      NonEmptyKeepsEveryNonEmpty(ts[1..]);
      forall i | 0 <= i < |ts| && CountTestCases(ts[i]) > 0
        ensures ts[i] in NonEmpty(ts)
      {
        if i > 0 {
          assert ts[1..][i - 1] == ts[i];
        }
      }
    }
  }

  lemma {:induction false} FlattenNonEmpty(ts: seq<Test>)
    ensures Flatten(NonEmpty(ts)) == TestCasesAll(ts)
  {
    if ts != [] {
      FlattenNonEmpty(ts[1..]);
      if CountTestCases(ts[0]) == 0 {
        assert TestCases(ts[0]) == [];
      }
    }
  }

  /** Module level: the units are members of the discovered suite, in discovery order, each
      holding a test; every member holding a test is a unit; and the units' leaves, unit
      after unit, are the tree's leaves depth first. */
  lemma ModuleSuitesSpec(root: Test)
    requires root.Suite?
    ensures Subsequence(ModuleSuites(root), root.tests)
    ensures forall x :: x in ModuleSuites(root) <==> x in root.tests && CountTestCases(x) > 0
    ensures Flatten(ModuleSuites(root)) == TestCases(root)
  {
    NonEmptyIsSubsequence(root.tests);
    NonEmptyKeepsEveryNonEmpty(root.tests);
    FlattenNonEmpty(root.tests);
    forall x | x in root.tests && CountTestCases(x) > 0
      ensures x in ModuleSuites(root)
    {
      var i :| 0 <= i < |root.tests| && root.tests[i] == x;
    }
  }

  // ---------------------------------------------------------------------------
  // Class level: _iter_class_suites

  /** The class-level units below a suite (`_iter_class_suites`): the suite itself when a
      member of it is a test case, otherwise the units of each member in turn. Recursion
      only reaches members of a suite without test-case members, which are suites. */
  function ClassSuites(t: Test): (r: seq<Test>)
    requires t.Suite?
    ensures forall i :: 0 <= i < |r| ==> r[i].Suite? && HasCases(r[i].tests)
    decreases t, 1
  {
    if HasCases(t.tests) then [t] else ClassSuitesAll(t.tests)
  }

  function ClassSuitesAll(ts: seq<Test>): (r: seq<Test>)
    requires !HasCases(ts)
    ensures forall i :: 0 <= i < |r| ==> r[i].Suite? && HasCases(r[i].tests)
    decreases ts, 0
  {
    if ts == [] then []
    else
      assert ts[0].Suite?;
      assert !HasCases(ts[1..]) by {
        forall i | 0 <= i < |ts[1..]| ensures !ts[1..][i].Case? {
          assert ts[1..][i] == ts[i + 1];
        }
      }
      ClassSuites(ts[0]) + ClassSuitesAll(ts[1..])
  }

  lemma {:induction false} ClassSuitesCoverLeaves(t: Test)
    requires t.Suite?
    ensures Flatten(ClassSuites(t)) == TestCases(t)
    decreases t, 1
  {
    if !HasCases(t.tests) {
      ClassSuitesAllCoverLeaves(t.tests);
    } else {
      assert Flatten([t]) == TestCases(t) + [];
    }
  }

  lemma {:induction false} ClassSuitesAllCoverLeaves(ts: seq<Test>)
    requires !HasCases(ts)
    ensures Flatten(ClassSuitesAll(ts)) == TestCasesAll(ts)
    decreases ts, 0
  {
    if ts != [] {
      assert ts[0].Suite?;
      assert !HasCases(ts[1..]) by {
        forall i | 0 <= i < |ts[1..]| ensures !ts[1..][i].Case? {
          assert ts[1..][i] == ts[i + 1];
        }
      }
      ClassSuitesCoverLeaves(ts[0]);
      ClassSuitesAllCoverLeaves(ts[1..]);
      FlattenAppend(ClassSuites(ts[0]), ClassSuitesAll(ts[1..]));
    }
  }

  /** Class level yields exactly the shallowest suites holding a test case directly: a
      suite is yielded iff a member of it is a test case and no suite above it on its path
      from `t` holds a test case directly. */
  lemma {:induction false} ClassSuitesAreTheShallowest(t: Test, s: Test)
    requires t.Suite?
    ensures s in ClassSuites(t) <==> s.Suite? && HasCases(s.tests) && Shallow(s, t)
    decreases t, 1
  {
    if !HasCases(t.tests) {
      ClassSuitesAllAreTheShallowest(t.tests, s);
      if s.Suite? && HasCases(s.tests) && Shallow(s, t) {
        assert s != t;
      }
    }
  }

  lemma {:induction false} ClassSuitesAllAreTheShallowest(ts: seq<Test>, s: Test)
    requires !HasCases(ts)
    ensures s in ClassSuitesAll(ts) <==>
            s.Suite? && HasCases(s.tests) && exists i :: 0 <= i < |ts| && Shallow(s, ts[i])
    decreases ts, 0
  {
    if ts != [] {
      assert ts[0].Suite?;
      assert !HasCases(ts[1..]) by {
        forall i | 0 <= i < |ts[1..]| ensures !ts[1..][i].Case? {
          assert ts[1..][i] == ts[i + 1];
        }
      }
      ClassSuitesAreTheShallowest(ts[0], s);
      ClassSuitesAllAreTheShallowest(ts[1..], s);
      if s.Suite? && HasCases(s.tests) && exists i :: 0 <= i < |ts| && Shallow(s, ts[i]) {
        var i :| 0 <= i < |ts| && Shallow(s, ts[i]);
        if i > 0 {
          assert ts[1..][i - 1] == ts[i];
        }
      }
      if exists i :: 0 <= i < |ts[1..]| && Shallow(s, ts[1..][i]) {
        var i :| 0 <= i < |ts[1..]| && Shallow(s, ts[1..][i]);
        assert ts[i + 1] == ts[1..][i];
      }
    }
  }

  // ---------------------------------------------------------------------------
  // All levels

  /** The units of the chosen level (main.py lines 107-112). */
  function Units(root: Test, level: Level): (r: seq<Test>)
    requires root.Suite?
  {
    match level
    case TestLevel => TestCases(root)
    case Class => ClassSuites(root)
    case Module => ModuleSuites(root)
  }

  lemma {:induction false} FlattenCount(units: seq<Test>)
    ensures |Flatten(units)| == CountAll(units)
  {
    if units != [] {
      FlattenCount(units[1..]);
    }
  }

  /** At every level no test is lost or repeated: the units' leaves, unit after unit, are
      the depth-first leaves of the tree, so the units hold as many tests as the tree. */
  lemma UnitsPreserveLeaves(root: Test, level: Level)
    requires root.Suite?
    ensures Flatten(Units(root, level)) == TestCases(root)
    ensures CountAll(Units(root, level)) == CountTestCases(root)
  {
    FlattenCount(Units(root, level));
    match level
    case TestLevel =>
      FlattenIsTestCasesAll(root.tests);
      assert forall i :: 0 <= i < |TestCases(root)| ==> TestCases(TestCases(root)[i]) == [TestCases(root)[i]];
      FlattenOfCases(TestCases(root));
    case Class => ClassSuitesCoverLeaves(root);
    case Module => ModuleSuitesSpec(root);
  }

  lemma {:induction false} FlattenOfCases(cases: seq<Test>)
    requires forall i :: 0 <= i < |cases| ==> cases[i].Case?
    ensures Flatten(cases) == cases
  {
    if cases != [] {
      FlattenOfCases(cases[1..]);
    }
  }

  /** Every unit of every level holds at least one test. */
  lemma UnitsAreNonEmpty(root: Test, level: Level)
    requires root.Suite?
    ensures forall u :: u in Units(root, level) ==> CountTestCases(u) > 0
  {
    forall u | u in Units(root, level)
      ensures CountTestCases(u) > 0
    {
      if level == Class {
        var k :| 0 <= k < |Units(root, level)| && Units(root, level)[k] == u;
        var i :| 0 <= i < |u.tests| && u.tests[i].Case?;
        CountAllPositive(u.tests, i);
      }
    }
  }

  lemma {:induction false} CountAllAtLeastLength(units: seq<Test>)
    requires forall u :: u in units ==> CountTestCases(u) > 0
    ensures CountAll(units) >= |units|
  {
    if units != [] {
      CountAllAtLeastLength(units[1..]);
    }
  }

  /** A tree without tests yields no unit at any level. */
  lemma EmptyTreeYieldsNothing(root: Test, level: Level)
    requires root.Suite? && CountTestCases(root) == 0
    ensures Units(root, level) == []
  {
    UnitsPreserveLeaves(root, level);
    UnitsAreNonEmpty(root, level);
    CountAllAtLeastLength(Units(root, level));
  }

  lemma {:induction false} CountAllPositive(ts: seq<Test>, i: nat)
    requires i < |ts| && ts[i].Case?
    ensures CountAll(ts) > 0
  {
    if i > 0 {
      assert ts[1..][i - 1] == ts[i];
      CountAllPositive(ts[1..], i - 1);
    }
  }
}
