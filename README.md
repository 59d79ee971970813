# unittest-parallel, modelled in Dafny

unittest-parallel runs a project's `unittest` suites across several processes. It
discovers the test tree and cuts it into work units at the module, class or test level.
It runs every unit through a process pool, optionally under coverage measurement with
one data file per session. Then it folds the per-unit result records into one report on
standard error, and the exit status says whether everything passed. This project models
the sequential logic of that program and proves what it promises:

- the partitioner (`_iter_module_suites`, `_iter_class_suites`, `_iter_test_cases`);
- the process count;
- the aggregation, the summary line, the report and the exit status;
- `ParallelTestManager.run_tests` with its shared fail-fast flag;
- the `_coverage` session protocol;
- `_convert_select_pattern`, `_format_error` and the progress text of
  `ParallelTextTestResult`.

The two earlier versions of the program (`unittest_parallel/main.py` and
`unittest_parallel/__init__.py`) are modelled as modules of their own.

The modules, one per file:

- `Wrappers`: `Option` and `Result` (a value or the exception raised instead).
- `Text`: repeated characters, decimal rendering with its parser, `'\n'.join` with its
  inverse, and the four-line error block every version prints.
- `Partition`: the test tree and the three generators.
- `Cli`: the parsed options, `--coverage-branch`, the process count and `-k` patterns.
- `Coverage`: the coverage library as a class recording every call made on it and the
  data files created; `Enter`/`Exit` are the `_coverage` context manager.
- `Report`: the result record, the aggregation loop, the summary information, the report
  lines and the exit status.
- `Worker`: `ParallelTestManager` (a class with the fail-fast flag as a field),
  `_format_error`, and the pool's map as a sequential, order-preserving map with its
  specification `MapUnits`.
- `Progress`: `ParallelTextTestResult` as a class whose methods append to the text
  written so far.
- `Orchestrator`: `main` from the parsed arguments to the exit status, the report lines
  and the coverage call trace.
- `LegacyMain`: the second version, with `_coverage_start`/`_coverage_end` and `_runtest`.
- `LegacyInit`: the first version.

The test runner is a function from a unit and the runner's configuration to an outcome.
The outcome is either a completed result (including `shouldStop`) or a raised exception.
The pool maps the units one after another in order. An exception escaping a unit ends
the map and reaches `main`.

## Model

| member | source | states |
|---|---|---|
| Text.Repeat | unittest_parallel/main.py:156-158 | `c * n` has length n and every character is c |
| Text.Decimal | src/unittest_parallel/main.py:178 | the rendering of a count is a non-empty digit string without a leading zero (except for 0 itself) |
| Text.DecimalRoundTrip | src/unittest_parallel/main.py:155-163 | parsing the rendering of n gives n back |
| Text.DecimalInjective | src/unittest_parallel/main.py:155-163 | two different counts never render alike |
| Text.SplitJoinLines | src/unittest_parallel/main.py:324-329 | splitting a `'\n'`-joined list at its first k-1 breaks returns the k parts when no part but the last holds a break |
| Text.ErrorBlockJoins | src/unittest_parallel/main.py:324-329 | the error block is top rule, description, bottom rule and text joined by line breaks, whatever the parts contain |
| Text.ErrorBlockSplits | src/unittest_parallel/main.py:324-329 | when the rules and the description are single lines, splitting the block at its first three breaks gives the four parts back |
| Partition.TestCases | src/unittest_parallel/main.py:274-279 | the test level yields only test cases, as many as `countTestCases()` of the tree |
| Partition.TestCasesAll | src/unittest_parallel/main.py:278-279 | the members' test cases, member after member, as many as the members hold |
| Partition.TestCasesAreTheLeaves | src/unittest_parallel/main.py:274-279 | a test is yielded at the test level iff it is a test case lying in the tree |
| Partition.TestCasesAllAreTheLeaves | src/unittest_parallel/main.py:278-279 | a test is yielded for a member list iff it is a test case inside one of the members |
| Partition.NonEmpty | src/unittest_parallel/main.py:258-260 | every kept member holds at least one test |
| Partition.NonEmptyIsSubsequence | src/unittest_parallel/main.py:257-260 | the kept members are the discovered members in discovery order, some left out |
| Partition.NonEmptyKeepsEveryNonEmpty | src/unittest_parallel/main.py:259-260 | every member holding a test is kept, and nothing else appears |
| Partition.FlattenNonEmpty | src/unittest_parallel/main.py:257-260 | dropping empty modules loses no test: the kept modules' leaves are the tree's leaves |
| Partition.ModuleSuitesSpec | src/unittest_parallel/main.py:257-260 | module level: exactly the top-level members with a test, in discovery order, whose leaves are the tree's depth-first leaves |
| Partition.ClassSuites | src/unittest_parallel/main.py:264-270 | every yielded suite has a test case as a direct member |
| Partition.ClassSuitesAll | src/unittest_parallel/main.py:268-270 | the same for the suites yielded from the members of a suite without direct test cases |
| Partition.ClassSuitesCoverLeaves | src/unittest_parallel/main.py:264-270 | the yielded suites' leaves, suite after suite, are the tree's depth-first leaves |
| Partition.ClassSuitesAllCoverLeaves | src/unittest_parallel/main.py:269-270 | the same, member after member |
| Partition.ClassSuitesAreTheShallowest | src/unittest_parallel/main.py:264-270 | a suite is yielded iff it has a direct test case and no suite above it on its path holds one (so none is nested in another) |
| Partition.ClassSuitesAllAreTheShallowest | src/unittest_parallel/main.py:269-270 | the same characterisation for the suites yielded from a member list |
| Partition.UnitsPreserveLeaves | src/unittest_parallel/main.py:107-112 | at every level the units' leaves are the tree's leaves in order, so the units hold as many tests as the tree |
| Partition.UnitsAreNonEmpty | src/unittest_parallel/main.py:107-112 | at every level every unit holds at least one test |
| Partition.EmptyTreeYieldsNothing | src/unittest_parallel/main.py:107-112 | a tree without tests yields no unit at any level |
| Cli.Normalize | src/unittest_parallel/main.py:76-77 | `--coverage-branch` turns coverage on and changes nothing else |
| Cli.RequestedProcesses | src/unittest_parallel/main.py:80-82 | a positive `-j` is used as given, otherwise the CPU count (the first version, unittest_parallel/__init__.py:31-33, resolves `-j` the same way and never clamps it) |
| Cli.ClampProcesses | src/unittest_parallel/main.py:115 | the count is at least 1, at most max(1, units), and min(units, requested) when both are positive |
| Cli.ProcessCountResolution | src/unittest_parallel/main.py:80-82 | the resolved count lies in 1..max(1, units); a positive `-j` ignores the CPU count and is kept when there are enough units; otherwise the CPU count is kept when it is between 1 and the number of units |
| Cli.ConvertSelectPattern | src/unittest_parallel/main.py:214-217 | a pattern without `*` becomes `*`, the pattern, `*` (first and last character `*`, the pattern between); one with `*` is kept; the result always has a `*` |
| Cli.ConvertSelectPatternIdempotent | src/unittest_parallel/main.py:214-217 | converting twice is converting once |
| Coverage.Collaborator.constructor | src/unittest_parallel/main.py:97 | a fresh temporary directory: no data file and no call yet |
| Coverage.Collaborator.NewDataFile | src/unittest_parallel/main.py:225-226 | a new data file, named by its creation index, and no call made |
| Coverage.Collaborator.Record | src/unittest_parallel/main.py:238-250 | one call appended to the trace |
| Coverage.OmitList | src/unittest_parallel/main.py:233 | the omit list is the user's patterns (none when absent) followed by the program's own file |
| Coverage.Enter | src/unittest_parallel/main.py:223-241 | with coverage on, one new data file and the calls construct (with the session settings) and start; otherwise nothing |
| Coverage.Exit | src/unittest_parallel/main.py:245-250 | stop and save, whichever way the body ended, when a session is open; nothing otherwise |
| Coverage.SessionsAreBracketed | src/unittest_parallel/main.py:239-250 | n sessions are 4n calls: construct, start, stop, save, each on the next data file |
| Coverage.Range | src/unittest_parallel/main.py:194 | the data files combined are 0..n-1, in creation order |
| Report.Aggregate | src/unittest_parallel/main.py:137-150 | the loop computes the fold of the records in unit order, and `is_success` holds iff every unit succeeded |
| Report.SucceededIffEveryUnitSucceeded | src/unittest_parallel/main.py:150 | no errors, failures or unexpected successes in total iff none in any unit |
| Report.TotalsAppend | src/unittest_parallel/main.py:143-149 | aggregating two groups of units one after the other is adding their aggregates: sums add, lists concatenate in order |
| Report.TotalsSkipsZeros | src/unittest_parallel/main.py:292 | the zero records of short-circuited units change no total |
| Report.InfoEntry | src/unittest_parallel/main.py:154-155 | one `key=count` entry, and none exactly when the count is zero |
| Report.Infos | src/unittest_parallel/main.py:153-163 | no entry at all iff every count is zero, and at most five |
| Report.CountedNonZero | src/unittest_parallel/main.py:153-163 | every key kept for the summary has a non-zero count |
| Report.CountedAscending | src/unittest_parallel/main.py:153-163 | the kept keys stay in the order of the key list, strictly increasing in rank |
| Report.CountedComplete | src/unittest_parallel/main.py:153-163 | every key with a non-zero count is kept |
| Report.KeyOrderIsRankOrder | src/unittest_parallel/main.py:153-163 | the keys are written failures, errors, skipped, expected failures, unexpected successes, and every key is among them |
| Report.InfosInKeyOrder | src/unittest_parallel/main.py:153-163 | the entries are `key=count` for the keys with a non-zero count, in the fixed key order, so no entry is written for a zero count |
| Report.CollectInfos | src/unittest_parallel/main.py:153-163 | the five conditional appends build exactly the entries of the non-zero counts in the fixed order |
| Report.AppendIfCounted | src/unittest_parallel/main.py:154-155 | a zero count appends nothing; otherwise `key=count` is appended |
| Report.ReadEntry | src/unittest_parallel/main.py:155 | reading back an entry sets its count; a zero count wrote nothing |
| Report.InfosRoundTrip | src/unittest_parallel/main.py:153-163 | reading the entries back from all-zero counts recovers every count: the summary loses nothing |
| Report.Noun | src/unittest_parallel/main.py:178 | "tests" iff more than one test ran, so 0 gives "test" |
| Report.SummaryLine | src/unittest_parallel/main.py:180 | starts with `O` iff the run succeeded; ends with `)` iff some count is non-zero; plain `OK` when all are zero |
| Report.SummaryLineWords | src/unittest_parallel/main.py:180 | `OK` on success and `FAILED` otherwise; when some count is non-zero, the word followed by the entries joined by `, ` in parentheses |
| Report.ReportLayout | src/unittest_parallel/main.py:165-180 | the report's exact length; a blank line then every error block before every failure block, or a lone blank line when nothing failed and verbosity is above 0, or nothing; without custom classes the last four lines are the 70-dash separator, the `Ran` line, a blank line and the status line |
| Report.TestStatus | src/unittest_parallel/main.py:183-184 | 0 iff the run succeeded, otherwise errors + failures + unexpected successes |
| Report.ExitStatus | src/unittest_parallel/main.py:183-211 | on failure the test status (at least 1); on success 2 iff coverage is on and a non-zero threshold is missed, else 0 |
| Worker.FormatError | src/unittest_parallel/main.py:322-329 | the block is 143 characters (two 70-character rules and three line breaks) longer than the description and the text together |
| Worker.FormatErrorSplits | src/unittest_parallel/main.py:322-329 | a block whose description is one line splits back into 70 `=`, the description, 70 `-` and the text |
| Worker.FormatAll | src/unittest_parallel/main.py:315-316 | one formatted block per error or failure |
| Worker.FormatAllEach | src/unittest_parallel/main.py:315-316 | the i-th block is the i-th error formatted: the runner's order is kept |
| Worker.ParallelTestManager.constructor | src/unittest_parallel/main.py:284-287 | the manager keeps the arguments and starts with the fail-fast flag clear |
| Worker.ParallelTestManager.RunTests | src/unittest_parallel/main.py:289-320 | with the flag set: the zero record and no coverage session; otherwise one full session, the unit's record (or its exception), and the flag set iff the runner asked to stop |
| Worker.Outcomes | src/unittest_parallel/main.py:132 | the runner's outcome for each unit, in unit order |
| Worker.MapUnitsAppend | src/unittest_parallel/main.py:132 | mapping a first group, then the rest from the flag it left, is mapping all units; the units run add up likewise |
| Worker.StoppedStaysStopped | src/unittest_parallel/main.py:309-310 | the flag is never cleared |
| Worker.StoppedShortCircuits | src/unittest_parallel/main.py:291-292 | once the flag is set every later unit gets the zero record and none reaches the runner |
| Worker.MapUnitsLength | src/unittest_parallel/main.py:132 | a completed map returns one record per unit |
| Worker.NoStopRunsEveryUnit | src/unittest_parallel/main.py:132 | when no unit raises or stops, every unit runs and record i is unit i's own |
| Worker.UnitsRunWhileClear | src/unittest_parallel/main.py:291-306 | while the flag stays clear and nothing raises, every unit reaches the runner |
| Worker.RaisedAbortsMap | src/unittest_parallel/main.py:132 | an exception from a unit the runner reaches ends the map with that exception, after k + 1 runs |
| Worker.AfterStopEveryUnitIsZero | src/unittest_parallel/main.py:291-310 | after the unit that asks to stop, the earlier records are kept, its own record is kept, every later record is zero, and k + 1 units ran |
| Worker.PoolMap | src/unittest_parallel/main.py:129-132 | the loop returns `MapUnits` of the outcomes; one coverage session per unit that ran; the flag ends as `FlagAfter` |
| Progress.DotMessageIdentifiesKind | src/unittest_parallel/main.py:344-373 | the compact characters tell the six kinds of outcome apart |
| Progress.ShowAllMessageInjective | src/unittest_parallel/main.py:344-373 | the verbose words tell outcomes apart, skip reasons included |
| Progress.Echo | src/unittest_parallel/main.py:344-349 | verbose: the description, ` ... `, the outcome's word and a line break; compact: exactly the outcome's character; quiet: nothing |
| Progress.EchoIdentifiesOutcome | src/unittest_parallel/main.py:344-349 | for one test, two verbose echoes are equal iff the outcomes are, and two compact echoes iff the outcomes are of one kind |
| Progress.DotsLine | src/unittest_parallel/main.py:347-348 | one character per outcome, in order |
| Progress.DotsCountErrors | src/unittest_parallel/main.py:355-357 | in the compact mode the `E`s on screen count the errors |
| Progress.ParallelTextTestResult.constructor | src/unittest_parallel/main.py:334-336 | verbose above verbosity 1, compact at exactly 1; nothing written yet |
| Progress.ParallelTextTestResult.StartTest | src/unittest_parallel/main.py:338-342 | the verbose mode writes `description ...` on its own line; one more test started |
| Progress.ParallelTextTestResult.AddHelper | src/unittest_parallel/main.py:344-349 | appends the verbose line, the compact message or nothing |
| Progress.ParallelTextTestResult.Add | src/unittest_parallel/main.py:351-373 | records the outcome, appends its echo, and keeps the compact output equal to one character per outcome |
| Orchestrator.Execute | src/unittest_parallel/main.py:97-211 | the process count; the exit status or the escaped exception; the `Running` line, the report and the coverage lines; the call trace of 1 + (units run) sessions, then the combined report when the run succeeded with coverage on |
| Orchestrator.Discover | src/unittest_parallel/main.py:96-104 | a new temporary directory whose only coverage session so far is the one around discovery |
| Orchestrator.RunAndReport | src/unittest_parallel/main.py:125-211 | after discovery: the status and report lines of `MapUnits` over the units, and the trace of 1 + (units run) sessions followed by the combined report exactly on success with coverage |
| Orchestrator.Finish | src/unittest_parallel/main.py:136-211 | after the pool: the exit status, the report lines and the combined report exactly on success with coverage |
| Orchestrator.CombineCoverage | src/unittest_parallel/main.py:187-207 | the combiner (with `config_file` only when given), combine over every data file, the report, then the HTML and XML reports when named |
| Orchestrator.SessionsShift | src/unittest_parallel/main.py:100 | the discovery session followed by n unit sessions is 1 + n sessions from the first data file |
| LegacyInit.FormatError | unittest_parallel/__init__.py:62-68 | the block is 83 characters (two 40-character rules and three line breaks) longer than the description and the text together (the second version, unittest_parallel/main.py:154-160, formats errors identically) |
| LegacyInit.FormatErrorSplits | unittest_parallel/__init__.py:62-68 | a block whose description is one line splits back into 40 `=`, the description, 40 `-` and the text |
| LegacyInit.FormatAll | unittest_parallel/__init__.py:74-75 | one formatted block per error or failure |
| LegacyInit.FormatAllEach | unittest_parallel/__init__.py:74-75 | the i-th block is the i-th error formatted: the runner's order is kept |
| LegacyInit.Verbosity | unittest_parallel/__init__.py:72 | the runner's verbosity is 2 iff verbose, otherwise 1 |
| LegacyInit.RunTest | unittest_parallel/__init__.py:70-75 | the runner's exception passed on unchanged, or the suite's errors and failures each formatted, in the runner's order |
| LegacyInit.MapRunTest | unittest_parallel/__init__.py:41 | a completed map returns one result per dispatched suite |
| LegacyInit.MapRunTestAt | unittest_parallel/__init__.py:41 | in a completed map, the i-th result is `_runtest` of the i-th suite |
| LegacyInit.MapRunTestSucceeds | unittest_parallel/__init__.py:41 | the map completes iff no suite's run raises; otherwise it fails with the exception of the first suite that raised |
| LegacyInit.CountsAreLengths | unittest_parallel/__init__.py:44-45 | the summed counts are the numbers of texts printed |
| LegacyInit.AllErrorsInSuiteOrder | unittest_parallel/__init__.py:54-57 | the chained texts keep suite order |
| LegacyInit.ProblemLines | unittest_parallel/__init__.py:46-57 | nothing iff no errors and failures; otherwise two blank lines, `ERRORS: n` iff n > 0, `FAILURES: m` iff m > 0, a blank line, then every error text before every failure text |
| LegacyInit.HeaderWordsDiffer | unittest_parallel/__init__.py:49-52 | a failure header never reads as an error header |
| LegacyInit.Main | unittest_parallel/__init__.py:35-59 | the return value is 0 iff nothing is printed |
| LegacyInit.MainReturnsProblemCount | unittest_parallel/__init__.py:59 | the return value is the number of error texts plus failure texts |
| LegacyMain.LegacySettings | unittest_parallel/main.py:136-143 | `config_file` is always passed; the omit list ends with the program's own file |
| LegacyMain.LegacySessionsAreBracketed | unittest_parallel/main.py:131-151 | n sessions are 4n calls: construct, start, stop, save on consecutive data files |
| LegacyMain.CoverageStart | unittest_parallel/main.py:131-145 | measuring (coverage asked for and importable): a new data file, construct and start; otherwise nothing |
| LegacyMain.CoverageEnd | unittest_parallel/main.py:148-151 | measuring: stop and save; otherwise nothing |
| LegacyMain.RunTest | unittest_parallel/main.py:163-178 | the suite's triple or the runner's exception, and a complete session either way |
| LegacyMain.TriplesOfAt | unittest_parallel/main.py:80-84 | what `_runtest` gives for the i-th suite is the triple of the runner's i-th outcome |
| LegacyMain.MapTriples | unittest_parallel/main.py:80-84 | a completed map returns one triple per dispatched suite |
| LegacyMain.MapTriplesSnoc | unittest_parallel/main.py:80-84 | one more suite after a completed map: its triple is appended at the end, or its exception ends the map; one more suite reached |
| LegacyMain.Reached | unittest_parallel/main.py:80-84 | at most every suite reaches the runner |
| LegacyMain.ReachedAll | unittest_parallel/main.py:80-84 | when no suite raises, every suite reaches the runner |
| LegacyMain.MapTriplesAborts | unittest_parallel/main.py:80-84 | after a suite raises, later suites change neither the result nor the count of runs |
| LegacyMain.PoolMap | unittest_parallel/main.py:80-84 | the loop returns `MapTriples` of the outcomes, with one session per suite that ran |
| LegacyMain.RunCountSnoc | unittest_parallel/main.py:87-89 | the run count sums, the error and failure lists concatenate, suite by suite |
| LegacyMain.ReportLines | unittest_parallel/main.py:90-104 | a blank line, `Ran n tests` (always plural), then the first version's error and failure block, which is empty iff nothing failed |
| LegacyMain.ExitStatus | unittest_parallel/main.py:104-128 | errors + failures when there are any (unexpected successes ignored); otherwise 2 iff measuring and a non-zero threshold is missed, else 0 |
| LegacyMain.CombineCoverage | unittest_parallel/main.py:106-124 | the combiner with `config_file`, combine over every data file, the report, then HTML and XML when named |
| LegacyMain.RunAndReport | unittest_parallel/main.py:79-128 | after discovery: the status and report lines of the map over the suites, and the trace of 1 + (suites run) sessions, then the combined report exactly when no suite raised, none failed and coverage is measured |
| LegacyMain.Finish | unittest_parallel/main.py:86-128 | the report and exit status of the collected triples; the coverage lines and the combine, report, HTML and XML calls only when nothing failed and coverage is measured; no new data file |
| LegacyMain.Execute | unittest_parallel/main.py:61-128 | the unclamped process count; the status, the report and coverage lines, or the escaped exception; the call trace of 1 + (suites run) sessions, then the combined report when nothing failed |
| LegacyMain.LegacySessionsShift | unittest_parallel/main.py:72-77 | the discovery session followed by n suite sessions is 1 + n sessions from the first data file |

## Left out

- Argument parsing, help texts and the dynamic loading of `--runner`/`--result` classes. `Args` is the parsed namespace, and custom classes appear only by name.
- `--version` of the second version (unittest_parallel/main.py:59-60) is argument handling.
- Test discovery, `-s`/`-p`/`-t` and the application of `-k` patterns to the loader. The discovered tree is an input, and the runner is a function from unit and configuration to outcome.
- `unittest`'s runtime: `TextTestRunner.run`, `getDescription` and `repr` of skip reasons. Descriptions and reason texts are opaque strings.
- Real parallelism: the pool, the spawn context, `maxtasksperchild` and the manager's shared event. The pool is a sequential, order-preserving map, and the event is a boolean field of the manager. Interleavings of concurrent workers (a unit starting before another's stop request is seen) are not modelled.
- The coverage library's internals: its data, its percentage, its report table and the HTML/XML files. Only the calls made on it are recorded. The percentage and its two-decimal text are inputs.
- Temporary files and `os.listdir`: a data file is named by its creation index, and the combine step lists them in creation order.
- Timing: the duration of the run and its `.3f` text are inputs.
- Which stream each line goes to (standard error in the current version, standard output in the earlier ones), the `StringIO` runner stream and `flush` calls. Output is a list of lines or a string.
- The first version's `main` is modelled from the point after discovery, and its process count is `Cli.RequestedProcesses`.
- Report.ExitStatus: the status is an unbounded number. The 8-bit truncation by the operating system is not modelled, because the source passes the count to `exit` unchanged.
- LegacyMain.ExitStatus: same as above for the second version.
- Partition.ClassSuitesAreTheShallowest: tests are values here, so equal suites at two places in a tree are the same value. "No yielded suite is nested inside another" is therefore stated along paths from the root (`Shallow`), not as identity-based containment.
- Progress.ParallelTextTestResult.Add: `printErrors` (a no-op in the source) and the stream swap to standard error in `__init__` are not modelled.
