/** The coverage collaborator as `main` sees it: every call made on coverage objects, in
    order, and the data files created in the shared temporary directory. The `_coverage`
    session of src/unittest_parallel/main.py is the pair `Enter`/`Exit`. */
module Coverage {
  import opened Wrappers
  import opened Cli

  /** The `config_file` keyword: not passed at all, or passed with a value (maybe `None`). */
  datatype ConfigArg = NotPassed | Passed(path: Option<string>)

  /** The keyword arguments of a measuring `coverage.Coverage(...)`. */
  datatype Settings = Settings(
    branch: bool,
    dataFile: nat,
    includePatterns: Option<seq<string>>,
    omit: seq<string>,
    source: Option<seq<string>>,
    configFile: ConfigArg)

  /** One call on the collaborator. Data files are named by their creation index. */
  datatype Call =
    | Construct(settings: Settings)
    | Start
    | Stop
    | Save
    | ConstructCombiner(configFile: ConfigArg)
    | Combine(dataPaths: seq<nat>)
    | ReportCall
    | HtmlReport(directory: string)
    | XmlReport(outfile: string)

  /** The collaborator's observable state: the data files created so far (named
      `0 .. dataFiles - 1`) and the calls made so far. */
  class Collaborator {
    var dataFiles: nat
    var calls: seq<Call>

    constructor ()
      ensures dataFiles == 0 && calls == []
    {
      dataFiles := 0;
      calls := [];
    }

    /** A fresh, uniquely named data file in the temporary directory. */
    method NewDataFile() returns (f: nat)
      modifies this
      ensures f == old(dataFiles) && dataFiles == old(dataFiles) + 1
      ensures calls == old(calls)
    {
      f := dataFiles;
      dataFiles := dataFiles + 1;
    }

    method Record(c: Call)
      modifies this
      ensures calls == old(calls) + [c] && dataFiles == old(dataFiles)
    {
      calls := calls + [c];
    }
  }

  /** The path `__file__` of the running program, omitted from measurement. */
  const OwnFile := "unittest_parallel/main.py"

  /** The omit list: the user's patterns, then the program's own file. */
  function OmitList(userOmit: Option<seq<string>>, ownFile: string): (r: seq<string>)
    ensures |r| >= 1 && r[|r| - 1] == ownFile
    ensures r[..|r| - 1] == (if userOmit.Some? then userOmit.value else [])
  {
    var user := if userOmit.Some? && userOmit.value != [] then userOmit.value else [];
    user + [ownFile]
  }

  /** `config_file` is passed only when `--coverage-rcfile` is given. */
  function ConfigArgOf(rcfile: Option<string>): ConfigArg
  {
    if rcfile.Some? then Passed(rcfile) else NotPassed
  }

  function SessionSettings(args: Args, dataFile: nat): Settings
  {
    Settings(args.coverageBranch, dataFile, args.coverageInclude,
             OmitList(args.coverageOmit, OwnFile), args.coverageSource,
             ConfigArgOf(args.coverageRcfile))
  }

  /** The calls of one complete session on data file `dataFile`. */
  function SessionCalls(args: Args, dataFile: nat): seq<Call>
  {
    [Construct(SessionSettings(args, dataFile)), Start, Stop, Save]
  }

  /** The calls of `n` complete sessions on the data files `first .. first + n - 1`. */
  function Sessions(args: Args, first: nat, n: nat): seq<Call>
  {
    if n == 0 then [] else Sessions(args, first, n - 1) + SessionCalls(args, first + n - 1)
  }

  /** A trace made only of complete sessions: construct, start, stop, save, again and
      again, each on the next data file. */
  predicate Bracketed(calls: seq<Call>, first: nat)
    decreases |calls|
  {
    calls == []
    || (|calls| >= 4 && calls[0].Construct? && calls[0].settings.dataFile == first
        && calls[1] == Start && calls[2] == Stop && calls[3] == Save
        && Bracketed(calls[4..], first + 1))
  }

  lemma {:induction false} SessionsAreBracketed(args: Args, first: nat, n: nat)
    ensures |Sessions(args, first, n)| == 4 * n
    ensures Bracketed(Sessions(args, first, n), first)
  {
    if n > 0 {
      SessionsAreBracketed(args, first, n - 1);
      BracketedSnoc(Sessions(args, first, n - 1), first, n - 1, SessionCalls(args, first + n - 1));
    }
  }

  lemma {:induction false} BracketedSnoc(calls: seq<Call>, first: nat, n: nat, block: seq<Call>)
    requires Bracketed(calls, first) && |calls| == 4 * n
    requires |block| == 4 && block[0].Construct? && block[0].settings.dataFile == first + n
    requires block[1] == Start && block[2] == Stop && block[3] == Save
    ensures Bracketed(calls + block, first)
    decreases n
  {
    if calls == [] {
      assert calls + block == block;
      assert block[4..] == [];
    } else {
      assert (calls + block)[4..] == calls[4..] + block;
      BracketedSnoc(calls[4..], first + 1, n - 1, block);
    }
  }

  /** Entering a `_coverage` scope: with coverage on, a fresh data file, a coverage object
      built for it, and measurement started. */
  method Enter(env: Collaborator, args: Args) returns (active: bool)
    modifies env
    ensures active == args.coverage
    ensures active ==> env.dataFiles == old(env.dataFiles) + 1
    ensures active ==> env.calls == old(env.calls) + [Construct(SessionSettings(args, old(env.dataFiles))), Start]
    ensures !active ==> env.dataFiles == old(env.dataFiles) && env.calls == old(env.calls)
  {
    active := args.coverage;
    if active {
      var dataFile := env.NewDataFile();
      env.Record(Construct(SessionSettings(args, dataFile)));
      env.Record(Start);
    }
  }

  /** Leaving a `_coverage` scope, however the body ended: measurement stopped and saved. */
  method Exit(env: Collaborator, active: bool)
    modifies env
    ensures env.calls == old(env.calls) + (if active then [Stop, Save] else [])
    ensures env.dataFiles == old(env.dataFiles)
  {
    if active {
      env.Record(Stop);
      env.Record(Save);
    }
  }

  /** The data files `0 .. n - 1`, in creation order. */
  function Range(n: nat): (r: seq<nat>)
    ensures |r| == n && forall i :: 0 <= i < n ==> r[i] == i
  {
    if n == 0 then [] else Range(n - 1) + [n - 1]
  }
}
