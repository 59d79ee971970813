/** The parsed command line of `main` (src/unittest_parallel/main.py) and the values
    derived from it before any test runs: the effective coverage switch, the number of
    test processes and the `-k` selection patterns. */
module Cli {
  import opened Wrappers
  import opened Partition

  /** The options `main` reads after parsing. Lists given with `action='append'` are
      `None` when the option never appears. */
  datatype Args = Args(
    verbose: int,
    failfast: bool,
    buffer: bool,
    testNamePatterns: Option<seq<string>>,
    level: Level,
    jobs: int,
    disableProcessPooling: bool,
    runner: Option<string>,
    result: Option<string>,
    coverage: bool,
    coverageBranch: bool,
    coverageRcfile: Option<string>,
    coverageInclude: Option<seq<string>>,
    coverageOmit: Option<seq<string>>,
    coverageSource: Option<seq<string>>,
    coverageHtml: Option<string>,
    coverageXml: Option<string>,
    coverageFailUnder: Option<real>)

  /** `--coverage-branch` implies `--coverage`; nothing else changes. */
  function Normalize(args: Args): (r: Args)
    ensures r.coverage <==> args.coverage || args.coverageBranch
    ensures r.(coverage := args.coverage) == args
  {
    if args.coverageBranch then args.(coverage := true) else args
  }

  /** The process count asked for: `-j` when positive, otherwise the CPU count. */
  function RequestedProcesses(jobs: int, cpuCount: nat): (n: nat)
    ensures jobs > 0 ==> n == jobs
    ensures jobs <= 0 ==> n == cpuCount
  {
    var count := if jobs < 0 then 0 else jobs;
    if count == 0 then cpuCount else count
  }

  function Min(a: int, b: int): int { if a < b then a else b }

  function Max(a: int, b: int): int { if a < b then b else a }

  /** Never more processes than units, never fewer than one. */
  function ClampProcesses(units: nat, requested: nat): (n: nat)
    ensures 1 <= n <= Max(1, units)
    ensures 1 <= requested && 1 <= units ==> n == Min(units, requested)
    ensures n <= Max(1, requested)
  {
    Max(1, Min(units, requested))
  }

  /** The resolved process count: a positive `-j` is used as given (capped by the units)
      and the CPU count does not matter; otherwise the CPU count, capped the same way. */
  lemma ProcessCountResolution(jobs: int, cpuCount: nat, otherCpuCount: nat, units: nat)
    ensures 1 <= ClampProcesses(units, RequestedProcesses(jobs, cpuCount)) <= Max(1, units)
    ensures jobs > 0 ==> RequestedProcesses(jobs, cpuCount) == RequestedProcesses(jobs, otherCpuCount)
    ensures jobs > 0 && units >= jobs ==> ClampProcesses(units, RequestedProcesses(jobs, cpuCount)) == jobs
    ensures jobs <= 0 && 1 <= cpuCount <= units ==>
              ClampProcesses(units, RequestedProcesses(jobs, cpuCount)) == cpuCount
  {
  }

  /** `_convert_select_pattern`: a `-k` value without a wildcard matches as a substring. */
  function ConvertSelectPattern(pattern: string): (r: string)
    ensures '*' in r
    ensures '*' in pattern ==> r == pattern
    ensures '*' !in pattern ==>
              && |r| == |pattern| + 2
              && r[0] == '*' && r[|r| - 1] == '*'
              && r[1..|r| - 1] == pattern
  {
    if '*' !in pattern then "*" + pattern + "*" else pattern
  }

  /** Converting a converted pattern changes nothing. */
  lemma ConvertSelectPatternIdempotent(pattern: string)
    ensures ConvertSelectPattern(ConvertSelectPattern(pattern)) == ConvertSelectPattern(pattern)
  {
  }
}
