/** The result aggregator and reporter of `main` (src/unittest_parallel/main.py): the fold
    over the ordered per-unit result records, the summary information, the report lines
    written to the error stream and the exit status. */
module Report {
  import opened Wrappers
  import opened Text

  /** What one work unit returns: `(tests_run, errors, failures, skipped,
      expected_failures, unexpected_successes)`, errors and failures already formatted. */
  datatype ResultRecord = ResultRecord(
    testsRun: nat,
    errors: seq<string>,
    failures: seq<string>,
    skipped: nat,
    expectedFailures: nat,
    unexpectedSuccesses: nat)

  /** The record of a unit short-circuited by fail-fast: `[0, [], [], 0, 0, 0]`. */
  const Zero := ResultRecord(0, [], [], 0, 0, 0)

  /** `unittest.TextTestResult.separator2`. */
  const Separator2 := Repeat('-', 70)

  /** One step of the aggregation loop: counters add up, lists are extended. */
  function Add(a: ResultRecord, b: ResultRecord): ResultRecord
  {
    ResultRecord(
      a.testsRun + b.testsRun,
      a.errors + b.errors,
      a.failures + b.failures,
      a.skipped + b.skipped,
      a.expectedFailures + b.expectedFailures,
      a.unexpectedSuccesses + b.unexpectedSuccesses)
  }

  /** The aggregate of the records taken in unit order. */
  function Totals(rs: seq<ResultRecord>): ResultRecord
  {
    if rs == [] then Zero else Add(Totals(rs[..|rs| - 1]), rs[|rs| - 1])
  }

  /** `is_success`: no errors, no failures and no unexpected successes. */
  predicate Succeeded(r: ResultRecord)
  {
    r.errors == [] && r.failures == [] && r.unexpectedSuccesses == 0
  }

  /** The aggregation loop of `main`. */
  method Aggregate(results: seq<ResultRecord>) returns (total: ResultRecord, isSuccess: bool)
    ensures total == Totals(results)
    ensures isSuccess <==> forall i :: 0 <= i < |results| ==> Succeeded(results[i])
  {
    var testsRun: nat, skipped: nat, expectedFailures: nat, unexpectedSuccesses: nat := 0, 0, 0, 0;
    var errors: seq<string>, failures: seq<string> := [], [];
    for i := 0 to |results|
      invariant ResultRecord(testsRun, errors, failures, skipped, expectedFailures, unexpectedSuccesses)
                == Totals(results[..i])
    {
      var result := results[i];
      testsRun := testsRun + result.testsRun;
      errors := errors + result.errors;
      failures := failures + result.failures;
      skipped := skipped + result.skipped;
      expectedFailures := expectedFailures + result.expectedFailures;
      unexpectedSuccesses := unexpectedSuccesses + result.unexpectedSuccesses;
      assert results[..i + 1][..i] == results[..i];
    }
    assert results[..|results|] == results;
    total := ResultRecord(testsRun, errors, failures, skipped, expectedFailures, unexpectedSuccesses);
    isSuccess := !(errors != [] || failures != [] || unexpectedSuccesses != 0);
    SucceededIffEveryUnitSucceeded(results);
  }

  /** The run succeeds iff every unit's record is free of errors, failures and
      unexpected successes. */
  lemma {:induction false} SucceededIffEveryUnitSucceeded(rs: seq<ResultRecord>)
    ensures Succeeded(Totals(rs)) <==> forall i :: 0 <= i < |rs| ==> Succeeded(rs[i])
  {
    if rs != [] {
      var init := rs[..|rs| - 1];
      SucceededIffEveryUnitSucceeded(init);
      assert forall i :: 0 <= i < |init| ==> init[i] == rs[i];
    }
  }

  lemma AddAssociative(x: ResultRecord, y: ResultRecord, z: ResultRecord)
    ensures Add(Add(x, y), z) == Add(x, Add(y, z))
  {
    assert x.errors + y.errors + z.errors == x.errors + (y.errors + z.errors);
    assert x.failures + y.failures + z.failures == x.failures + (y.failures + z.failures);
  }

  /** Aggregation respects unit order: the records of a first group of units are
      aggregated, then those of the next group, and the two aggregates are added. */
  lemma {:induction false} TotalsAppend(a: seq<ResultRecord>, b: seq<ResultRecord>)
    ensures Totals(a + b) == Add(Totals(a), Totals(b))
  {
    if b == [] {
      assert a + b == a;
      assert Add(Totals(a), Zero) == Totals(a);
    } else {
      var b', last := b[..|b| - 1], b[|b| - 1];
      var ab := a + b;
      assert ab[..|ab| - 1] == a + b' && ab[|ab| - 1] == last;
      assert Totals(ab) == Add(Totals(a + b'), last);
      TotalsAppend(a, b');
      AddAssociative(Totals(a), Totals(b'), last);
    }
  }

  /** The records of `n` units that were short-circuited: `n` empty records. */
  function Zeros(n: nat): (r: seq<ResultRecord>)
    ensures |r| == n
  {
    if n == 0 then [] else Zeros(n - 1) + [Zero]
  }

  /** Adding an empty record changes nothing. */
  lemma AddZero(x: ResultRecord)
    ensures Add(x, Zero) == x
  {
    assert x.errors + [] == x.errors;
    assert x.failures + [] == x.failures;
  }

  /** Units short-circuited by fail-fast add nothing to the aggregate. */
  lemma {:induction false} TotalsSkipsZeros(a: seq<ResultRecord>, n: nat)
    ensures Totals(a + Zeros(n)) == Totals(a)
  {
    if n == 0 {
      assert a + Zeros(0) == a;
    } else {
      var rest := a + Zeros(n - 1);
      var az := a + Zeros(n);
      assert az == rest + [Zero];
      assert az[..|az| - 1] == rest && az[|az| - 1] == Zero;
      calc {
        Totals(az);
        Add(Totals(rest), Zero);
        { AddZero(Totals(rest)); }
        Totals(rest);
        { TotalsSkipsZeros(a, n - 1); }
        Totals(a);
      }
    }
  }

  // ---------------------------------------------------------------------------
  // Summary information

  /** The counts the summary reports, as numbers. */
  datatype Counts = Counts(
    failures: nat,
    errors: nat,
    skipped: nat,
    expectedFailures: nat,
    unexpectedSuccesses: nat)

  const NoCounts := Counts(0, 0, 0, 0, 0)

  function CountsOf(t: ResultRecord): Counts
  {
    Counts(|t.failures|, |t.errors|, t.skipped, t.expectedFailures, t.unexpectedSuccesses)
  }

  function Info(key: string, n: nat): string
  {
    key + "=" + Decimal(n)
  }

  /** The entry written for one keyed count: nothing when the count is zero. */
  function InfoEntry(key: string, n: nat): (r: seq<string>)
    ensures |r| <= 1 && (r == [] <==> n == 0)
  {
    if n != 0 then [Info(key, n)] else []
  }

  /** `infos`: one `key=count` entry per non-zero count, always in the order failures,
      errors, skipped, expected failures, unexpected successes. */
  function Infos(t: ResultRecord): (r: seq<string>)
    ensures r == [] <==> CountsOf(t) == NoCounts
    ensures |r| <= 5
  {
    InfoEntry("failures", |t.failures|) + InfoEntry("errors", |t.errors|) + InfoEntry("skipped", t.skipped)
    + InfoEntry("expected failures", t.expectedFailures)
    + InfoEntry("unexpected successes", t.unexpectedSuccesses)
  }

  /** The summary's keys; `Rank` is the order `main` writes them in. */
  datatype InfoKey = Failures | Errors | Skipped | ExpectedFailures | UnexpectedSuccesses

  function KeyName(k: InfoKey): string
  {
    match k
    case Failures => "failures"
    case Errors => "errors"
    case Skipped => "skipped"
    case ExpectedFailures => "expected failures"
    case UnexpectedSuccesses => "unexpected successes"
  }

  function Rank(k: InfoKey): nat
  {
    match k
    case Failures => 0
    case Errors => 1
    case Skipped => 2
    case ExpectedFailures => 3
    case UnexpectedSuccesses => 4
  }

  /** The keys in the order `main` writes them. */
  const KeyOrder: seq<InfoKey> := [Failures, Errors, Skipped, ExpectedFailures, UnexpectedSuccesses]

  /** The count written under key `k`. */
  function KeyCount(c: Counts, k: InfoKey): nat
  {
    match k
    case Failures => c.failures
    case Errors => c.errors
    case Skipped => c.skipped
    case ExpectedFailures => c.expectedFailures
    case UnexpectedSuccesses => c.unexpectedSuccesses
  }

  /** Keys in strictly increasing rank. */
  predicate Ascending(ks: seq<InfoKey>)
  {
    forall i, j :: 0 <= i < j < |ks| ==> Rank(ks[i]) < Rank(ks[j])
  }

  /** Of `keys`, those whose count is non-zero, in the same order. */
  function Counted(c: Counts, keys: seq<InfoKey>): seq<InfoKey>
  {
    if keys == [] then []
    else (if KeyCount(c, keys[0]) != 0 then [keys[0]] else []) + Counted(c, keys[1..])
  }

  /** `key=count` for each of the keys, in order. */
  function InfoList(c: Counts, ks: seq<InfoKey>): (r: seq<string>)
    ensures |r| == |ks|
  {
    if ks == [] then [] else [Info(KeyName(ks[0]), KeyCount(c, ks[0]))] + InfoList(c, ks[1..])
  }

  /** Every counted key has a non-zero count and ranks above any bound all keys rank above. */
  lemma {:induction false} CountedNonZero(c: Counts, keys: seq<InfoKey>, floor: int)
    requires forall i :: 0 <= i < |keys| ==> Rank(keys[i]) > floor
    ensures forall i :: 0 <= i < |Counted(c, keys)| ==>
      KeyCount(c, Counted(c, keys)[i]) != 0 && Rank(Counted(c, keys)[i]) > floor
  {
    if keys != [] {
      var rest := Counted(c, keys[1..]);
      CountedNonZero(c, keys[1..], floor);
      if KeyCount(c, keys[0]) != 0 {
        assert Counted(c, keys) == [keys[0]] + rest;
        assert forall i :: 1 <= i <= |rest| ==> ([keys[0]] + rest)[i] == rest[i - 1];
      } else {
        assert Counted(c, keys) == rest;
      }
    }
  }

  /** Filtering keeps the keys' order. */
  lemma {:induction false} CountedAscending(c: Counts, keys: seq<InfoKey>)
    requires Ascending(keys)
    ensures Ascending(Counted(c, keys))
  {
    if keys != [] {
      var rest := Counted(c, keys[1..]);
      assert Ascending(keys[1..]) by {
        assert forall i :: 0 <= i < |keys| - 1 ==> keys[1..][i] == keys[i + 1];
      }
      CountedAscending(c, keys[1..]);
      if KeyCount(c, keys[0]) != 0 {
        CountedNonZero(c, keys[1..], Rank(keys[0]));
        var ks := [keys[0]] + rest;
        assert Counted(c, keys) == ks;
        assert forall i :: 1 <= i < |ks| ==> ks[i] == rest[i - 1];
      } else {
        assert Counted(c, keys) == rest;
      }
    }
  }

  /** No key with a non-zero count is left out. */
  lemma {:induction false} CountedComplete(c: Counts, keys: seq<InfoKey>, k: InfoKey)
    requires k in keys && KeyCount(c, k) != 0
    ensures k in Counted(c, keys)
  {
    var rest := Counted(c, keys[1..]);
    if keys[0] == k {
      assert Counted(c, keys) == [k] + rest;
    } else {
      assert k in keys[1..];
      CountedComplete(c, keys[1..], k);
      assert Counted(c, keys) == (if KeyCount(c, keys[0]) != 0 then [keys[0]] else []) + rest;
    }
  }

  /** The keys are written in rank order, and every key is written. */
  lemma KeyOrderIsRankOrder(k: InfoKey)
    ensures Ascending(KeyOrder) && k in KeyOrder
  {
    assert KeyOrder[Rank(k)] == k;
  }

  /** The entries `main` appends for `keys`, one per non-zero count. */
  function EntriesOf(c: Counts, keys: seq<InfoKey>): seq<string>
  {
    if keys == [] then [] else InfoEntry(KeyName(keys[0]), KeyCount(c, keys[0])) + EntriesOf(c, keys[1..])
  }

  lemma {:induction false} EntriesAreInfoList(c: Counts, keys: seq<InfoKey>)
    ensures EntriesOf(c, keys) == InfoList(c, Counted(c, keys))
  {
    if keys != [] {
      EntriesAreInfoList(c, keys[1..]);
      var k, rest := keys[0], Counted(c, keys[1..]);
      if KeyCount(c, k) != 0 {
        assert Counted(c, keys) == [k] + rest;
        assert ([k] + rest)[1..] == rest;
      } else {
        assert Counted(c, keys) == rest;
      }
    }
  }

  lemma FiveAppends(a: seq<string>, b: seq<string>, c: seq<string>, d: seq<string>, e: seq<string>)
    ensures a + (b + (c + (d + e))) == a + b + c + d + e
  {
    assert c + (d + e) == c + d + e;
    assert b + (c + d + e) == b + (c + d) + e == b + c + d + e;
    assert a + (b + c + d + e) == a + b + c + d + e;
  }

  /** The summary's entries are `key=count` for exactly the keys with a non-zero count, in
      the fixed order failures, errors, skipped, expected failures, unexpected successes
      (`CountedNonZero`, `CountedAscending`, `CountedComplete`, `KeyOrderIsRankOrder`). */
  lemma InfosInKeyOrder(t: ResultRecord)
    ensures Infos(t) == InfoList(CountsOf(t), Counted(CountsOf(t), KeyOrder))
  {
    var c := CountsOf(t);
    var ks := KeyOrder;
    var ks1, ks2 := [Errors, Skipped, ExpectedFailures, UnexpectedSuccesses], [Skipped, ExpectedFailures, UnexpectedSuccesses];
    var ks3, ks4 := [ExpectedFailures, UnexpectedSuccesses], [UnexpectedSuccesses];
    assert ks[1..] == ks1 && ks1[1..] == ks2 && ks2[1..] == ks3 && ks3[1..] == ks4 && ks4[1..] == [];
    var e0, e1 := InfoEntry("failures", c.failures), InfoEntry("errors", c.errors);
    var e2, e3 := InfoEntry("skipped", c.skipped), InfoEntry("expected failures", c.expectedFailures);
    var e4 := InfoEntry("unexpected successes", c.unexpectedSuccesses);
    assert EntriesOf(c, ks4) == e4 + [] == e4;
    assert EntriesOf(c, ks3) == e3 + e4;
    assert EntriesOf(c, ks2) == e2 + (e3 + e4);
    assert EntriesOf(c, ks1) == e1 + (e2 + (e3 + e4));
    assert EntriesOf(c, ks) == e0 + (e1 + (e2 + (e3 + e4)));
    FiveAppends(e0, e1, e2, e3, e4);
    assert Infos(t) == e0 + e1 + e2 + e3 + e4;
    EntriesAreInfoList(c, ks);
  }

  /** `main` builds the list by appending one entry per non-zero count. */
  method CollectInfos(t: ResultRecord) returns (infos: seq<string>)
    ensures infos == Infos(t)
  {
    infos := AppendIfCounted([], "failures", |t.failures|);
    infos := AppendIfCounted(infos, "errors", |t.errors|);
    infos := AppendIfCounted(infos, "skipped", t.skipped);
    infos := AppendIfCounted(infos, "expected failures", t.expectedFailures);
    infos := AppendIfCounted(infos, "unexpected successes", t.unexpectedSuccesses);
  }

  /** `if count: infos.append(f'{key}={count}')`. */
  method AppendIfCounted(infos: seq<string>, key: string, n: nat) returns (r: seq<string>)
    ensures r == infos + InfoEntry(key, n)
    ensures n == 0 ==> r == infos
    ensures n != 0 ==> |r| == |infos| + 1 && r[|infos|] == key + "=" + Decimal(n)
  {
    r := infos;
    if n != 0 {
      r := r + [Info(key, n)];
    }
  }

  /** The count named `key` set to `n`; unknown keys change nothing. */
  function SetCount(c: Counts, key: string, n: nat): Counts
  {
    if key == "failures" then c.(failures := n)
    else if key == "errors" then c.(errors := n)
    else if key == "skipped" then c.(skipped := n)
    else if key == "expected failures" then c.(expectedFailures := n)
    else if key == "unexpected successes" then c.(unexpectedSuccesses := n)
    else c
  }

  /** How a reader of the summary recovers one `key=count` entry; unreadable entries
      change nothing. */
  function ReadInfo(entry: string, c: Counts): Counts
  {
    match Find(entry, '=')
    case None => c
    case Some(k) =>
      var digits := entry[k + 1..];
      if AllDigits(digits) then SetCount(c, entry[..k], ParseDecimal(digits)) else c
  }

  /** Reads a list of entries in order. */
  function ReadInfos(entries: seq<string>, c: Counts): Counts
  {
    if entries == [] then c else ReadInfos(entries[1..], ReadInfo(entries[0], c))
  }

  /** Reading a concatenation reads the first part, then the second. */
  lemma {:induction false} ReadInfosAppend(a: seq<string>, b: seq<string>, c: Counts)
    ensures ReadInfos(a + b, c) == ReadInfos(b, ReadInfos(a, c))
  {
    if a == [] {
      assert a + b == b;
    } else {
      assert (a + b)[0] == a[0] && (a + b)[1..] == a[1..] + b;
      ReadInfosAppend(a[1..], b, ReadInfo(a[0], c));
    }
  }

  /** Reading the entry of a count sets that count; a zero count wrote nothing. */
  lemma ReadEntry(key: string, n: nat, c: Counts)
    requires '=' !in key
    ensures ReadInfos(InfoEntry(key, n), c) == if n == 0 then c else SetCount(c, key, n)
  {
    if n != 0 {
      var entry := Info(key, n);
      assert entry == key + ['='] + Decimal(n);
      FindAfterPrefix(key, Decimal(n), '=');
      assert entry[..|key|] == key;
      assert entry[|key| + 1..] == Decimal(n);
      DecimalRoundTrip(n);
      assert [entry][1..] == [];
    }
  }

  /** Each key of the summary sets its own count. */
  lemma SetCountByKey(c: Counts, n: nat)
    ensures SetCount(c, "failures", n) == c.(failures := n)
    ensures SetCount(c, "errors", n) == c.(errors := n)
    ensures SetCount(c, "skipped", n) == c.(skipped := n)
    ensures SetCount(c, "expected failures", n) == c.(expectedFailures := n)
    ensures SetCount(c, "unexpected successes", n) == c.(unexpectedSuccesses := n)
  {
    assert |"errors"| != |"failures"|;
    assert |"skipped"| != |"failures"| && |"skipped"| != |"errors"|;
    assert |"expected failures"| != |"failures"| && |"expected failures"| != |"errors"| && |"expected failures"| != |"skipped"|;
  }

  /** The summary information loses nothing: reading its entries back, starting from all
      counts zero, gives every count, the omitted ones as zero. */
  lemma InfosRoundTrip(t: ResultRecord)
    ensures ReadInfos(Infos(t), NoCounts) == CountsOf(t)
  {
    var e0, e1, e2 := InfoEntry("failures", |t.failures|), InfoEntry("errors", |t.errors|), InfoEntry("skipped", t.skipped);
    var e3, e4 := InfoEntry("expected failures", t.expectedFailures), InfoEntry("unexpected successes", t.unexpectedSuccesses);
    var c1 := NoCounts.(failures := |t.failures|);
    var c2 := c1.(errors := |t.errors|);
    var c3 := c2.(skipped := t.skipped);
    var c4 := c3.(expectedFailures := t.expectedFailures);
    assert ReadInfos(e0, NoCounts) == c1 by {
      ReadEntry("failures", |t.failures|, NoCounts);
      SetCountByKey(NoCounts, |t.failures|);
    }
    assert ReadInfos(e1, c1) == c2 by {
      ReadEntry("errors", |t.errors|, c1);
      SetCountByKey(c1, |t.errors|);
    }
    assert ReadInfos(e2, c2) == c3 by {
      ReadEntry("skipped", t.skipped, c2);
      SetCountByKey(c2, t.skipped);
    }
    assert ReadInfos(e3, c3) == c4 by {
      ReadEntry("expected failures", t.expectedFailures, c3);
      SetCountByKey(c3, t.expectedFailures);
    }
    assert ReadInfos(e4, c4) == CountsOf(t) by {
      ReadEntry("unexpected successes", t.unexpectedSuccesses, c4);
      SetCountByKey(c4, t.unexpectedSuccesses);
    }
    assert Infos(t) == e0 + e1 + e2 + e3 + e4;
    ReadInfosAppend(e0, e1, NoCounts);
    ReadInfosAppend(e0 + e1, e2, NoCounts);
    ReadInfosAppend(e0 + e1 + e2, e3, NoCounts);
    ReadInfosAppend(e0 + e1 + e2 + e3, e4, NoCounts);
  }

  // ---------------------------------------------------------------------------
  // Report lines

  /** `"tests" if tests_run > 1 else "test"`. */
  function Noun(n: nat): (w: string)
    ensures w == "tests" <==> n > 1
    ensures w == "test" <==> n <= 1
  {
    if n > 1 then "tests" else "test"
  }

  /** The `Ran N test(s) in T.TTTs` line; the formatted duration is an input. */
  function RanLine(testsRun: nat, duration: string): string
  {
    "Ran " + Decimal(testsRun) + " " + Noun(testsRun) + " in " + duration + "s"
  }

  /** The final status line: `OK` or `FAILED`, then the non-empty summary information
      in parentheses. */
  function SummaryLine(t: ResultRecord): (r: string)
    ensures |r| >= 2
    ensures r[0] == 'O' <==> Succeeded(t)
    ensures r[|r| - 1] == ')' <==> CountsOf(t) != NoCounts
    ensures CountsOf(t) == NoCounts ==> r == "OK"
  {
    StatusLine(Succeeded(t), Infos(t))
  }

  /** `OK` or `FAILED`, then the entries joined by `, ` in parentheses when there are any. */
  function StatusLine(success: bool, infos: seq<string>): string
  {
    (if success then "OK" else "FAILED") + (if infos != [] then " (" + Join(", ", infos) + ")" else "")
  }

  lemma StatusLineWords(success: bool, infos: seq<string>)
    ensures success ==> StatusLine(success, infos)[..2] == "OK"
    ensures !success ==> |StatusLine(success, infos)| >= 6 && StatusLine(success, infos)[..6] == "FAILED"
    ensures infos != [] ==> StatusLine(success, infos) == (if success then "OK" else "FAILED") + " (" + Join(", ", infos) + ")"
  {
    var word: string := if success then "OK" else "FAILED";
    var rest: string := if infos != [] then " (" + Join(", ", infos) + ")" else "";
    assert StatusLine(success, infos) == word + rest;
    assert (word + rest)[..|word|] == word;
  }

  /** The status line reads `OK` on success and `FAILED` otherwise; when some count is
      non-zero, the word is followed by the summary's entries, joined by `, `, in
      parentheses. */
  lemma SummaryLineWords(t: ResultRecord)
    ensures Succeeded(t) ==> SummaryLine(t)[..2] == "OK"
    ensures !Succeeded(t) ==> |SummaryLine(t)| >= 6 && SummaryLine(t)[..6] == "FAILED"
    ensures CountsOf(t) != NoCounts ==>
              SummaryLine(t) == (if Succeeded(t) then "OK" else "FAILED") + " (" + Join(", ", Infos(t)) + ")"
  {
    StatusLineWords(Succeeded(t), Infos(t));
  }

  /** The lines `main` writes after the run, each `print` call one entry: the error and
      failure blocks (or a lone blank line when the output is not quiet), then the standard
      report unless a custom runner or result class is in use. */
  function ReportLines(t: ResultRecord, verbose: int, customClass: bool, duration: string): seq<string>
  {
    Layout(t.errors + t.failures, verbose, customClass, Footer(t, duration))
  }

  /** The standard report: the separator, the `Ran` line, a blank line and the status line. */
  function Footer(t: ResultRecord, duration: string): (r: seq<string>)
    ensures |r| == 4 && r[1] == RanLine(t.testsRun, duration) && r[3] == SummaryLine(t)
  {
    [Separator2, RanLine(t.testsRun, duration), "", SummaryLine(t)]
  }

  /** The error and failure blocks after a blank line (or a lone blank line when the output
      is not quiet), then the footer unless a custom runner or result class is in use. */
  function Layout(problems: seq<string>, verbose: int, customClass: bool, footer: seq<string>): seq<string>
  {
    (if problems != [] then [""] + problems else if verbose > 0 then [""] else [])
    + (if customClass then [] else footer)
  }

  /** The report writes every error block, then every failure block, each in unit order,
      right after a blank line (a lone blank line when nothing failed and the output is not
      quiet, no line when it is quiet), and ends with the separator, the `Ran` line, a blank
      line and the status line unless a custom class is in use. */
  lemma ReportLayout(t: ResultRecord, verbose: int, customClass: bool, duration: string)
    ensures var lines := ReportLines(t, verbose, customClass, duration);
      && (t.errors != [] || t.failures != [] ==>
            lines[0] == "" && lines[1..1 + |t.errors| + |t.failures|] == t.errors + t.failures)
      && |lines| == (if t.errors + t.failures != [] then 1 + |t.errors| + |t.failures|
                     else if verbose > 0 then 1 else 0)
                    + (if customClass then 0 else 4)
      && (t.errors == [] && t.failures == [] && verbose > 0 ==> lines[0] == "")
      && (!customClass ==>
            && lines[|lines| - 4] == Separator2
            && lines[|lines| - 3] == RanLine(t.testsRun, duration)
            && lines[|lines| - 2] == ""
            && lines[|lines| - 1] == SummaryLine(t))
  {
    var problems := t.errors + t.failures;
    assert problems != [] <==> t.errors != [] || t.failures != [];
    LinesLayout(problems, verbose, customClass, Footer(t, duration));
  }

  /** The shape of the report with its four closing lines left abstract. */
  lemma LinesLayout(problems: seq<string>, verbose: int, customClass: bool, footer: seq<string>)
    requires |footer| == 4
    ensures var lines := Layout(problems, verbose, customClass, footer);
      && (problems != [] ==> lines[0] == "" && lines[1..1 + |problems|] == problems)
      && |lines| == (if problems != [] then 1 + |problems| else if verbose > 0 then 1 else 0)
                    + (if customClass then 0 else 4)
      && (problems == [] && verbose > 0 ==> lines[0] == "")
      && (!customClass ==> lines[|lines| - 4..] == footer)
  {
    var head: seq<string> := if problems != [] then [""] + problems else if verbose > 0 then [""] else [];
    var tail: seq<string> := if customClass then [] else footer;
    if problems != [] {
      assert (head + tail)[1..1 + |problems|] == problems;
    }
  }

  // ---------------------------------------------------------------------------
  // Exit status

  /** The exit status after the test run: 0 on success, otherwise the number of errors,
      failures and unexpected successes. */
  function TestStatus(t: ResultRecord): (s: nat)
    ensures s == 0 <==> Succeeded(t)
    ensures !Succeeded(t) ==> s == |t.errors| + |t.failures| + t.unexpectedSuccesses
  {
    if Succeeded(t) then 0 else |t.errors| + |t.failures| + t.unexpectedSuccesses
  }

  /** `args.coverage_fail_under and percent_covered < args.coverage_fail_under`: a missing
      or zero threshold never fails. */
  predicate FailsUnder(threshold: Option<real>, percent: real)
  {
    threshold.Some? && threshold.value != 0.0 && percent < threshold.value
  }

  /** The process exit status: the test status on failure (the coverage step is not
      reached), otherwise 2 iff coverage is on and its percentage is under the threshold. */
  function ExitStatus(t: ResultRecord, coverage: bool, threshold: Option<real>, percent: real): (s: nat)
    ensures !Succeeded(t) ==> s >= 1 && s == |t.errors| + |t.failures| + t.unexpectedSuccesses
    ensures Succeeded(t) ==> (s == 2 <==> coverage && FailsUnder(threshold, percent))
    ensures Succeeded(t) ==> (s == 0 <==> !(coverage && FailsUnder(threshold, percent)))
  {
    if !Succeeded(t) then TestStatus(t)
    else if coverage && FailsUnder(threshold, percent) then 2
    else 0
  }
}
