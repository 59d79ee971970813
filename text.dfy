/** String helpers the report and the error blocks are built from: repeated
    characters (`'=' * 70`), decimal rendering of counts (`str(n)` / `f'{n}'`),
    and joining on a separator (`sep.join(parts)`) with its inverse for `'\n'`. */
module Text {
  import opened Wrappers

  /** `[c] * n` as a string: `'=' * 70`. */
  function Repeat(c: char, n: nat): (r: string)
    ensures |r| == n
    ensures forall i :: 0 <= i < n ==> r[i] == c
  {
    if n == 0 then [] else [c] + Repeat(c, n - 1)
  }

  predicate IsDigit(c: char) {
    '0' <= c <= '9'
  }

  predicate AllDigits(s: string) {
    forall i :: 0 <= i < |s| ==> IsDigit(s[i])
  }

  function DigitChar(d: nat): (c: char)
    requires d < 10
    ensures IsDigit(c)
  {
    (48 + d) as char
  }

  function DigitValue(c: char): (d: nat)
    requires IsDigit(c)
    ensures d < 10 && DigitChar(d) == c
  {
    c as int - 48
  }

  /** The decimal rendering of a non-negative integer, as Python's `str(n)`. */
  function Decimal(n: nat): (r: string)
    ensures |r| >= 1 && AllDigits(r)
    ensures r[0] == '0' ==> n == 0
  {
    if n < 10 then [DigitChar(n)] else Decimal(n / 10) + [DigitChar(n % 10)]
  }

  /** Reads a string of decimal digits back as a number (Python's `int(s)`). */
  function ParseDecimal(s: string): nat
    requires AllDigits(s)
  {
    if s == [] then 0 else ParseDecimal(s[..|s| - 1]) * 10 + DigitValue(s[|s| - 1])
  }

  /** Rendering a count and reading it back gives the count: the rendering loses nothing. */
  lemma {:induction false} DecimalRoundTrip(n: nat)
    ensures ParseDecimal(Decimal(n)) == n
  {
    if n >= 10 {
      var s := Decimal(n);
      assert s[..|s| - 1] == Decimal(n / 10);
      DecimalRoundTrip(n / 10);
    }
  }

  /** Two different counts never render alike. */
  lemma DecimalInjective(m: nat, n: nat)
    requires Decimal(m) == Decimal(n)
    ensures m == n
  {
    DecimalRoundTrip(m);
    DecimalRoundTrip(n);
  }

  /** `sep.join(parts)`. */
  function Join(sep: string, parts: seq<string>): (r: string)
  {
    if |parts| == 0 then ""
    else if |parts| == 1 then parts[0]
    else parts[0] + sep + Join(sep, parts[1..])
  }

  /** The index of the first occurrence of `c` in `s`, if any (`s.find(c)`). */
  function Find(s: string, c: char): (r: Option<nat>)
    ensures r.Some? ==> r.value < |s| && s[r.value] == c && c !in s[..r.value]
    ensures r.None? ==> c !in s
  {
    if s == [] then None
    else if s[0] == c then Some(0)
    else
      var k := Find(s[1..], c);
      if k.None? then None else assert s[1..][..k.value] == s[1..k.value + 1]; Some(k.value + 1)
  }

  /** `s.split('\n', maxsplit)`: cut at the first `maxsplit` line breaks. */
  function SplitLines(s: string, maxsplit: nat): (r: seq<string>)
    ensures |r| >= 1
  {
    if maxsplit == 0 then [s]
    else
      match Find(s, '\n')
      case None => [s]
      case Some(k) => [s[..k]] + SplitLines(s[k + 1..], maxsplit - 1)
  }

  lemma FindAfterPrefix(a: string, b: string, c: char)
    requires c !in a
    ensures Find(a + [c] + b, c) == Some(|a|)
  {
    var s := a + [c] + b;
    assert s[..|a|] == a;
    assert s[|a|] == c;
  }

  /** A first line free of line breaks is cut off whole by the first split. */
  lemma SplitFirstLine(first: string, rest: string, maxsplit: nat)
    requires '\n' !in first && maxsplit >= 1
    ensures SplitLines(first + "\n" + rest, maxsplit) == [first] + SplitLines(rest, maxsplit - 1)
  {
    var s := first + "\n" + rest;
    FindAfterPrefix(first, rest, '\n');
    assert s[..|first|] == first;
    assert s[|first| + 1..] == rest;
  }

  /** Splitting a newline-joined list at its first |parts|-1 breaks gives the parts back,
      provided no part but the last contains a line break. */
  lemma {:induction false} SplitJoinLines(parts: seq<string>)
    requires |parts| >= 1
    requires forall i :: 0 <= i < |parts| - 1 ==> '\n' !in parts[i]
    ensures SplitLines(Join("\n", parts), |parts| - 1) == parts
  {
    if |parts| == 1 {
      assert Join("\n", parts) == parts[0];
      assert [parts[0]] == parts;
    } else {
      var tail := parts[1..];
      var rest := Join("\n", tail);
      SplitJoinLines(tail);
      assert Join("\n", parts) == parts[0] + "\n" + rest;
      SplitFirstLine(parts[0], rest, |tail|);
      assert [parts[0]] + tail == parts;
    }
  }

  /** The error block every version of the runner prints: a top rule, the test's
      description, a bottom rule and the traceback, one per line
      (`'\n'.join([top, description, bottom, text])`). */
  function ErrorBlock(top: string, description: string, bottom: string, text: string): string
  {
    top + "\n" + description + "\n" + bottom + "\n" + text
  }

  /** `'\n'.join([top, description, bottom, text])`: the error block is its four parts with
      a line break between each two, whatever the parts contain. */
  lemma ErrorBlockJoins(top: string, description: string, bottom: string, text: string)
    ensures ErrorBlock(top, description, bottom, text) == Join("\n", [top, description, bottom, text])
  {
    var parts := [top, description, bottom, text];
    assert parts[1..] == [description, bottom, text] && parts[1..][1..] == [bottom, text];
    assert parts[1..][1..][1..] == [text];
    assert Join("\n", [bottom, text]) == bottom + "\n" + text;
    assert Join("\n", [description, bottom, text]) == description + "\n" + (bottom + "\n" + text);
  }

  /** When neither rule nor the description spans lines, splitting the block at its first
      three line breaks gives the four parts back: the block is the parts joined by line
      breaks, and nothing of the text is lost. */
  lemma ErrorBlockSplits(top: string, description: string, bottom: string, text: string)
    requires '\n' !in top && '\n' !in description && '\n' !in bottom
    ensures ErrorBlock(top, description, bottom, text) == Join("\n", [top, description, bottom, text])
    ensures SplitLines(ErrorBlock(top, description, bottom, text), 3) == [top, description, bottom, text]
  {
    ErrorBlockJoins(top, description, bottom, text);
    SplitJoinLines([top, description, bottom, text]);
  }
}
