/**
 * String helpers the child-process reaper relies on: `String.prototype.includes`
 * and the global, multi-line match of the pattern `^[0-9]+` over a process listing.
 * Strings are sequences of characters; nothing here normalises or folds case.
 */
module Text {

  predicate IsDigit(c: char) {
    '0' <= c <= '9'
  }

  /** The characters after which `^` matches in a multi-line ECMAScript pattern. */
  predicate IsLineTerminator(c: char) {
    c == '\n' || c == '\r' || c == '\U{2028}' || c == '\U{2029}'
  }

  /* ---------------------------------------------------------------------------
   * Substring search
   * ------------------------------------------------------------------------- */

  /** `sub` occurs in `s` starting at index `i`. */
  ghost predicate OccursAt(s: string, sub: string, i: int) {
    0 <= i && i + |sub| <= |s| && s[i..i + |sub|] == sub
  }

  /** Reference definition of substring occurrence. */
  ghost predicate Occurs(s: string, sub: string) {
    exists i :: OccursAt(s, sub, i)
  }

  /** An occurrence in a prefix is an occurrence in the whole. */
  lemma OccursInPrefix(a: string, b: string, sub: string)
    requires Occurs(a, sub)
    ensures Occurs(a + b, sub)
  {
    var i :| OccursAt(a, sub, i);
    assert (a + b)[i..i + |sub|] == a[i..i + |sub|];
    assert OccursAt(a + b, sub, i);
  }

  /** `s.includes(sub)`: scans `s` left to right for an occurrence of `sub`. */
  function Includes(s: string, sub: string): bool
    decreases |s|
  {
    if |sub| > |s| then false
    else if s[..|sub|] == sub then true
    else Includes(s[1..], sub)
  }

  lemma {:induction false} IncludesMeansOccurs(s: string, sub: string)
    ensures Includes(s, sub) <==> Occurs(s, sub)
    decreases |s|
  {
    if |sub| > |s| {
      assert forall i :: !OccursAt(s, sub, i);
    } else if s[..|sub|] == sub {
      assert OccursAt(s, sub, 0);
    } else {
      IncludesMeansOccurs(s[1..], sub);
      OccursInTail(s, sub);
      OccursPastHead(s, sub);
    }
  }

  /** An occurrence after the first character is an occurrence in the whole. */
  lemma OccursInTail(s: string, sub: string)
    requires s != []
    ensures Occurs(s[1..], sub) ==> Occurs(s, sub)
  {
    if Occurs(s[1..], sub) {
      var i :| OccursAt(s[1..], sub, i);
      assert s[i + 1..i + 1 + |sub|] == s[1..][i..i + |sub|];
      assert OccursAt(s, sub, i + 1);
    }
  }

  /** An occurrence that is not at the very start lies within the tail. */
  lemma OccursPastHead(s: string, sub: string)
    requires s != [] && |sub| <= |s| && s[..|sub|] != sub
    ensures Occurs(s, sub) ==> Occurs(s[1..], sub)
  {
    if Occurs(s, sub) {
      var i :| OccursAt(s, sub, i);
      assert i != 0;
      assert s[1..][i - 1..i - 1 + |sub|] == s[i..i + |sub|];
      assert OccursAt(s[1..], sub, i - 1);
    }
  }

  /* ---------------------------------------------------------------------------
   * Lines and leading digit runs (the reference reading of the listing)
   * ------------------------------------------------------------------------- */

  /** Length of the maximal run of digits at the start of `s`. */
  function DigitRun(s: string): (n: nat)
    ensures n <= |s|
    ensures n < |s| ==> !IsDigit(s[n])
  {
    if s == [] || !IsDigit(s[0]) then 0 else 1 + DigitRun(s[1..])
  }

  /** The run is made of digits, so it is the maximal one. */
  lemma {:induction false} DigitRunIsDigits(s: string)
    ensures forall j :: 0 <= j < DigitRun(s) ==> IsDigit(s[j])
  {
    if s != [] && IsDigit(s[0]) {
      DigitRunIsDigits(s[1..]);
      assert forall j :: 1 <= j < DigitRun(s) ==> s[j] == s[1..][j - 1];
    }
  }

  /** Index of the first line terminator in `s`, or `|s|` when there is none. */
  function LineEnd(s: string): (k: nat)
    ensures k <= |s|
    ensures k < |s| ==> IsLineTerminator(s[k])
  {
    if s == [] || IsLineTerminator(s[0]) then 0 else 1 + LineEnd(s[1..])
  }

  /** No terminator comes before the first one. */
  lemma {:induction false} LineEndIsFirst(s: string)
    ensures forall j :: 0 <= j < LineEnd(s) ==> !IsLineTerminator(s[j])
  {
    if s != [] && !IsLineTerminator(s[0]) {
      LineEndIsFirst(s[1..]);
      assert forall j :: 1 <= j < LineEnd(s) ==> s[j] == s[1..][j - 1];
    }
  }

  /** The lines of `s`: the terminator-free pieces between line terminators. */
  function Lines(s: string): (lines: seq<string>)
    ensures |lines| >= 1
    decreases |s|
  {
    var k := LineEnd(s);
    if k == |s| then [s] else [s[..k]] + Lines(s[k + 1..])
  }

  /** The maximal leading digit run of every line that begins with a digit, in line order. */
  function LeadingDigitRuns(lines: seq<string>): (runs: seq<string>)
    ensures |runs| <= |lines|
  {
    if lines == [] then []
    else
      var n := DigitRun(lines[0]);
      (if n > 0 then [lines[0][..n]] else []) + LeadingDigitRuns(lines[1..])
  }

  /** Every leading digit run is a non-empty string of digits that begins one of the lines. */
  lemma {:induction false} LeadingDigitRunsAreLinePrefixes(lines: seq<string>)
    ensures forall r :: r in LeadingDigitRuns(lines) ==>
      r != [] && (forall j :: 0 <= j < |r| ==> IsDigit(r[j]))
      && exists l :: l in lines && r == l[..DigitRun(l)]
  {
    if lines != [] {
      LeadingDigitRunsAreLinePrefixes(lines[1..]);
      forall r | r in LeadingDigitRuns(lines)
        ensures r != [] && (forall j :: 0 <= j < |r| ==> IsDigit(r[j]))
        ensures exists l :: l in lines && r == l[..DigitRun(l)]
      {
        if r !in LeadingDigitRuns(lines[1..]) {
          DigitRunIsDigits(lines[0]);
          assert r == lines[0][..DigitRun(lines[0])];
        } else {
          var l :| l in lines[1..] && r == l[..DigitRun(l)];
          assert l in lines;
        }
      }
    }
  }

  /** A line that does not begin with a digit (say, one indented with spaces) yields no run. */
  lemma NonDigitLineYieldsNothing(before: seq<string>, line: string, after: seq<string>)
    requires line == [] || !IsDigit(line[0])
    ensures LeadingDigitRuns(before + [line] + after)
         == LeadingDigitRuns(before) + LeadingDigitRuns(after)
  {
    LeadingDigitRunsAppend(before + [line], after);
    LeadingDigitRunsAppend(before, [line]);
    LeadingDigitRunsOfLine(line);
  }

  /** A terminator-free piece ends where a terminator (or the end of input) follows it. */
  lemma {:induction false} LineEndOf(a: string, rest: string)
    requires forall j :: 0 <= j < |a| ==> !IsLineTerminator(a[j])
    requires rest == [] || IsLineTerminator(rest[0])
    ensures LineEnd(a + rest) == |a|
    decreases |a|
  {
    if a == [] {
      assert a + rest == rest;
    } else {
      assert (a + rest)[1..] == a[1..] + rest;
      LineEndOf(a[1..], rest);
    }
  }

  /** Splitting at a terminator: the piece before it is the first line. */
  lemma LinesOfSplit(a: string, t: char, b: string)
    requires forall j :: 0 <= j < |a| ==> !IsLineTerminator(a[j])
    requires IsLineTerminator(t)
    ensures Lines(a + [t] + b) == [a] + Lines(b)
  {
    var s := a + [t] + b;
    assert s == a + ([t] + b);
    LineEndOf(a, [t] + b);
    assert s[..|a|] == a && s[|a| + 1..] == b;
  }

  /** A terminator-free string is a single line. */
  lemma LinesOfOneLine(a: string)
    requires forall j :: 0 <= j < |a| ==> !IsLineTerminator(a[j])
    ensures Lines(a) == [a]
  {
    LineEndOf(a, []);
    assert a + [] == a;
  }

  /** Two terminator-free lines joined by a newline are read back as those two lines. */
  lemma LinesOfTwo(first: string, second: string)
    requires forall j :: 0 <= j < |first| ==> !IsLineTerminator(first[j])
    requires forall j :: 0 <= j < |second| ==> !IsLineTerminator(second[j])
    ensures Lines(first + "\n" + second) == [first, second]
  {
    LinesOfSplit(first, '\n', second);
    LinesOfOneLine(second);
  }

  /** A digit run ends where a non-digit (or the end of input) follows it. */
  lemma {:induction false} DigitRunOf(d: string, rest: string)
    requires forall j :: 0 <= j < |d| ==> IsDigit(d[j])
    requires rest == [] || !IsDigit(rest[0])
    ensures DigitRun(d + rest) == |d|
    decreases |d|
  {
    if d == [] {
      assert d + rest == rest;
    } else {
      assert (d + rest)[1..] == d[1..] + rest;
      DigitRunOf(d[1..], rest);
    }
  }

  /* ---------------------------------------------------------------------------
   * The regular-expression engine's reading: `s.match(/^[0-9]+/gm)`
   * ------------------------------------------------------------------------- */

  /** `^` with the multi-line flag holds at the start of input and right after a line terminator. */
  predicate AtLineStart(s: string, i: nat)
    requires i <= |s|
  {
    i == 0 || IsLineTerminator(s[i - 1])
  }

  /** A match of `^[0-9]+` can begin at `i`: a digit at the start of a line. */
  predicate MatchStart(s: string, i: nat)
    requires i < |s|
  {
    AtLineStart(s, i) && IsDigit(s[i])
  }

  /**
   * All matches of `^[0-9]+` in `s` at or after index `from`, as a global match collects them:
   * try each position in turn; on success take the greedy digit run and resume right after it.
   * An empty result stands for the `null` that `match` returns when nothing matches.
   */
  function GlobalMatch(s: string, from: nat): seq<string>
    requires from <= |s|
    decreases |s| - from
  {
    if from == |s| then []
    else if MatchStart(s, from) then
      var n := DigitRun(s[from..]);
      [s[from..from + n]] + GlobalMatch(s, from + n)
    else GlobalMatch(s, from + 1)
  }

  /** Positions that cannot start a match may be skipped. */
  lemma {:induction false} GlobalMatchSkip(s: string, from: nat, to: nat)
    requires from <= to <= |s|
    requires forall m :: from <= m < to ==> !MatchStart(s, m)
    ensures GlobalMatch(s, from) == GlobalMatch(s, to)
    decreases (to as int) - (from as int)
  {
    if from < to {
      GlobalMatchPassOver(s, from);
      GlobalMatchSkip(s, from + 1, to);
    }
  }

  lemma {:induction false} LeadingDigitRunsAppend(a: seq<string>, b: seq<string>)
    ensures LeadingDigitRuns(a + b) == LeadingDigitRuns(a) + LeadingDigitRuns(b)
  {
    if a == [] {
      assert a + b == b;
    } else {
      assert (a + b)[0] == a[0];
      assert (a + b)[1..] == a[1..] + b;
      var n := DigitRun(a[0]);
      var head := if n > 0 then [a[0][..n]] else [];
      LeadingDigitRunsAppend(a[1..], b);
      assert LeadingDigitRuns(a + b) == head + LeadingDigitRuns(a[1..] + b);
      assert LeadingDigitRuns(a) == head + LeadingDigitRuns(a[1..]);
      assert head + (LeadingDigitRuns(a[1..]) + LeadingDigitRuns(b))
          == (head + LeadingDigitRuns(a[1..])) + LeadingDigitRuns(b);
    }
  }

  /** A single line contributes its leading digit run, if it has one. */
  lemma {:induction false} LeadingDigitRunsOfLine(line: string)
    ensures var n := DigitRun(line);
      LeadingDigitRuns([line]) == if n > 0 then [line[..n]] else []
  {
    assert [line][1..] == [];
  }

  /**
   * From a line start `i`, the engine's matches up to the end of that line are the
   * line's leading digit run, if any.
   */
  lemma {:induction false} FirstLineMatches(s: string, i: nat, k: nat)
    requires i < |s| && AtLineStart(s, i)
    requires k == LineEnd(s[i..])
    ensures GlobalMatch(s, i) == LeadingDigitRuns([s[i..i + k]]) + GlobalMatch(s, i + k)
  {
    if IsDigit(s[i]) {
      FirstLineWithDigits(s, i, k);
    } else {
      FirstLineWithoutDigits(s, i, k);
    }
  }

  lemma {:induction false} FirstLineWithDigits(s: string, i: nat, k: nat)
    requires i < |s| && AtLineStart(s, i)
    requires k == LineEnd(s[i..]) && IsDigit(s[i])
    ensures GlobalMatch(s, i) == LeadingDigitRuns([s[i..i + k]]) + GlobalMatch(s, i + k)
  {
    var n := DigitRun(s[i..]);
    FirstLineFacts(s, i, k, n);
    GlobalMatchSkip(s, i + n, i + k);
    DigitLineMatches(s, i, n, i + k);
    assert LeadingDigitRuns([s[i..i + k]]) == [s[i..i + n]];
  }

  lemma {:induction false} FirstLineWithoutDigits(s: string, i: nat, k: nat)
    requires i < |s| && AtLineStart(s, i)
    requires k == LineEnd(s[i..]) && !IsDigit(s[i])
    ensures GlobalMatch(s, i) == LeadingDigitRuns([s[i..i + k]]) + GlobalMatch(s, i + k)
  {
    var n := DigitRun(s[i..]);
    FirstLineFacts(s, i, k, n);
    GlobalMatchSkip(s, i, i + k);
    assert LeadingDigitRuns([s[i..i + k]]) == [];
    assert [] + GlobalMatch(s, i + k) == GlobalMatch(s, i + k);
  }

  /** A line starting with a digit run contributes that run; the engine then resumes where the run ends. */
  lemma {:induction false} DigitLineMatches(s: string, i: nat, n: nat, e: nat)
    requires i < |s| && AtLineStart(s, i) && IsDigit(s[i])
    requires n == DigitRun(s[i..]) && i + n <= e <= |s|
    requires GlobalMatch(s, i + n) == GlobalMatch(s, e)
    ensures GlobalMatch(s, i) == [s[i..i + n]] + GlobalMatch(s, e)
  {
    GlobalMatchAtDigit(s, i, n);
  }

  /** What the first line looks like: its digit run is that of the rest, and nothing past it matches. */
  lemma {:induction false} FirstLineFacts(s: string, i: nat, k: nat, n: nat)
    requires i < |s| && k == LineEnd(s[i..]) && n == DigitRun(s[i..])
    ensures n <= k
    ensures n > 0 <==> IsDigit(s[i])
    ensures n > 0 ==> LeadingDigitRuns([s[i..i + k]]) == [s[i..i + n]]
    ensures n == 0 ==> LeadingDigitRuns([s[i..i + k]]) == []
    ensures forall m :: i + n <= m < i + k ==> !MatchStart(s, m)
  {
    var t := s[i..];
    var e := i + k;
    var line := s[i..e];
    assert line == t[..k];
    assert t[0] == s[i];
    LineEndIsFirst(t);
    DigitRunIsDigits(t);
    DigitRunPrefix(t, k, n);
    assert forall j :: i <= j < e ==> s[j] == t[j - i];
    LeadingDigitRunsOfLine(line);
    NoMatchInsideLine(s, i, n, e);
    if n > 0 {
      assert line[..n] == s[i..i + n];
    }
  }

  /** A position that cannot start a match is passed over. */
  lemma {:induction false} GlobalMatchPassOver(s: string, i: nat)
    requires i < |s| && !MatchStart(s, i)
    ensures GlobalMatch(s, i) == GlobalMatch(s, i + 1)
  {
  }

  /** At a line start holding a digit, the engine takes the whole digit run and resumes after it. */
  lemma {:induction false} GlobalMatchAtDigit(s: string, i: nat, n: nat)
    requires i < |s| && AtLineStart(s, i) && IsDigit(s[i])
    requires n == DigitRun(s[i..])
    ensures GlobalMatch(s, i) == [s[i..i + n]] + GlobalMatch(s, i + n)
  {
  }

  /** Inside a line, past its leading digit run, no position can start a match. */
  lemma {:induction false} NoMatchInsideLine(s: string, i: nat, n: nat, e: nat)
    requires i < |s| && n == DigitRun(s[i..])
    requires i + n <= e <= |s|
    requires forall j :: i <= j < e ==> !IsLineTerminator(s[j])
    ensures forall m :: i + n <= m < e ==> !MatchStart(s, m)
  {
    forall m | i + n <= m < e
      ensures !MatchStart(s, m)
    {
      if m == i {
        assert s[m] == s[i..][0];
      } else {
        assert !IsLineTerminator(s[m - 1]);
      }
    }
  }

  /** From a line start, the engine's matches are the leading digit runs of the remaining lines. */
  lemma {:induction false} GlobalMatchFromLineStart(s: string, i: nat)
    requires i <= |s| && AtLineStart(s, i)
    ensures GlobalMatch(s, i) == LeadingDigitRuns(Lines(s[i..]))
    decreases |s| - i
  {
    if i == |s| {
      assert s[i..] == [];
      return;
    }
    var k := LineEnd(s[i..]);
    if i + k == |s| {
      LastLineMatches(s, i, k);
    } else {
      GlobalMatchFromLineStart(s, i + k + 1);
      NextLineMatches(s, i, k);
    }
  }

  /** Past the first line, the engine's matches continue with those of the following lines. */
  lemma {:induction false} NextLineMatches(s: string, i: nat, k: nat)
    requires i < |s| && AtLineStart(s, i)
    requires k == LineEnd(s[i..]) && i + k < |s|
    requires GlobalMatch(s, i + k + 1) == LeadingDigitRuns(Lines(s[i + k + 1..]))
    ensures GlobalMatch(s, i) == LeadingDigitRuns(Lines(s[i..]))
  {
    FirstLineMatches(s, i, k);
    GlobalMatchPassOver(s, i + k);
    LinesAfterLine(s, i, k);
    LeadingDigitRunsAppend([s[i..i + k]], Lines(s[i + k + 1..]));
  }

  /** On the last line, the engine's matches are that line's leading digit run, if any. */
  lemma {:induction false} LastLineMatches(s: string, i: nat, k: nat)
    requires i < |s| && AtLineStart(s, i)
    requires k == LineEnd(s[i..]) && i + k == |s|
    ensures GlobalMatch(s, i) == LeadingDigitRuns(Lines(s[i..]))
  {
    FirstLineMatches(s, i, k);
    LinesOfLastLine(s, i, k);
    assert GlobalMatch(s, i + k) == [];
    assert LeadingDigitRuns([s[i..i + k]]) + [] == LeadingDigitRuns([s[i..i + k]]);
  }

  /** The line starting at `i` is the last one when no terminator follows it. */
  lemma LinesOfLastLine(s: string, i: nat, k: nat)
    requires i < |s| && k == LineEnd(s[i..]) && i + k == |s|
    ensures Lines(s[i..]) == [s[i..i + k]]
  {
    assert s[i..i + k] == s[i..];
  }

  /** The line starting at `i` is followed by the lines after its terminator. */
  lemma LinesAfterLine(s: string, i: nat, k: nat)
    requires i < |s| && k == LineEnd(s[i..]) && i + k < |s|
    ensures Lines(s[i..]) == [s[i..i + k]] + Lines(s[i + k + 1..])
  {
    var t := s[i..];
    assert t[..k] == s[i..i + k];
    assert t[k + 1..] == s[i + k + 1..];
  }

  lemma {:induction false} DigitRunPrefix(t: string, k: nat, n: nat)
    requires n <= k <= |t|
    requires n == DigitRun(t)
    requires forall j :: 0 <= j < k ==> !IsLineTerminator(t[j])
    ensures DigitRun(t[..k]) == n
  {
    var u := t[..k];
    var m := DigitRun(u);
    DigitRunIsDigits(t);
    DigitRunIsDigits(u);
    assert forall j :: 0 <= j < k ==> u[j] == t[j];
  }

  /**
   * What `s.match(/^[0-9]+/gm)` yields is exactly the maximal leading digit run of
   * every line that begins with a digit, in line order.
   */
  lemma PidMatchIsLeadingDigitRuns(s: string)
    ensures GlobalMatch(s, 0) == LeadingDigitRuns(Lines(s))
  {
    GlobalMatchFromLineStart(s, 0);
    assert s[0..] == s;
  }
}
