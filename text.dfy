/**
 * Text helpers with the semantics of the Python built-ins the builder relies on:
 * `str(n)` for a non-negative int, `str.splitlines()`, `str.split(sep)`,
 * `sep.join(parts)` and `''.join(chunks)`.
 */
module Text {
  import opened Wrappers

  // ---------------------------------------------------------------------------
  // Decimal rendering of non-negative integers (Python's str(int))
  // ---------------------------------------------------------------------------

  predicate IsDigit(c: char) {
    '0' <= c <= '9'
  }

  predicate AllDigits(s: string) {
    forall k :: 0 <= k < |s| ==> IsDigit(s[k])
  }

  function DigitChar(d: nat): (c: char)
    requires d < 10
    ensures IsDigit(c)
  {
    ('0' as int + d) as char
  }

  function DigitValue(c: char): (d: nat)
    requires IsDigit(c)
    ensures d < 10 && DigitChar(d) == c
  {
    c as int - '0' as int
  }

  /** The decimal text of `n`: digits only, no sign, no leading zero. */
  function NatToString(n: nat): (s: string)
    ensures |s| > 0 && AllDigits(s)
    ensures |s| > 1 ==> s[0] != '0'
  {
    if n < 10 then [DigitChar(n)]
    else NatToString(n / 10) + [DigitChar(n % 10)]
  }

  /** The number a string of decimal digits denotes. */
  function DigitsValue(s: string): nat
    requires AllDigits(s)
  {
    if s == [] then 0 else DigitsValue(s[..|s| - 1]) * 10 + DigitValue(s[|s| - 1])
  }

  /** Reads back a canonical decimal numeral (as `str(n)` produces it). */
  function ParseNat(s: string): Option<nat> {
    if s != [] && AllDigits(s) && (|s| == 1 || s[0] != '0') then Some(DigitsValue(s)) else None
  }

  lemma {:induction false} DigitsValueOfNatToString(n: nat)
    ensures DigitsValue(NatToString(n)) == n
  {
    if n >= 10 {
      var s := NatToString(n);
      assert s[..|s| - 1] == NatToString(n / 10);
      DigitsValueOfNatToString(n / 10);
    }
  }

  /** Reading back the decimal text of `n` gives `n`. */
  lemma ParseNatToString(n: nat)
    ensures ParseNat(NatToString(n)) == Some(n)
  {
    DigitsValueOfNatToString(n);
  }

  lemma {:induction false} DigitsValuePositive(s: string)
    requires s != [] && AllDigits(s) && s[0] != '0'
    ensures DigitsValue(s) > 0
  {
    if |s| > 1 {
      DigitsValuePositive(s[..|s| - 1]);
    }
  }

  lemma {:induction false} NatToStringOfDigitsValue(s: string)
    requires ParseNat(s).Some?
    ensures NatToString(DigitsValue(s)) == s
  {
    if |s| > 1 {
      var init := s[..|s| - 1];
      assert ParseNat(init).Some? by {
        assert init[0] == s[0];
      }
      NatToStringOfDigitsValue(init);
      DigitsValuePositive(init);
    }
  }

  /** A canonical numeral is the decimal text of the number it denotes. */
  lemma ToStringOfParseNat(s: string, n: nat)
    requires ParseNat(s) == Some(n)
    ensures NatToString(n) == s
  {
    NatToStringOfDigitsValue(s);
  }

  // ---------------------------------------------------------------------------
  // str.splitlines()
  // ---------------------------------------------------------------------------

  /** The characters Python's `str.splitlines` treats as line boundaries. */
  const LineBreaks: set<char> := {'\n', '\r', '\U{000B}', '\U{000C}', '\U{001C}', '\U{001D}',
                                  '\U{001E}', '\U{0085}', '\U{2028}', '\U{2029}'}

  predicate NoLineBreak(s: string) {
    forall k :: 0 <= k < |s| ==> s[k] !in LineBreaks
  }

  /** Index of the first line boundary in `s`, or `|s|` when there is none. */
  function LineEnd(s: string): (i: nat)
    ensures i <= |s|
    ensures i < |s| ==> s[i] in LineBreaks
    ensures NoLineBreak(s[..i])
  {
    if s == [] || s[0] in LineBreaks then 0
    else
      assert forall k :: 1 <= k < 1 + LineEnd(s[1..]) ==> s[k] == s[1..][k - 1];
      1 + LineEnd(s[1..])
  }

  /**
   * `s.splitlines()`: the lines of `s` without their boundaries; "\r\n" is one
   * boundary, and a boundary at the very end does not start another line.
   */
  function SplitLines(s: string): (lines: seq<string>)
    ensures (lines == []) == (s == [])
    ensures s != [] ==> lines[0] == s[..LineEnd(s)]
    decreases |s|
  {
    if s == [] then []
    else
      var i := LineEnd(s);
      if i == |s| then [s]
      else
        var next := if s[i] == '\r' && i + 1 < |s| && s[i + 1] == '\n' then i + 2 else i + 1;
        [s[..i]] + SplitLines(s[next..])
  }

  /** Each line followed by "\n": the usual shape of a program's output. */
  function Terminated(lines: seq<string>): string {
    if lines == [] then "" else lines[0] + "\n" + Terminated(lines[1..])
  }

  lemma {:induction false} LineEndAfter(line: string, rest: string)
    requires NoLineBreak(line)
    ensures LineEnd(line + rest) == |line| + LineEnd(rest)
  {
    if line != [] {
      assert (line + rest)[0] == line[0] && line[0] !in LineBreaks;
      assert (line + rest)[1..] == line[1..] + rest;
      LineEndAfter(line[1..], rest);
    } else {
      assert line + rest == rest;
    }
  }

  /** A line ended by "\n" is split off whole. */
  lemma SplitAfterLine(line: string, rest: string)
    requires NoLineBreak(line)
    ensures SplitLines(line + "\n" + rest) == [line] + SplitLines(rest)
  {
    var s := line + "\n" + rest;
    assert s == line + ("\n" + rest);
    LineEndAfter(line, "\n" + rest);
    assert LineEnd("\n" + rest) == 0;
    assert s[|line|] == '\n';
    assert s[..|line|] == line;
    assert s[|line| + 1..] == rest;
  }

  lemma SeqCons<T>(xs: seq<T>, ys: seq<T>)
    requires xs != []
    ensures [xs[0]] + (xs[1..] + ys) == xs + ys
  {
    assert xs == [xs[0]] + xs[1..];
  }

  lemma TerminatedCons(lines: seq<string>, tail: string)
    requires lines != []
    ensures Terminated(lines) + tail == lines[0] + "\n" + (Terminated(lines[1..]) + tail)
  {
  }

  /** splitlines undoes Terminated: the lines come back unchanged and in order. */
  lemma {:induction false} SplitTerminated(lines: seq<string>, tail: string)
    requires forall k :: 0 <= k < |lines| ==> NoLineBreak(lines[k])
    ensures SplitLines(Terminated(lines) + tail) == lines + SplitLines(tail)
  {
    if lines == [] {
      assert Terminated(lines) + tail == tail;
    } else {
      var head, more := lines[0], lines[1..];
      var rest := Terminated(more) + tail;
      var after := SplitLines(tail);
      TerminatedCons(lines, tail);
      SplitAfterLine(head, rest);
      SplitTerminated(more, tail);
      SeqCons(lines, after);
    }
  }

  /** A non-empty text without boundaries is a single line. */
  lemma SplitSingleLine(s: string)
    requires s != [] && NoLineBreak(s)
    ensures SplitLines(s) == [s]
  {
    LineEndAfter(s, "");
    assert s + "" == s;
  }

  // ---------------------------------------------------------------------------
  // str.split(sep) and sep.join(parts)
  // ---------------------------------------------------------------------------

  /** Index of the first `c` in `s`, or `|s|` when there is none. */
  function IndexOf(s: string, c: char): (i: nat)
    ensures i <= |s|
    ensures i < |s| ==> s[i] == c
    ensures c !in s[..i]
  {
    if s == [] || s[0] == c then 0
    else
      assert forall k :: 1 <= k < 1 + IndexOf(s[1..], c) ==> s[k] == s[1..][k - 1];
      1 + IndexOf(s[1..], c)
  }

  /** `s.split(sep)`: always at least one part, and no part contains `sep`. */
  function SplitOn(s: string, sep: char): (parts: seq<string>)
    ensures |parts| >= 1
    ensures forall k :: 0 <= k < |parts| ==> sep !in parts[k]
    decreases |s|
  {
    var i := IndexOf(s, sep);
    if i == |s| then [s] else [s[..i]] + SplitOn(s[i + 1..], sep)
  }

  /** `sep.join(parts)`. */
  function JoinWith(parts: seq<string>, sep: char): string {
    if parts == [] then ""
    else if |parts| == 1 then parts[0]
    else parts[0] + [sep] + JoinWith(parts[1..], sep)
  }

  lemma {:induction false} IndexOfAfter(a: string, c: char, rest: string)
    requires c !in a
    ensures IndexOf(a + [c] + rest, c) == |a|
  {
    if a != [] {
      assert (a + [c] + rest)[1..] == a[1..] + [c] + rest;
      IndexOfAfter(a[1..], c, rest);
    }
  }

  /** Splitting a join gives the parts back, if no part contains the separator. */
  lemma {:induction false} SplitJoin(parts: seq<string>, sep: char)
    requires |parts| >= 1
    requires forall k :: 0 <= k < |parts| ==> sep !in parts[k]
    ensures SplitOn(JoinWith(parts, sep), sep) == parts
  {
    if |parts| == 1 {
      assert IndexOf(parts[0], sep) == |parts[0]|;
    } else {
      var s := JoinWith(parts, sep);
      IndexOfAfter(parts[0], sep, JoinWith(parts[1..], sep));
      assert s[..|parts[0]|] == parts[0];
      assert s[|parts[0]| + 1..] == JoinWith(parts[1..], sep);
      SplitJoin(parts[1..], sep);
    }
  }

  /** A join of lines without boundaries, by a separator that is not one, has none. */
  lemma {:induction false} JoinNoLineBreak(parts: seq<string>, sep: char)
    requires sep !in LineBreaks
    requires forall k :: 0 <= k < |parts| ==> NoLineBreak(parts[k])
    ensures NoLineBreak(JoinWith(parts, sep))
  {
    if |parts| > 1 {
      JoinNoLineBreak(parts[1..], sep);
      var a, b := parts[0] + [sep], JoinWith(parts[1..], sep);
      assert NoLineBreak(parts[0]);
      assert forall k :: 0 <= k < |a + b| ==> (a + b)[k] == if k < |parts[0]| then parts[0][k] else if k == |parts[0]| then sep else b[k - |a|];
    }
  }

  // ---------------------------------------------------------------------------
  // ''.join(chunks)
  // ---------------------------------------------------------------------------

  function Concat(chunks: seq<string>): string {
    if chunks == [] then "" else chunks[0] + Concat(chunks[1..])
  }

  /** The joined text is empty exactly when every chunk is empty. */
  lemma {:induction false} ConcatEmpty(chunks: seq<string>)
    ensures Concat(chunks) == "" <==> forall k :: 0 <= k < |chunks| ==> chunks[k] == ""
  {
    if chunks != [] {
      ConcatEmpty(chunks[1..]);
      assert forall k :: 1 <= k < |chunks| ==> chunks[k] == chunks[1..][k - 1];
    }
  }

  /** Joining distributes over concatenation of the chunk sequences. */
  lemma {:induction false} ConcatAppend(a: seq<string>, b: seq<string>)
    ensures Concat(a + b) == Concat(a) + Concat(b)
  {
    if a != [] {
      assert (a + b)[0] == a[0] && (a + b)[1..] == a[1..] + b;
      ConcatAppend(a[1..], b);
      assert Concat(a + b) == a[0] + (Concat(a[1..]) + Concat(b));
    } else {
      assert a + b == b;
    }
  }
}
