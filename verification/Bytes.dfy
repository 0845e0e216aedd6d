/** Byte strings, and the two ways the dashboard cuts them into lines:
    `bytes.split(b"\n")` and `bytes.splitlines()`. */
module Bytes {
  type Byte = b: int | 0 <= b < 256
  type Bytes = seq<Byte>

  const NEWLINE: Byte := 10
  const RETURN: Byte := 13

  function Concat<T>(parts: seq<seq<T>>): seq<T> {
    if parts == [] then [] else parts[0] + Concat(parts[1..])
  }

  lemma Associative<T>(a: seq<T>, b: seq<T>, c: seq<T>)
    ensures (a + b) + c == a + (b + c)
  {
  }

  lemma Halves<T>(s: seq<T>, k: nat)
    requires k <= |s|
    ensures s[..k] + s[k..] == s
  {
  }

  lemma Uncons<T>(a: seq<T>, b: seq<T>)
    requires a != []
    ensures a + b != [] && (a + b)[0] == a[0] && (a + b)[1..] == a[1..] + b
  {
  }

  lemma {:induction false} ConcatAppend<T>(a: seq<seq<T>>, b: seq<seq<T>>)
    ensures Concat(a + b) == Concat(a) + Concat(b)
  {
    if a == [] {
      assert a + b == b;
    } else {
      Uncons(a, b);
      ConcatAppend(a[1..], b);
      Associative(a[0], Concat(a[1..]), Concat(b));
    }
  }

  function Reverse<T>(s: seq<T>): (r: seq<T>)
    ensures |r| == |s|
    ensures forall i :: 0 <= i < |s| ==> r[i] == s[|s| - 1 - i]
  {
    if s == [] then [] else Reverse(s[1..]) + [s[0]]
  }

  lemma {:induction false} ReverseAppend<T>(a: seq<T>, b: seq<T>)
    ensures Reverse(a + b) == Reverse(b) + Reverse(a)
  {
  }

  // ----- split(b"\n"): n separators give n + 1 parts -----

  function Split(s: Bytes): (parts: seq<Bytes>)
    ensures parts != []
  {
    if s == [] then [[]]
    else if s[0] == NEWLINE then [[]] + Split(s[1..])
    else
      var rest := Split(s[1..]);
      [[s[0]] + rest[0]] + rest[1..]
  }

  function LastPart(s: Bytes): Bytes {
    var parts := Split(s);
    parts[|parts| - 1]
  }

  /** The parts that a newline ends; the last part is still open. */
  function ClosedParts(s: Bytes): seq<Bytes> {
    var parts := Split(s);
    parts[..|parts| - 1]
  }

  lemma SplitAtNewline(s: Bytes)
    requires s != [] && s[0] == NEWLINE
    ensures Split(s) == [[]] + Split(s[1..])
    ensures ClosedParts(s) == [[]] + ClosedParts(s[1..])
    ensures LastPart(s) == LastPart(s[1..])
  {
  }

  lemma SplitAtOther(s: Bytes)
    requires s != [] && s[0] != NEWLINE
    ensures Split(s) == [[s[0]] + Split(s[1..])[0]] + Split(s[1..])[1..]
    ensures |Split(s[1..])| == 1 ==> ClosedParts(s) == [] && LastPart(s) == [s[0]] + LastPart(s[1..])
    ensures |Split(s[1..])| > 1 ==> LastPart(s) == LastPart(s[1..])
    ensures |Split(s[1..])| > 1 ==> ClosedParts(s) == [[s[0]] + Split(s[1..])[0]] + ClosedParts(s[1..])[1..]
  {
  }

  /** Joining two texts only joins the open part of the first to the first part of the second. */
  lemma {:induction false} SplitAppend(a: Bytes, b: Bytes)
    ensures Split(a + b) == ClosedParts(a) + Split(LastPart(a) + b)
  {
    if a == [] {
      assert a + b == b;
    } else {
      SplitAppend(a[1..], b);
      SplitAppendStep(a, b);
    }
  }

  lemma SplitAppendStep(a: Bytes, b: Bytes)
    requires a != []
    requires Split(a[1..] + b) == ClosedParts(a[1..]) + Split(LastPart(a[1..]) + b)
    ensures Split(a + b) == ClosedParts(a) + Split(LastPart(a) + b)
  {
    hide Split;
    Uncons(a, b);
    var closed, inner := ClosedParts(a[1..]), Split(LastPart(a[1..]) + b);
    if a[0] == NEWLINE {
      SplitAtNewline(a);
      SplitAtNewline(a + b);
      Associative([[]], closed, inner);
    } else {
      SplitAtOther(a);
      SplitAtOther(a + b);
      if |Split(a[1..])| == 1 {
        OpenLineGrows(a, b);
      } else {
        Uncons(closed, inner);
        Associative([[a[0]] + closed[0]], closed[1..], inner);
      }
    }
  }

  lemma OpenLineGrows(a: Bytes, b: Bytes)
    requires a != [] && a[0] != NEWLINE && |Split(a[1..])| == 1
    ensures LastPart(a) == [a[0]] + LastPart(a[1..])
    ensures var inner := Split(LastPart(a[1..]) + b);
            Split(LastPart(a) + b) == [[a[0]] + inner[0]] + inner[1..]
  {
    hide Split;
    SplitAtOther(a);
    Associative([a[0]], LastPart(a[1..]), b);
    var l := LastPart(a) + b;
    assert l == [a[0]] + (LastPart(a[1..]) + b);
    assert l[1..] == LastPart(a[1..]) + b;
    SplitAtOther(l);
  }

  lemma {:induction false} PartHasNoNewline(s: Bytes, i: nat)
    requires i < |Split(s)|
    ensures NEWLINE !in Split(s)[i]
  {
    if s != [] {
      var rest := Split(s[1..]);
      if s[0] == NEWLINE {
        if i > 0 { PartHasNoNewline(s[1..], i - 1); }
      } else {
        PartHasNoNewline(s[1..], i);
      }
    }
  }

  lemma {:induction false} SplitWithoutNewline(s: Bytes)
    requires NEWLINE !in s
    ensures Split(s) == [s]
  {
    if s != [] {
      SplitWithoutNewline(s[1..]);
      assert [s[0]] + s[1..] == s;
    }
  }

  /** Only the first part of the second text can still grow towards the left. */
  lemma {:induction false} SplitPrepend(a: Bytes, b: Bytes)
    ensures Split(a + b) == Split(a + Split(b)[0]) + Split(b)[1..]
  {
    if a == [] {
      PartHasNoNewline(b, 0);
      SplitWithoutNewline(Split(b)[0]);
      assert a + b == b && a + Split(b)[0] == Split(b)[0];
    } else {
      SplitPrepend(a[1..], b);
      SplitPrependStep(a, b, Split(b)[0], Split(b)[1..]);
    }
  }

  lemma SplitPrependStep(a: Bytes, b: Bytes, f: Bytes, rest: seq<Bytes>)
    requires a != [] && Split(a[1..] + b) == Split(a[1..] + f) + rest
    ensures Split(a + b) == Split(a + f) + rest
  {
    hide Split;
    Uncons(a, b);
    Uncons(a, f);
    var left := Split(a[1..] + f);
    if a[0] == NEWLINE {
      SplitAtNewline(a + b);
      SplitAtNewline(a + f);
      Associative([[]], left, rest);
    } else {
      SplitAtOther(a + b);
      SplitAtOther(a + f);
      Uncons(left, rest);
      Associative([[a[0]] + left[0]], left[1..], rest);
    }
  }

  /** The text before the open part is exactly the closed lines. */
  lemma {:induction false} OpenPartIsSuffix(s: Bytes)
    ensures |LastPart(s)| <= |s|
    ensures Split(s[..|s| - |LastPart(s)|]) == ClosedParts(s) + [[]]
  {
    if s != [] {
      OpenPartIsSuffix(s[1..]);
      OpenPartStep(s);
    }
  }

  lemma OpenPartStep(s: Bytes)
    requires s != [] && |LastPart(s[1..])| < |s|
    requires Split(s[1..][..|s| - 1 - |LastPart(s[1..])|]) == ClosedParts(s[1..]) + [[]]
    ensures |LastPart(s)| <= |s|
    ensures Split(s[..|s| - |LastPart(s)|]) == ClosedParts(s) + [[]]
  {
    var t := s[1..];
    var n := |LastPart(t)|;
    var closed := ClosedParts(t);
    if s[0] != NEWLINE && |Split(t)| == 1 {
      SplitAtOther(s);
      WholeLengthOfSinglePart(t);
      assert s[..0] == [];
    } else {
      hide Split;
      var front := s[..|s| - n];
      assert front != [] && front[0] == s[0] && front[1..] == t[..|t| - n];
      if s[0] == NEWLINE {
        SplitAtNewline(s);
        SplitAtNewline(front);
        Associative([[]], closed, [[]]);
      } else {
        SplitAtOther(s);
        SplitAtOther(front);
        Uncons(closed, [[]]);
        Associative([[s[0]] + closed[0]], closed[1..], [[]]);
      }
    }
  }

  lemma {:induction false} WholeLengthOfSinglePart(s: Bytes)
    requires |Split(s)| == 1
    ensures Split(s)[0] == s
  {
    if s != [] { WholeLengthOfSinglePart(s[1..]); }
  }

  // ----- splitlines(): "\n", "\r" and "\r\n" end a line -----

  /** Length of the first line with its terminator. */
  function FirstLineLength(s: Bytes): (n: nat)
    requires s != []
    ensures 1 <= n <= |s|
  {
    if s[0] == NEWLINE then 1
    else if s[0] == RETURN then (if |s| > 1 && s[1] == NEWLINE then 2 else 1)
    else if |s| == 1 then 1
    else 1 + FirstLineLength(s[1..])
  }

  /** `splitlines(keepends=True)` */
  function Segments(s: Bytes): (segments: seq<Bytes>)
    ensures forall i :: 0 <= i < |segments| ==> segments[i] != []
    ensures Concat(segments) == s
  {
    if s == [] then []
    else
      var n := FirstLineLength(s);
      [s[..n]] + Segments(s[n..])
  }

  function WithoutTerminator(line: Bytes): Bytes {
    if line == [] then []
    else if line[|line| - 1] == NEWLINE then
      if |line| > 1 && line[|line| - 2] == RETURN then line[..|line| - 2] else line[..|line| - 1]
    else if line[|line| - 1] == RETURN then line[..|line| - 1]
    else line
  }

  function Map<S, T>(f: S -> T, s: seq<S>): (r: seq<T>)
    ensures |r| == |s|
    ensures forall i :: 0 <= i < |s| ==> r[i] == f(s[i])
  {
    if s == [] then [] else [f(s[0])] + Map(f, s[1..])
  }

  /** `splitlines()` */
  function SplitLines(s: Bytes): seq<Bytes> {
    Map(WithoutTerminator, Segments(s))
  }

  predicate NoLineBreak(s: Bytes) {
    NEWLINE !in s && RETURN !in s
  }

  lemma {:induction false} FirstLineOfTerminated(line: Bytes, rest: Bytes)
    requires NoLineBreak(line)
    ensures FirstLineLength(line + [NEWLINE] + rest) == |line| + 1
  {
    var s := line + [NEWLINE] + rest;
    if line != [] {
      FirstLineOfTerminated(line[1..], rest);
      assert s[1..] == line[1..] + [NEWLINE] + rest;
      assert s[0] == line[0] && s[0] in line;
    }
  }

  /** Terminated lines without inner breaks come back from `splitlines` as they were. */
  lemma {:induction false} TerminatedLinesRoundTrip(lines: seq<Bytes>)
    requires forall i :: 0 <= i < |lines| ==> NoLineBreak(lines[i])
    ensures SplitLines(Terminated(lines)) == lines
  {
    if lines != [] {
      var rest := Terminated(lines[1..]);
      var s := Terminated(lines);
      var line := lines[0];
      assert s == line + [NEWLINE] + rest;
      FirstLineOfTerminated(line, rest);
      TerminatedLinesRoundTrip(lines[1..]);
      var n := FirstLineLength(s);
      assert s[..n] == line + [NEWLINE] && s[n..] == rest;
      assert Segments(s) == [line + [NEWLINE]] + Segments(rest);
      assert |line| > 0 ==> line[|line| - 1] in line;
      assert WithoutTerminator(line + [NEWLINE]) == line;
      var f := WithoutTerminator;
      assert Map(f, Segments(s)) == [f(Segments(s)[0])] + Map(f, Segments(s)[1..]);
    }
  }

  /** Every line followed by one newline. */
  function Terminated(lines: seq<Bytes>): Bytes {
    if lines == [] then [] else lines[0] + [NEWLINE] + Terminated(lines[1..])
  }

  lemma {:induction false} TerminatedAppend(a: seq<Bytes>, b: seq<Bytes>)
    ensures Terminated(a + b) == Terminated(a) + Terminated(b)
  {
    if a == [] {
      assert a + b == b;
    } else {
      Uncons(a, b);
      TerminatedAppend(a[1..], b);
      Associative(a[0] + [NEWLINE], Terminated(a[1..]), Terminated(b));
    }
  }

  lemma TerminatedEndsWithNewline(lines: seq<Bytes>)
    requires lines != []
    ensures Terminated(lines) != []
    ensures Terminated(lines)[|Terminated(lines)| - 1] == NEWLINE
  {
  }
}
