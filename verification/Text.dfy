/** The Python string operations the models need. */
module Text {

  ghost predicate OccursAt(s: string, sub: string, i: int) {
    0 <= i <= |s| - |sub| && s[i..i + |sub|] == sub
  }

  /** `sub in s`. */
  ghost predicate Contains(s: string, sub: string) {
    exists i :: OccursAt(s, sub, i)
  }

  /** `s.find(sub)`: the first occurrence, or -1. */
  function Find(s: string, sub: string): (i: int)
    ensures i == -1 || 0 <= i <= |s| - |sub|
  {
    if |s| < |sub| then -1
    else if s[..|sub|] == sub then 0
    else
      var r := if s == "" then -1 else Find(s[1..], sub);
      if r < 0 then -1 else r + 1
  }

  lemma {:induction false} FindIsFirst(s: string, sub: string)
    ensures Find(s, sub) >= 0 ==> OccursAt(s, sub, Find(s, sub))
    ensures forall j :: OccursAt(s, sub, j) ==> 0 <= Find(s, sub) <= j
    decreases |s|
  {
    if |s| >= |sub| && s[..|sub|] != sub && s != "" {
      FindIsFirst(s[1..], sub);
      var f := Find(s[1..], sub);
      if f >= 0 { assert s[f + 1..f + 1 + |sub|] == s[1..][f..f + |sub|]; }
      forall j | OccursAt(s, sub, j) ensures 0 <= Find(s, sub) <= j {
        assert j > 0;
        assert s[1..][j - 1..j - 1 + |sub|] == s[j..j + |sub|];
        assert OccursAt(s[1..], sub, j - 1);
      }
    }
  }

  lemma FindContains(s: string, sub: string)
    ensures Find(s, sub) >= 0 <==> Contains(s, sub)
  {
    FindIsFirst(s, sub);
  }

  /** `s.replace(sub, put, 1)`. */
  function ReplaceFirst(s: string, sub: string, put: string): string {
    var i := Find(s, sub);
    if i < 0 then s else Spliced(s, i, i + |sub|, put)
  }

  function Spliced(s: string, i: nat, j: nat, put: string): string
    requires i <= j <= |s|
  {
    s[..i] + put + s[j..]
  }

  /** `sep.join(parts)`. */
  function Join(sep: string, parts: seq<string>): string {
    if parts == [] then ""
    else if |parts| == 1 then parts[0]
    else parts[0] + sep + Join(sep, parts[1..])
  }

  /** The first position of `c`, or the length. */
  function IndexOf(s: string, c: char): (i: nat)
    ensures i <= |s| && (i < |s| ==> s[i] == c)
    ensures forall k :: 0 <= k < i ==> s[k] != c
  {
    if s == "" || s[0] == c then 0 else 1 + IndexOf(s[1..], c)
  }

  lemma IndexOfSeparator(a: string, c: char, b: string)
    requires c !in a
    ensures IndexOf(a + [c] + b, c) == |a|
  {
    var s := a + [c] + b;
    assert s[|a|] == c && forall k :: 0 <= k < |a| ==> s[k] == a[k];
  }

  lemma IndexOfAbsent(a: string, c: char)
    requires c !in a
    ensures IndexOf(a, c) == |a|
  {
  }

  /** `s.split(c)`. */
  function Split(s: string, c: char): (parts: seq<string>)
    ensures |parts| >= 1
    decreases |s|
  {
    var i := IndexOf(s, c);
    if i == |s| then [s] else [s[..i]] + Split(s[i + 1..], c)
  }

  ghost predicate NoneHolds(parts: seq<string>, c: char) {
    forall i :: 0 <= i < |parts| ==> c !in parts[i]
  }

  lemma {:induction false} SplitFree(s: string, c: char)
    ensures NoneHolds(Split(s, c), c)
    decreases |s|
  {
    var i := IndexOf(s, c);
    if i < |s| {
      SplitFree(s[i + 1..], c);
    }
  }

  lemma {:induction false} SplitWithin(s: string, c: char, d: char)
    requires d !in s
    ensures NoneHolds(Split(s, c), d)
    decreases |s|
  {
    var i := IndexOf(s, c);
    if i < |s| {
      SplitWithin(s[i + 1..], c, d);
    }
  }

  lemma SplitCons(head: string, c: char, rest: string)
    requires c !in head
    ensures Split(head + [c] + rest, c) == [head] + Split(rest, c)
  {
    var s := head + [c] + rest;
    IndexOfSeparator(head, c, rest);
    assert s[..|head|] == head && s[|head| + 1..] == rest;
  }

  /** Splitting inverts joining. */
  lemma {:induction false} SplitJoin(parts: seq<string>, c: char)
    requires parts != [] && NoneHolds(parts, c)
    ensures Split(Join([c], parts), c) == parts
  {
    var head, tail := parts[0], parts[1..];
    assert parts == [head] + tail;
    if tail == [] {
      IndexOfAbsent(head, c);
    } else {
      SplitJoin(tail, c);
      SplitCons(head, c, Join([c], tail));
    }
  }

  /** The characters that `str.strip`, `str.isspace` and `\\s` treat as white space. */
  predicate IsSpace(c: char) {
    || c == ' ' || '\t' <= c <= '\r' || '\U{1C}' <= c <= '\U{1F}' || c == '\U{85}' || c == '\U{A0}'
    || c == '\U{1680}' || '\U{2000}' <= c <= '\U{200A}' || c == '\U{2028}' || c == '\U{2029}'
    || c == '\U{202F}' || c == '\U{205F}' || c == '\U{3000}'
  }

  /** The code points that Python counts as white space, one by one. */
  const SPACES := {0x09, 0x0A, 0x0B, 0x0C, 0x0D, 0x1C, 0x1D, 0x1E, 0x1F, 0x20, 0x85, 0xA0, 0x1680, 0x2000, 0x2001,
                   0x2002, 0x2003, 0x2004, 0x2005, 0x2006, 0x2007, 0x2008, 0x2009, 0x200A, 0x2028, 0x2029, 0x202F,
                   0x205F, 0x3000}

  lemma SpacesListed(c: char)
    ensures IsSpace(c) <==> c as int in SPACES
  {
  }

  /** What a trim drops: white space, or one character. */
  datatype CharClass = WhiteSpace | Just(c: char)

  predicate Has(p: CharClass, c: char) {
    match p
    case WhiteSpace => IsSpace(c)
    case Just(d) => c == d
  }

  function TrimLeft(s: string, p: CharClass): string {
    if s != "" && Has(p, s[0]) then TrimLeft(s[1..], p) else s
  }

  function TrimRight(s: string, p: CharClass): string {
    if s != "" && Has(p, s[|s| - 1]) then TrimRight(s[..|s| - 1], p) else s
  }

  function Trim(s: string, p: CharClass): string {
    TrimRight(TrimLeft(s, p), p)
  }

  /** `s.strip()`. */
  function Strip(s: string): string {
    Trim(s, WhiteSpace)
  }

  predicate Trimmed(s: string, p: CharClass) {
    s == "" || (!Has(p, s[0]) && !Has(p, s[|s| - 1]))
  }

  ghost predicate AllIn(s: string, p: CharClass) {
    forall i :: 0 <= i < |s| ==> Has(p, s[i])
  }

  lemma {:induction false} TrimLeftIs(a: string, s: string, p: CharClass)
    requires AllIn(a, p) && (s == "" || !Has(p, s[0]))
    ensures TrimLeft(a + s, p) == s
  {
    if a == "" {
      assert a + s == s;
    } else {
      TrimLeftIs(a[1..], s, p);
      assert (a + s)[1..] == a[1..] + s;
    }
  }

  lemma {:induction false} TrimRightIs(s: string, b: string, p: CharClass)
    requires AllIn(b, p) && (s == "" || !Has(p, s[|s| - 1]))
    ensures TrimRight(s + b, p) == s
  {
    if b == "" {
      assert s + b == s;
    } else {
      TrimRightIs(s, b[..|b| - 1], p);
      assert (s + b)[..|s + b| - 1] == s + b[..|b| - 1];
    }
  }

  /** Trimming removes the outer padding and nothing else. */
  lemma TrimIs(a: string, s: string, b: string, p: CharClass)
    requires AllIn(a, p) && AllIn(b, p) && Trimmed(s, p)
    ensures Trim(a + s + b, p) == s
  {
    if s == "" {
      assert a + s + b == (a + b) + "";
      TrimLeftIs(a + b, "", p);
    } else {
      TrimLeftIs(a, s + b, p);
      assert a + s + b == a + (s + b);
      TrimRightIs(s, b, p);
    }
  }

  lemma {:induction false} TrimLeftParts(s: string, p: CharClass) returns (a: string)
    ensures s == a + TrimLeft(s, p) && AllIn(a, p)
    ensures TrimLeft(s, p) == "" || !Has(p, TrimLeft(s, p)[0])
  {
    a := "";
    if s != "" && Has(p, s[0]) {
      var rest := TrimLeftParts(s[1..], p);
      a := [s[0]] + rest;
      assert s == [s[0]] + s[1..];
    }
  }

  lemma {:induction false} TrimRightParts(s: string, p: CharClass) returns (b: string)
    ensures s == TrimRight(s, p) + b && AllIn(b, p)
    ensures TrimRight(s, p) == "" || !Has(p, TrimRight(s, p)[|TrimRight(s, p)| - 1])
  {
    b := "";
    if s != "" && Has(p, s[|s| - 1]) {
      var rest := TrimRightParts(s[..|s| - 1], p);
      b := rest + [s[|s| - 1]];
      assert s == s[..|s| - 1] + [s[|s| - 1]];
    }
  }

  /** What trimming keeps and what it drops. */
  lemma TrimParts(s: string, p: CharClass) returns (a: string, b: string)
    ensures s == a + Trim(s, p) + b && AllIn(a, p) && AllIn(b, p) && Trimmed(Trim(s, p), p)
  {
    a := TrimLeftParts(s, p);
    b := TrimRightParts(TrimLeft(s, p), p);
    var t := TrimLeft(s, p);
    assert s == a + (Trim(s, p) + b);
    assert Trim(s, p) != "" ==> t[0] == Trim(s, p)[0];
  }

  /** A trimmed text does not start with what a trim drops. */
  lemma TrimmedStart(s: string, a: string, p: CharClass)
    requires Trimmed(s, p) && a <= s
    ensures AllIn(a, p) ==> a == ""
  {
    if a != "" {
      assert a[0] == s[0] && !Has(p, a[0]);
    }
  }

  lemma TrimWithin(s: string, p: CharClass, d: char)
    requires d !in s
    ensures d !in Trim(s, p)
  {
    var a, b := TrimParts(s, p);
    assert forall i :: 0 <= i < |Trim(s, p)| ==> Trim(s, p)[i] == s[|a| + i];
  }

  lemma TrimKeepsFirst(s: string, p: CharClass)
    requires s != "" && !Has(p, s[0])
    ensures Trim(s, p) != "" && Trim(s, p)[0] == s[0]
  {
    var a, b := TrimParts(s, p);
    assert a == "";
    assert s == Trim(s, p) + b;
  }

  /** The characters at which `str.splitlines` breaks a line. */
  predicate IsLineBreak(c: char) {
    || '\n' <= c <= '\r' || '\U{1C}' <= c <= '\U{1E}' || c == '\U{85}' || c == '\U{2028}' || c == '\U{2029}'
  }

  predicate OneLine(s: string) {
    forall i :: 0 <= i < |s| ==> !IsLineBreak(s[i])
  }

  /** The first line break, or the length. */
  function LineEnd(s: string): (i: nat)
    ensures i <= |s| && OneLine(s[..i]) && (i < |s| ==> IsLineBreak(s[i]))
  {
    if s == "" || IsLineBreak(s[0]) then 0
    else
      var n := LineEnd(s[1..]);
      assert s[..n + 1] == [s[0]] + s[1..][..n];
      n + 1
  }

  /** `s.splitlines()`. */
  function SplitLines(s: string): seq<string>
    decreases |s|
  {
    if s == "" then []
    else
      var i := LineEnd(s);
      if i == |s| then [s]
      else [s[..i]] + SplitLines(s[if s[i] == '\r' && i + 1 < |s| && s[i + 1] == '\n' then i + 2 else i + 1..])
  }

  /** The line boundaries that `str.splitlines` documents, but for `\r\n`. */
  const LINE_BREAKS := {0x0A, 0x0B, 0x0C, 0x0D, 0x1C, 0x1D, 0x1E, 0x85, 0x2028, 0x2029}

  lemma LineBreaksListed(c: char)
    ensures IsLineBreak(c) <==> c as int in LINE_BREAKS
  {
  }

  /** A line ends at its first boundary, which is dropped; `\r\n` is one boundary. */
  lemma SplitLinesAt(a: string, c: char, b: string)
    requires OneLine(a) && c as int in LINE_BREAKS
    ensures SplitLines(a + [c] + b) ==
            [a] + SplitLines(if c == '\r' && b != "" && b[0] == '\n' then b[1..] else b)
    ensures a != "" ==> SplitLines(a) == [a]
  {
    var s := a + [c] + b;
    LineEndIs(s, |a|);
    LineEndIs(a, |a|);
    assert a[..|a|] == a;
    assert s[..|a|] == a && s[|a| + 1..] == b;
    if c == '\r' && b != "" && b[0] == '\n' {
      assert s[|a| + 2..] == b[1..] && s[|a| + 1] == b[0];
    }
  }

  lemma LineEndIs(s: string, n: nat)
    requires n <= |s| && (n < |s| ==> IsLineBreak(s[n])) && forall i :: 0 <= i < n ==> !IsLineBreak(s[i])
    ensures LineEnd(s) == n
  {
    var i := LineEnd(s);
    assert forall k :: 0 <= k < i ==> s[..i][k] == s[k];
  }

  ghost predicate AllOneLine(lines: seq<string>) {
    forall i :: 0 <= i < |lines| ==> OneLine(lines[i])
  }

  lemma {:induction false} SplitLinesOneLine(s: string)
    ensures AllOneLine(SplitLines(s))
    decreases |s|
  {
    if s != "" {
      var i := LineEnd(s);
      if i < |s| {
        SplitLinesOneLine(s[if s[i] == '\r' && i + 1 < |s| && s[i + 1] == '\n' then i + 2 else i + 1..]);
      } else {
        assert s[..i] == s;
      }
    }
  }

  lemma LineEndAt(a: string, b: string)
    requires OneLine(a)
    ensures LineEnd(a + "\n" + b) == |a|
  {
    var s, i := a + "\n" + b, LineEnd(a + "\n" + b);
    assert s[|a|] == '\n' && forall k :: 0 <= k < |a| ==> s[k] == a[k];
    forall k | |a| < k <= |s| ensures !OneLine(s[..k]) {
      assert s[..k][|a|] == '\n';
    }
  }

  /** Reading back lines that were written with a newline after each. */
  lemma {:induction false} SplitLinesJoined(lines: seq<string>)
    requires lines != [] && AllOneLine(lines)
    ensures SplitLines(Join("\n", lines) + "\n") == lines
  {
    var head, tail := lines[0], lines[1..];
    var rest := if tail == [] then "" else Join("\n", tail) + "\n";
    var s := Join("\n", lines) + "\n";
    assert s == head + "\n" + rest;
    LineEndAt(head, rest);
    assert s[..|head|] == head && s[|head| + 1..] == rest;
    if tail != [] {
      SplitLinesJoined(tail);
    }
    assert lines == [head] + tail;
  }
}
