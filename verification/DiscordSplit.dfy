/**
  `DiscordChannel._split_text` (backend/app/channels/discord.py): cutting a reply
  into messages of at most 2000 characters, preferably at line ends.
 */
module DiscordSplit {

  const MAX_LEN := 2000

  predicate NewlinesOnly(s: string) {
    forall i :: 0 <= i < |s| ==> s[i] == '\n'
  }

  /** `s.lstrip("\n")`. */
  function LStripNewlines(s: string): (r: string)
    ensures |r| <= |s|
  {
    if s != "" && s[0] == '\n' then LStripNewlines(s[1..]) else s
  }

  lemma {:induction false} LStripDrops(s: string)
    ensures var r := LStripNewlines(s); r == s[|s| - |r|..] && NewlinesOnly(s[..|s| - |r|])
    ensures LStripNewlines(s) != "" ==> LStripNewlines(s)[0] != '\n'
  {
    if s != "" && s[0] == '\n' {
      LStripDrops(s[1..]);
      var n := |s| - |LStripNewlines(s)|;
      assert s[1..][n - 1..] == s[n..];
      assert s[..n] == [s[0]] + s[1..][..n - 1];
    }
  }

  /** `s.rfind("\n")`: the last line end, or -1. */
  function LastNewline(s: string): (i: int)
    ensures -1 <= i < |s|
  {
    if s == "" then -1
    else if s[|s| - 1] == '\n' then |s| - 1
    else LastNewline(s[..|s| - 1])
  }

  lemma {:induction false} LastNewlineIsLast(s: string)
    ensures var i := LastNewline(s); (i >= 0 ==> s[i] == '\n') && forall j :: i < j < |s| ==> s[j] != '\n'
  {
    if s != "" && s[|s| - 1] != '\n' {
      LastNewlineIsLast(s[..|s| - 1]);
      forall j | LastNewline(s) < j < |s| - 1 ensures s[j] != '\n' { assert s[j] == s[..|s| - 1][j]; }
    }
  }

  /** Where a long text is cut: at the last line end that leaves a non-empty piece, else at the limit. */
  function Cut(s: string): (c: nat)
    requires |s| > MAX_LEN
    ensures 1 <= c <= MAX_LEN
  {
    var i := LastNewline(s[..MAX_LEN]);
    if i <= 0 then MAX_LEN else i
  }

  lemma CutAtLineEnd(s: string)
    requires |s| > MAX_LEN
    ensures Cut(s) < MAX_LEN ==> s[Cut(s)] == '\n'
    ensures forall j :: 1 <= j < MAX_LEN && (j > Cut(s) || Cut(s) == MAX_LEN) ==> s[j] != '\n'
  {
    LastNewlineIsLast(s[..MAX_LEN]);
    forall j | 1 <= j < MAX_LEN && (j > Cut(s) || Cut(s) == MAX_LEN) ensures s[j] != '\n' {
      assert s[j] == s[..MAX_LEN][j];
    }
  }

  function Rest(s: string): (r: string)
    requires |s| > MAX_LEN
    ensures |r| < |s|
  {
    LStripNewlines(s[Cut(s)..])
  }

  /** The chunks of a text, as a recursion over what remains. */
  function Chunks(s: string): seq<string>
    decreases |s|
  {
    if |s| > MAX_LEN then [s[..Cut(s)]] + Chunks(Rest(s))
    else if s != "" then [s]
    else []
  }

  /** `text` is the chunks in order, with only newlines dropped between and after them. */
  ghost predicate Reassembles(chunks: seq<string>, text: string)
    decreases |chunks|
  {
    if chunks == [] then NewlinesOnly(text)
    else
      && chunks[0] <= text
      && exists k :: |chunks[0]| <= k <= |text| && NewlinesOnly(text[|chunks[0]|..k])
                     && Reassembles(chunks[1..], text[k..])
  }

  /** Sum of the chunk lengths. */
  function Total(chunks: seq<string>): nat {
    if chunks == [] then 0 else |chunks[0]| + Total(chunks[1..])
  }

  /** `_split_text`. */
  method SplitText(text: string) returns (chunks: seq<string>)
    ensures text == "" ==> chunks == [""]
    ensures text != "" ==> chunks == Chunks(text)
    ensures text != "" ==> Reassembles(chunks, text)
    ensures text != "" ==> forall i :: 0 <= i < |chunks| ==> 1 <= |chunks[i]| <= 2000
    ensures text != "" && |text| <= 2000 ==> chunks == [text]
  {
    if text == "" {
      return [""];
    }
    chunks := [];
    var remaining := text;
    while |remaining| > MAX_LEN
      invariant Chunks(text) == chunks + Chunks(remaining)
      decreases |remaining|
    {
      ghost var piece := [remaining[..Cut(remaining)]];
      assert chunks + (piece + Chunks(Rest(remaining))) == (chunks + piece) + Chunks(Rest(remaining));
      var splitAt := LastNewline(remaining[..MAX_LEN]);
      if splitAt <= 0 {
        splitAt := MAX_LEN;
      }
      chunks := chunks + [remaining[..splitAt]];
      remaining := LStripNewlines(remaining[splitAt..]);
    }
    if remaining != "" {
      chunks := chunks + [remaining];
    }
    ChunksReassemble(text);
    ChunkLengths(text);
  }

  lemma {:induction false} ChunkLengths(s: string)
    ensures forall i :: 0 <= i < |Chunks(s)| ==> 1 <= |Chunks(s)[i]| <= 2000
    ensures s != "" ==> Chunks(s) != []
    ensures s != "" && |s| <= 2000 ==> Chunks(s) == [s]
    decreases |s|
  {
    if |s| > MAX_LEN {
      ChunkLengths(Rest(s));
    }
  }

  lemma ReassemblesCons(chunk: string, chunks: seq<string>, text: string, k: nat)
    requires |chunk| <= k <= |text| && chunk == text[..|chunk|] && NewlinesOnly(text[|chunk|..k])
    requires Reassembles(chunks, text[k..])
    ensures Reassembles([chunk] + chunks, text)
  {
    assert ([chunk] + chunks)[1..] == chunks;
  }

  lemma {:induction false} ChunksReassemble(s: string)
    ensures Reassembles(Chunks(s), s)
    decreases |s|
  {
    if |s| > MAX_LEN {
      var k := RestStarts(s);
      ChunksReassemble(Rest(s));
      ReassemblesCons(s[..Cut(s)], Chunks(Rest(s)), s, k);
    } else if s != "" {
      ReassemblesCons(s, [], s, |s|);
      assert [s] + [] == [s];
    }
  }

  lemma SliceTwice(s: string, a: nat, n: nat)
    requires a + n <= |s|
    ensures s[a..][..n] == s[a..a + n] && s[a..][n..] == s[a + n..]
  {
  }

  /** Where the remainder starts: only newlines lie between the cut and it. */
  lemma RestStarts(s: string) returns (k: nat)
    requires |s| > MAX_LEN
    ensures Cut(s) <= k <= |s| && Rest(s) == s[k..] && NewlinesOnly(s[Cut(s)..k])
    ensures Rest(s) != "" ==> Rest(s)[0] != '\n'
  {
    var c := Cut(s);
    LStripDrops(s[c..]);
    k := |s| - |Rest(s)|;
    SliceTwice(s, c, k - c);
  }

  /**
    How a text over the limit is cut: at the last line end within the limit that leaves a piece, or at
    the limit when there is none; the pieces of the rest begin at its first character that is not a
    newline.
   */
  lemma FirstChunkIs(s: string) returns (c: nat, k: nat)
    requires |s| > 2000
    ensures 1 <= c <= 2000 && c <= k <= |s| && Chunks(s) == [s[..c]] + Chunks(s[k..])
    ensures c < 2000 ==> s[c] == '\n'
    ensures forall j :: 1 <= j < 2000 && (j > c || c == 2000) ==> s[j] != '\n'
    ensures (forall j :: c <= j < k ==> s[j] == '\n') && (k < |s| ==> s[k] != '\n')
  {
    c := Cut(s);
    k := RestStarts(s);
    CutAtLineEnd(s);
    forall j | c <= j < k ensures s[j] == '\n' { assert s[j] == s[c..k][j - c]; }
    assert k < |s| ==> Rest(s) != "" && s[k] == Rest(s)[0];
  }

  /** A piece cut at a line end leaves a remainder whose next line end is far away. */
  lemma NextCut(s: string)
    requires |s| > MAX_LEN && |Rest(s)| > MAX_LEN
    ensures Cut(s) + Cut(Rest(s)) >= MAX_LEN - 1
  {
    var c, r := Cut(s), Rest(s);
    var k := RestStarts(s);
    CutAtLineEnd(s);
    CutAtLineEnd(r);
    if c < MAX_LEN - 1 {
      assert r[0] == s[k];
      forall j | c <= j < k ensures s[j] == '\n' { assert s[j] == s[c..k][j - c]; }
      assert s[k] != '\n' && s[c] == '\n' && s[c + 1] != '\n';
      forall j | 0 <= j < MAX_LEN - 1 - c ensures r[j] != '\n' { assert r[j] == s[k + j]; }
    }
  }

  /** Two or more chunks come from a text over the limit. */
  lemma LongUnfolds(s: string)
    requires |Chunks(s)| > 1
    ensures |s| > MAX_LEN && Chunks(s)[0] == s[..Cut(s)] && Chunks(s)[1..] == Chunks(Rest(s))
    ensures |Chunks(s)[0]| == Cut(s)
  {
  }

  /** Two neighbouring chunks that are both not last total at least 1999 characters. */
  lemma {:induction false} NeighboursAreLong(s: string, i: nat)
    requires i + 2 < |Chunks(s)|
    ensures |Chunks(s)[i]| + |Chunks(s)[i + 1]| >= 1999
    decreases |s|
  {
    var r := Rest(s);
    LongUnfolds(s);
    if i == 0 {
      LongUnfolds(r);
      NextCut(s);
    } else {
      NeighboursAreLong(r, i - 1);
    }
  }

  lemma {:induction false} TotalBound(s: string)
    ensures Total(Chunks(s)) <= |s|
    decreases |s|
  {
    if |s| > MAX_LEN {
      TotalBound(Rest(s));
      assert Chunks(s)[1..] == Chunks(Rest(s));
      assert |Rest(s)| <= |s| - Cut(s);
    } else if s != "" {
      assert Chunks(s)[1..] == [];
    }
  }

  /** Every second pair of chunks but the last chunk weighs 1999. */
  lemma {:induction false} PairsWeigh(chunks: seq<string>)
    requires forall i :: 0 <= i && i + 2 < |chunks| ==> |chunks[i]| + |chunks[i + 1]| >= MAX_LEN - 1
    ensures chunks != [] ==> (|chunks| - 1) / 2 * (MAX_LEN - 1) <= Total(chunks)
    decreases |chunks|
  {
    if |chunks| >= 3 {
      var rest := chunks[2..];
      forall i | 0 <= i && i + 2 < |rest| ensures |rest[i]| + |rest[i + 1]| >= MAX_LEN - 1 {
        assert rest[i] == chunks[i + 2] && rest[i + 1] == chunks[i + 3];
      }
      PairsWeigh(rest);
      assert chunks[1..][1..] == rest;
      assert (|chunks| - 1) / 2 == (|rest| - 1) / 2 + 1;
    }
  }

  /** Splitting is thrifty: n chunks need a text of at least floor((n-1)/2) * 1999 characters. */
  lemma FewChunks(text: string)
    requires text != ""
    ensures Chunks(text) != [] && (|Chunks(text)| - 1) / 2 * 1999 <= |text|
  {
    ChunkLengths(text);
    forall i | 0 <= i && i + 2 < |Chunks(text)|
      ensures |Chunks(text)[i]| + |Chunks(text)[i + 1]| >= MAX_LEN - 1
    {
      NeighboursAreLong(text, i);
    }
    PairsWeigh(Chunks(text));
    TotalBound(text);
  }
}
