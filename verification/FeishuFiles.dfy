/**
  `FeishuChannel.receive_file` (backend/app/channels/feishu.py): replacing the
  placeholders of a message by the paths of its downloaded files, one first
  occurrence at a time. Downloads themselves are outcomes handed in.
 */
module FeishuFiles {
  import opened Options
  import Text
  import opened FeishuBatching

  function Placeholder(f: FileRef): string {
    if f.Image? then "[image]" else "[file]"
  }

  predicate IsPlaceholder(ph: string) {
    ph == "[image]" || ph == "[file]"
  }

  const SEP := "\n\n"

  /** The text after replacing one placeholder per file, in file order. */
  function Substituted(text: string, files: seq<FileRef>, paths: seq<string>): string
    requires |files| == |paths|
    decreases |files|
  {
    if files == [] then text
    else Substituted(Text.ReplaceFirst(text, Placeholder(files[0]), paths[0]), files[1..], paths[1..])
  }

  /** `receive_file`: `paths[i]` is what `_receive_single_file` returned for file `i`. */
  method ReceiveFile(m: Inbound, threadTs: Option<string>, paths: seq<string>) returns (text: string)
    requires |paths| == |m.files|
    ensures threadTs.None? || threadTs.value == "" ==> text == m.text
    ensures threadTs.Some? && threadTs.value != "" ==> text == Substituted(m.text, m.files, paths)
  {
    if threadTs.None? || threadTs.value == "" || m.files == [] {
      return m.text;
    }
    text := m.text;
    var i := 0;
    while i < |m.files|
      invariant 0 <= i <= |m.files|
      invariant Substituted(text, m.files[i..], paths[i..]) == Substituted(m.text, m.files, paths)
    {
      assert m.files[i..][1..] == m.files[i + 1..] && paths[i..][1..] == paths[i + 1..];
      match m.files[i] {
        case Image(_) => text := Text.ReplaceFirst(text, "[image]", paths[i]);
        case Other(_) => text := Text.ReplaceFirst(text, "[file]", paths[i]);
      }
      i := i + 1;
    }
  }

  // ---------------------------------------------------------------------------
  // Replacing inside text made of blank-line separated segments
  // ---------------------------------------------------------------------------

  /** Replace in the first segment that contains the placeholder. */
  function SubstitutedIn(segs: seq<string>, ph: string, path: string): seq<string> {
    if segs == [] then []
    else if Text.Find(segs[0], ph) >= 0 then [Text.ReplaceFirst(segs[0], ph, path)] + segs[1..]
    else [segs[0]] + SubstitutedIn(segs[1..], ph, path)
  }

  ghost predicate OneLine(s: string) {
    s != "" && '\n' !in s
  }

  /** An occurrence of a one-line string in `a + SEP + b` lies inside `a` or inside `b`. */
  lemma OccursAside(a: string, b: string, ph: string, i: int)
    requires OneLine(ph)
    ensures Text.OccursAt(a + SEP + b, ph, i) <==>
              Text.OccursAt(a, ph, i) || Text.OccursAt(b, ph, i - |a| - 2)
  {
    var s := a + SEP + b;
    assert s[|a|] == '\n' && s[|a| + 1] == '\n';
    if Text.OccursAt(s, ph, i) {
      forall p | i <= p < i + |ph| ensures s[p] != '\n' { assert s[p] == s[i..i + |ph|][p - i] == ph[p - i]; }
      if i + |ph| <= |a| {
        assert s[i..i + |ph|] == a[i..i + |ph|];
      } else {
        assert i >= |a| + 2;
        assert s[i..i + |ph|] == b[i - |a| - 2..i - |a| - 2 + |ph|];
      }
    }
    if Text.OccursAt(a, ph, i) { assert s[i..i + |ph|] == a[i..i + |ph|]; }
    if Text.OccursAt(b, ph, i - |a| - 2) { assert s[i..i + |ph|] == b[i - |a| - 2..i - |a| - 2 + |ph|]; }
  }

  lemma FindAside(a: string, b: string, ph: string)
    requires OneLine(ph)
    ensures var f := Text.Find(a + SEP + b, ph);
            if Text.Find(a, ph) >= 0 then f == Text.Find(a, ph)
            else if Text.Find(b, ph) >= 0 then f == |a| + 2 + Text.Find(b, ph)
            else f == -1
  {
    var s := a + SEP + b;
    forall i ensures Text.OccursAt(s, ph, i) <==> Text.OccursAt(a, ph, i) || Text.OccursAt(b, ph, i - |a| - 2) {
      OccursAside(a, b, ph, i);
    }
    var fa, fb, f := Text.Find(a, ph), Text.Find(b, ph), Text.Find(s, ph);
    Text.FindIsFirst(a, ph);
    Text.FindIsFirst(b, ph);
    Text.FindIsFirst(s, ph);
    if fa >= 0 {
      assert Text.OccursAt(s, ph, fa);
      assert Text.OccursAt(a, ph, f) || Text.OccursAt(b, ph, f - |a| - 2);
    } else if fb >= 0 {
      assert Text.OccursAt(b, ph, |a| + 2 + fb - |a| - 2);
      assert Text.OccursAt(s, ph, |a| + 2 + fb);
      assert Text.OccursAt(b, ph, f - |a| - 2);
    } else {
      assert f < 0 || Text.OccursAt(s, ph, f);
    }
  }

  lemma SpliceLeft(a: string, b: string, i: nat, j: nat, put: string)
    requires i <= j <= |a|
    ensures Text.Spliced(a + SEP + b, i, j, put) == Text.Spliced(a, i, j, put) + SEP + b
  {
    var s := a + SEP + b;
    assert s[..i] == a[..i] && s[j..] == a[j..] + SEP + b;
  }

  lemma SpliceRight(a: string, b: string, i: nat, j: nat, put: string)
    requires i <= j <= |b|
    ensures Text.Spliced(a + SEP + b, |a| + 2 + i, |a| + 2 + j, put) == a + SEP + Text.Spliced(b, i, j, put)
  {
    var s := a + SEP + b;
    assert s[..|a| + 2 + i] == a + SEP + b[..i] && s[|a| + 2 + j..] == b[j..];
  }

  lemma ReplaceHere(a: string, b: string, ph: string, path: string)
    requires OneLine(ph) && Text.Find(a, ph) >= 0
    ensures Text.ReplaceFirst(a + SEP + b, ph, path) == Text.ReplaceFirst(a, ph, path) + SEP + b
  {
    FindAside(a, b, ph);
    HereFound(a + SEP + b, a, b, ph, path, Text.Find(a, ph));
  }

  lemma HereFound(s: string, a: string, b: string, ph: string, path: string, f: nat)
    requires s == a + SEP + b && f == Text.Find(s, ph) == Text.Find(a, ph)
    ensures Text.ReplaceFirst(s, ph, path) == Text.ReplaceFirst(a, ph, path) + SEP + b
  {
    ReplacedAt(s, ph, path, f);
    ReplacedAt(a, ph, path, f);
    SpliceLeft(a, b, f, f + |ph|, path);
  }

  lemma ReplaceLater(a: string, b: string, ph: string, path: string)
    requires OneLine(ph) && Text.Find(a, ph) < 0
    ensures Text.ReplaceFirst(a + SEP + b, ph, path) == a + SEP + Text.ReplaceFirst(b, ph, path)
  {
    FindAside(a, b, ph);
    var g := Text.Find(b, ph);
    if g >= 0 {
      ReplacedAt(a + SEP + b, ph, path, |a| + 2 + g);
      ReplacedAt(b, ph, path, g);
      SplicedLater(a + SEP + b, a, b, g, |ph|, path);
    }
  }

  lemma ReplacedAt(s: string, ph: string, path: string, f: nat)
    requires f == Text.Find(s, ph)
    ensures Text.ReplaceFirst(s, ph, path) == Text.Spliced(s, f, f + |ph|, path)
  {
  }

  lemma SplicedLater(s: string, a: string, b: string, g: nat, n: nat, path: string)
    requires s == a + SEP + b && g + n <= |b|
    ensures Text.Spliced(s, |a| + 2 + g, |a| + 2 + g + n, path) == a + SEP + Text.Spliced(b, g, g + n, path)
  {
    SpliceRight(a, b, g, g + n, path);
  }

  lemma JoinCons(a: string, rest: seq<string>)
    ensures Text.Join(SEP, [a] + rest) == if rest == [] then a else a + SEP + Text.Join(SEP, rest)
  {
    assert ([a] + rest)[1..] == rest;
  }

  lemma SubstitutedLength(segs: seq<string>, ph: string, path: string)
    ensures |SubstitutedIn(segs, ph, path)| == |segs|
  {
  }

  lemma {:induction false} ReplaceInSegments(segs: seq<string>, ph: string, path: string)
    requires OneLine(ph) && segs != []
    ensures Text.ReplaceFirst(Text.Join(SEP, segs), ph, path) == Text.Join(SEP, SubstitutedIn(segs, ph, path))
    decreases |segs|
  {
    var a, rest := segs[0], segs[1..];
    SubstitutedLength(rest, ph, path);
    assert segs == [a] + rest;
    JoinCons(a, rest);
    JoinCons(Text.ReplaceFirst(a, ph, path), rest);
    JoinCons(a, SubstitutedIn(rest, ph, path));
    if rest != [] {
      ReplaceInSegments(rest, ph, path);
      if Text.Find(a, ph) >= 0 {
        ReplaceHere(a, Text.Join(SEP, rest), ph, path);
      } else {
        ReplaceLater(a, Text.Join(SEP, rest), ph, path);
      }
    }
  }

  function Placeholders(files: seq<FileRef>): (r: seq<string>)
    ensures |r| == |files| && forall i :: 0 <= i < |files| ==> r[i] == Placeholder(files[i])
  {
    if files == [] then [] else [Placeholder(files[0])] + Placeholders(files[1..])
  }

  /** `receive_file` seen on the segments of the text. */
  function SegmentsAfter(segs: seq<string>, phs: seq<string>, paths: seq<string>): seq<string>
    requires |phs| == |paths|
    decreases |phs|
  {
    if phs == [] then segs
    else SegmentsAfter(SubstitutedIn(segs, phs[0], paths[0]), phs[1..], paths[1..])
  }

  lemma SegmentsUnfold(segs: seq<string>, phs: seq<string>, paths: seq<string>, j: nat)
    requires j < |phs| == |paths|
    ensures SegmentsAfter(segs, phs[j..], paths[j..]) ==
            SegmentsAfter(SubstitutedIn(segs, phs[j], paths[j]), phs[j + 1..], paths[j + 1..])
  {
    assert phs[j..][1..] == phs[j + 1..] && paths[j..][1..] == paths[j + 1..];
  }

  lemma {:induction false} SubstitutedOnSegments(segs: seq<string>, files: seq<FileRef>, paths: seq<string>)
    requires |files| == |paths| && segs != []
    ensures Substituted(Text.Join(SEP, segs), files, paths) ==
            Text.Join(SEP, SegmentsAfter(segs, Placeholders(files), paths))
    decreases |files|
  {
    if files != [] {
      var ph := Placeholder(files[0]);
      SubstitutedLength(segs, ph, paths[0]);
      ReplaceInSegments(segs, ph, paths[0]);
      SubstitutedOnSegments(SubstitutedIn(segs, ph, paths[0]), files[1..], paths[1..]);
      assert Placeholders(files)[1..] == Placeholders(files[1..]);
    }
  }

  lemma ReplaceSelf(ph: string, path: string)
    ensures Text.ReplaceFirst(ph, ph, path) == path
  {
    Text.FindIsFirst(ph, ph);
    assert Text.OccursAt(ph, ph, 0);
    assert ph[..0] + path + ph[|ph|..] == path;
  }

  /** With no placeholder of its kind in front, a file lands on its own segment. */
  lemma {:induction false} OwnSegment(front: seq<string>, ph: string, back: seq<string>, path: string)
    requires forall i :: 0 <= i < |front| ==> Text.Find(front[i], ph) < 0
    ensures SubstitutedIn(front + [ph] + back, ph, path) == front + [path] + back
    decreases |front|
  {
    var segs := front + [ph] + back;
    if front == [] {
      Text.FindIsFirst(ph, ph);
      assert Text.OccursAt(ph, ph, 0);
      ReplaceSelf(ph, path);
      assert segs[1..] == back;
    } else {
      OwnSegment(front[1..], ph, back, path);
      assert segs[1..] == front[1..] + [ph] + back;
      assert front + [path] + back == [front[0]] + (front[1..] + [path] + back);
    }
  }

  /** Segment `p` does not contain the placeholder of file `t`. */
  predicate Free(paths: seq<string>, phs: seq<string>, p: int, t: int) {
    0 <= p < |paths| && 0 <= t < |phs| && Text.Find(paths[p], phs[t]) < 0
  }

  predicate AllFree(paths: seq<string>, phs: seq<string>, n: nat) {
    forall p, t :: 0 <= p < n && 0 <= t < |phs| ==> Free(paths, phs, p, t)
  }

  /** No returned path contains the placeholder of a later file. */
  ghost predicate Undisturbed(files: seq<FileRef>, paths: seq<string>)
    requires |files| == |paths|
  {
    forall i, j :: 0 <= i < j < |files| ==>
      !Text.Contains(paths[i], if files[j].Image? then "[image]" else "[file]")
  }

  /** The segments before file `t` is handled, while no file disturbs an earlier one. */
  function Midway(paths: seq<string>, phs: seq<string>, t: nat): seq<string>
    requires t <= |paths| == |phs|
  {
    paths[..t] + phs[t..]
  }

  lemma MidwayStep(paths: seq<string>, phs: seq<string>, t: nat)
    requires t < |paths| == |phs| && forall p :: 0 <= p < t ==> Free(paths, phs, p, t)
    ensures SubstitutedIn(Midway(paths, phs, t), phs[t], paths[t]) == Midway(paths, phs, t + 1)
  {
    forall p | 0 <= p < t ensures Text.Find(paths[..t][p], phs[t]) < 0 { assert Free(paths, phs, p, t); }
    OwnSegment(paths[..t], phs[t], phs[t + 1..], paths[t]);
    assert Midway(paths, phs, t) == paths[..t] + [phs[t]] + phs[t + 1..];
    assert Midway(paths, phs, t + 1) == paths[..t] + [paths[t]] + phs[t + 1..];
  }

  lemma {:induction false} SegmentsBecomePaths(paths: seq<string>, phs: seq<string>, t: nat)
    requires t <= |paths| == |phs| && forall p, u :: 0 <= p < u < |phs| ==> Free(paths, phs, p, u)
    ensures SegmentsAfter(Midway(paths, phs, t), phs[t..], paths[t..]) == paths
    decreases |phs| - t
  {
    if t == |phs| {
      assert Midway(paths, phs, t) == paths;
    } else {
      MidwayStep(paths, phs, t);
      SegmentsUnfold(Midway(paths, phs, t), phs, paths, t);
      SegmentsBecomePaths(paths, phs, t + 1);
    }
  }

  /** A message the channel batches: one file, and as its text that file's placeholder. */
  predicate SingleFile(m: Inbound) {
    |m.files| == 1 && m.text == if m.files[0].Image? then "[image]" else "[file]"
  }

  lemma {:induction false} BatchFiles(arrived: seq<Arrival>, members: seq<nat>)
    requires Within(members, |arrived|)
    requires forall i :: 0 <= i < |members| ==> SingleFile(arrived[members[i]].msg)
    ensures |FilesOf(arrived, members)| == |members|
    ensures forall i :: 0 <= i < |members| ==> arrived[members[i]].msg.files == [FilesOf(arrived, members)[i]]
    decreases |members|
  {
    if members != [] {
      BatchFiles(arrived, members[..|members| - 1]);
    }
  }

  lemma {:induction false} BatchTexts(arrived: seq<Arrival>, members: seq<nat>)
    requires Within(members, |arrived|)
    requires forall i :: 0 <= i < |members| ==> SingleFile(arrived[members[i]].msg)
    ensures |TextsOf(arrived, members)| == |members|
    ensures forall i :: 0 <= i < |members| ==> TextsOf(arrived, members)[i] == arrived[members[i]].msg.text
    decreases |members|
  {
    if members != [] {
      BatchTexts(arrived, members[..|members| - 1]);
    }
  }

  lemma TextsArePlaceholders(arrived: seq<Arrival>, members: seq<nat>)
    requires Within(members, |arrived|)
    requires forall i :: 0 <= i < |members| ==> SingleFile(arrived[members[i]].msg)
    ensures TextsOf(arrived, members) == Placeholders(FilesOf(arrived, members))
  {
    BatchFiles(arrived, members);
    BatchTexts(arrived, members);
    var texts, phs := TextsOf(arrived, members), Placeholders(FilesOf(arrived, members));
    forall i | 0 <= i < |members| ensures texts[i] == phs[i] {
      assert SingleFile(arrived[members[i]].msg);
    }
  }

  /** The text of a batch of single-file messages is the placeholders of its files, in order. */
  lemma BatchText(b: Batch, arrived: seq<Arrival>)
    requires BuiltFrom(b, arrived)
    requires forall i :: 0 <= i < |b.members| ==> SingleFile(arrived[b.members[i]].msg)
    ensures b.inbound.files != [] && b.inbound.text == Text.Join(SEP, Placeholders(b.inbound.files))
  {
    BatchFiles(arrived, b.members);
    BatchTexts(arrived, b.members);
    TextsArePlaceholders(arrived, b.members);
  }

  /**
    For a batch built by the queue, if no returned path contains the placeholder of a later file,
    `receive_file` turns the batch text into exactly the paths, in file order, separated by blank lines.
   */
  lemma BatchBecomesPaths(b: Batch, arrived: seq<Arrival>, paths: seq<string>)
    requires BuiltFrom(b, arrived) && |paths| == |b.inbound.files|
    requires forall i :: 0 <= i < |b.members| ==> SingleFile(arrived[b.members[i]].msg)
    requires Undisturbed(b.inbound.files, paths)
    ensures Substituted(b.inbound.text, b.inbound.files, paths) == Text.Join(SEP, paths)
  {
    var files := b.inbound.files;
    BatchText(b, arrived);
    var phs := Placeholders(files);
    SubstitutedOnSegments(phs, files, paths);
    forall p, u | 0 <= p < u < |phs| ensures Free(paths, phs, p, u) { Text.FindContains(paths[p], phs[u]); }
    SegmentsBecomePaths(paths, phs, 0);
    assert Midway(paths, phs, 0) == phs && phs[0..] == phs && paths[0..] == paths;
  }

  // ---------------------------------------------------------------------------
  // Failed downloads: exactly when the result is still the paths
  // ---------------------------------------------------------------------------

  /** What `_receive_single_file` can return: a sandbox path, or a text naming the placeholder. */
  datatype Download = Saved(path: string) | Failed

  const FAILED := "Failed to obtain the "

  function Returned(f: FileRef, d: Download): string {
    match d
    case Saved(path) => path
    case Failed => FAILED + Placeholder(f)
  }

  function AllReturned(files: seq<FileRef>, downloads: seq<Download>): (r: seq<string>)
    requires |files| == |downloads|
    ensures |r| == |files| && forall i :: 0 <= i < |r| ==> r[i] == Returned(files[i], downloads[i])
  {
    if files == [] then [] else [Returned(files[0], downloads[0])] + AllReturned(files[1..], downloads[1..])
  }

  /** A download that fails is told by its kind. */
  lemma FailureIsTold(f: FileRef)
    ensures Returned(f, Failed) == if f.Image? then "Failed to obtain the [image]" else "Failed to obtain the [file]"
  {
  }

  ghost predicate CleanPaths(downloads: seq<Download>) {
    forall i :: 0 <= i < |downloads| && downloads[i].Saved? ==>
      !Text.Contains(downloads[i].path, "[image]") && !Text.Contains(downloads[i].path, "[file]")
  }

  /** File `i` failed and a later file `j` has its kind. */
  predicate Collides(files: seq<FileRef>, downloads: seq<Download>, i: int, j: int)
    requires |files| == |downloads|
  {
    0 <= i < j < |files| && downloads[i].Failed? && files[i].Image? == files[j].Image?
  }

  lemma FailedHasNoBracket()
    ensures forall q :: 0 <= q < |FAILED| ==> FAILED[q] != '['
  {
  }

  lemma NoBracketBefore(s: string, ph: string, n: nat)
    requires n <= |s| && ph != "" && ph[0] == '[' && forall q :: 0 <= q < n ==> s[q] != '['
    ensures Text.Find(s, ph) < 0 || Text.Find(s, ph) >= n
  {
    Text.FindIsFirst(s, ph);
    var f := Text.Find(s, ph);
    if f >= 0 { assert s[f] == s[f..f + |ph|][0] == ph[0]; }
  }

  lemma SliceTail(front: string, tail: string, i: nat, j: nat)
    requires |front| <= i <= j <= |front| + |tail|
    ensures (front + tail)[i..j] == tail[i - |front|..j - |front|]
  {
  }

  /** Behind a text without brackets, a placeholder is found only in what follows. */
  lemma FoundBehind(front: string, tail: string, ph: string)
    requires ph != "" && ph[0] == '[' && forall q :: 0 <= q < |front| ==> front[q] != '['
    ensures var i := Text.Find(front + tail, ph);
            i == -1 || (i >= |front| && Text.OccursAt(tail, ph, i - |front|))
  {
    var s := front + tail;
    NoBracketBefore(s, ph, |front|);
    Text.FindIsFirst(s, ph);
    var i := Text.Find(s, ph);
    if i >= 0 { SliceTail(front, tail, i, i + |ph|); }
  }

  lemma PlaceholdersApart(f: FileRef, ph: string, i: int)
    requires IsPlaceholder(ph) && Text.OccursAt(Placeholder(f), ph, i)
    ensures ph == Placeholder(f) && i == 0
  {
    assert Placeholder(f)[i] == Placeholder(f)[i..i + |ph|][0] == ph[0];
    assert Placeholder(f)[i + 1] == Placeholder(f)[i..i + |ph|][1] == ph[1];
  }

  /** The failure text contains the placeholder of its own kind, at its end, and no other. */
  lemma FailureText(f: FileRef, g: FileRef)
    ensures Text.Find(FAILED + Placeholder(f), Placeholder(g)) == if f.Image? == g.Image? then |FAILED| else -1
  {
    var s, ph := FAILED + Placeholder(f), Placeholder(g);
    FailedHasNoBracket();
    FoundBehind(FAILED, Placeholder(f), ph);
    var i := Text.Find(s, ph);
    if i >= 0 { PlaceholdersApart(f, ph, i - |FAILED|); }
    if f.Image? == g.Image? {
      assert s[|FAILED|..|FAILED| + |ph|] == ph;
      assert Text.OccursAt(s, ph, |FAILED|);
      Text.FindIsFirst(s, ph);
    }
  }

  ghost predicate Colliding(files: seq<FileRef>, downloads: seq<Download>)
    requires |files| == |downloads|
  {
    exists i, j :: Collides(files, downloads, i, j)
  }

  lemma ReturnedContains(f: FileRef, d: Download, g: FileRef)
    requires d.Saved? ==> !Text.Contains(d.path, "[image]") && !Text.Contains(d.path, "[file]")
    ensures Text.Contains(Returned(f, d), Placeholder(g)) <==> d.Failed? && f.Image? == g.Image?
  {
    if d.Failed? {
      FailureText(f, g);
      Text.FindContains(Returned(f, d), Placeholder(g));
    }
  }

  lemma NoCollisionUndisturbed(files: seq<FileRef>, downloads: seq<Download>)
    requires |files| == |downloads| && CleanPaths(downloads) && !Colliding(files, downloads)
    ensures Undisturbed(files, AllReturned(files, downloads))
  {
    forall i, j | 0 <= i < j < |files|
      ensures !Text.Contains(AllReturned(files, downloads)[i], Placeholder(files[j]))
    {
      ReturnedContains(files[i], downloads[i], files[j]);
      assert !Collides(files, downloads, i, j);
    }
  }

  /** A text that no later replacement can turn back into the failure text of a file: it starts
      like a failure text, and goes on either with another one or with a clean path. */
  ghost predicate Spoiled(s: string, path: string) {
    || (|s| > |FAILED| && s[..|FAILED|] == FAILED && s[|FAILED|] == FAILED[0])
    || (s == FAILED + path && !Text.Contains(path, "[image]") && !Text.Contains(path, "[file]"))
  }

  lemma ReplaceBehind(s: string, ph: string, put: string, n: nat)
    requires n <= |s| && (Text.Find(s, ph) < 0 || Text.Find(s, ph) >= n)
    ensures |Text.ReplaceFirst(s, ph, put)| >= n && Text.ReplaceFirst(s, ph, put)[..n] == s[..n]
  {
  }

  lemma PrefixOfPrefix(r: string, s: string, n: nat)
    requires n < |s| && n < |r| && r[..n + 1] == s[..n + 1]
    ensures r[..n] == s[..n] && r[n] == s[n]
  {
    assert r[..n] == r[..n + 1][..n] && s[..n] == s[..n + 1][..n];
    assert r[n] == r[..n + 1][n] && s[n] == s[..n + 1][n];
  }

  lemma FailedTwiceStays(s: string, ph: string, put: string)
    requires IsPlaceholder(ph) && |s| > |FAILED| && s[..|FAILED|] == FAILED && s[|FAILED|] == FAILED[0]
    ensures var r := Text.ReplaceFirst(s, ph, put);
            |r| > |FAILED| && r[..|FAILED|] == FAILED && r[|FAILED|] == FAILED[0]
  {
    var n := |FAILED| + 1;
    FailedHasNoBracket();
    forall q | 0 <= q < n ensures s[q] != '[' { assert q < |FAILED| ==> s[q] == s[..|FAILED|][q]; }
    NoBracketBefore(s, ph, n);
    ReplaceBehind(s, ph, put, n);
    PrefixOfPrefix(Text.ReplaceFirst(s, ph, put), s, |FAILED|);
  }

  lemma CleanPathStays(path: string, ph: string, put: string)
    requires IsPlaceholder(ph) && !Text.Contains(path, "[image]") && !Text.Contains(path, "[file]")
    ensures Text.ReplaceFirst(FAILED + path, ph, put) == FAILED + path
  {
    FailedHasNoBracket();
    FoundBehind(FAILED, path, ph);
    assert forall i :: !Text.OccursAt(path, ph, i);
  }

  lemma StaysSpoiled(s: string, path: string, ph: string, put: string)
    requires IsPlaceholder(ph) && Spoiled(s, path)
    ensures Spoiled(Text.ReplaceFirst(s, ph, put), path)
  {
    if |s| > |FAILED| && s[..|FAILED|] == FAILED && s[|FAILED|] == FAILED[0] {
      FailedTwiceStays(s, ph, put);
    } else {
      CleanPathStays(path, ph, put);
    }
  }

  /** The first `i` segments are the returned paths and segment `i` is spoiled. */
  ghost predicate SpoiledAt(segs: seq<string>, returned: seq<string>, i: nat, path: string) {
    i + 1 < |segs| == |returned| && segs[..i] == returned[..i] && Spoiled(segs[i], path)
  }

  lemma {:induction false} SubstitutedPrefix(segs: seq<string>, ph: string, path: string, n: nat)
    requires n <= |segs| && forall p :: 0 <= p < n ==> Text.Find(segs[p], ph) < 0
    ensures SubstitutedIn(segs, ph, path) == segs[..n] + SubstitutedIn(segs[n..], ph, path)
    decreases n
  {
    if n > 0 {
      SubstitutedPrefix(segs[1..], ph, path, n - 1);
      assert segs[1..][n - 1..] == segs[n..];
      assert segs[..n] == [segs[0]] + segs[1..][..n - 1];
    } else {
      assert segs[0..] == segs;
    }
  }

  lemma SpoiledStep(segs: seq<string>, ph: string, put: string, returned: seq<string>, i: nat, path: string)
    requires SpoiledAt(segs, returned, i, path) && IsPlaceholder(ph)
    requires forall p :: 0 <= p < i ==> Text.Find(returned[p], ph) < 0
    ensures SpoiledAt(SubstitutedIn(segs, ph, put), returned, i, path)
  {
    var next := SubstitutedIn(segs, ph, put);
    SubstitutedLength(segs, ph, put);
    forall p | 0 <= p < i ensures Text.Find(segs[p], ph) < 0 { assert segs[p] == segs[..i][p] == returned[..i][p]; }
    SubstitutedPrefix(segs, ph, put, i);
    assert next[..i] == segs[..i];
    assert next[i] == SubstitutedIn(segs[i..], ph, put)[0];
    if Text.Find(segs[i], ph) >= 0 { StaysSpoiled(segs[i], path, ph, put); }
  }

  lemma FreeFrom(returned: seq<string>, phs: seq<string>, n: nat, j: nat)
    requires j <= |phs| && forall p, t :: 0 <= p < n && j <= t < |phs| ==> Free(returned, phs, p, t)
    ensures AllFree(returned, phs[j..], n)
  {
    forall p, t | 0 <= p < n && 0 <= t < |phs[j..]| ensures Free(returned, phs[j..], p, t) {
      assert Free(returned, phs, p, j + t);
    }
  }

  predicate AllPlaceholders(phs: seq<string>) {
    forall t :: 0 <= t < |phs| ==> IsPlaceholder(phs[t])
  }

  /** Once spoiled, always spoiled. */
  lemma {:induction false} SpoiledToTheEnd(segs: seq<string>, phs: seq<string>, paths: seq<string>,
                                           returned: seq<string>, i: nat, path: string)
    requires |phs| == |paths| && AllPlaceholders(phs) && SpoiledAt(segs, returned, i, path)
    requires AllFree(returned, phs, i)
    ensures SpoiledAt(SegmentsAfter(segs, phs, paths), returned, i, path)
    decreases |phs|
  {
    if phs != [] {
      forall p | 0 <= p < i ensures Text.Find(returned[p], phs[0]) < 0 { assert Free(returned, phs, p, 0); }
      SpoiledStep(segs, phs[0], paths[0], returned, i, path);
      FreeFrom(returned, phs, i, 1);
      SpoiledToTheEnd(SubstitutedIn(segs, phs[0], paths[0]), phs[1..], paths[1..], returned, i, path);
    }
  }

  lemma {:induction false} JoinCancels(a: seq<string>, b: seq<string>, i: nat)
    requires i < |a| == |b| && a[..i] == b[..i] && Text.Join(SEP, a) == Text.Join(SEP, b)
    ensures Text.Join(SEP, a[i..]) == Text.Join(SEP, b[i..])
    decreases i
  {
    if i == 0 {
      assert a[0..] == a && b[0..] == b;
    } else {
      assert a[0] == a[..i][0] && b[0] == b[..i][0];
      var n := |a[0] + SEP|;
      assert Text.Join(SEP, a)[n..] == Text.Join(SEP, a[1..]);
      assert Text.Join(SEP, b)[n..] == Text.Join(SEP, b[1..]);
      assert a[1..][..i - 1] == a[..i][1..] && b[1..][..i - 1] == b[..i][1..];
      JoinCancels(a[1..], b[1..], i - 1);
      assert a[1..][i - 1..] == a[i..] && b[1..][i - 1..] == b[i..];
    }
  }

  /** A spoiled segment differs from the failure text within the first separator. */
  lemma SpoiledDiffers(s: string, path: string, f: FileRef, x: string, y: string)
    requires Spoiled(s, path)
    ensures s + SEP + x != FAILED + Placeholder(f) + SEP + y
  {
    var ph := Placeholder(f);
    var l, r := s + SEP + x, FAILED + Placeholder(f) + SEP + y;
    var n := |FAILED|;
    assert r[n] == ph[0] == '[';
    if |s| > n && s[..n] == FAILED && s[n] == FAILED[0] {
      assert l[n] == s[n];
    } else if |path| >= |ph| {
      assert !Text.OccursAt(path, ph, 0);
      assert path[0..0 + |ph|] != ph;
      var q :| 0 <= q < |ph| && path[q] != ph[q];
      assert l[n + q] == path[q] && r[n + q] == ph[q];
    } else {
      assert l[n + |path|] == '\n';
      assert r[n + |path|] == ph[|path|] != '\n';
    }
  }

  lemma SpoiledJoinDiffers(segs: seq<string>, returned: seq<string>, i: nat, path: string, f: FileRef)
    requires SpoiledAt(segs, returned, i, path) && returned[i] == FAILED + Placeholder(f)
    ensures Text.Join(SEP, segs) != Text.Join(SEP, returned)
  {
    if Text.Join(SEP, segs) == Text.Join(SEP, returned) {
      JoinCancels(segs, returned, i);
      SpoiledDiffers(segs[i], path, f, Text.Join(SEP, segs[i..][1..]), Text.Join(SEP, returned[i..][1..]));
    }
  }

  /** `(i, j)` is the first collision: no file before `i` collides, and `i` with none before `j`. */
  ghost predicate FirstCollision(files: seq<FileRef>, downloads: seq<Download>, i: nat, j: nat)
    requires |files| == |downloads|
  {
    && Collides(files, downloads, i, j)
    && (forall p, q :: Collides(files, downloads, p, q) ==> i <= p)
    && (forall q :: Collides(files, downloads, i, q) ==> j <= q)
  }

  lemma {:induction false} LeastCollision(files: seq<FileRef>, downloads: seq<Download>, i: nat, j: nat)
      returns (p: nat, q: nat)
    requires |files| == |downloads| && Collides(files, downloads, i, j)
    ensures FirstCollision(files, downloads, p, q)
    decreases i, j
  {
    if exists a: nat, b: nat :: Collides(files, downloads, a, b) && a < i {
      var a: nat, b: nat :| Collides(files, downloads, a, b) && a < i;
      p, q := LeastCollision(files, downloads, a, b);
    } else if exists b: nat :: Collides(files, downloads, i, b) && b < j {
      var b: nat :| Collides(files, downloads, i, b) && b < j;
      p, q := LeastCollision(files, downloads, i, b);
    } else {
      p, q := i, j;
    }
  }

  function PathOf(d: Download): string {
    if d.Saved? then d.path else ""
  }

  /** File `i`'s text is the first that a later file disturbs, and `j` the first to disturb it. */
  ghost predicate FirstClash(returned: seq<string>, phs: seq<string>, i: nat, j: nat) {
    && i < j < |returned| == |phs|
    && (forall p, t :: 0 <= p < i && p < t < |phs| ==> Free(returned, phs, p, t))
    && (forall t :: i < t < j ==> Free(returned, phs, i, t))
  }

  /** The segments before file `t` is handled, for `t` up to the first clash. */
  ghost predicate Walked(segs: seq<string>, returned: seq<string>, phs: seq<string>, i: nat, t: nat)
    requires t <= |returned| == |phs| && i < |phs|
  {
    && |segs| == |phs|
    && (if t <= i then segs == Midway(returned, phs, t) else segs[..i + 1] == returned[..i + 1])
  }

  lemma WalkStep(segs: seq<string>, returned: seq<string>, phs: seq<string>, i: nat, j: nat, t: nat)
    requires FirstClash(returned, phs, i, j) && t < j && Walked(segs, returned, phs, i, t)
    ensures Walked(SubstitutedIn(segs, phs[t], returned[t]), returned, phs, i, t + 1)
  {
    SubstitutedLength(segs, phs[t], returned[t]);
    if t <= i {
      MidwayStep(returned, phs, t);
      assert t == i ==> Midway(returned, phs, i + 1)[..i + 1] == returned[..i + 1];
    } else {
      forall p | 0 <= p < i + 1 ensures Text.Find(segs[p], phs[t]) < 0 {
        assert Free(returned, phs, p, t);
        assert segs[p] == segs[..i + 1][p] == returned[..i + 1][p];
      }
      SubstitutedPrefix(segs, phs[t], returned[t], i + 1);
    }
  }

  lemma Lands(f: FileRef, put: string)
    ensures Text.ReplaceFirst(FAILED + Placeholder(f), Placeholder(f), put) == FAILED + put
    ensures Text.Find(FAILED + Placeholder(f), Placeholder(f)) >= 0
  {
    FailureText(f, f);
    var s := FAILED + Placeholder(f);
    assert s[..|FAILED|] + put + s[|FAILED| + |Placeholder(f)|..] == FAILED + put;
  }

  /** File `j` lands inside the failure text of file `i`. */
  lemma ClashSpoils(segs: seq<string>, returned: seq<string>, phs: seq<string>, i: nat, j: nat, f: FileRef,
      path: string)
    requires FirstClash(returned, phs, i, j) && Walked(segs, returned, phs, i, j)
    requires returned[i] == FAILED + Placeholder(f) && phs[j] == Placeholder(f)
    requires Spoiled(FAILED + returned[j], path)
    ensures SpoiledAt(SubstitutedIn(segs, phs[j], returned[j]), returned, i, path)
  {
    SubstitutedLength(segs, phs[j], returned[j]);
    assert segs[i] == segs[..i + 1][i] == returned[..i + 1][i];
    forall p | 0 <= p < i ensures Text.Find(segs[p], phs[j]) < 0 {
      assert Free(returned, phs, p, j);
      assert segs[p] == segs[..i + 1][p] == returned[..i + 1][p];
    }
    SubstitutedPrefix(segs, phs[j], returned[j], i);
    assert segs[..i] == segs[..i + 1][..i] == returned[..i + 1][..i] == returned[..i];
    Lands(f, returned[j]);
    assert SubstitutedIn(segs[i..], phs[j], returned[j])[0] == FAILED + returned[j];
  }

  lemma {:induction false} WalkOn(segs: seq<string>, returned: seq<string>, phs: seq<string>, i: nat, j: nat, t: nat)
      returns (last: seq<string>)
    requires FirstClash(returned, phs, i, j) && t <= j && Walked(segs, returned, phs, i, t)
    ensures Walked(last, returned, phs, i, j)
    ensures SegmentsAfter(segs, phs[t..], returned[t..]) == SegmentsAfter(last, phs[j..], returned[j..])
    decreases j - t
  {
    last := segs;
    if t < j {
      WalkStep(segs, returned, phs, i, j, t);
      SegmentsUnfold(segs, phs, returned, t);
      last := WalkOn(SubstitutedIn(segs, phs[t], returned[t]), returned, phs, i, j, t + 1);
    }
  }

  lemma FreeUnlessCollides(files: seq<FileRef>, downloads: seq<Download>, p: nat, t: nat)
    requires |files| == |downloads| && CleanPaths(downloads) && p < t < |files|
    requires !Collides(files, downloads, p, t)
    ensures Free(AllReturned(files, downloads), Placeholders(files), p, t)
  {
    ReturnedContains(files[p], downloads[p], files[t]);
    Text.FindContains(AllReturned(files, downloads)[p], Placeholders(files)[t]);
  }

  lemma CollisionClashes(files: seq<FileRef>, downloads: seq<Download>, i: nat, j: nat)
    requires |files| == |downloads| && CleanPaths(downloads) && FirstCollision(files, downloads, i, j)
    ensures FirstClash(AllReturned(files, downloads), Placeholders(files), i, j)
  {
    var returned, phs := AllReturned(files, downloads), Placeholders(files);
    forall p, t | 0 <= p < i && p < t < |phs| ensures Free(returned, phs, p, t) {
      assert !Collides(files, downloads, p, t);
      FreeUnlessCollides(files, downloads, p, t);
    }
    forall t | i < t < j ensures Free(returned, phs, i, t) {
      assert !Collides(files, downloads, i, t);
      FreeUnlessCollides(files, downloads, i, t);
    }
  }

  lemma LandingSpoils(f: FileRef, d: Download)
    requires d.Saved? ==> !Text.Contains(d.path, "[image]") && !Text.Contains(d.path, "[file]")
    ensures Spoiled(FAILED + Returned(f, d), PathOf(d))
  {
    if d.Failed? {
      var s := FAILED + Returned(f, d);
      assert s[..|FAILED|] == FAILED;
      assert s[|FAILED|] == Returned(f, d)[0] == FAILED[0];
    }
  }

  lemma FreeAfterClash(returned: seq<string>, phs: seq<string>, i: nat, j: nat)
    requires FirstClash(returned, phs, i, j)
    ensures AllFree(returned, phs[j + 1..], i)
  {
    FreeFrom(returned, phs, i, j + 1);
  }

  /** From file `j` on: it lands in segment `i`, and no later file mends that. */
  lemma ClashToTheEnd(segs: seq<string>, phs: seq<string>, returned: seq<string>, i: nat, j: nat, f: FileRef,
      path: string)
    requires FirstClash(returned, phs, i, j) && Walked(segs, returned, phs, i, j) && AllPlaceholders(phs)
    requires returned[i] == FAILED + Placeholder(f) && phs[j] == Placeholder(f) && Spoiled(FAILED + returned[j], path)
    ensures SpoiledAt(SegmentsAfter(segs, phs[j..], returned[j..]), returned, i, path)
  {
    var next := SubstitutedIn(segs, phs[j], returned[j]);
    ClashSpoils(segs, returned, phs, i, j, f, path);
    SegmentsUnfold(segs, phs, returned, j);
    FreeAfterClash(returned, phs, i, j);
    SpoiledToTheEnd(next, phs[j + 1..], returned[j + 1..], returned, i, path);
  }

  lemma ClashSpoilsAll(phs: seq<string>, returned: seq<string>, i: nat, j: nat, f: FileRef, path: string)
    requires FirstClash(returned, phs, i, j) && AllPlaceholders(phs)
    requires returned[i] == FAILED + Placeholder(f) && phs[j] == Placeholder(f) && Spoiled(FAILED + returned[j], path)
    ensures SpoiledAt(SegmentsAfter(phs, phs, returned), returned, i, path)
  {
    assert phs[0..] == phs && returned[0..] == returned && Midway(returned, phs, 0) == phs;
    var last := WalkOn(phs, returned, phs, i, j, 0);
    ClashToTheEnd(last, phs, returned, i, j, f, path);
  }

  /** A collision spoils the segment of the failed file for good. */
  lemma CollisionSpoils(files: seq<FileRef>, downloads: seq<Download>, i: nat, j: nat)
    requires |files| == |downloads| && CleanPaths(downloads) && FirstCollision(files, downloads, i, j)
    ensures var returned := AllReturned(files, downloads);
            SpoiledAt(SegmentsAfter(Placeholders(files), Placeholders(files), returned), returned, i,
                PathOf(downloads[j]))
  {
    CollisionClashes(files, downloads, i, j);
    LandingSpoils(files[j], downloads[j]);
    ClashSpoilsAll(Placeholders(files), AllReturned(files, downloads), i, j, files[j], PathOf(downloads[j]));
  }

  /**
    When a batch comes out as its returned texts in file order, failed downloads included:
    exactly when no failed file is followed by another file of its kind.
   */
  lemma SubstitutionIsExactIff(b: Batch, arrived: seq<Arrival>, downloads: seq<Download>)
    requires BuiltFrom(b, arrived) && |downloads| == |b.inbound.files| && CleanPaths(downloads)
    requires forall i :: 0 <= i < |b.members| ==> SingleFile(arrived[b.members[i]].msg)
    ensures Substituted(b.inbound.text, b.inbound.files, AllReturned(b.inbound.files, downloads))
              == Text.Join(SEP, AllReturned(b.inbound.files, downloads))
            <==> !Colliding(b.inbound.files, downloads)
  {
    var files := b.inbound.files;
    var returned := AllReturned(files, downloads);
    if Colliding(files, downloads) {
      var i, j :| Collides(files, downloads, i, j);
      var p, q := LeastCollision(files, downloads, i, j);
      BatchText(b, arrived);
      SubstitutedOnSegments(Placeholders(files), files, returned);
      CollisionSpoils(files, downloads, p, q);
      SpoiledJoinDiffers(SegmentsAfter(Placeholders(files), Placeholders(files), returned), returned, p,
                         PathOf(downloads[q]), files[p]);
    } else {
      NoCollisionUndisturbed(files, downloads);
      BatchBecomesPaths(b, arrived, returned);
    }
  }
}
