/**
  Turning streamed message events into displayable text
  (backend/app/channels/manager.py): `_merge_stream_text` and `_accumulate_stream_text`.
 */
module StreamText {
  import opened Options

  predicate StartsWith(s: string, prefix: string) {
    prefix <= s
  }

  predicate EndsWith(s: string, suffix: string) {
    |suffix| <= |s| && s[|s| - |suffix|..] == suffix
  }

  /** `_merge_stream_text`: a chunk is either a delta or the whole text so far. */
  function Merge(existing: string, chunk: string): (text: string)
    ensures existing <= text && |text| <= |existing| + |chunk|
  {
    if chunk == "" then existing
    else if existing == "" || chunk == existing then chunk
    else if StartsWith(chunk, existing) then chunk
    else if EndsWith(existing, chunk) then existing
    else existing + chunk
  }

  function MergeAll(chunks: seq<string>): string {
    if chunks == [] then "" else Merge(MergeAll(chunks[..|chunks| - 1]), chunks[|chunks| - 1])
  }

  function Concat(chunks: seq<string>): string {
    if chunks == [] then "" else Concat(chunks[..|chunks| - 1]) + chunks[|chunks| - 1]
  }

  /** The snapshots only ever grow at the end, and never beyond what was received. */
  lemma {:induction false} SnapshotsGrow(chunks: seq<string>, n: nat)
    requires n <= |chunks|
    ensures MergeAll(chunks[..n]) <= MergeAll(chunks)
    ensures |MergeAll(chunks)| <= |Concat(chunks)|
    decreases |chunks|
  {
    if chunks == [] {
      assert chunks[..n] == chunks;
    } else {
      var front := chunks[..|chunks| - 1];
      if n == |chunks| {
        assert chunks[..n] == chunks;
        SnapshotsGrow(front, 0);
      } else {
        SnapshotsGrow(front, n);
        assert front[..n] == chunks[..n];
      }
    }
  }

  /** Each chunk repeats or extends the one before. */
  ghost predicate Cumulative(chunks: seq<string>) {
    forall i :: 0 <= i && i + 1 < |chunks| ==> chunks[i] <= chunks[i + 1]
  }

  /** A stream of cumulative snapshots, repeats included, shows its last snapshot. */
  lemma {:induction false} CumulativeShowsLast(chunks: seq<string>)
    requires Cumulative(chunks) && chunks != []
    ensures MergeAll(chunks) == chunks[|chunks| - 1]
    decreases |chunks|
  {
    var front := chunks[..|chunks| - 1];
    if front == [] {
      assert MergeAll(front) == "";
    } else {
      CumulativeShowsLast(front);
      assert chunks[|chunks| - 2] <= chunks[|chunks| - 1];
    }
  }

  /** A chunk that `Merge` appends: it neither restarts nor repeats the end of a non-empty text. */
  ghost predicate Appends(existing: string, chunk: string) {
    chunk == "" || existing == ""
    || ((forall rest :: chunk != existing + rest) && (forall front :: existing != front + chunk))
  }

  lemma StartsOrEnds(existing: string, chunk: string)
    ensures StartsWith(chunk, existing) <==> exists rest :: chunk == existing + rest
    ensures EndsWith(existing, chunk) <==> exists front :: existing == front + chunk
  {
    if StartsWith(chunk, existing) { assert chunk == existing + chunk[|existing|..]; }
    if EndsWith(existing, chunk) { assert existing == existing[..|existing| - |chunk|] + chunk; }
    if front :| existing == front + chunk { assert existing[|existing| - |chunk|..] == chunk; }
  }

  lemma MergeAppendsIff(existing: string, chunk: string)
    ensures Merge(existing, chunk) == existing + chunk <==> Appends(existing, chunk)
    ensures !Appends(existing, chunk) ==> |Merge(existing, chunk)| < |existing| + |chunk|
  {
    StartsOrEnds(existing, chunk);
    if chunk == "" { assert existing + chunk == existing; }
    if existing == "" { assert existing + chunk == chunk; }
  }

  ghost predicate AppendsAt(chunks: seq<string>, i: nat) {
    i < |chunks| && Appends(MergeAll(chunks[..i]), chunks[i])
  }

  /** No delta is a suffix of, or starts with, the non-empty text shown before it. */
  ghost predicate CleanDeltas(chunks: seq<string>) {
    forall i: nat :: i < |chunks| ==> AppendsAt(chunks, i)
  }

  lemma CleanDeltasSplit(chunks: seq<string>)
    requires chunks != []
    ensures var front := chunks[..|chunks| - 1];
            CleanDeltas(chunks) <==> CleanDeltas(front) && Appends(MergeAll(front), chunks[|chunks| - 1])
  {
    var front := chunks[..|chunks| - 1];
    forall i: nat | i < |front| ensures AppendsAt(chunks, i) <==> AppendsAt(front, i) {
      assert front[..i] == chunks[..i];
    }
    assert AppendsAt(chunks, |front|) <==> Appends(MergeAll(front), chunks[|chunks| - 1]);
    assert CleanDeltas(chunks) ==> AppendsAt(chunks, |front|) && forall i: nat :: i < |front| ==> AppendsAt(chunks, i);
  }

  /** A delta stream is shown as its concatenation exactly when all its deltas are clean. */
  lemma {:induction false} DeltasConcatenateIff(chunks: seq<string>)
    ensures MergeAll(chunks) == Concat(chunks) <==> CleanDeltas(chunks)
    decreases |chunks|
  {
    if chunks != [] {
      var front, last := chunks[..|chunks| - 1], chunks[|chunks| - 1];
      DeltasConcatenateIff(front);
      SnapshotsGrow(front, 0);
      MergeAppendsIff(MergeAll(front), last);
      CleanDeltasSplit(chunks);
      if MergeAll(chunks) == Concat(chunks) {
        assert |MergeAll(front)| == |Concat(front)|;
        ShorterOrEqual(front);
      }
    }
  }

  /** Text is lost as soon as it is shorter: full length means nothing was dropped. */
  lemma {:induction false} ShorterOrEqual(chunks: seq<string>)
    requires |MergeAll(chunks)| == |Concat(chunks)|
    ensures MergeAll(chunks) == Concat(chunks)
    decreases |chunks|
  {
    if chunks != [] {
      var front, last := chunks[..|chunks| - 1], chunks[|chunks| - 1];
      SnapshotsGrow(front, 0);
      MergeAppendsIff(MergeAll(front), last);
      ShorterOrEqual(front);
    }
  }

  // ---------------------------------------------------------------------------
  // Buffers per message
  // ---------------------------------------------------------------------------

  /** A message event after extraction of its text and identifier. */
  datatype Payload =
    | Plain(text: string)                                              // a bare string
    | Mapped(isTool: bool, content: string, id: Option<string>)        // a message mapping
    | Opaque                                                           // anything else

  const DEFAULT_ID := "__default__"

  type Buffers = map<string, string>

  function OrDefault(id: Option<string>): string {
    if id.Some? then id.value else DEFAULT_ID
  }

  /** The buffer an event writes to and the text it brings, if any. */
  function Target(current: Option<string>, p: Payload): Option<(string, string)> {
    match p
    case Plain(text) => Some((OrDefault(current), text))
    case Mapped(isTool, content, id) =>
      if isTool || content == "" then None
      else Some((OrDefault(if id.Some? then id else current), content))
    case Opaque => None
  }

  function BufferOf(buffers: Buffers, id: string): string {
    if id in buffers then buffers[id] else ""
  }

  datatype Accumulated = Accumulated(buffers: Buffers, current: Option<string>, text: Option<string>)

  /** What one message event does to the buffers, the current id, and the text to display. */
  function Accumulate(buffers: Buffers, current: Option<string>, p: Payload): Accumulated {
    var target := Target(current, p);
    if target.None? then Accumulated(buffers, current, None)
    else
      var (id, text) := target.value;
      var merged := Merge(BufferOf(buffers, id), text);
      Accumulated(buffers[id := merged], Some(id), Some(merged))
  }

  /** The `buffers` dict that `_accumulate_stream_text` updates in place. */
  class StreamBuffers {
    var buffers: Buffers

    constructor ()
      ensures buffers == map[]
    {
      buffers := map[];
    }

    /** `_accumulate_stream_text`. */
    method AccumulateText(current: Option<string>, p: Payload) returns (text: Option<string>, next: Option<string>)
      modifies this
      ensures Accumulated(buffers, next, text) == Accumulate(old(buffers), current, p)
    {
      match p {
        case Plain(chunk) =>
          var id := OrDefault(current);
          buffers := buffers[id := Merge(BufferOf(buffers, id), chunk)];
          return Some(buffers[id]), Some(id);
        case Opaque =>
          return None, current;
        case Mapped(isTool, content, explicitId) =>
          if isTool {
            return None, current;
          }
          if content == "" {
            return None, current;
          }
          var id := if explicitId.Some? then explicitId.value else OrDefault(current);
          buffers := buffers[id := Merge(BufferOf(buffers, id), content)];
          return Some(buffers[id]), Some(id);
      }
    }
  }

  /** Buffers and current id after a run of message events. */
  function AccumulateAll(ps: seq<Payload>): Accumulated {
    if ps == [] then Accumulated(map[], None, None)
    else
      var before := AccumulateAll(ps[..|ps| - 1]);
      Accumulate(before.buffers, before.current, ps[|ps| - 1])
  }

  /** The event brings text: a bare string, or a message that is not a tool's and has content. */
  predicate Carries(p: Payload) {
    p.Plain? || (p.Mapped? && !p.isTool && p.content != "")
  }

  /** The message an event belongs to: the one it names, or the one that spoke last. */
  function Addressee(speaker: string, p: Payload): string {
    if p.Mapped? && p.id.Some? then p.id.value else speaker
  }

  /** The message that spoke last. */
  function Speaker(ps: seq<Payload>): string {
    if ps == [] then "__default__"
    else
      var front, p := ps[..|ps| - 1], ps[|ps| - 1];
      if Carries(p) then Addressee(Speaker(front), p) else Speaker(front)
  }

  /** The texts that belong to one message, in order. */
  function TextsFor(ps: seq<Payload>, id: string): seq<string> {
    if ps == [] then []
    else
      var front, p := ps[..|ps| - 1], ps[|ps| - 1];
      TextsFor(front, id)
      + (if Carries(p) && Addressee(Speaker(front), p) == id then [if p.Plain? then p.text else p.content] else [])
  }

  lemma {:induction false} CurrentIsSpeaker(ps: seq<Payload>)
    ensures OrDefault(AccumulateAll(ps).current) == Speaker(ps)
    decreases |ps|
  {
    if ps != [] {
      CurrentIsSpeaker(ps[..|ps| - 1]);
    }
  }

  /** Every buffer is the merge of its own texts; nothing sent to another id shows in it. */
  lemma {:induction false} BufferIsOwnTexts(ps: seq<Payload>, id: string)
    ensures BufferOf(AccumulateAll(ps).buffers, id) == MergeAll(TextsFor(ps, id))
    decreases |ps|
  {
    if ps != [] {
      var front := ps[..|ps| - 1];
      BufferIsOwnTexts(front, id);
      CurrentIsSpeaker(front);
      var p := ps[|ps| - 1];
      if Carries(p) && Addressee(Speaker(front), p) == id {
        assert TextsFor(ps, id)[..|TextsFor(ps, id)| - 1] == TextsFor(front, id);
      } else {
        assert TextsFor(ps, id) == TextsFor(front, id);
      }
    }
  }

  /** After an event with text, the text to display is the merge of all texts of its message; after any
      other event there is none. */
  lemma ShownIsOwnTexts(ps: seq<Payload>)
    requires ps != []
    ensures AccumulateAll(ps).text ==
            if Carries(ps[|ps| - 1]) then Some(MergeAll(TextsFor(ps, Speaker(ps)))) else None
  {
    BufferIsOwnTexts(ps, Speaker(ps));
    CurrentIsSpeaker(ps[..|ps| - 1]);
    CurrentIsSpeaker(ps);
  }

  /** Every text-bearing event names its message; tool events and events without text need not. */
  predicate Explicit(ps: seq<Payload>) {
    forall i :: 0 <= i < |ps| ==>
      !ps[i].Plain? && (ps[i].Mapped? && !ps[i].isTool && ps[i].content != "" ==> ps[i].id.Some?)
  }

  /** The events of one message. */
  function EventsOf(ps: seq<Payload>, id: string): seq<Payload> {
    if ps == [] then []
    else
      EventsOf(ps[..|ps| - 1], id)
      + (var p := ps[|ps| - 1]; if p.Mapped? && p.id == Some(id) && !p.isTool && p.content != "" then [p] else [])
  }

  function ContentsOf(ps: seq<Payload>): seq<string>
    requires forall i :: 0 <= i < |ps| ==> ps[i].Mapped?
  {
    if ps == [] then [] else ContentsOf(ps[..|ps| - 1]) + [ps[|ps| - 1].content]
  }

  lemma {:induction false} ExplicitTexts(ps: seq<Payload>, id: string)
    requires Explicit(ps)
    ensures forall i :: 0 <= i < |EventsOf(ps, id)| ==> EventsOf(ps, id)[i].Mapped?
    ensures TextsFor(ps, id) == ContentsOf(EventsOf(ps, id))
    decreases |ps|
  {
    if ps != [] {
      var front, p := ps[..|ps| - 1], ps[|ps| - 1];
      ExplicitTexts(front, id);
      if p.Mapped? && p.id == Some(id) && !p.isTool && p.content != "" {
        assert EventsOf(ps, id)[..|EventsOf(ps, id)| - 1] == EventsOf(front, id);
      } else {
        assert EventsOf(ps, id) == EventsOf(front, id);
      }
    }
  }

  /** With explicit ids a buffer depends only on that id's events, however other messages interleave. */
  lemma InterleavingIrrelevant(ps: seq<Payload>, qs: seq<Payload>, id: string)
    requires Explicit(ps) && Explicit(qs) && EventsOf(ps, id) == EventsOf(qs, id)
    ensures BufferOf(AccumulateAll(ps).buffers, id) == BufferOf(AccumulateAll(qs).buffers, id)
  {
    BufferIsOwnTexts(ps, id);
    BufferIsOwnTexts(qs, id);
    ExplicitTexts(ps, id);
    ExplicitTexts(qs, id);
  }
}
