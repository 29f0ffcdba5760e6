/**
  `ChannelManager._handle_streaming_chat` (backend/app/channels/manager.py): the loop
  that turns a run's event stream into throttled updates and one final message.

  Times are readings of a monotonic clock in milliseconds.
 */
module StreamingChat {
  import opened Options
  import opened StreamText

  const MIN_INTERVAL := 1000
  const MIN_CHARS := 60
  const CURSOR := " ▉"

  const BUSY := "This conversation is already processing another request. Please wait for it to finish and try again."
  const FAILED := "An error occurred while processing your request. Please try again."
  const NO_RESPONSE := "(No response from agent)"

  /** What the handler reads from a values snapshot: whether its turn ends in a clarification, its
      response text, and that text and the attachments after artifact delivery. */
  datatype Snapshot = Snapshot(clarification: bool, text: string, delivered: string, attachments: seq<string>,
      listed: string)

  datatype Body =
    | Message(payload: Payload)
    | Values(snapshot: Snapshot)
    | Other

  /** A stream event, with the clock when it is processed. */
  datatype Event = Event(body: Body, now: int)

  /** How the stream ends; a cancellation is not an `Exception`. */
  datatype Ending = Exhausted | Raised(busy: bool) | Cancelled

  datatype Outbound =
    | Update(text: string, at: int)
    | Final(text: string, pending: bool, attachments: seq<string>)

  /** The handler's locals. */
  datatype Locals = Locals(
    buffers: Buffers, current: Option<string>, latest: string, last: Option<Snapshot>,
    published: string, publishedLen: nat, publishedAt: int, out: seq<Outbound>)

  const BEGIN := Locals(map[], None, "", None, "", 0, 0, [])

  /** The text to display after an event. */
  function Seen(st: Locals, body: Body): Locals {
    match body
    case Message(p) =>
      var a := Accumulate(st.buffers, st.current, p);
      st.(buffers := a.buffers, current := a.current,
          latest := if a.text.Some? && a.text.value != "" then a.text.value else st.latest)
    case Values(v) =>
      st.(last := Some(v), latest := if v.clarification && v.text != "" then v.text else st.latest)
    case Other => st
  }

  /** New text is shown at once the first time, then after a second or 60 more characters. */
  predicate Shows(st: Locals, now: int) {
    && st.latest != "" && st.latest != st.published
    && (st.published == "" || now - st.publishedAt >= MIN_INTERVAL || |st.latest| - st.publishedLen >= MIN_CHARS)
  }

  function Advance(st: Locals, e: Event): Locals {
    var seen := Seen(st, e.body);
    if Shows(seen, e.now) then
      seen.(published := seen.latest, publishedLen := |seen.latest|, publishedAt := e.now,
            out := seen.out + [Update(seen.latest + CURSOR, e.now)])
    else seen
  }

  function After(events: seq<Event>): Locals {
    if events == [] then BEGIN else Advance(After(events[..|events| - 1]), events[|events| - 1])
  }

  /** The text of the final message. */
  function FinalText(st: Locals, ending: Ending): string {
    var delivered := if st.last.Some? then st.last.value.delivered else st.latest;
    if delivered != "" then delivered
    else if st.last.Some? && st.last.value.attachments != [] then st.last.value.listed
    else if ending.Raised? then (if ending.busy then BUSY else FAILED)
    else if st.latest != "" then st.latest
    else NO_RESPONSE
  }

  /** The text on display after the events so far. */
  function Display(events: seq<Event>): string {
    After(events).latest
  }

  /** Event `i` is the last values snapshot of the stream. */
  ghost predicate LastValues(events: seq<Event>, i: int) {
    && 0 <= i < |events| && events[i].body.Values?
    && forall j :: i < j < |events| ==> !events[j].body.Values?
  }

  ghost predicate NoValues(events: seq<Event>) {
    forall i :: 0 <= i < |events| ==> !events[i].body.Values?
  }

  /** What to say when there is no text to deliver. */
  function Notice(ending: Ending, display: string): string {
    match ending
    case Raised(true) =>
      "This conversation is already processing another request. Please wait for it to finish and try again."
    case Raised(false) => "An error occurred while processing your request. Please try again."
    case _ => if display != "" then display else "(No response from agent)"
  }

  /** The final message of a stream whose last values snapshot is `v`. */
  ghost predicate Delivers(m: Outbound, v: Snapshot, ending: Ending, display: string) {
    && m.Final? && m.pending == v.clarification && m.attachments == v.attachments
    && (v.delivered != "" ==> m.text == v.delivered)
    && (v.delivered == "" && v.attachments != [] ==> m.text == v.listed)
    && (v.delivered == "" && v.attachments == [] ==> m.text == Notice(ending, display))
  }

  /** The final message of a stream without values snapshots. */
  ghost predicate Streamed(m: Outbound, ending: Ending, display: string) {
    m == Final(if display != "" then display else Notice(ending, display), false, [])
  }

  lemma {:induction false} LastIsLastValues(events: seq<Event>)
    ensures NoValues(events) ==> After(events).last == None
    ensures forall i :: LastValues(events, i) ==> After(events).last == Some(events[i].body.snapshot)
    decreases |events|
  {
    if events != [] {
      var n := |events| - 1;
      var front := events[..n];
      LastIsLastValues(front);
      forall i | LastValues(events, i) ensures After(events).last == Some(events[i].body.snapshot) {
        if i < n { assert LastValues(front, i); }
      }
    }
  }

  /** What the final text is, by the last values snapshot. */
  lemma FinalMessageSays(events: seq<Event>, ending: Ending, m: Outbound)
    requires var st := After(events);
             m == Final(FinalText(st, ending), st.last.Some? && st.last.value.clarification,
                        if st.last.Some? then st.last.value.attachments else [])
    ensures forall i :: LastValues(events, i) ==> Delivers(m, events[i].body.snapshot, ending, Display(events))
    ensures NoValues(events) ==> Streamed(m, ending, Display(events))
  {
    LastIsLastValues(events);
  }

  predicate OnlyUpdates(out: seq<Outbound>) {
    forall i :: 0 <= i < |out| ==> out[i].Update?
  }

  /** `_handle_streaming_chat`: whatever the events and however the stream ends, the updates are
      followed by exactly one final message, which says what the last values snapshot delivers, or
      without one what is on display, or else a notice. */
  method HandleStream(events: seq<Event>, ending: Ending) returns (out: seq<Outbound>)
    ensures |out| >= 1 && OnlyUpdates(out[..|out| - 1])
    ensures out[..|out| - 1] == After(events).out
    ensures forall i :: LastValues(events, i) ==>
              Delivers(out[|out| - 1], events[i].body.snapshot, ending, Display(events))
    ensures NoValues(events) ==> Streamed(out[|out| - 1], ending, Display(events))
  {
    var streamed := new StreamBuffers();
    var current: Option<string> := None;
    var latest := "";
    var lastValues: Option<Snapshot> := None;
    var lastPublishedText := "";
    var lastPublishedLen: nat := 0;
    var lastPublishAt := 0;
    out := [];
    var i := 0;
    while i < |events|
      invariant 0 <= i <= |events|
      invariant OnlyUpdates(out)
      invariant After(events[..i]) ==
        Locals(streamed.buffers, current, latest, lastValues, lastPublishedText, lastPublishedLen, lastPublishAt, out)
    {
      assert events[..i + 1][..i] == events[..i];
      var e := events[i];
      i := i + 1;
      match e.body {
        case Message(payload) =>
          var text, next := streamed.AccumulateText(current, payload);
          current := next;
          if text.Some? && text.value != "" {
            latest := text.value;
          }
        case Values(snapshot) =>
          lastValues := Some(snapshot);
          if snapshot.clarification {
            if snapshot.text != "" && snapshot.text != latest {
              latest := snapshot.text;
            }
          }
        case Other =>
      }
      if latest == "" || latest == lastPublishedText {
        continue;
      }
      var newChars := |latest| - lastPublishedLen;
      if lastPublishedText != "" {
        if e.now - lastPublishAt < MIN_INTERVAL && newChars < MIN_CHARS {
          continue;
        }
      }
      out := out + [Update(latest + CURSOR, e.now)];
      lastPublishedText := latest;
      lastPublishedLen := |latest|;
      lastPublishAt := e.now;
    }
    assert events[..i] == events;
    var response := if lastValues.Some? then lastValues.value.delivered else latest;
    var pending := lastValues.Some? && lastValues.value.clarification;
    var attachments := if lastValues.Some? then lastValues.value.attachments else [];
    if response == "" {
      if attachments != [] {
        response := lastValues.value.listed;
      } else if ending.Raised? {
        response := if ending.busy then BUSY else FAILED;
      } else {
        response := if latest != "" then latest else NO_RESPONSE;
      }
    }
    FinalMessageSays(events, ending, Final(response, pending, attachments));
    out := out + [Final(response, pending, attachments)];
  }

  // ---------------------------------------------------------------------------
  // What is on display
  // ---------------------------------------------------------------------------

  /** The message events of a stream. */
  function Payloads(events: seq<Event>): seq<Payload> {
    if events == [] then []
    else
      var front, e := events[..|events| - 1], events[|events| - 1];
      Payloads(front) + (if e.body.Message? then [e.body.payload] else [])
  }

  lemma {:induction false} BuffersFollow(events: seq<Event>)
    ensures After(events).buffers == AccumulateAll(Payloads(events)).buffers
    ensures After(events).current == AccumulateAll(Payloads(events)).current
    decreases |events|
  {
    if events != [] {
      var front, e := events[..|events| - 1], events[|events| - 1];
      BuffersFollow(front);
      if e.body.Message? {
        assert Payloads(events)[..|Payloads(events)| - 1] == Payloads(front);
      } else {
        assert Payloads(events) == Payloads(front);
      }
    }
  }

  /** The text an event brings on display: all texts of its message, merged, or the question of a
      clarification. */
  function Brings(events: seq<Event>): string
    requires events != []
  {
    match events[|events| - 1].body
    case Message(p) =>
      var ps := Payloads(events);
      if Carries(p) then MergeAll(TextsFor(ps, Speaker(ps))) else ""
    case Values(v) => if v.clarification then v.text else ""
    case Other => ""
  }

  /** On display is the last text that an event brought, and nothing before the first. */
  lemma DisplayIsLastBrought(events: seq<Event>)
    requires events != []
    ensures Display([]) == ""
    ensures Display(events) == if Brings(events) != "" then Brings(events) else Display(events[..|events| - 1])
  {
    var front, e := events[..|events| - 1], events[|events| - 1];
    if e.body.Message? {
      BuffersFollow(front);
      var ps := Payloads(events);
      assert ps[..|ps| - 1] == Payloads(front) && ps[|ps| - 1] == e.body.payload;
      ShownIsOwnTexts(ps);
    }
  }

  /** Every update shows the text on display after some event, with a cursor, at the time of that event;
      later updates belong to later events. */
  lemma {:induction false} UpdatesAreDisplays(events: seq<Event>, k: nat) returns (i: nat)
    requires k < |After(events).out|
    ensures i < |events| && |After(events[..i]).out| == k
    ensures After(events).out[k] == Update(Display(events[..i + 1]) + " ▉", events[i].now)
    decreases |events|
  {
    var n := |events| - 1;
    var front := events[..n];
    if k < |After(front).out| {
      i := UpdatesAreDisplays(front, k);
      assert front[..i] == events[..i] && front[..i + 1] == events[..i + 1];
    } else {
      i := n;
      assert events[..n + 1] == events;
    }
  }

  // ---------------------------------------------------------------------------
  // Throttling
  // ---------------------------------------------------------------------------

  ghost predicate Ordered(events: seq<Event>) {
    forall i, j :: 0 <= i <= j < |events| ==> events[i].now <= events[j].now
  }

  /** Two consecutive updates differ, and the second is a second later or 60 characters longer. */
  predicate Spaced(u: Outbound, v: Outbound) {
    && u.Update? && v.Update? && u.text != v.text
    && (v.at - u.at >= 1000 || |v.text| - |u.text| >= 60)
  }

  ghost predicate AllSpaced(out: seq<Outbound>) {
    forall i :: 0 <= i && i + 1 < |out| ==> Spaced(out[i], out[i + 1])
  }

  /** The published locals describe the last update. */
  ghost predicate Consistent(st: Locals) {
    && OnlyUpdates(st.out) && AllSpaced(st.out)
    && (st.out == [] <==> st.published == "")
    && (st.out != [] ==>
          && st.publishedLen == |st.published|
          && st.out[|st.out| - 1] == Update(st.published + CURSOR, st.publishedAt))
  }

  lemma AdvanceConsistent(st: Locals, e: Event)
    requires Consistent(st)
    ensures Consistent(Advance(st, e))
  {
    var seen := Seen(st, e.body);
    if Shows(seen, e.now) && st.out != [] {
      var u, v := Update(st.published + CURSOR, st.publishedAt), Update(seen.latest + CURSOR, e.now);
      assert u.text[..|st.published|] == st.published && v.text[..|seen.latest|] == seen.latest;
      assert Spaced(u, v);
    }
  }

  /** Consecutive updates of every stream differ and are a second apart or 60 characters longer. */
  lemma {:induction false} UpdatesAreSpaced(events: seq<Event>)
    ensures Consistent(After(events))
    decreases |events|
  {
    if events != [] {
      UpdatesAreSpaced(events[..|events| - 1]);
      AdvanceConsistent(After(events[..|events| - 1]), events[|events| - 1]);
    }
  }

  /** The throttle withholds nothing else: when an event has been handled, either the newest text
      is the one shown, or less than a second has passed and fewer than 60 characters are new. */
  lemma NothingElseWithheld(events: seq<Event>)
    requires events != []
    ensures var st := After(events);
            st.latest == "" || st.latest == st.published ||
            (st.published != "" && events[|events| - 1].now - st.publishedAt < 1000
             && |st.latest| - |st.published| < 60)
  {
    UpdatesAreSpaced(events);
  }

  ghost predicate Timely(events: seq<Event>, start: int, end: int) {
    Ordered(events) && forall i :: 0 <= i < |events| ==> start <= events[i].now <= end
  }

  function Growth(was: string, text: string): nat {
    if |was| < |text| then |text| - |was| else 0
  }

  /** By how many characters the display text has grown in all; where it shrinks does not count. */
  function Rise(events: seq<Event>): nat {
    if events == [] then 0
    else
      var front := events[..|events| - 1];
      Rise(front) + Growth(After(front).latest, After(events).latest)
  }

  /** Updates so far are paid for by whole seconds elapsed since `start` and whole bursts of characters. */
  ghost predicate Paid(st: Locals, start: int, end: int, rise: nat, ticks: nat, bursts: nat) {
    && |st.out| <= 1 + ticks + bursts
    && (st.out == [] ==> ticks == bursts == 0)
    && (st.out != [] ==> start + MIN_INTERVAL * ticks <= st.publishedAt <= end)
    && MIN_CHARS * bursts <= rise
    && MIN_CHARS * bursts + |st.latest| - |st.published| <= rise
  }

  lemma PaidStep(st: Locals, e: Event, start: int, rise: nat, ticks: nat, bursts: nat)
      returns (ticks': nat, bursts': nat)
    requires Consistent(st) && start <= e.now && Paid(st, start, e.now, rise, ticks, bursts)
    ensures Paid(Advance(st, e), start, e.now, rise + Growth(st.latest, Advance(st, e).latest), ticks', bursts')
  {
    var seen := Seen(st, e.body);
    ticks', bursts' := ticks, bursts;
    assert seen.out == st.out && seen.published == st.published && seen.publishedAt == st.publishedAt;
    if Shows(seen, e.now) {
      if st.out != [] {
        if e.now - st.publishedAt >= MIN_INTERVAL {
          ticks' := ticks + 1;
          assert MIN_INTERVAL * ticks' == MIN_INTERVAL * ticks + MIN_INTERVAL;
        } else {
          bursts' := bursts + 1;
          assert MIN_CHARS * bursts' == MIN_CHARS * bursts + MIN_CHARS;
        }
      }
    }
  }

  lemma {:induction false} UpdatesArePaid(events: seq<Event>, start: int, end: int) returns (ticks: nat, bursts: nat)
    requires Timely(events, start, end)
    ensures Paid(After(events), start, end, Rise(events), ticks, bursts)
    decreases |events|
  {
    if events == [] {
      ticks, bursts := 0, 0;
    } else {
      var n := |events| - 1;
      var front, e := events[..n], events[n];
      ticks, bursts := UpdatesArePaid(front, start, e.now);
      UpdatesAreSpaced(front);
      ticks, bursts := PaidStep(After(front), e, start, Rise(front), ticks, bursts);
    }
  }

  /** Every stream of T milliseconds whose display text grows by R characters in all, however it
      shrinks in between, publishes at most 1 + T/1000 + R/60 updates. */
  lemma UpdatesBoundedByRise(events: seq<Event>, start: int, end: int)
    requires start <= end && Timely(events, start, end)
    ensures |After(events).out| <= 1 + (end - start) / 1000 + Rise(events) / 60
  {
    var ticks, bursts := UpdatesArePaid(events, start, end);
    var st := After(events);
    assert st.out == [] || start + MIN_INTERVAL * ticks <= st.publishedAt <= end;
    if st.out != [] {
      assert MIN_INTERVAL * ticks <= end - start && MIN_CHARS * bursts <= Rise(events);
      assert ticks <= (end - start) / MIN_INTERVAL && bursts <= Rise(events) / MIN_CHARS;
    }
  }

  /** The display text never shrinks from event to event. */
  ghost predicate Steady(events: seq<Event>) {
    forall i :: 0 <= i < |events| ==> |After(events[..i]).latest| <= |After(events[..i + 1]).latest|
  }

  lemma {:induction false} SteadyRise(events: seq<Event>)
    requires Steady(events)
    ensures Rise(events) == |After(events).latest|
    decreases |events|
  {
    if events != [] {
      var n := |events| - 1;
      var front := events[..n];
      assert forall i :: 0 <= i <= n ==> front[..i] == events[..i];
      assert events[..n + 1] == events;
      SteadyRise(front);
    }
  }

  /** So a display text that only grows, to L characters in the end, takes at most 1 + T/1000 + L/60 updates. */
  lemma FewUpdates(events: seq<Event>, start: int, end: int)
    requires start <= end && Steady(events) && Timely(events, start, end)
    ensures |After(events).out| <= 1 + (end - start) / 1000 + |Display(events)| / 60
  {
    UpdatesBoundedByRise(events, start, end);
    SteadyRise(events);
  }

  /** A text of one message, at some time. */
  function Said(id: string, text: string, now: int): Event {
    Event(Message(Mapped(false, text, Some(id))), now)
  }

  lemma AfterOneMore(events: seq<Event>, e: Event)
    ensures After(events + [e]) == Advance(After(events), e)
  {
    assert (events + [e])[..|events|] == events;
  }

  /** New text that is due is shown. */
  lemma SaidShows(st: Locals, id: string, text: string, now: int, merged: string)
    requires text != "" && merged == Merge(BufferOf(st.buffers, id), text) && merged != "" && merged != st.published
    requires st.published == "" || now - st.publishedAt >= MIN_INTERVAL || |merged| - st.publishedLen >= MIN_CHARS
    ensures Advance(st, Said(id, text, now)) ==
            Locals(st.buffers[id := merged], Some(id), merged, st.last, merged, |merged|, now,
                   st.out + [Update(merged + CURSOR, now)])
  {
    assert Target(st.current, Mapped(false, text, Some(id))) == Some((id, text));
  }

  lemma AfterThree(e1: Event, e2: Event, e3: Event)
    ensures After([e1, e2, e3]) == Advance(Advance(Advance(BEGIN, e1), e2), e3)
  {
    AfterOneMore([], e1);
    AfterOneMore([e1], e2);
    AfterOneMore([e1, e2], e3);
    assert [] + [e1] == [e1] && [e1] + [e2] == [e1, e2] && [e1, e2] + [e3] == [e1, e2, e3];
  }

  lemma TwoShown(x: string, y: string, a: string, long: string) returns (st: Locals)
    requires x != y && |a| == 1 && |long| == MIN_CHARS + 1
    ensures st == Advance(Advance(BEGIN, Said(x, a, 0)), Said(y, long, 0))
    ensures st.published == long && st.publishedAt == 0 && |st.out| == 2 && BufferOf(st.buffers, x) == a
  {
    SaidShows(BEGIN, x, a, 0, a);
    st := Advance(BEGIN, Said(x, a, 0));
    SaidShows(st, y, long, 0, long);
    st := Advance(st, Said(y, long, 0));
  }

  lemma LettersMerge(a: string, b: string)
    requires a != b && |a| == |b| == 1
    ensures Merge(a, b) == a + b
  {
  }

  lemma ThirdShown(st: Locals, x: string, a: string, b: string, merged: string)
    requires b != "" && Merge(a, b) == merged && merged != "" && merged != st.published
    requires st.publishedAt == 0 && BufferOf(st.buffers, x) == a
    ensures Advance(st, Said(x, b, 1000)).latest == merged && |Advance(st, Said(x, b, 1000)).out| == |st.out| + 1
  {
    SaidShows(st, x, b, 1000, merged);
  }

  lemma ThreeShown(events: seq<Event>, x: string, y: string, a: string, b: string, long: string)
    requires x != y && a != b && |a| == |b| == 1 && |long| == MIN_CHARS + 1
    requires events == [Said(x, a, 0), Said(y, long, 0), Said(x, b, 1000)]
    ensures |After(events).latest| == 2 && |After(events).out| == 3
  {
    AfterThree(Said(x, a, 0), Said(y, long, 0), Said(x, b, 1000));
    var st := TwoShown(x, y, a, long);
    LettersMerge(a, b);
    ThirdShown(st, x, a, b, a + b);
  }

  /** The final length alone is no measure: when a short text follows a long one, the display shrinks,
      and a stream of one second that ends at two characters publishes three updates instead of two. */
  lemma ShrinkingBreaksBound(events: seq<Event>, x: string, y: string, a: string, b: string, long: string)
    requires x != y && a != b && |a| == |b| == 1 && |long| == MIN_CHARS + 1
    requires events == [Said(x, a, 0), Said(y, long, 0), Said(x, b, 1000)]
    ensures Timely(events, 0, 1000)
    ensures |After(events).out| > 1 + (1000 - 0) / 1000 + |Display(events)| / 60
  {
    ThreeShown(events, x, y, a, b, long);
  }

  /** All text of the stream belongs to one message, and no snapshot asks for clarification. */
  ghost predicate SingleMessage(events: seq<Event>, id: string) {
    forall i :: 0 <= i < |events| ==> Belongs(After(events[..i]), events[i].body, id)
  }

  /** The event belongs to the message, if to any. */
  predicate Belongs(st: Locals, body: Body, id: string) {
    match body
    case Message(p) => Target(st.current, p).Some? ==> Target(st.current, p).value.0 == id
    case Values(v) => !v.clarification || v.text == ""
    case Other => true
  }

  lemma OwnEventShows(st: Locals, e: Event, id: string)
    requires st.latest == BufferOf(st.buffers, id) && Belongs(st, e.body, id)
    ensures var next := Advance(st, e);
            next.latest == BufferOf(next.buffers, id) && st.latest <= next.latest
  {
  }

  lemma {:induction false} SingleMessageShows(events: seq<Event>, id: string)
    requires SingleMessage(events, id)
    ensures After(events).latest == BufferOf(After(events).buffers, id)
    ensures events != [] ==> After(events[..|events| - 1]).latest <= After(events).latest
    decreases |events|
  {
    if events != [] {
      var n := |events| - 1;
      var front := events[..n];
      assert forall i :: 0 <= i < n ==> front[..i] == events[..i];
      SingleMessageShows(front, id);
      OwnEventShows(After(front), events[n], id);
    }
  }

  lemma {:induction false} SingleMessageIsSteady(events: seq<Event>, id: string)
    requires SingleMessage(events, id)
    ensures Steady(events)
  {
    forall i | 0 <= i < |events| ensures |After(events[..i]).latest| <= |After(events[..i + 1]).latest| {
      var front := events[..i + 1];
      assert forall k :: 0 <= k <= i ==> front[..k] == events[..k];
      SingleMessageShows(front, id);
    }
  }

  /** The bound for a single-message stream. */
  lemma SingleMessageFewUpdates(events: seq<Event>, id: string, start: int, end: int)
    requires start <= end && SingleMessage(events, id) && Timely(events, start, end)
    ensures |After(events).out| <= 1 + (end - start) / 1000 + |Display(events)| / 60
  {
    SingleMessageIsSteady(events, id);
    FewUpdates(events, start, end);
  }
}
