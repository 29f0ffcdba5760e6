/**
  Inbound deduplication of `ChannelManager` (backend/app/channels/manager.py):
  an insertion-ordered window of recently accepted message keys, evicted from the
  front by age and by size, with a release when handling fails.

  Times are readings of one monotonic clock, in milliseconds.
 */
module InboundDedupe {
  import opened Options

  /** (channel, workspace, chat, message id). */
  type Key = (string, string, string, string)

  const TTL := 600_000
  const MAX_ENTRIES := 4096

  datatype Entry = Entry(key: Key, at: int)

  predicate Live(e: Entry, now: int) {
    now - e.at <= TTL
  }

  /** What eviction is meant to keep: the live entries ... */
  function LiveEntries(w: seq<Entry>, now: int): seq<Entry> {
    if w == [] then []
    else (if Live(w[0], now) then [w[0]] else []) + LiveEntries(w[1..], now)
  }

  /** ... and of those the newest `MAX_ENTRIES`. */
  function Newest(w: seq<Entry>): seq<Entry> {
    if |w| <= MAX_ENTRIES then w else w[|w| - MAX_ENTRIES..]
  }

  function Evicted(w: seq<Entry>, now: int): seq<Entry> {
    Newest(LiveEntries(w, now))
  }

  predicate Holds(w: seq<Entry>, key: Key) {
    exists i :: 0 <= i < |w| && w[i].key == key
  }

  function Without(w: seq<Entry>, key: Key): seq<Entry> {
    if w == [] then []
    else (if w[0].key == key then [] else [w[0]]) + Without(w[1..], key)
  }

  /** Sorted by accept time, one entry per key, bounded size. */
  ghost predicate WellFormed(w: seq<Entry>) {
    && (forall i, j :: 0 <= i < j < |w| ==> w[i].at <= w[j].at)
    && (forall i, j :: 0 <= i < j < |w| ==> w[i].key != w[j].key)
    && |w| <= 4097
  }

  ghost predicate NoneAfter(w: seq<Entry>, now: int) {
    forall i :: 0 <= i < |w| ==> w[i].at <= now
  }

  /** In a sorted window the expired entries form a prefix. */
  lemma {:induction false} ExpiredPrefix(w: seq<Entry>, now: int, n: nat)
    requires n <= |w|
    requires forall i, j :: 0 <= i < j < |w| ==> w[i].at <= w[j].at
    requires forall i :: 0 <= i < n ==> !Live(w[i], now)
    requires n < |w| ==> Live(w[n], now)
    ensures LiveEntries(w, now) == w[n..]
    decreases |w|
  {
    if w != [] {
      if n > 0 {
        ExpiredPrefix(w[1..], now, n - 1);
        assert w[1..][n - 1..] == w[n..];
      } else {
        if |w| > 1 { assert Live(w[1], now); }
        ExpiredPrefix(w[1..], now, 0);
        assert w == [w[0]] + w[1..];
      }
    }
  }

  /** Every window splits at its first live entry. */
  lemma FirstLive(w: seq<Entry>, now: int) returns (n: nat)
    requires WellFormed(w)
    ensures n <= |w| && LiveEntries(w, now) == w[n..]
    ensures forall i :: 0 <= i < |w| ==> (i < n <==> !Live(w[i], now))
  {
    n := 0;
    while n < |w| && !Live(w[n], now)
      invariant n <= |w| && forall i :: 0 <= i < n ==> !Live(w[i], now)
    {
      n := n + 1;
    }
    ExpiredPrefix(w, now, n);
  }

  lemma SuffixWellFormed(w: seq<Entry>, n: nat)
    requires WellFormed(w) && n <= |w|
    ensures WellFormed(w[n..])
    ensures forall now :: NoneAfter(w, now) ==> NoneAfter(w[n..], now)
  {
  }

  lemma SnocWellFormed(w: seq<Entry>, e: Entry)
    requires WellFormed(w) && |w| <= MAX_ENTRIES && NoneAfter(w, e.at) && !Holds(w, e.key)
    ensures WellFormed(w + [e]) && NoneAfter(w + [e], e.at)
  {
  }

  lemma WithoutMembers(w: seq<Entry>, key: Key)
    ensures forall e :: e in Without(w, key) <==> e in w && e.key != key
    ensures |Without(w, key)| <= |w|
  {
    if w != [] {
      WithoutMembers(w[1..], key);
      assert w == [w[0]] + w[1..];
    }
  }

  lemma ConsWellFormed(e: Entry, w: seq<Entry>)
    requires WellFormed(w) && |w| <= MAX_ENTRIES
    requires forall x :: x in w ==> e.at <= x.at && e.key != x.key
    ensures WellFormed([e] + w)
  {
    var r := [e] + w;
    forall i, j | 0 <= i < j < |r| ensures r[i].at <= r[j].at && r[i].key != r[j].key {
      assert r[j] == w[j - 1] && r[j] in w;
      if i > 0 { assert r[i] == w[i - 1]; }
    }
  }

  lemma WithoutKeeps(w: seq<Entry>, key: Key)
    requires WellFormed(w)
    ensures WellFormed(Without(w, key)) && !Holds(Without(w, key), key)
  {
    WithoutMembers(w, key);
    if w != [] {
      SuffixWellFormed(w, 1);
      WithoutKeeps(w[1..], key);
      WithoutMembers(w[1..], key);
      if w[0].key != key {
        forall x | x in Without(w[1..], key) ensures w[0].at <= x.at && w[0].key != x.key {
          var i :| 0 <= i < |w[1..]| && w[1..][i] == x;
          assert w[i + 1] == x;
        }
        ConsWellFormed(w[0], Without(w[1..], key));
      }
    }
  }

  lemma EvictedIsSuffix(w: seq<Entry>, now: int) returns (n: nat)
    requires WellFormed(w)
    ensures n <= |w| && Evicted(w, now) == w[n..] && |w[n..]| <= 4096
    ensures forall i :: n <= i < |w| ==> now - w[i].at <= 600_000
    ensures forall i :: 0 <= i < n ==> now - w[i].at > 600_000 || |w| - i > 4096
  {
    var first := FirstLive(w, now);
    n := if |w| - first <= MAX_ENTRIES then first else |w| - MAX_ENTRIES;
    assert w[first..][|w| - first - (|w| - n)..] == w[n..];
  }

  datatype Op =
    | Receive(key: Option<Key>, now: int)
    | Release(released: Key)

  datatype Event =
    | Accepted(key: Key, at: int)
    | Ignored(key: Key, at: int)
    | Unkeyed
    | Released(key: Key)

  /** One operation on the window; `RecentInbound` makes exactly these moves. */
  function After(w: seq<Entry>, op: Op): seq<Entry> {
    match op
    case Receive(None, _) => w
    case Receive(Some(key), now) =>
      var kept := Evicted(w, now);
      if Holds(kept, key) then kept else kept + [Entry(key, now)]
    case Release(key) => Without(w, key)
  }

  function Outcome(w: seq<Entry>, op: Op): Event {
    match op
    case Receive(None, _) => Unkeyed
    case Receive(Some(key), now) => if Holds(Evicted(w, now), key) then Ignored(key, now) else Accepted(key, now)
    case Release(key) => Released(key)
  }

  /** `_recent_inbound_events` with the two methods that edit it. */
  class RecentInbound {
    var entries: seq<Entry>

    ghost predicate Valid()
      reads this
    {
      WellFormed(entries)
    }

    constructor ()
      ensures Valid() && entries == []
    {
      entries := [];
    }

    /** `_is_duplicate_inbound`: evict from the front only, then look the key up. */
    method IsDuplicate(key: Option<Key>, now: int) returns (duplicate: bool)
      requires Valid() && NoneAfter(entries, now)
      modifies this
      ensures Valid() && NoneAfter(entries, now)
      ensures entries == After(old(entries), Receive(key, now))
      ensures duplicate == Outcome(old(entries), Receive(key, now)).Ignored?
    {
      if key.None? {
        return false;
      }
      Evict(now);
      duplicate := exists i | 0 <= i < |entries| :: entries[i].key == key.value;
      if !duplicate {
        SnocWellFormed(entries, Entry(key.value, now));
        entries := entries + [Entry(key.value, now)];
      }
    }

    /** The two front-popping loops of `_is_duplicate_inbound`. */
    method Evict(now: int)
      requires Valid() && NoneAfter(entries, now)
      modifies this
      ensures Valid() && NoneAfter(entries, now) && |entries| <= MAX_ENTRIES
      ensures entries == Evicted(old(entries), now)
    {
      ghost var was := entries;
      ghost var n := 0;
      while entries != []
        invariant n <= |was| && entries == was[n..]
        invariant forall i :: 0 <= i < n ==> !Live(was[i], now)
        decreases |entries|
      {
        var oldest := entries[0];
        if now - oldest.at > TTL {
          entries := entries[1..];
          n := n + 1;
        } else {
          break;
        }
      }
      ExpiredPrefix(was, now, n);
      while |entries| > MAX_ENTRIES
        invariant n <= |was| && entries == was[n..]
        invariant Newest(was[n..]) == Evicted(was, now)
        decreases |entries|
      {
        entries := entries[1..];
        n := n + 1;
      }
      SuffixWellFormed(was, n);
    }

    /** `_release_inbound_dedupe_key`: forget the key after a failed handling. */
    method Release(key: Option<Key>)
      requires Valid()
      modifies this
      ensures Valid()
      ensures entries == if key.Some? then After(old(entries), Op.Release(key.value)) else old(entries)
    {
      if key.Some? {
        WithoutKeeps(entries, key.value);
        entries := Without(entries, key.value);
      }
    }
  }

  // ---------------------------------------------------------------------------
  // Whole runs
  // ---------------------------------------------------------------------------

  datatype History = History(entries: seq<Entry>, events: seq<Event>)

  function Step(h: History, op: Op): History {
    History(After(h.entries, op), h.events + [Outcome(h.entries, op)])
  }

  function Replay(ops: seq<Op>): (h: History)
    ensures |h.events| == |ops|
  {
    if ops == [] then History([], [])
    else Step(Replay(ops[..|ops| - 1]), ops[|ops| - 1])
  }

  /** The monotonic clock: receive times never decrease. */
  ghost predicate Monotone(ops: seq<Op>) {
    forall i, j :: 0 <= i < j < |ops| && ops[i].Receive? && ops[j].Receive? ==> ops[i].now <= ops[j].now
  }

  /** How many messages with a key other than `key` were accepted. */
  function OthersAccepted(events: seq<Event>, key: Key): nat {
    if events == [] then 0
    else OthersAccepted(events[..|events| - 1], key)
         + (var e := events[|events| - 1]; if e.Accepted? && e.key != key then 1 else 0)
  }

  ghost predicate Quiet(events: seq<Event>, key: Key) {
    forall e :: e in events ==> !(e.Accepted? && e.key == key) && !(e.Released? && e.key == key)
  }

  /** Event `i` is the last acceptance of its key and was not released since. */
  ghost predicate Current(events: seq<Event>, i: int) {
    0 <= i < |events| && events[i].Accepted? && Quiet(events[i + 1..], events[i].key)
  }

  lemma OthersGrow(events: seq<Event>, i: nat, e: Event, key: Key)
    requires i <= |events|
    ensures (events + [e])[i..] == events[i..] + [e]
    ensures OthersAccepted((events + [e])[i..], key) ==
            OthersAccepted(events[i..], key) + (if e.Accepted? && e.key != key then 1 else 0)
  {
    assert (events + [e])[i..] == events[i..] + [e];
    assert (events[i..] + [e])[..|events[i..]|] == events[i..];
  }

  /** Window position `p` stands for event `i`, and everything behind it came later. */
  ghost predicate StandsFor(h: History, p: nat, i: int) {
    && p < |h.entries| && Current(h.events, i)
    && h.events[i] == Accepted(h.entries[p].key, h.entries[p].at)
    && |h.entries| - 1 - p <= OthersAccepted(h.events[i + 1..], h.entries[p].key)
  }

  ghost predicate Grounded(h: History) {
    forall p: nat :: p < |h.entries| ==> Stands(h, p)
  }

  ghost predicate Stands(h: History, p: nat) {
    exists i :: StandsFor(h, p, i)
  }

  /** A current acceptance is still in the window, or too old, or crowded out. */
  ghost predicate Accounted(h: History, now: int, i: int)
    requires Current(h.events, i)
  {
    var e := h.events[i];
    || Entry(e.key, e.at) in h.entries
    || now - e.at > 600_000
    || OthersAccepted(h.events[i + 1..], e.key) >= 4096
  }

  ghost predicate Tracks(h: History, now: int) {
    && WellFormed(h.entries) && NoneAfter(h.entries, now)
    && Grounded(h)
    && (forall i :: Current(h.events, i) ==> Accounted(h, now, i))
  }

  predicate Touches(e: Event, key: Key) {
    (e.Accepted? && e.key == key) || (e.Released? && e.key == key)
  }

  /** Appending an event that does not touch its key leaves an acceptance current. */
  lemma CurrentStays(events: seq<Event>, i: int, e: Event)
    requires Current(events, i) && !Touches(e, events[i].key)
    ensures Current(events + [e], i)
  {
    OthersGrow(events, i + 1, e, events[i].key);
  }

  /** An acceptance that is current after an event was current before it, or is that event. */
  lemma CurrentBefore(events: seq<Event>, i: int, e: Event)
    requires Current(events + [e], i)
    ensures i == |events| || (Current(events, i) && !Touches(e, events[i].key))
  {
    if i < |events| {
      var after := (events + [e])[i + 1..];
      assert after == events[i + 1..] + [e];
      assert e in after;
      forall x | x in events[i + 1..] ensures x in after {}
    }
  }

  lemma CurrentEnds(events: seq<Event>, i: int, j: int)
    requires Current(events, i) && i < j < |events|
    ensures !Touches(events[j], events[i].key)
  {
    assert events[j] == events[i + 1..][j - i - 1];
  }

  lemma CurrentUnique(events: seq<Event>, i: int, j: int)
    requires Current(events, i) && Current(events, j) && events[i].key == events[j].key
    ensures i == j
  {
    if i < j {
      CurrentEnds(events, i, j);
    } else if j < i {
      CurrentEnds(events, j, i);
    }
  }

  lemma StandsForward(h: History, p: nat, i: int, h': History, p': nat, e: Event)
    requires StandsFor(h, p, i) && h'.events == h.events + [e] && p' < |h'.entries|
    requires h'.entries[p'] == h.entries[p] && !Touches(e, h.entries[p].key)
    requires |h'.entries| - 1 - p' <= |h.entries| - 1 - p + (if e.Accepted? then 1 else 0)
    ensures StandsFor(h', p', i)
  {
    CurrentStays(h.events, i, e);
    OthersGrow(h.events, i + 1, e, h.events[i].key);
  }

  /** What eviction drops is too old or crowded out. */
  lemma DroppedIsAccounted(h: History, before: int, now: int, n: nat, p: nat, i: int)
    requires Tracks(h, before) && p < n <= |h.entries| && Current(h.events, i)
    requires h.events[i] == Accepted(h.entries[p].key, h.entries[p].at)
    requires !Live(h.entries[p], now) || |h.entries| - p > MAX_ENTRIES
    ensures now - h.events[i].at > TTL || OthersAccepted(h.events[i + 1..], h.events[i].key) >= MAX_ENTRIES
  {
    if Live(h.entries[p], now) {
      assert Stands(h, p);
      var k :| StandsFor(h, p, k);
      CurrentUnique(h.events, i, k);
    }
  }

  /** Evicting, without yet appending, keeps the accounts at the new time. */
  lemma EvictTracks(h: History, before: int, now: int)
    requires Tracks(h, before) && before <= now
    ensures Tracks(History(Evicted(h.entries, now), h.events), now)
    ensures |Evicted(h.entries, now)| <= MAX_ENTRIES
    ensures forall e :: e in Evicted(h.entries, now) ==> Live(e, now)
  {
    var n := EvictedIsSuffix(h.entries, now);
    var h' := History(Evicted(h.entries, now), h.events);
    SuffixWellFormed(h.entries, n);
    forall p: nat | p < |h'.entries| ensures Stands(h', p) {
      assert h'.entries[p] == h.entries[p + n];
      assert Stands(h, p + n);
      var i :| StandsFor(h, p + n, i);
      assert StandsFor(h', p, i);
    }
    forall i | Current(h'.events, i) ensures Accounted(h', now, i) {
      assert Accounted(h, before, i);
      var e := Entry(h.events[i].key, h.events[i].at);
      if e in h.entries && e !in h'.entries {
        var p :| 0 <= p < |h.entries| && h.entries[p] == e;
        forall q | n <= q < |h.entries| ensures h.entries[q] in h'.entries { assert h.entries[q] == h'.entries[q - n]; }
        DroppedIsAccounted(h, before, now, n, p, i);
      }
    }
  }

  /** An event that neither accepts nor releases changes no account. */
  lemma QuietTracks(h: History, now: int, e: Event)
    requires Tracks(h, now) && !e.Accepted? && !e.Released?
    ensures Tracks(History(h.entries, h.events + [e]), now)
  {
    var h' := History(h.entries, h.events + [e]);
    forall p: nat | p < |h'.entries| ensures Stands(h', p) {
      assert Stands(h, p);
      var i :| StandsFor(h, p, i);
      StandsForward(h, p, i, h', p, e);
    }
    forall i | Current(h'.events, i) ensures Accounted(h', now, i) {
      CurrentBefore(h.events, i, e);
      assert Accounted(h, now, i);
      OthersGrow(h.events, i + 1, e, h.events[i].key);
    }
  }

  lemma AcceptTracks(h: History, now: int, key: Key)
    requires Tracks(h, now) && |h.entries| <= MAX_ENTRIES && !Holds(h.entries, key)
    ensures Tracks(History(h.entries + [Entry(key, now)], h.events + [Accepted(key, now)]), now)
  {
    var e := Accepted(key, now);
    var h' := History(h.entries + [Entry(key, now)], h.events + [e]);
    SnocWellFormed(h.entries, Entry(key, now));
    forall p: nat | p < |h'.entries| ensures Stands(h', p) {
      if p < |h.entries| {
        assert Stands(h, p);
        var i :| StandsFor(h, p, i);
        assert h.entries[p].key != key;
        StandsForward(h, p, i, h', p, e);
      } else {
        assert h'.events[|h.events| + 1..] == [];
        assert StandsFor(h', p, |h.events|);
      }
    }
    forall i | Current(h'.events, i) ensures Accounted(h', now, i) {
      CurrentBefore(h.events, i, e);
      if i < |h.events| {
        assert Accounted(h, now, i);
        OthersGrow(h.events, i + 1, e, h.events[i].key);
      } else {
        assert h'.entries[|h.entries|] == Entry(key, now);
      }
    }
  }

  /** Removing a key moves nothing further from the end of the window. */
  lemma WithoutPosition(w: seq<Entry>, key: Key, p': nat) returns (p: nat)
    requires p' < |Without(w, key)|
    ensures p < |w| && w[p] == Without(w, key)[p'] && w[p].key != key
    ensures |Without(w, key)| - p' <= |w| - p
  {
    if w[0].key != key && p' == 0 {
      p := 0;
      WithoutMembers(w, key);
    } else {
      var shift := if w[0].key != key then 1 else 0;
      p := WithoutPosition(w[1..], key, p' - shift);
      p := p + 1;
    }
  }

  lemma ReleaseTracks(h: History, now: int, key: Key)
    requires Tracks(h, now)
    ensures Tracks(History(Without(h.entries, key), h.events + [Released(key)]), now)
  {
    var e := Released(key);
    var h' := History(Without(h.entries, key), h.events + [e]);
    WithoutKeeps(h.entries, key);
    WithoutMembers(h.entries, key);
    assert NoneAfter(h'.entries, now) by {
      forall p | 0 <= p < |h'.entries| ensures h'.entries[p].at <= now { assert h'.entries[p] in h.entries; }
    }
    forall p: nat | p < |h'.entries| ensures Stands(h', p) {
      var q := WithoutPosition(h.entries, key, p);
      assert Stands(h, q);
      var i :| StandsFor(h, q, i);
      StandsForward(h, q, i, h', p, e);
    }
    forall i | Current(h'.events, i) ensures Accounted(h', now, i) {
      CurrentBefore(h.events, i, e);
      assert Accounted(h, now, i);
      OthersGrow(h.events, i + 1, e, h.events[i].key);
    }
  }

  lemma StepTracks(h: History, before: int, op: Op)
    requires Tracks(h, before) && (op.Receive? ==> before <= op.now)
    ensures Tracks(Step(h, op), if op.Receive? then op.now else before)
  {
    match op
    case Receive(None, now) =>
      forall i | Current(h.events, i) ensures Accounted(h, now, i) { assert Accounted(h, before, i); }
      QuietTracks(h, now, Unkeyed);
    case Receive(Some(key), now) =>
      EvictTracks(h, before, now);
      var kept := History(Evicted(h.entries, now), h.events);
      if Holds(kept.entries, key) {
        QuietTracks(kept, now, Ignored(key, now));
      } else {
        AcceptTracks(kept, now, key);
      }
    case Release(key) => ReleaseTracks(h, before, key);
  }

  /** On every run the window accounts for every acceptance; `now` bounds all earlier times. */
  lemma {:induction false} ReplayTracks(ops: seq<Op>, now: int)
    requires Monotone(ops) && forall i :: 0 <= i < |ops| && ops[i].Receive? ==> ops[i].now <= now
    ensures Tracks(Replay(ops), now)
    ensures forall t :: now <= t ==> Tracks(Replay(ops), t)
    decreases |ops|
  {
    var h := Replay(ops);
    if ops == [] {
    } else {
      var front, op := ops[..|ops| - 1], ops[|ops| - 1];
      var t := if op.Receive? then op.now else now;
      ReplayTracks(front, t);
      StepTracks(Replay(front), t, op);
    }
    forall t | now <= t ensures Tracks(h, t) {
      forall i | Current(h.events, i) ensures Accounted(h, t, i) {}
    }
  }

  /** What happened to each operation of a run. */
  function Log(ops: seq<Op>): (events: seq<Event>)
    ensures |events| == |ops|
  {
    Replay(ops).events
  }

  /** Event `j` of a run is decided by its first `j + 1` operations. */
  lemma {:induction false} LogIsPrefix(ops: seq<Op>, j: nat)
    requires j <= |ops|
    ensures Log(ops)[..j] == Log(ops[..j])
    decreases |ops|
  {
    if j == |ops| {
      assert ops[..j] == ops;
    } else {
      LogIsPrefix(ops[..|ops| - 1], j);
      assert ops[..|ops| - 1][..j] == ops[..j];
    }
  }

  lemma LogAt(ops: seq<Op>, i: nat)
    requires i < |ops|
    ensures Log(ops)[..i] == Replay(ops[..i]).events
    ensures Log(ops)[i] == Outcome(Replay(ops[..i]).entries, ops[i])
  {
    LogIsPrefix(ops, i + 1);
    LogIsPrefix(ops, i);
    assert ops[..i + 1][..i] == ops[..i];
    assert Log(ops)[..i + 1][i] == Log(ops)[i];
  }

  lemma LastAcceptance(events: seq<Event>, i: nat, key: Key) returns (last: nat)
    requires i < |events| && events[i].Accepted? && events[i].key == key
    requires Released(key) !in events[i + 1..]
    ensures i <= last && Current(events, last) && events[last].key == key
    decreases |events| - i
  {
    if exists m :: i < m < |events| && events[m].Accepted? && events[m].key == key {
      var m :| i < m < |events| && events[m].Accepted? && events[m].key == key;
      assert events[m + 1..] == events[i + 1..][m - i..];
      last := LastAcceptance(events, m, key);
    } else {
      last := i;
      forall e | e in events[i + 1..] ensures !Touches(e, key) {
        var m :| 0 <= m < |events[i + 1..]| && events[i + 1..][m] == e;
        assert events[i + 1 + m] == e;
      }
    }
  }

  /** The window just before receive `j` decides, evicted at its time. */
  function Kept(ops: seq<Op>, j: nat): History
    requires j < |ops| && ops[j].Receive?
  {
    History(Evicted(Replay(ops[..j]).entries, ops[j].now), Log(ops)[..j])
  }

  lemma KeptTracks(ops: seq<Op>, j: nat)
    requires Monotone(ops) && j < |ops| && ops[j].Receive?
    ensures Tracks(Kept(ops, j), ops[j].now)
    ensures forall e :: e in Kept(ops, j).entries ==> Live(e, ops[j].now)
  {
    LogAt(ops, j);
    ReplayTracks(ops[..j], ops[j].now);
    EvictTracks(Replay(ops[..j]), ops[j].now, ops[j].now);
  }

  /**
    A message is called duplicate only if its key was accepted at most 600 s ago and has
    been neither accepted again nor released since.
   */
  lemma DuplicateIsRecent(ops: seq<Op>, j: nat)
    requires Monotone(ops) && j < |ops| && Log(ops)[j].Ignored?
    ensures exists i :: Current(Log(ops)[..j], i) && Log(ops)[i].key == Log(ops)[j].key
                        && Log(ops)[j].at - Log(ops)[i].at <= 600_000
  {
    LogAt(ops, j);
    KeptTracks(ops, j);
    var kept := Kept(ops, j);
    var p: nat :| p < |kept.entries| && kept.entries[p].key == Log(ops)[j].key;
    assert kept.entries[p] in kept.entries;
    assert Stands(kept, p);
    var i :| StandsFor(kept, p, i);
    assert Log(ops)[..j][i] == Log(ops)[i];
  }

  lemma RepeatIsApart(ops: seq<Op>, last: nat, j: nat)
    requires Monotone(ops) && j < |ops| && Log(ops)[j].Accepted?
    requires Current(Log(ops)[..j], last) && Log(ops)[last].key == Log(ops)[j].key
    ensures || Log(ops)[j].at - Log(ops)[last].at > 600_000
            || OthersAccepted(Log(ops)[last + 1..j], Log(ops)[j].key) >= 4096
  {
    LogAt(ops, j);
    KeptTracks(ops, j);
    var kept := Kept(ops, j);
    var e := Log(ops)[last];
    assert Log(ops)[..j][last] == e;
    assert Log(ops)[..j][last + 1..] == Log(ops)[last + 1..j];
    assert Accounted(kept, ops[j].now, last);
    forall x | x in kept.entries ensures x.key != e.key {
      var p :| 0 <= p < |kept.entries| && kept.entries[p] == x;
      assert kept.entries[p].key == x.key;
    }
  }

  /**
    Two acceptances of one key with no release of it in between are more than 600 s apart, or
    at least 4096 messages with other keys were accepted between them.
   */
  lemma RepeatsAreApart(ops: seq<Op>, i: nat, j: nat)
    requires Monotone(ops) && i < j < |ops|
    requires Log(ops)[i].Accepted? && Log(ops)[j].Accepted? && Log(ops)[i].key == Log(ops)[j].key
    requires Released(Log(ops)[i].key) !in Log(ops)[i + 1..j]
    ensures || Log(ops)[j].at - Log(ops)[i].at > 600_000
            || OthersAccepted(Log(ops)[i + 1..j], Log(ops)[i].key) >= 4096
  {
    var events, key := Log(ops)[..j], Log(ops)[i].key;
    assert events[i + 1..] == Log(ops)[i + 1..j];
    assert events[i] == Log(ops)[i];
    var last := LastAcceptance(events, i, key);
    assert events[last] == Log(ops)[last];
    RepeatIsApart(ops, last, j);
    OthersMonotone(Log(ops), i + 1, last + 1, j, key);
    AcceptTimes(ops, i, last);
  }

  /** Acceptances are logged with their receive time, in clock order. */
  lemma AcceptTimes(ops: seq<Op>, i: nat, k: nat)
    requires Monotone(ops) && i <= k < |ops| && Log(ops)[i].Accepted? && Log(ops)[k].Accepted?
    ensures Log(ops)[i].at <= Log(ops)[k].at
  {
    LogAt(ops, i);
    LogAt(ops, k);
  }

  lemma {:induction false} OthersMonotone(events: seq<Event>, i: nat, k: nat, j: nat, key: Key)
    requires i <= k <= j <= |events|
    ensures OthersAccepted(events[k..j], key) <= OthersAccepted(events[i..j], key)
    decreases j - k
  {
    if k < j {
      OthersMonotone(events, i, k, j - 1, key);
      assert events[k..j][..|events[k..j]| - 1] == events[k..j - 1];
      assert events[i..j][..|events[i..j]| - 1] == events[i..j - 1];
    }
  }
}
