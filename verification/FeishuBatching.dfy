/**
  File batching of the Feishu channel (backend/app/channels/feishu.py): consecutive
  single-file messages of one user in one chat are merged for 0.75 s. The SDK thread
  queues and schedules, timers on the main loop flush, and both edit
  `_pending_inbound_batches` under one lock.

  Times are wall-clock readings in milliseconds; nothing assumes they advance.
 */
module FeishuBatching {
  import opened Options
  import Text

  const WINDOW := 750

  datatype FileRef = Image(key: string) | Other(key: string)

  datatype Inbound = Inbound(id: string, chat: string, user: string, text: string,
                             files: seq<FileRef>, batchedIds: seq<string>)

  type Key = (string, string)

  function KeyOf(m: Inbound): Key {
    (m.chat, m.user)
  }

  /** A pending batch; `members` are the arrival numbers of its messages, kept for the proofs. */
  datatype Batch = Batch(anchor: string, createdAt: int, inbound: Inbound,
                         ids: seq<string>, parts: seq<string>, members: seq<nat>)

  function NonEmpty(parts: seq<string>): seq<string> {
    if parts == [] then []
    else (if parts[0] == "" then [] else [parts[0]]) + NonEmpty(parts[1..])
  }

  /** The text of a batch: its non-empty parts, separated by blank lines. */
  function JoinParts(parts: seq<string>): string {
    Text.Join("\n\n", NonEmpty(parts))
  }

  function Opened(m: Inbound, arrival: nat, now: int): Batch {
    Batch(m.id, now, m.(batchedIds := [m.id]), [m.id], [m.text], [arrival])
  }

  function Extended(b: Batch, m: Inbound, arrival: nat): Batch {
    var ids, parts := b.ids + [m.id], b.parts + [m.text];
    b.(ids := ids, parts := parts, members := b.members + [arrival],
       inbound := b.inbound.(text := JoinParts(parts), files := b.inbound.files + m.files, batchedIds := ids))
  }

  datatype Queued = Queued(pending: map<Key, Batch>, flush: bool, expired: Option<Batch>)

  /** What queueing a message does to the pending batches. */
  function Queue(pending: map<Key, Batch>, m: Inbound, arrival: nat, now: int): Queued {
    var k := KeyOf(m);
    if k in pending && now - pending[k].createdAt <= WINDOW then
      Queued(pending[k := Extended(pending[k], m, arrival)], false, None)
    else
      Queued(pending[k := Opened(m, arrival, now)], true, if k in pending then Some(pending[k]) else None)
  }

  /** The batch a timer with this anchor may take. */
  function Due(pending: map<Key, Batch>, k: Key, anchor: Option<string>): Option<Batch> {
    if k in pending && (anchor.None? || pending[k].anchor == anchor.value) then Some(pending[k]) else None
  }

  /** `_pending_inbound_batches`. Each method is one critical section of the thread lock. */
  class Batcher {
    var pending: map<Key, Batch>
    var arrivals: nat

    constructor ()
      ensures pending == map[] && arrivals == 0
    {
      pending, arrivals := map[], 0;
    }

    /** The locked part of `_queue_file_inbound_batch`: says whether a flush timer is to be
        scheduled, and hands over an expired batch to be dispatched. */
    method QueueFileInbound(m: Inbound, now: int) returns (flush: bool, expired: Option<Batch>)
      modifies this
      ensures Queued(pending, flush, expired) == Queue(old(pending), m, old(arrivals), now)
      ensures arrivals == old(arrivals) + 1
    {
      var k := KeyOf(m);
      var n := arrivals;
      arrivals := arrivals + 1;
      expired := None;
      if k in pending {
        var batch := pending[k];
        if now - batch.createdAt <= WINDOW {
          var ids := batch.ids + [m.id];
          var parts := batch.parts + [m.text];
          var inbound := batch.inbound.(text := JoinParts(parts));
          inbound := inbound.(files := inbound.files + m.files);
          inbound := inbound.(batchedIds := ids);
          pending := pending[k := Batch(batch.anchor, batch.createdAt, inbound, ids, parts, batch.members + [n])];
          return false, None;
        }
        expired := Some(batch);
      }
      pending := pending[k := Batch(m.id, now, m.(batchedIds := [m.id]), [m.id], [m.text], [n])];
      flush := true;
    }

    /** `_pop_pending_inbound_batch`. */
    method Pop(k: Key, anchor: Option<string>) returns (batch: Option<Batch>)
      modifies this
      ensures batch == Due(old(pending), k, anchor)
      ensures pending == if batch.Some? then old(pending) - {k} else old(pending)
      ensures arrivals == old(arrivals)
    {
      if k !in pending {
        return None;
      }
      if anchor.Some? && pending[k].anchor != anchor.value {
        return None;
      }
      batch := Some(pending[k]);
      pending := pending - {k};
    }
  }

  // ---------------------------------------------------------------------------
  // Interleavings of the SDK thread with timers on the main loop
  // ---------------------------------------------------------------------------

  datatype Arrival = Arrival(msg: Inbound, now: int)

  /** Where the SDK thread stands after leaving the lock. */
  datatype Sdk =
    | Idle
    | ToFlush(k: Key, anchor: string, expired: Option<Batch>)   // about to schedule the flush timer
    | ToPrepare(batch: Batch)                                   // about to dispatch an expired batch

  datatype State = State(
    arrived: seq<Arrival>,
    pending: map<Key, Batch>,
    sdk: Sdk,
    timers: multiset<(Key, string)>,
    dispatched: seq<Batch>,
    lost: seq<Batch>,               // dropped because the main loop was not running
    loopUp: bool
  )

  datatype Action =
    | Receive(m: Inbound, now: int)
    | ScheduleFlush
    | SchedulePrepare
    | Fire(k: Key, anchor: string)
    | SetLoop(up: bool)

  predicate Enabled(s: State, a: Action) {
    match a
    case Receive(_, _) => s.sdk.Idle?
    case ScheduleFlush => s.sdk.ToFlush?
    case SchedulePrepare => s.sdk.ToPrepare?
    case Fire(k, anchor) => s.loopUp && (k, anchor) in s.timers
    case SetLoop(_) => true
  }

  function Apply(s: State, a: Action): State
    requires Enabled(s, a)
  {
    match a
    case Receive(m, now) =>
      var q := Queue(s.pending, m, |s.arrived|, now);
      s.(arrived := s.arrived + [Arrival(m, now)], pending := q.pending,
         sdk := if q.flush then ToFlush(KeyOf(m), m.id, q.expired) else Idle)
    case ScheduleFlush =>
      s.(timers := if s.loopUp then s.timers + multiset{(s.sdk.k, s.sdk.anchor)} else s.timers,
         sdk := if s.sdk.expired.Some? then ToPrepare(s.sdk.expired.value) else Idle)
    case SchedulePrepare =>
      if s.loopUp then s.(dispatched := s.dispatched + [s.sdk.batch], sdk := Idle)
      else s.(lost := s.lost + [s.sdk.batch], sdk := Idle)
    case Fire(k, anchor) =>
      var due := Due(s.pending, k, Some(anchor));
      var s' := s.(timers := s.timers - multiset{(k, anchor)});
      if due.Some? then s'.(pending := s.pending - {k}, dispatched := s.dispatched + [due.value]) else s'
    case SetLoop(up) => s.(loopUp := up)
  }

  const START := State([], map[], Idle, multiset{}, [], [], true)

  ghost predicate Run(s: State, acts: seq<Action>, s': State)
    decreases |acts|
  {
    if acts == [] then s == s'
    else Enabled(s, acts[0]) && Run(Apply(s, acts[0]), acts[1..], s')
  }

  /** The places a queued message can be in. */
  datatype Place = Pending(k: Key) | InHand | Dispatched(j: nat) | Lost(j: nat)

  function BatchAt(s: State, p: Place): Option<Batch> {
    match p
    case Pending(k) => if k in s.pending then Some(s.pending[k]) else None
    case InHand => (match s.sdk
                    case Idle => None
                    case ToFlush(_, _, expired) => expired
                    case ToPrepare(batch) => Some(batch))
    case Dispatched(j) => if j < |s.dispatched| then Some(s.dispatched[j]) else None
    case Lost(j) => if j < |s.lost| then Some(s.lost[j]) else None
  }

  ghost predicate In(s: State, n: nat, p: Place) {
    BatchAt(s, p).Some? && n in BatchAt(s, p).value.members
  }

  predicate Within(members: seq<nat>, n: nat) {
    forall i :: 0 <= i < |members| ==> members[i] < n
  }

  function FilesOf(arrived: seq<Arrival>, members: seq<nat>): seq<FileRef>
    requires Within(members, |arrived|)
  {
    if members == [] then []
    else FilesOf(arrived, members[..|members| - 1]) + arrived[members[|members| - 1]].msg.files
  }

  /** The texts of the members that have one, in arrival order. */
  function TextsOf(arrived: seq<Arrival>, members: seq<nat>): seq<string>
    requires Within(members, |arrived|)
  {
    if members == [] then []
    else
      var text := arrived[members[|members| - 1]].msg.text;
      TextsOf(arrived, members[..|members| - 1]) + (if text == "" then [] else [text])
  }

  lemma {:induction false} NonEmptyConcat(a: seq<string>, b: seq<string>)
    ensures NonEmpty(a + b) == NonEmpty(a) + NonEmpty(b)
  {
    if a == [] {
      assert a + b == b;
    } else {
      assert (a + b)[1..] == a[1..] + b;
      NonEmptyConcat(a[1..], b);
    }
  }

  /** The parts of a batch are the texts of its members. */
  lemma {:induction false} PartsAreTexts(arrived: seq<Arrival>, members: seq<nat>, parts: seq<string>)
    requires Within(members, |arrived|) && |parts| == |members|
    requires forall i :: 0 <= i < |members| ==> parts[i] == arrived[members[i]].msg.text
    ensures NonEmpty(parts) == TextsOf(arrived, members)
    decreases |members|
  {
    if members != [] {
      var n := |members| - 1;
      PartsAreTexts(arrived, members[..n], parts[..n]);
      assert parts == parts[..n] + [parts[n]];
      NonEmptyConcat(parts[..n], [parts[n]]);
      assert [parts[n]][1..] == [];
    }
  }

  predicate Ascending(members: seq<nat>) {
    forall i, j :: 0 <= i < j < |members| ==> members[i] < members[j]
  }

  /** Everything in a batch comes from its members, in arrival order: one user in one chat,
      aligned ids and parts, all files, the joined text, all within the window. */
  ghost predicate BuiltFrom(b: Batch, arrived: seq<Arrival>) {
    && b.members != [] && Within(b.members, |arrived|) && Ascending(b.members)
    && |b.ids| == |b.members| && |b.parts| == |b.members|
    && (forall i :: 0 <= i < |b.members| ==>
          var a := arrived[b.members[i]];
          && b.ids[i] == a.msg.id && b.parts[i] == a.msg.text
          && KeyOf(a.msg) == KeyOf(b.inbound)
          && a.now - b.createdAt <= 750)
    && b.anchor == b.ids[0] == b.inbound.id
    && b.createdAt == arrived[b.members[0]].now
    && b.inbound.files == FilesOf(arrived, b.members)
    && b.inbound.text == Text.Join("\n\n", TextsOf(arrived, b.members))
    && b.inbound.batchedIds == b.ids
  }

  ghost predicate Sound(s: State) {
    && (forall p :: BatchAt(s, p).Some? ==> BuiltFrom(BatchAt(s, p).value, s.arrived))
    && (forall k :: k in s.pending ==> KeyOf(s.pending[k].inbound) == k)
  }

  ghost predicate Somewhere(s: State, n: nat) {
    exists p :: In(s, n, p)
  }

  /** Every arrival is in exactly one place. */
  ghost predicate Placed(s: State) {
    && (forall n: nat :: n < |s.arrived| ==> Somewhere(s, n))
    && (forall n: nat, p, q {:trigger In(s, n, p), In(s, n, q)} :: In(s, n, p) && In(s, n, q) ==> p == q)
  }

  /** A pending batch has a timer carrying its anchor, or is about to get one. */
  ghost predicate TimedAt(s: State, k: Key) {
    k in s.pending ==>
      (k, s.pending[k].anchor) in s.timers || (s.sdk.ToFlush? && s.sdk.k == k && s.sdk.anchor == s.pending[k].anchor)
  }

  /** So has every pending batch. */
  ghost predicate Timed(s: State) {
    forall k :: TimedAt(s, k)
  }

  lemma {:induction false} FilesStable(arrived: seq<Arrival>, more: seq<Arrival>, members: seq<nat>)
    requires Within(members, |arrived|)
    ensures FilesOf(arrived + more, members) == FilesOf(arrived, members)
    decreases |members|
  {
    if members != [] {
      FilesStable(arrived, more, members[..|members| - 1]);
    }
  }

  lemma BuiltStays(b: Batch, arrived: seq<Arrival>, a: Arrival)
    requires BuiltFrom(b, arrived)
    ensures BuiltFrom(b, arrived + [a])
  {
    FilesStable(arrived, [a], b.members);
    TextsStable(arrived, [a], b.members);
  }

  lemma {:induction false} TextsStable(arrived: seq<Arrival>, more: seq<Arrival>, members: seq<nat>)
    requires Within(members, |arrived|)
    ensures TextsOf(arrived + more, members) == TextsOf(arrived, members)
    decreases |members|
  {
    if members != [] {
      TextsStable(arrived, more, members[..|members| - 1]);
    }
  }

  lemma OpenedIsBuilt(m: Inbound, arrived: seq<Arrival>, now: int)
    ensures BuiltFrom(Opened(m, |arrived|, now), arrived + [Arrival(m, now)])
  {
    var b, all := Opened(m, |arrived|, now), arrived + [Arrival(m, now)];
    assert b.members[..0] == [];
    assert FilesOf(all, []) == [];
    assert FilesOf(all, b.members) == [] + m.files;
    assert TextsOf(all, []) == [];
    if m.text == "" { assert TextsOf(all, b.members) == []; } else { assert TextsOf(all, b.members) == [m.text]; }
  }

  lemma ExtendedIsBuilt(b: Batch, m: Inbound, arrived: seq<Arrival>, now: int)
    requires BuiltFrom(b, arrived) && KeyOf(m) == KeyOf(b.inbound) && now - b.createdAt <= WINDOW
    ensures BuiltFrom(Extended(b, m, |arrived|), arrived + [Arrival(m, now)])
  {
    var e, all := Extended(b, m, |arrived|), arrived + [Arrival(m, now)];
    BuiltStays(b, arrived, Arrival(m, now));
    assert e.members[..|e.members| - 1] == b.members;
    PartsAreTexts(all, e.members, e.parts);
  }

  /** Where a place's batch was before a step that queues nothing. */
  function Origin(s: State, a: Action, p: Place): Place
    requires Enabled(s, a) && !a.Receive?
  {
    match a
    case SchedulePrepare =>
      if (s.loopUp && p == Dispatched(|s.dispatched|)) || (!s.loopUp && p == Lost(|s.lost|)) then InHand else p
    case Fire(k, _) => if p == Dispatched(|s.dispatched|) then Pending(k) else p
    case _ => p
  }

  /** A step that queues nothing only moves whole batches. */
  lemma MovesBatches(s: State, a: Action, p: Place)
    requires Enabled(s, a) && !a.Receive? && BatchAt(Apply(s, a), p).Some?
    ensures BatchAt(s, Origin(s, a, p)) == BatchAt(Apply(s, a), p)
  {
  }

  /** Where a batch goes in a step that queues nothing. */
  function Destination(s: State, a: Action, p: Place): Place
    requires Enabled(s, a) && !a.Receive?
  {
    match a
    case SchedulePrepare =>
      if p == InHand then (if s.loopUp then Dispatched(|s.dispatched|) else Lost(|s.lost|)) else p
    case Fire(k, anchor) =>
      if p == Pending(k) && Due(s.pending, k, Some(anchor)).Some? then Dispatched(|s.dispatched|) else p
    case _ => p
  }

  lemma MovesOnward(s: State, a: Action, p: Place)
    requires Enabled(s, a) && !a.Receive? && BatchAt(s, p).Some?
    ensures BatchAt(Apply(s, a), Destination(s, a, p)) == BatchAt(s, p)
    ensures Origin(s, a, Destination(s, a, p)) == p
  {
  }

  lemma MoveKeepsPlaced(s: State, a: Action)
    requires Placed(s) && Enabled(s, a) && !a.Receive?
    ensures Placed(Apply(s, a))
  {
    var s' := Apply(s, a);
    forall n: nat | n < |s'.arrived| ensures Somewhere(s', n) {
      assert Somewhere(s, n);
      var p :| In(s, n, p);
      MovesOnward(s, a, p);
      assert In(s', n, Destination(s, a, p));
    }
    forall n: nat, p, q | In(s', n, p) && In(s', n, q) ensures p == q {
      MovesBatches(s, a, p);
      MovesBatches(s, a, q);
      assert In(s, n, Origin(s, a, p)) && In(s, n, Origin(s, a, q));
      OriginsDiffer(s, a, p, q);
    }
  }

  lemma OriginsDiffer(s: State, a: Action, p: Place, q: Place)
    requires Enabled(s, a) && !a.Receive? && Origin(s, a, p) == Origin(s, a, q)
    requires BatchAt(Apply(s, a), p).Some? && BatchAt(Apply(s, a), q).Some?
    ensures p == q
  {
  }

  lemma MoveKeepsSound(s: State, a: Action)
    requires Sound(s) && Enabled(s, a) && !a.Receive?
    ensures Sound(Apply(s, a))
  {
    var s' := Apply(s, a);
    forall p | BatchAt(s', p).Some? ensures BuiltFrom(BatchAt(s', p).value, s'.arrived) {
      MovesBatches(s, a, p);
    }
  }

  /** Queueing: the expired batch moves into the SDK thread's hand, the new arrival joins or
      opens the pending batch of its key, and nothing else changes. */
  lemma ReceivePlaces(s: State, m: Inbound, now: int, p: Place)
    requires Enabled(s, Receive(m, now)) && Sound(s)
    ensures var s' := Apply(s, Receive(m, now));
            var k := (m.chat, m.user);
            var joins := k in s.pending && now - s.pending[k].createdAt <= 750;
            BatchAt(s', p) ==
              if p == Pending(k) then
                Some(if joins then Extended(s.pending[k], m, |s.arrived|) else Opened(m, |s.arrived|, now))
              else if p == InHand && !joins && k in s.pending then Some(s.pending[k])
              else BatchAt(s, p)
  {
  }

  lemma ReceiveKeepsSound(s: State, m: Inbound, now: int)
    requires Sound(s) && Enabled(s, Receive(m, now))
    ensures Sound(Apply(s, Receive(m, now)))
  {
    var s' := Apply(s, Receive(m, now));
    var k := KeyOf(m);
    forall p | BatchAt(s', p).Some? ensures BuiltFrom(BatchAt(s', p).value, s'.arrived) {
      ReceivePlaces(s, m, now, p);
      if k in s.pending { assert BatchAt(s, Pending(k)) == Some(s.pending[k]); }
      if p == Pending(k) {
        if k in s.pending && now - s.pending[k].createdAt <= WINDOW {
          ExtendedIsBuilt(s.pending[k], m, s.arrived, now);
        } else {
          OpenedIsBuilt(m, s.arrived, now);
        }
      } else {
        BuiltStays(BatchAt(s', p).value, s.arrived, Arrival(m, now));
      }
    }
    forall j | j in s'.pending ensures KeyOf(s'.pending[j].inbound) == j {}
  }

  lemma ReceiveKeepsPlaced(s: State, m: Inbound, now: int)
    requires Sound(s) && Placed(s) && Enabled(s, Receive(m, now))
    ensures Placed(Apply(s, Receive(m, now)))
  {
    var s' := Apply(s, Receive(m, now));
    var k := KeyOf(m);
    var arrival := |s.arrived|;
    var joins := k in s.pending && now - s.pending[k].createdAt <= WINDOW;
    forall n: nat | n < |s'.arrived| ensures Somewhere(s', n) {
      if n == arrival {
        ReceiveMembers(s, m, now, Pending(k));
        assert In(s', n, Pending(k));
      } else {
        assert Somewhere(s, n);
        var p :| In(s, n, p);
        var p' := if p == Pending(k) && !joins then InHand else p;
        ReceiveMembers(s, m, now, p');
        assert In(s', n, p');
      }
    }
    forall n: nat, p, q | In(s', n, p) && In(s', n, q) ensures p == q {
      ReceiveMembers(s, m, now, p);
      ReceiveMembers(s, m, now, q);
    }
  }

  lemma ReceiveMembers(s: State, m: Inbound, now: int, p: Place)
    requires Sound(s) && Enabled(s, Receive(m, now))
    ensures var s' := Apply(s, Receive(m, now));
            var k := KeyOf(m);
            var joins := k in s.pending && now - s.pending[k].createdAt <= WINDOW;
            forall n :: In(s', n, p) <==>
              if n == |s.arrived| then p == Pending(k)
              else if p == Pending(k) then joins && In(s, n, p)
              else if p == InHand then !joins && In(s, n, Pending(k))
              else In(s, n, p)
  {
    ReceivePlaces(s, m, now, p);
    var b := BatchAt(s, p);
    if b.Some? { assert BuiltFrom(b.value, s.arrived); }
    if KeyOf(m) in s.pending { assert BatchAt(s, Pending(KeyOf(m))) == Some(s.pending[KeyOf(m)]); }
  }

  lemma {:induction false} RunKeepsPlaced(s: State, acts: seq<Action>, s': State)
    requires Sound(s) && Placed(s) && Run(s, acts, s')
    ensures Sound(s') && Placed(s')
    decreases |acts|
  {
    if acts != [] {
      var a := acts[0];
      if a.Receive? {
        ReceiveKeepsSound(s, a.m, a.now);
        ReceiveKeepsPlaced(s, a.m, a.now);
      } else {
        MoveKeepsSound(s, a);
        MoveKeepsPlaced(s, a);
      }
      RunKeepsPlaced(Apply(s, a), acts[1..], s');
    }
  }

  /**
    Over all interleavings of arrivals with timer firings, even when the main loop stops and
    restarts: every queued message occurrence is in exactly one place, and every batch,
    pending, in hand, dispatched or lost, is built from its own messages in arrival order.
   */
  lemma ExactlyOnePlace(acts: seq<Action>, s: State)
    requires Run(START, acts, s)
    ensures Placed(s) && Sound(s)
  {
    RunKeepsPlaced(START, acts, s);
  }

  // ---------------------------------------------------------------------------
  // Why a batch is dispatched
  // ---------------------------------------------------------------------------

  /** A later message of the same user in the same chat came too late for the batch. */
  ghost predicate Superseded(b: Batch, arrived: seq<Arrival>) {
    exists n :: 0 <= n < |arrived| && ComesTooLate(b, arrived[n])
  }

  predicate ComesTooLate(b: Batch, a: Arrival) {
    a.msg.chat == b.inbound.chat && a.msg.user == b.inbound.user && a.now - b.createdAt > 750
  }

  /** The timers that fired, by key and anchor. */
  function Fired(acts: seq<Action>): set<(Key, string)> {
    set a | a in acts && a.Fire? :: (a.k, a.anchor)
  }

  ghost predicate Warranted(b: Batch, s: State, fired: set<(Key, string)>) {
    ((b.inbound.chat, b.inbound.user), b.anchor) in fired || Superseded(b, s.arrived)
  }

  /** Every batch that is no longer pending had a reason to go. */
  ghost predicate Justified(s: State, fired: set<(Key, string)>) {
    forall p :: BatchAt(s, p).Some? && !p.Pending? ==> Warranted(BatchAt(s, p).value, s, fired)
  }

  lemma SupersededStays(b: Batch, arrived: seq<Arrival>, a: Arrival)
    requires Superseded(b, arrived)
    ensures Superseded(b, arrived + [a])
  {
    var n :| 0 <= n < |arrived| && ComesTooLate(b, arrived[n]);
    assert (arrived + [a])[n] == arrived[n];
  }

  lemma ReceiveKeepsJustified(s: State, m: Inbound, now: int, fired: set<(Key, string)>)
    requires Sound(s) && Justified(s, fired) && Enabled(s, Receive(m, now))
    ensures Justified(Apply(s, Receive(m, now)), fired)
  {
    var s' := Apply(s, Receive(m, now));
    forall p | BatchAt(s', p).Some? && !p.Pending? ensures Warranted(BatchAt(s', p).value, s', fired) {
      ReceivePlaces(s, m, now, p);
      var b := BatchAt(s', p).value;
      if p == InHand {
        assert KeyOf(m) in s.pending ==> KeyOf(s.pending[KeyOf(m)].inbound) == KeyOf(m);
        assert s'.arrived[|s.arrived|] == Arrival(m, now);
        assert ComesTooLate(b, s'.arrived[|s.arrived|]);
      } else if Superseded(b, s.arrived) {
        SupersededStays(b, s.arrived, Arrival(m, now));
      }
    }
  }

  lemma MoveKeepsJustified(s: State, a: Action, fired: set<(Key, string)>)
    requires Sound(s) && Justified(s, fired) && Enabled(s, a) && !a.Receive?
    ensures Justified(Apply(s, a), fired + if a.Fire? then {(a.k, a.anchor)} else {})
  {
    var s' := Apply(s, a);
    forall p | BatchAt(s', p).Some? && !p.Pending?
      ensures Warranted(BatchAt(s', p).value, s', fired + if a.Fire? then {(a.k, a.anchor)} else {})
    {
      MovesBatches(s, a, p);
      FiredIsOwn(s, a, p);
    }
  }

  /** A timer takes the batch of its key that carries its anchor, and no other. */
  lemma FiredIsOwn(s: State, a: Action, p: Place)
    requires Enabled(s, a) && !a.Receive? && BatchAt(Apply(s, a), p).Some? && !p.Pending?
    ensures Origin(s, a, p).Pending? ==>
              a.Fire? && a.k in s.pending && Origin(s, a, p) == Pending(a.k) && s.pending[a.k].anchor == a.anchor
  {
  }

  lemma {:induction false} RunKeepsJustified(s: State, acts: seq<Action>, s': State, fired: set<(Key, string)>)
    requires Sound(s) && Placed(s) && Justified(s, fired) && Run(s, acts, s')
    ensures Justified(s', fired + Fired(acts))
    decreases |acts|
  {
    if acts == [] {
      assert fired + Fired(acts) == fired;
    } else {
      var a := acts[0];
      var more := if a.Fire? then {(a.k, a.anchor)} else {};
      assert acts == [a] + acts[1..];
      assert Fired(acts) == more + Fired(acts[1..]);
      if a.Receive? {
        ReceiveKeepsSound(s, a.m, a.now);
        ReceiveKeepsPlaced(s, a.m, a.now);
        ReceiveKeepsJustified(s, a.m, a.now, fired);
        assert fired + more == fired;
      } else {
        MoveKeepsSound(s, a);
        MoveKeepsPlaced(s, a);
        MoveKeepsJustified(s, a, fired);
      }
      RunKeepsJustified(Apply(s, a), acts[1..], s', fired + more);
      assert (fired + more) + Fired(acts[1..]) == fired + Fired(acts);
    }
  }

  /**
    On every run a batch goes only for one of two reasons: the timer that was set for it (with its own
    anchor) has fired, or a later message of its user and chat came more than 0.75 s after its first.
   */
  lemma DispatchedForAReason(acts: seq<Action>, s: State, j: nat)
    requires Run(START, acts, s) && j < |s.dispatched|
    ensures var b := s.dispatched[j];
            Fire((b.inbound.chat, b.inbound.user), b.anchor) in acts || Superseded(b, s.arrived)
  {
    RunKeepsJustified(START, acts, s, {});
    assert BatchAt(s, Dispatched(j)) == Some(s.dispatched[j]);
    assert Warranted(s.dispatched[j], s, {} + Fired(acts));
  }

  /** While the main loop is down, nothing is dispatched. */
  lemma {:induction false} NothingWhileDown(s: State, acts: seq<Action>, s': State)
    requires Run(s, acts, s') && !s.loopUp && SetLoop(true) !in acts
    ensures s'.dispatched == s.dispatched
    decreases |acts|
  {
    if acts != [] {
      assert acts[0] in acts && forall a :: a in acts[1..] ==> a in acts;
      NothingWhileDown(Apply(s, acts[0]), acts[1..], s');
    }
  }

  /** Every scheduling of the SDK thread finds the main loop running; it may stop and restart in between. */
  ghost predicate Heard(s: State, acts: seq<Action>)
    decreases |acts|
  {
    acts == [] || (
      && Enabled(s, acts[0])
      && (acts[0].ScheduleFlush? || acts[0].SchedulePrepare? ==> s.loopUp)
      && Heard(Apply(s, acts[0]), acts[1..]))
  }

  lemma ReceiveKeepsTimed(s: State, m: Inbound, now: int, k: Key)
    requires TimedAt(s, k) && Enabled(s, Receive(m, now))
    ensures TimedAt(Apply(s, Receive(m, now)), k)
  {
  }

  lemma FireKeepsTimed(s: State, j: Key, anchor: string, k: Key)
    requires TimedAt(s, k) && Enabled(s, Fire(j, anchor))
    ensures TimedAt(Apply(s, Fire(j, anchor)), k)
  {
  }

  lemma ScheduleKeepsTimed(s: State, a: Action, k: Key)
    requires TimedAt(s, k) && Enabled(s, a) && !a.Receive? && !a.Fire?
    requires a.ScheduleFlush? ==> s.loopUp
    ensures TimedAt(Apply(s, a), k)
  {
  }

  lemma StepKeepsTimed(s: State, a: Action)
    requires Timed(s) && s.lost == [] && Enabled(s, a)
    requires a.ScheduleFlush? || a.SchedulePrepare? ==> s.loopUp
    ensures Timed(Apply(s, a)) && Apply(s, a).lost == []
  {
    forall k ensures TimedAt(Apply(s, a), k) {
      assert TimedAt(s, k);
      match a {
        case Receive(m, now) => ReceiveKeepsTimed(s, m, now, k);
        case Fire(j, anchor) => FireKeepsTimed(s, j, anchor, k);
        case _ => ScheduleKeepsTimed(s, a, k);
      }
    }
  }

  lemma {:induction false} RunKeepsTimed(s: State, acts: seq<Action>, s': State)
    requires Timed(s) && s.lost == [] && Run(s, acts, s') && Heard(s, acts)
    ensures Timed(s') && s'.lost == []
    decreases |acts|
  {
    if acts != [] {
      StepKeepsTimed(s, acts[0]);
      RunKeepsTimed(Apply(s, acts[0]), acts[1..], s');
    }
  }

  /**
    While every scheduling finds the main loop running, nothing is lost and every pending batch has
    its own flush timer outstanding (or is about to get it); once the SDK thread is idle and no timer
    is left, every message has been dispatched, in exactly one batch.
   */
  lemma AllDispatchedAtRest(acts: seq<Action>, s: State)
    requires Run(START, acts, s) && Heard(START, acts)
    ensures s.lost == [] && Timed(s)
    ensures s.sdk.Idle? && s.timers == multiset{} ==> s.pending == map[]
    ensures s.sdk.Idle? && s.timers == multiset{} ==> (forall n: nat :: n < |s.arrived| ==> DispatchedOnce(s, n))
  {
    RunKeepsTimed(START, acts, s);
    if s.pending != map[] {
      var k :| k in s.pending;
      assert TimedAt(s, k);
    }
    if s.sdk.Idle? && s.timers == multiset{} {
      ExactlyOnePlace(acts, s);
      AllDispatched(s);
    }
  }

  /** With nothing pending, in hand or lost, each message is in exactly one dispatched batch. */
  lemma AllDispatched(s: State)
    requires Placed(s) && s.pending == map[] && s.sdk.Idle? && s.lost == []
    ensures forall n: nat :: n < |s.arrived| ==> DispatchedOnce(s, n)
  {
    forall n: nat | n < |s.arrived| ensures DispatchedOnce(s, n) {
      assert Somewhere(s, n);
      var p :| In(s, n, p);
      forall j: nat | j < |s.dispatched| && n in s.dispatched[j].members ensures j == p.j {
        assert In(s, n, Dispatched(j));
      }
    }
  }

  /** How many expired batches were to be dispatched while the main loop was down. */
  function DeafPrepares(s: State, acts: seq<Action>): nat
    decreases |acts|
  {
    if acts == [] || !Enabled(s, acts[0]) then 0
    else
      (if acts[0].SchedulePrepare? && !s.loopUp then 1 else 0) + DeafPrepares(Apply(s, acts[0]), acts[1..])
  }

  lemma {:induction false} LostAreDeaf(s: State, acts: seq<Action>, s': State)
    requires Run(s, acts, s')
    ensures |s'.lost| == |s.lost| + DeafPrepares(s, acts)
    decreases |acts|
  {
    if acts != [] {
      LostAreDeaf(Apply(s, acts[0]), acts[1..], s');
    }
  }

  /** The keys whose pending batch had its flush scheduled while the main loop was down, after one
      more step: a batch that takes the place of another, or is taken, starts afresh. */
  function StrandedAfter(s: State, a: Action, stranded: set<Key>): set<Key>
    requires Enabled(s, a)
  {
    match a
    case Receive(m, now) =>
      if Queue(s.pending, m, |s.arrived|, now).flush then stranded - {KeyOf(m)} else stranded
    case ScheduleFlush => if !s.loopUp && s.sdk.k in s.pending then stranded + {s.sdk.k} else stranded
    case Fire(k, anchor) => if Due(s.pending, k, Some(anchor)).Some? then stranded - {k} else stranded
    case _ => stranded
  }

  function Stranded(s: State, acts: seq<Action>, stranded: set<Key>): set<Key>
    decreases |acts|
  {
    if acts == [] || !Enabled(s, acts[0]) then stranded
    else Stranded(Apply(s, acts[0]), acts[1..], StrandedAfter(s, acts[0], stranded))
  }

  /** Every pending batch has its timer, or is about to get it, or is stranded. */
  ghost predicate Covered(s: State, stranded: set<Key>) {
    stranded <= s.pending.Keys && forall k :: k !in stranded ==> TimedAt(s, k)
  }

  lemma StepKeepsCovered(s: State, a: Action, stranded: set<Key>)
    requires Covered(s, stranded) && Enabled(s, a)
    ensures Covered(Apply(s, a), StrandedAfter(s, a, stranded))
  {
    forall k | k !in StrandedAfter(s, a, stranded) ensures TimedAt(Apply(s, a), k) {
      if k !in stranded {
        assert TimedAt(s, k);
        match a {
          case Receive(m, now) => ReceiveKeepsTimed(s, m, now, k);
          case Fire(j, anchor) => FireKeepsTimed(s, j, anchor, k);
          case ScheduleFlush => if s.loopUp { ScheduleKeepsTimed(s, a, k); }
          case _ => ScheduleKeepsTimed(s, a, k);
        }
      }
    }
  }

  lemma {:induction false} RunKeepsCovered(s: State, acts: seq<Action>, s': State, stranded: set<Key>)
    requires Covered(s, stranded) && Run(s, acts, s')
    ensures Covered(s', Stranded(s, acts, stranded))
    decreases |acts|
  {
    if acts != [] {
      StepKeepsCovered(s, acts[0], stranded);
      RunKeepsCovered(Apply(s, acts[0]), acts[1..], s', StrandedAfter(s, acts[0], stranded));
    }
  }

  /**
    The exact condition, on every run, however often the main loop stops: a batch is lost for every
    dispatch of an expired batch that finds the loop down, and for nothing else. Once the SDK thread
    is idle and no timer is left, the batches still pending are exactly those whose flush was
    scheduled while the loop was down; and every message has been dispatched, in exactly one batch, if
    and only if there is no such batch and there was no such dispatch.
   */
  lemma NothingLostIff(acts: seq<Action>, s: State)
    requires Run(START, acts, s)
    ensures |s.lost| == DeafPrepares(START, acts)
    ensures s.sdk.Idle? && s.timers == multiset{} ==>
              && s.pending.Keys == Stranded(START, acts, {})
              && ((forall n: nat :: n < |s.arrived| ==> DispatchedOnce(s, n)) <==>
                    Stranded(START, acts, {}) == {} && DeafPrepares(START, acts) == 0)
  {
    LostAreDeaf(START, acts, s);
    ExactlyOnePlace(acts, s);
    RunKeepsCovered(START, acts, s, {});
    if s.sdk.Idle? && s.timers == multiset{} {
      var stranded := Stranded(START, acts, {});
      forall k | k in s.pending ensures k in stranded { assert k !in stranded ==> TimedAt(s, k); }
      assert s.pending.Keys == stranded;
      if s.lost != [] {
        LeftIsNotDispatched(s, Lost(0));
      } else if k :| k in stranded {
        LeftIsNotDispatched(s, Pending(k));
      } else {
        assert s.pending == map[];
        AllDispatched(s);
      }
    }
  }

  /** A message that is pending or lost is not dispatched. */
  lemma LeftIsNotDispatched(s: State, p: Place)
    requires Placed(s) && Sound(s) && BatchAt(s, p).Some? && !p.Dispatched?
    ensures exists n: nat :: n < |s.arrived| && !DispatchedOnce(s, n)
  {
    var b := BatchAt(s, p).value;
    assert BuiltFrom(b, s.arrived);
    var n := b.members[0];
    assert n < |s.arrived| && In(s, n, p);
    forall j: nat | j < |s.dispatched| ensures n !in s.dispatched[j].members {
      assert !In(s, n, Dispatched(j));
    }
    assert !DispatchedOnce(s, n);
  }

  ghost predicate DispatchedOnce(s: State, n: nat) {
    exists j: nat :: j < |s.dispatched| && n in s.dispatched[j].members
      && forall i: nat :: i < |s.dispatched| && n in s.dispatched[i].members ==> i == j
  }

  /** With the loop down when an expired batch is to be dispatched, its message is dropped. */
  lemma StoppedLoopLoses(m: Inbound) returns (acts: seq<Action>, s: State)
    ensures Run(START, acts, s)
    ensures s.sdk.Idle? && |s.lost| == 1 && In(s, 0, Lost(0)) && s.dispatched == []
  {
    acts := [Receive(m, 0), ScheduleFlush, Receive(m, 1000), SetLoop(false), ScheduleFlush, SchedulePrepare];
    var s1 := Apply(START, acts[0]);
    var s2 := Apply(s1, acts[1]);
    var s3 := Apply(s2, acts[2]);
    var s4 := Apply(s3, acts[3]);
    var s5 := Apply(s4, acts[4]);
    s := Apply(s5, acts[5]);
    assert s.lost == [Opened(m, 0, 0)];
    assert acts[1..] == [ScheduleFlush, Receive(m, 1000), SetLoop(false), ScheduleFlush, SchedulePrepare];
    assert acts[1..][1..] == [Receive(m, 1000), SetLoop(false), ScheduleFlush, SchedulePrepare];
    assert acts[1..][1..][1..] == [SetLoop(false), ScheduleFlush, SchedulePrepare];
    assert acts[1..][1..][1..][1..] == [ScheduleFlush, SchedulePrepare];
    assert acts[1..][1..][1..][1..][1..] == [SchedulePrepare];
    assert Run(s, [], s);
    assert Run(s5, [SchedulePrepare], s);
    assert Run(s4, [ScheduleFlush, SchedulePrepare], s);
    assert Run(s3, acts[1..][1..][1..], s);
    assert Run(s2, acts[1..][1..], s);
    assert Run(s1, acts[1..], s);
  }

  /** With the loop down when a flush is scheduled, the message stays pending with no timer: nothing is
      lost, no step but an arrival or a change of the loop is left, and nothing has been dispatched. */
  lemma StoppedLoopStrands(m: Inbound) returns (acts: seq<Action>, s: State)
    ensures Run(START, acts, s) && DeafPrepares(START, acts) == 0
    ensures s.sdk.Idle? && s.timers == multiset{} && s.dispatched == s.lost == []
    ensures s.pending.Keys == {KeyOf(m)} && In(s, 0, Pending(KeyOf(m)))
    ensures forall a :: Enabled(s, a) ==> a.Receive? || a.SetLoop?
  {
    acts := [Receive(m, 0), SetLoop(false), ScheduleFlush];
    var s1 := Apply(START, acts[0]);
    var s2 := Apply(s1, acts[1]);
    s := Apply(s2, acts[2]);
    assert acts[1..] == [SetLoop(false), ScheduleFlush] && acts[1..][1..] == [ScheduleFlush];
    assert Run(s, [], s) && DeafPrepares(s, []) == 0;
    assert Run(s2, [ScheduleFlush], s) && DeafPrepares(s2, [ScheduleFlush]) == 0;
    assert Run(s1, acts[1..], s) && DeafPrepares(s1, acts[1..]) == 0;
    assert s.pending == map[KeyOf(m) := Opened(m, 0, 0)];
  }
}
