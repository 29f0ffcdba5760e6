/**
  The Discord thread index (backend/app/channels/discord.py): an in-memory
  channel -> thread map, its reverse-lookup set, and a JSON file written by
  worker threads that serialize on a lock the recording side never takes.
 */
module DiscordThreads {
  import opened Options

  type Channel = string
  type ThreadId = string
  type Mapping = map<Channel, ThreadId>

  /** The reverse set after `channel` is pointed at `id`: the old id goes, then the new one comes. */
  function Reindexed(m: Mapping, ids: set<ThreadId>, channel: Channel, id: ThreadId): set<ThreadId> {
    (if channel in m && m[channel] != "" then ids - {m[channel]} else ids) + {id}
  }

  ghost predicate Injective(m: Mapping) {
    forall c, d :: c in m && d in m && c != d ==> m[c] != m[d]
  }

  /** Exactly the mapped threads are known, no thread serves two channels, no id is empty. */
  ghost predicate Indexed(m: Mapping, ids: set<ThreadId>) {
    ids == m.Values && Injective(m) && "" !in m.Values
  }

  ghost predicate Elsewhere(m: Mapping, channel: Channel, t: ThreadId) {
    exists d :: d in m && d != channel && m[d] == t
  }

  lemma ValuesAfter(m: Mapping, channel: Channel, id: ThreadId, t: ThreadId)
    ensures t in m[channel := id].Values <==> t == id || Elsewhere(m, channel, t)
  {
    var m' := m[channel := id];
    assert m'[channel] == id;
    if Elsewhere(m, channel, t) {
      var d :| d in m && d != channel && m[d] == t;
      assert m'[d] == t;
    }
  }

  lemma ValuesGrow(m: Mapping, channel: Channel, id: ThreadId)
    requires channel !in m
    ensures m[channel := id].Values == m.Values + {id}
  {
    forall t ensures t in m[channel := id].Values <==> t == id || t in m.Values {
      ValuesAfter(m, channel, id, t);
      if t in m.Values { var d :| d in m && m[d] == t; assert Elsewhere(m, channel, t); }
    }
  }

  /** Everything but `todo` has been copied from the file. */
  ghost predicate Loading(data: Mapping, todo: set<Channel>, m: Mapping, ids: set<ThreadId>) {
    && todo <= data.Keys && m.Keys == data.Keys - todo
    && (forall c :: c in m ==> m[c] == data[c])
    && ids == m.Values
    && (todo == {} ==> m == data)
  }

  lemma LoadStep(data: Mapping, todo: set<Channel>, m: Mapping, ids: set<ThreadId>, c: Channel)
    requires Loading(data, todo, m, ids) && c in todo
    ensures Loading(data, todo - {c}, m[c := data[c]], ids + {data[c]})
  {
    var m' := m[c := data[c]];
    ValuesGrow(m, c, data[c]);
    assert m'.Keys == data.Keys - (todo - {c});
    assert todo - {c} == {} ==> m'.Keys == data.Keys;
  }

  /** `_active_threads` and `_active_thread_ids`. */
  class ThreadIndex {
    var threads: Mapping
    var ids: set<ThreadId>

    constructor ()
      ensures threads == map[] && ids == {}
    {
      threads, ids := map[], {};
    }

    /** `_record_thread_mapping`. */
    method Record(channel: Channel, id: ThreadId)
      modifies this
      ensures threads == old(threads)[channel := id]
      ensures ids == Reindexed(old(threads), old(ids), channel, id)
    {
      var known := channel in threads;
      var oldId := if known then threads[channel] else "";
      threads := threads[channel := id];
      if known && oldId != "" {
        ids := ids - {oldId};
      }
      ids := ids + {id};
    }

    /** `_load_active_threads`: a missing file changes nothing, a file replaces everything. */
    method Load(disk: Option<Mapping>)
      modifies this
      ensures disk.None? ==> threads == old(threads) && ids == old(ids)
      ensures disk.Some? ==> threads == disk.value && ids == disk.value.Values
    {
      if disk.None? {
        return;
      }
      threads, ids := map[], {};
      var todo := disk.value.Keys;
      while todo != {}
        invariant Loading(disk.value, todo, threads, ids)
        decreases |todo|
      {
        var c :| c in todo;
        LoadStep(disk.value, todo, threads, ids, c);
        todo := todo - {c};
        threads := threads[c := disk.value[c]];
        ids := ids + {disk.value[c]};
      }
    }
  }

  /**
    When recording keeps the reverse set equal to the map's values: the channel was new, or keeps
    its id, or its old id served no other channel (an empty old id is never discarded).
   */
  lemma RecordIndexesIff(m: Mapping, channel: Channel, id: ThreadId)
    ensures Reindexed(m, m.Values, channel, id) == m[channel := id].Values <==>
              (channel in m ==> m[channel] == id || (m[channel] != "" <==> !Elsewhere(m, channel, m[channel])))
  {
    var m' := m[channel := id];
    forall t ensures t in m'.Values <==> t == id || Elsewhere(m, channel, t) {
      ValuesAfter(m, channel, id, t);
    }
    if channel in m {
      forall t | t != m[channel]
        ensures t in Reindexed(m, m.Values, channel, id) <==> t in m'.Values
      {
        if t in m.Values {
          var d :| d in m && m[d] == t;
          assert d != channel;
        }
      }
    }
  }

  /** With a fresh thread id the index stays exact, whatever the channel held before. */
  lemma FreshRecordKeepsIndex(m: Mapping, ids: set<ThreadId>, channel: Channel, id: ThreadId)
    requires Indexed(m, ids) && id !in ids && id != ""
    ensures Indexed(m[channel := id], Reindexed(m, ids, channel, id))
  {
    var m' := m[channel := id];
    RecordIndexesIff(m, channel, id);
    if channel in m {
      forall d | d in m && d != channel ensures m[d] != m[channel] {}
      assert m[channel] in m.Values;
    }
    forall c, d | c in m' && d in m' && c != d ensures m'[c] != m'[d] {
      assert c in m ==> m[c] in m.Values;
      assert d in m ==> m[d] in m.Values;
    }
    forall t | t in m'.Values ensures t != "" {
      var c :| c in m' && m'[c] == t;
      assert c != channel ==> m[c] in m.Values;
    }
  }

  // ---------------------------------------------------------------------------
  // Persistence: one recorder, any number of writer threads
  // ---------------------------------------------------------------------------

  type Worker = nat

  /** A `_persist_thread_mappings` call in its worker thread. */
  datatype Writer =
    | Queued                        // submitted; waiting for the store lock
    | Locked                        // lock taken, dict not yet copied
    | Snapped(copy: Mapping)        // dict copied, file not yet written

  datatype State = State(
    threads: Mapping,
    ids: set<ThreadId>,
    disk: Option<Mapping>,
    owed: bool,                     // recorded, persist not yet handed to a worker
    writers: map<Worker, Writer>,
    lock: Option<Worker>
  )

  datatype Action =
    | Record(channel: Channel, id: ThreadId)
    | Submit(w: Worker)
    | TakeLock(w: Worker)
    | Snapshot(w: Worker)
    | Write(w: Worker)
    | FailWrite(w: Worker)          // the write raises; it is logged and dropped

  predicate Enabled(s: State, a: Action) {
    match a
    case Record(_, _) => !s.owed
    case Submit(w) => s.owed && w !in s.writers
    case TakeLock(w) => w in s.writers && s.writers[w].Queued? && s.lock == None
    case Snapshot(w) => w in s.writers && s.writers[w].Locked?
    case Write(w) => w in s.writers && s.writers[w].Snapped?
    case FailWrite(w) => w in s.writers && !s.writers[w].Queued?
  }

  function Apply(s: State, a: Action): State
    requires Enabled(s, a)
  {
    match a
    case Record(c, id) =>
      s.(threads := s.threads[c := id], ids := Reindexed(s.threads, s.ids, c, id), owed := true)
    case Submit(w) => s.(owed := false, writers := s.writers[w := Queued])
    case TakeLock(w) => s.(lock := Some(w), writers := s.writers[w := Locked])
    case Snapshot(w) => s.(writers := s.writers[w := Snapped(s.threads)])
    case Write(w) => s.(disk := Some(s.writers[w].copy), lock := None, writers := s.writers - {w})
    case FailWrite(w) => s.(lock := None, writers := s.writers - {w})
  }

  /** A write is still to come that will copy the current map or a later one. */
  ghost predicate Pending(s: State) {
    s.owed || exists w :: w in s.writers && !s.writers[w].Snapped?
  }

  /** The file holds the map. */
  ghost predicate OnDisk(disk: Option<Mapping>, m: Mapping) {
    disk == Some(m) || (disk == None && m == map[])
  }

  /** A persist attempt that has ended: its last step, and the state before it. */
  datatype Ended = Ended(before: State, step: Action)

  predicate Ends(a: Action) {
    a.Write? || a.FailWrite?
  }

  function LastEnd(s: State, acts: seq<Action>, last: Option<Ended>): Option<Ended>
    decreases |acts|
  {
    if acts == [] || !Enabled(s, acts[0]) then last
    else LastEnd(Apply(s, acts[0]), acts[1..], if Ends(acts[0]) then Some(Ended(s, acts[0])) else last)
  }

  /** The attempt wrote its copy, or failed when the file held the map already. */
  ghost predicate WellEnded(last: Option<Ended>) {
    last.Some? ==> last.value.step.Write? || OnDisk(last.value.before.disk, last.value.before.threads)
  }

  /** Nothing has changed since the last attempt ended. */
  ghost predicate Settled(s: State, last: Option<Ended>) {
    if last.None? || last.value.step.Write? then OnDisk(s.disk, s.threads)
    else s.disk == last.value.before.disk && s.threads == last.value.before.threads
  }

  ghost predicate Locks(s: State) {
    && (forall w :: w in s.writers && !s.writers[w].Queued? ==> s.lock == Some(w))
    && (s.lock.Some? ==> s.lock.value in s.writers && !s.writers[s.lock.value].Queued?)
  }

  /** Unless a write is still to come or under way with the current map, the last attempt had the last word. */
  ghost predicate Inv(s: State, last: Option<Ended>) {
    && Locks(s)
    && (Pending(s)
        || (if s.lock.Some? then s.writers[s.lock.value] == Snapped(s.threads) else Settled(s, last)))
  }

  /** What loading the file yields. */
  function Restored(disk: Option<Mapping>): Mapping {
    if disk.Some? then disk.value else map[]
  }

  /** After loading: the memory mirrors the file and nothing is under way. */
  predicate Loaded(s: State) {
    && s.writers == map[] && s.lock == None && !s.owed
    && s.threads == Restored(s.disk) && s.ids == s.threads.Values
  }

  lemma StepKeepsInv(s: State, a: Action, last: Option<Ended>)
    requires Inv(s, last) && Enabled(s, a)
    ensures Inv(Apply(s, a), if Ends(a) then Some(Ended(s, a)) else last)
  {
    var s' := Apply(s, a);
    match a
    case Record(_, _) => assert Pending(s');
    case Submit(w) => assert w in s'.writers && !s'.writers[w].Snapped?;
    case TakeLock(w) => assert w in s'.writers && !s'.writers[w].Snapped?;
    case Snapshot(w) =>
    case Write(w) =>
      if Pending(s) && !s.owed {
        var u :| u in s.writers && !s.writers[u].Snapped?;
        assert u in s'.writers && !s'.writers[u].Snapped?;
      }
    case FailWrite(w) =>
  }

  ghost predicate Run(s: State, acts: seq<Action>, s': State)
    decreases |acts|
  {
    if acts == [] then s == s'
    else Enabled(s, acts[0]) && Run(Apply(s, acts[0]), acts[1..], s')
  }

  lemma {:induction false} RunKeepsInv(s: State, acts: seq<Action>, s': State, last: Option<Ended>)
    requires Inv(s, last) && Run(s, acts, s')
    ensures Inv(s', LastEnd(s, acts, last))
    decreases |acts|
  {
    if acts != [] {
      StepKeepsInv(s, acts[0], last);
      RunKeepsInv(Apply(s, acts[0]), acts[1..], s', if Ends(acts[0]) then Some(Ended(s, acts[0])) else last);
    }
  }

  predicate Quiescent(s: State) {
    !s.owed && s.writers == map[]
  }

  /** When no persist is outstanding, whatever ids were recorded: the file holds the memory map if and
      only if the last persist to end wrote its copy, or failed when the file held the map already. */
  lemma QuiescentDiskIsMemoryIff(s0: State, acts: seq<Action>, s: State)
    requires Loaded(s0) && Run(s0, acts, s) && Quiescent(s)
    ensures OnDisk(s.disk, s.threads) <==> WellEnded(LastEnd(s0, acts, None))
  {
    RunKeepsInv(s0, acts, s, None);
  }

  /**
    Whenever no persist is outstanding and the last one to end, if any, has written its copy, the
    file holds exactly the memory map, whatever failed before.
   */
  lemma QuiescentDiskIsMemory(s0: State, acts: seq<Action>, s: State)
    requires Loaded(s0) && Run(s0, acts, s) && Quiescent(s)
    requires var last := LastEnd(s0, acts, None); last.None? || last.value.step.Write?
    ensures OnDisk(s.disk, s.threads)
  {
    QuiescentDiskIsMemoryIff(s0, acts, s);
  }

  /** How many records came after the copy on disk was taken, and after the copy in hand was. */
  datatype Lag = Lag(disk: nat, copy: nat)

  function LagAfter(lag: Lag, a: Action): Lag {
    match a
    case Record(_, _) => Lag(lag.disk + 1, lag.copy + 1)
    case Snapshot(_) => lag.(copy := 0)
    case Write(_) => lag.(disk := lag.copy)
    case _ => lag
  }

  function LagOf(acts: seq<Action>, lag: Lag): Lag {
    if acts == [] then lag else LagOf(acts[1..], LagAfter(lag, acts[0]))
  }

  /** No recorded id was used before. */
  predicate NewIds(acts: seq<Action>, used: set<ThreadId>) {
    acts == [] || (
      if acts[0].Record? then acts[0].id !in used && NewIds(acts[1..], used + {acts[0].id})
      else NewIds(acts[1..], used))
  }

  /** The map has an id that the copy has not. */
  ghost predicate Ahead(m: Mapping, copy: Mapping) {
    exists t :: t in m.Values && t !in copy.Values
  }

  /** A copy is the map, or behind it if a record came in between. */
  ghost predicate Lags(copy: Mapping, m: Mapping, records: nat, used: set<ThreadId>) {
    copy.Values <= used && if records == 0 then copy == m else Ahead(m, copy)
  }

  ghost predicate Tracked(s: State, lag: Lag, used: set<ThreadId>) {
    && Locks(s) && s.threads.Values <= used
    && Lags(Restored(s.disk), s.threads, lag.disk, used)
    && (forall w :: w in s.writers && s.writers[w].Snapped? ==> Lags(s.writers[w].copy, s.threads, lag.copy, used))
  }

  lemma RecordLags(copy: Mapping, m: Mapping, records: nat, used: set<ThreadId>, channel: Channel, id: ThreadId)
    requires Lags(copy, m, records, used) && id !in used
    ensures Lags(copy, m[channel := id], records + 1, used + {id})
  {
    ValuesAfter(m, channel, id, id);
  }

  lemma RecordKeepsTracked(s: State, a: Action, lag: Lag, used: set<ThreadId>)
    requires Tracked(s, lag, used) && Enabled(s, a) && a.Record? && a.id !in used
    ensures Tracked(Apply(s, a), LagAfter(lag, a), used + {a.id})
  {
    var s' := Apply(s, a);
    forall t | t in s'.threads.Values ensures t in used + {a.id} { ValuesAfter(s.threads, a.channel, a.id, t); }
    RecordLags(Restored(s.disk), s.threads, lag.disk, used, a.channel, a.id);
    forall w | w in s'.writers && s'.writers[w].Snapped?
      ensures Lags(s'.writers[w].copy, s'.threads, lag.copy + 1, used + {a.id})
    {
      RecordLags(s.writers[w].copy, s.threads, lag.copy, used, a.channel, a.id);
    }
  }

  lemma OtherKeepsTracked(s: State, a: Action, lag: Lag, used: set<ThreadId>)
    requires Tracked(s, lag, used) && Enabled(s, a) && !a.Record?
    ensures Tracked(Apply(s, a), LagAfter(lag, a), used)
  {
  }

  lemma {:induction false} RunKeepsTracked(s: State, acts: seq<Action>, s': State, lag: Lag, used: set<ThreadId>)
      returns (used': set<ThreadId>)
    requires Tracked(s, lag, used) && Run(s, acts, s') && NewIds(acts, used)
    ensures Tracked(s', LagOf(acts, lag), used')
    decreases |acts|
  {
    if acts != [] {
      var a := acts[0];
      if a.Record? {
        RecordKeepsTracked(s, a, lag, used);
        used' := RunKeepsTracked(Apply(s, a), acts[1..], s', LagAfter(lag, a), used + {a.id});
      } else {
        OtherKeepsTracked(s, a, lag, used);
        used' := RunKeepsTracked(Apply(s, a), acts[1..], s', LagAfter(lag, a), used);
      }
    } else {
      used' := used;
    }
  }

  /**
    The exact condition, in every reachable state, whether or not persists are outstanding and whatever
    writes have failed, when no thread id is used twice: the file holds the memory map if and only if
    no record came after the snapshot that the last successful write put there (or since loading).
   */
  lemma DiskIsMemoryIff(s0: State, acts: seq<Action>, s: State)
    requires Loaded(s0) && Run(s0, acts, s) && NewIds(acts, s0.threads.Values)
    ensures OnDisk(s.disk, s.threads) <==> LagOf(acts, Lag(0, 0)).disk == 0
  {
    var used := RunKeepsTracked(s0, acts, s, Lag(0, 0), s0.threads.Values);
    assert OnDisk(s.disk, s.threads) ==> Restored(s.disk) == s.threads;
  }

  /** Every recorded thread id is new: it differs from "" and from all ids mapped when it is recorded. */
  ghost predicate FreshIds(s: State, acts: seq<Action>)
    decreases |acts|
  {
    acts != [] && Enabled(s, acts[0]) ==>
      && (acts[0].Record? ==> acts[0].id !in s.threads.Values && acts[0].id != "")
      && FreshIds(Apply(s, acts[0]), acts[1..])
  }

  /** On every run with fresh ids, failing writes included, the reverse set is exactly the map's values. */
  lemma {:induction false} RunKeepsIndex(s: State, acts: seq<Action>, s': State)
    requires Indexed(s.threads, s.ids) && Run(s, acts, s') && FreshIds(s, acts)
    ensures Indexed(s'.threads, s'.ids)
    decreases |acts|
  {
    if acts != [] {
      if acts[0].Record? {
        FreshRecordKeepsIndex(s.threads, s.ids, acts[0].channel, acts[0].id);
      }
      RunKeepsIndex(Apply(s, acts[0]), acts[1..], s');
    }
  }

  lemma {:induction false} NewIdsAreFresh(s: State, acts: seq<Action>, used: set<ThreadId>)
    requires NewIds(acts, used) && s.threads.Values <= used && "" in used
    ensures FreshIds(s, acts)
    decreases |acts|
  {
    if acts != [] && Enabled(s, acts[0]) {
      var a := acts[0];
      if a.Record? {
        forall t | t in Apply(s, a).threads.Values ensures t in used + {a.id} {
          ValuesAfter(s.threads, a.channel, a.id, t);
        }
      }
      NewIdsAreFresh(Apply(s, a), acts[1..], if a.Record? then used + {a.id} else used);
    }
  }

  lemma {:induction false} NewIdsShrink(acts: seq<Action>, used: set<ThreadId>, fewer: set<ThreadId>)
    requires NewIds(acts, used) && fewer <= used
    ensures NewIds(acts, fewer)
    decreases |acts|
  {
    if acts != [] {
      if acts[0].Record? {
        NewIdsShrink(acts[1..], used + {acts[0].id}, fewer + {acts[0].id});
      } else {
        NewIdsShrink(acts[1..], used, fewer);
      }
    }
  }

  /**
    Restart at any moment of any run: from a loaded injective file, with no thread id used twice,
    loading what is on disk restores the map if and only if no record came after the snapshot of the
    last successful write, and then the reverse set as well.
   */
  lemma ReloadRestores(s0: State, acts: seq<Action>, s: State)
    requires Loaded(s0) && Injective(s0.threads) && "" !in s0.threads.Values
    requires Run(s0, acts, s) && NewIds(acts, s0.threads.Values + {""})
    ensures Restored(s.disk) == s.threads <==> LagOf(acts, Lag(0, 0)).disk == 0
    ensures Restored(s.disk) == s.threads ==> Restored(s.disk).Values == s.ids
  {
    NewIdsShrink(acts, s0.threads.Values + {""}, s0.threads.Values);
    var used := RunKeepsTracked(s0, acts, s, Lag(0, 0), s0.threads.Values);
    NewIdsAreFresh(s0, acts, s0.threads.Values + {""});
    RunKeepsIndex(s0, acts, s);
  }

  /** One failed write is enough to leave the file behind the memory with nothing outstanding. */
  lemma FailedWriteForgets() returns (acts: seq<Action>, s: State)
    ensures Run(State(map[], {}, None, false, map[], None), acts, s)
    ensures !s.owed && s.writers == map[] && !OnDisk(s.disk, s.threads)
  {
    var s0 := State(map[], {}, None, false, map[], None);
    acts := [Record("c", "t"), Submit(0), TakeLock(0), FailWrite(0)];
    var s1 := Apply(s0, acts[0]);
    var s2 := Apply(s1, acts[1]);
    var s3 := Apply(s2, acts[2]);
    s := Apply(s3, acts[3]);
    assert acts[1..][1..][1..][1..] == [];
    assert Run(s, [], s);
    assert Run(s3, acts[1..][1..][1..], s);
    assert Run(s2, acts[1..][1..], s);
    assert Run(s1, acts[1..], s);
    assert s.threads["c"] == "t";
  }

  /** Two channels sharing a thread (a repeated id) break the reverse set on the next record. */
  lemma SharedThreadMisfiles(m: Mapping, c: Channel, d: Channel, id: ThreadId)
    requires c in m && d in m && c != d && m[c] == m[d] && m[c] != "" && id != m[c]
    ensures m[c] in m[c := id].Values && m[c] !in Reindexed(m, m.Values, c, id)
  {
    assert m[c := id][d] == m[c];
  }
}
