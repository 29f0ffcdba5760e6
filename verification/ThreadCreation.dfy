/**
  The per-conversation thread-creation protocol of `ChannelManager`
  (backend/app/channels/manager.py): double-checked creation under an
  `asyncio.Lock` taken from a registry that every finishing task edits.

  The model is a transition system. One action is one stretch of a coroutine
  between two suspension points, or the effect of a remote call while its caller
  is suspended. Lock objects have identities of their own (`LockId`), because a
  lock that was dropped from the registry can still have waiters.
 */
module ThreadCreation {
  import opened Options
  import ChannelStore

  type TaskId = nat
  type LockId = nat

  /** Gateway thread ids are non-empty strings. */
  type ThreadId = s: string | s != "" witness "thread"

  /** An inbound message; `""` stands for an absent connection or owner, which the
      source only ever tests for truth. */
  datatype Inbound = Inbound(channel: string, chat: string, topic: Option<string>,
                             connection: string, owner: string, preferred: Option<ThreadId>)

  datatype LockKey = LockKey(channel: string, chat: string, topic: Option<string>)

  /** Where the mapping of a conversation lives: a row of the connection
      repository, or an entry of the JSON channel store. */
  datatype Ident =
    | Row(connection: string, chat: string, topic: string)
    | Entry(key: string)

  function KeyOf(m: Inbound): LockKey {
    LockKey(m.channel, m.chat, m.topic)
  }

  function RowOf(m: Inbound): Ident {
    Row(m.connection, m.chat, if m.topic.Some? then m.topic.value else "")
  }

  function EntryOf(m: Inbound): Ident {
    Entry(ChannelStore.Key(m.channel, m.chat, m.topic))
  }

  /** `_lookup_thread_id` reads the repository row for every connected message. */
  function LookupIdent(hasRepo: bool, m: Inbound): Ident {
    if m.connection != "" && hasRepo then RowOf(m) else EntryOf(m)
  }

  /** `_store_thread_id` also needs an owner before it writes the repository row. */
  function StoreIdent(hasRepo: bool, m: Inbound): Ident {
    if m.connection != "" && m.owner != "" && hasRepo then RowOf(m) else EntryOf(m)
  }

  /** Program counters of `_get_or_create_thread` and `_create_thread`. */
  datatype Pc =
    | Looking                                              // first lookup pending
    | Looked(found: Option<ThreadId>)                      // first lookup answered
    | Waiting(lock: LockId)                                // queued on the lock
    | Rechecking(lock: LockId)                             // lock held, second lookup pending
    | Rechecked(lock: LockId, found: Option<ThreadId>)     // second lookup answered
    | Creating(lock: LockId)                               // threads.create pending
    | Verifying(lock: LockId)                              // 409 received, threads.get pending
    | Storing(lock: LockId, id: ThreadId)                  // mapping write pending
    | Stored(lock: LockId, id: ThreadId)                   // mapping written
    | Returned(id: ThreadId, created: bool)
    | Raised
  {
    /** The task is inside the `async with lock` block. */
    predicate Critical() {
      Rechecking? || Rechecked? || Creating? || Verifying? || Storing? || Stored?
    }

    /** The task is inside the `try`/`finally` that drops the registry entry. */
    predicate Locking() {
      Waiting? || Critical()
    }

    predicate InFlight() {
      !Returned? && !Raised?
    }

    /** The task has decided to create and has not yet written the mapping. */
    predicate Committed() {
      Creating? || Verifying? || Storing? || (Rechecked? && found.None?)
    }
  }

  datatype Task = Task(msg: Inbound, pc: Pc)

  datatype Lock = Lock(holder: Option<TaskId>, waiters: seq<TaskId>)

  /** A registry entry remembers (for the proofs) which task inserted it. */
  datatype Registered = Registered(lock: LockId, inserter: TaskId)

  datatype State = State(
    hasRepo: bool,
    tasks: map<TaskId, Task>,
    registry: map<LockKey, Registered>,
    locks: map<LockId, Lock>,
    mappings: map<Ident, ThreadId>,
    gateway: set<ThreadId>,        // threads that exist at the Gateway
    creators: set<TaskId>          // tasks that ever entered _create_thread
  )

  datatype Action =
    | Arrive(t: TaskId, msg: Inbound)
    | ReadFirst(t: TaskId)
    | ResumeFirst(t: TaskId, spare: LockId)
    | TakeLock(t: TaskId)
    | ReadAgain(t: TaskId)
    | ResumeAgain(t: TaskId)
    | GatewayCreates(t: TaskId, id: ThreadId)
    | GatewayConflicts(t: TaskId)
    | GatewayConfirms(t: TaskId)
    | WriteMapping(t: TaskId)
    | ResumeStored(t: TaskId)
    | Fail(t: TaskId)                          // the awaited call raises, or the task is cancelled
    | Overwrite(ident: Ident, id: ThreadId)    // a /new or /goal command stores a thread

  function Lookup(s: State, m: Inbound): Option<ThreadId> {
    var i := LookupIdent(s.hasRepo, m);
    if i in s.mappings then Some(s.mappings[i]) else None
  }

  function Goto(s: State, t: TaskId, pc: Pc): State
    requires t in s.tasks
  {
    s.(tasks := s.tasks[t := s.tasks[t].(pc := pc)])
  }

  function Without(ts: seq<TaskId>, t: TaskId): seq<TaskId> {
    if ts == [] then []
    else if ts[0] == t then Without(ts[1..], t)
    else [ts[0]] + Without(ts[1..], t)
  }

  /** Leave the lock (as holder or as cancelled waiter), run the `finally`, and end. */
  function Finish(s: State, t: TaskId, pc: Pc): State
    requires t in s.tasks && s.tasks[t].pc.Locking() && s.tasks[t].pc.lock in s.locks
  {
    var l := s.tasks[t].pc.lock;
    var lock := s.locks[l];
    var left := if s.tasks[t].pc.Waiting? then lock.(waiters := Without(lock.waiters, t))
                else lock.(holder := None);
    Goto(s, t, pc).(locks := s.locks[l := left], registry := s.registry - {KeyOf(s.tasks[t].msg)})
  }

  predicate Enabled(s: State, a: Action) {
    match a
    case Arrive(t, _) => t !in s.tasks
    case Overwrite(_, _) => true
    case ReadFirst(t) => t in s.tasks && s.tasks[t].pc.Looking?
    case ResumeFirst(t, spare) => t in s.tasks && s.tasks[t].pc.Looked? && spare !in s.locks
    case TakeLock(t) =>
      && t in s.tasks && s.tasks[t].pc.Waiting? && s.tasks[t].pc.lock in s.locks
      && var lock := s.locks[s.tasks[t].pc.lock];
      && lock.holder == None && lock.waiters != [] && lock.waiters[0] == t
    case ReadAgain(t) => t in s.tasks && s.tasks[t].pc.Rechecking?
    case ResumeAgain(t) => t in s.tasks && s.tasks[t].pc.Rechecked? && s.tasks[t].pc.lock in s.locks
    case GatewayCreates(t, _) => t in s.tasks && s.tasks[t].pc.Creating?
    case GatewayConflicts(t) => t in s.tasks && s.tasks[t].pc.Creating? && s.tasks[t].pc.lock in s.locks
    case GatewayConfirms(t) =>
      && t in s.tasks && s.tasks[t].pc.Verifying?
      && s.tasks[t].msg.preferred.Some? && s.tasks[t].msg.preferred.value in s.gateway
    case WriteMapping(t) => t in s.tasks && s.tasks[t].pc.Storing?
    case ResumeStored(t) => t in s.tasks && s.tasks[t].pc.Stored? && s.tasks[t].pc.lock in s.locks
    case Fail(t) =>
      && t in s.tasks && s.tasks[t].pc.InFlight()
      && (s.tasks[t].pc.Locking() ==> s.tasks[t].pc.lock in s.locks)
  }

  /** `setdefault` on the registry, then the fair `asyncio.Lock.acquire`: the lock is
      taken at once only when it is free and nobody queues for it. */
  function Acquire(s: State, t: TaskId, spare: LockId): State
    requires t in s.tasks && spare !in s.locks
  {
    var k := KeyOf(s.tasks[t].msg);
    var l := if k in s.registry then s.registry[k].lock else spare;
    var registry := if k in s.registry then s.registry else s.registry[k := Registered(spare, t)];
    var lock := if l in s.locks then s.locks[l] else Lock(None, []);
    var free := lock.holder == None && lock.waiters == [];
    s.(tasks := s.tasks[t := s.tasks[t].(pc := if free then Rechecking(l) else Waiting(l))],
       registry := registry,
       locks := s.locks[l := if free then Lock(Some(t), []) else Lock(lock.holder, lock.waiters + [t])])
  }

  function Apply(s: State, a: Action): State
    requires Enabled(s, a)
  {
    match a
    case Arrive(t, msg) => s.(tasks := s.tasks[t := Task(msg, Looking)])
    case ReadFirst(t) => Goto(s, t, Looked(Lookup(s, s.tasks[t].msg)))
    case ResumeFirst(t, spare) =>
      if s.tasks[t].pc.found.Some? then Goto(s, t, Returned(s.tasks[t].pc.found.value, false))
      else Acquire(s, t, spare)
    case TakeLock(t) =>
      var l := s.tasks[t].pc.lock;
      Goto(s, t, Rechecking(l)).(locks := s.locks[l := Lock(Some(t), s.locks[l].waiters[1..])])
    case ReadAgain(t) => Goto(s, t, Rechecked(s.tasks[t].pc.lock, Lookup(s, s.tasks[t].msg)))
    case ResumeAgain(t) =>
      var pc := s.tasks[t].pc;
      if pc.found.Some? then Finish(s, t, Returned(pc.found.value, false))
      else Goto(s, t, Creating(pc.lock)).(creators := s.creators + {t})
    case GatewayCreates(t, id) =>
      Goto(s, t, Storing(s.tasks[t].pc.lock, id)).(gateway := s.gateway + {id})
    case GatewayConflicts(t) =>
      if s.tasks[t].msg.preferred.None? then Finish(s, t, Raised)
      else Goto(s, t, Verifying(s.tasks[t].pc.lock))
    case GatewayConfirms(t) => Goto(s, t, Storing(s.tasks[t].pc.lock, s.tasks[t].msg.preferred.value))
    case WriteMapping(t) =>
      var pc := s.tasks[t].pc;
      Goto(s, t, Stored(pc.lock, pc.id)).(mappings := s.mappings[StoreIdent(s.hasRepo, s.tasks[t].msg) := pc.id])
    case ResumeStored(t) => Finish(s, t, Returned(s.tasks[t].pc.id, true))
    case Fail(t) =>
      if s.tasks[t].pc.Locking() then Finish(s, t, Raised) else Goto(s, t, Raised)
    case Overwrite(ident, id) => s.(mappings := s.mappings[ident := id], gateway := s.gateway + {id})
  }

  /** A manager that has handled nothing yet, over some stored mappings. */
  predicate Initial(s: State) {
    && s.tasks == map[] && s.registry == map[] && s.locks == map[] && s.creators == {}
    && (forall i :: i in s.mappings ==> s.mappings[i] in s.gateway)
  }

  ghost predicate Run(s: State, acts: seq<Action>, s': State)
    decreases |acts|
  {
    if acts == [] then s == s'
    else Enabled(s, acts[0]) && Run(Apply(s, acts[0]), acts[1..], s')
  }

  // ---------------------------------------------------------------------------
  // What holds on every run, whatever raises and whatever is overwritten
  // ---------------------------------------------------------------------------

  /** A task inside the lock block is seated at its lock: as holder, or in its queue. */
  ghost predicate Seated(s: State, t: TaskId)
    requires t in s.tasks
  {
    var pc := s.tasks[t].pc;
    pc.Locking() ==>
      && pc.lock in s.locks
      && (if pc.Waiting? then t in s.locks[pc.lock].waiters else s.locks[pc.lock].holder == Some(t))
  }

  ghost predicate At(s: State, t: TaskId, l: LockId) {
    t in s.tasks && s.tasks[t].pc.Locking() && s.tasks[t].pc.lock == l
  }

  /** Conversely, a lock's holder and queue are tasks at that point of their code. */
  ghost predicate Manned(s: State, l: LockId)
    requires l in s.locks
  {
    var lock := s.locks[l];
    && (lock.holder.Some? ==> At(s, lock.holder.value, l) && s.tasks[lock.holder.value].pc.Critical())
    && (forall t :: t in lock.waiters ==> At(s, t, l) && s.tasks[t].pc.Waiting?)
    && Distinct(lock.waiters)
  }

  ghost predicate LocksAgree(s: State) {
    && (forall t :: t in s.tasks ==> Seated(s, t))
    && (forall l :: l in s.locks ==> Manned(s, l))
  }

  ghost predicate Distinct(ts: seq<TaskId>) {
    forall i, j :: 0 <= i < j < |ts| ==> ts[i] != ts[j]
  }

  /** A registry entry was inserted by a task that still has to run its `finally`. */
  ghost predicate Owned(s: State, k: LockKey)
    requires k in s.registry
  {
    var e := s.registry[k];
    && e.lock in s.locks
    && e.inserter in s.tasks
    && s.tasks[e.inserter].pc.Locking()
    && KeyOf(s.tasks[e.inserter].msg) == k
  }

  ghost predicate RegistryOwned(s: State) {
    forall k :: k in s.registry ==> Owned(s, k)
  }

  /** Every id in a mapping, or in the hands of a task, names an existing thread. */
  ghost predicate Backed(pc: Pc, gateway: set<ThreadId>) {
    match pc
    case Looked(Some(id)) => id in gateway
    case Rechecked(_, Some(id)) => id in gateway
    case Storing(_, id) => id in gateway
    case Stored(_, id) => id in gateway
    case Returned(id, _) => id in gateway
    case _ => true
  }

  ghost predicate ThreadsExist(s: State) {
    && (forall i :: i in s.mappings ==> s.mappings[i] in s.gateway)
    && (forall t :: t in s.tasks ==> Backed(s.tasks[t].pc, s.gateway))
  }

  ghost predicate Inv(s: State) {
    LocksAgree(s) && RegistryOwned(s) && ThreadsExist(s) && s.creators <= s.tasks.Keys
  }

  lemma WithoutMembers(ts: seq<TaskId>, t: TaskId)
    ensures forall u :: u in Without(ts, t) <==> u in ts && u != t
    ensures Distinct(ts) ==> Distinct(Without(ts, t))
  {
    if ts != [] {
      WithoutMembers(ts[1..], t);
      assert ts == [ts[0]] + ts[1..];
      assert Distinct(ts) ==> Distinct(ts[1..]) && ts[0] !in ts[1..];
    }
  }

  lemma FinishMans(s: State, t: TaskId, pc: Pc, m: LockId)
    requires Inv(s) && t in s.tasks && s.tasks[t].pc.Locking() && s.tasks[t].pc.lock in s.locks
    requires !pc.Locking() && m in s.locks
    ensures Manned(Finish(s, t, pc), m)
  {
    var s' := Finish(s, t, pc);
    assert Manned(s, m) && Seated(s, t);
    WithoutMembers(s.locks[m].waiters, t);
    forall u | u in s'.locks[m].waiters ensures At(s', u, m) && s'.tasks[u].pc.Waiting? {
      assert At(s, u, m);
    }
  }

  lemma FinishSeats(s: State, t: TaskId, pc: Pc, u: TaskId)
    requires Inv(s) && t in s.tasks && s.tasks[t].pc.Locking() && s.tasks[t].pc.lock in s.locks
    requires !pc.Locking() && u in s.tasks
    ensures Seated(Finish(s, t, pc), u)
  {
    if u != t && s.tasks[u].pc.Locking() {
      OtherStaysSeated(s, t, pc, u);
    }
  }

  lemma OtherStaysSeated(s: State, t: TaskId, pc: Pc, u: TaskId)
    requires LocksAgree(s) && t in s.tasks && s.tasks[t].pc.Locking() && s.tasks[t].pc.lock in s.locks
    requires u in s.tasks && u != t && s.tasks[u].pc.Locking()
    ensures Seated(Finish(s, t, pc), u)
  {
    assert Seated(s, u) && Seated(s, t);
    WithoutMembers(s.locks[s.tasks[t].pc.lock].waiters, t);
  }

  lemma FinishKeepsInv(s: State, t: TaskId, pc: Pc)
    requires Inv(s) && t in s.tasks && s.tasks[t].pc.Locking() && s.tasks[t].pc.lock in s.locks
    requires pc.Raised? || (pc.Returned? && pc.id in s.gateway)
    ensures Inv(Finish(s, t, pc))
  {
    var s' := Finish(s, t, pc);
    forall u | u in s'.tasks ensures Seated(s', u) && Backed(s'.tasks[u].pc, s'.gateway) {
      FinishSeats(s, t, pc, u);
      assert Backed(s.tasks[u].pc, s.gateway);
    }
    forall m | m in s'.locks ensures Manned(s', m) { FinishMans(s, t, pc, m); }
    forall k | k in s'.registry ensures Owned(s', k) { assert Owned(s, k); }
  }

  /** The lock that `setdefault` yields is in place and does not know the task yet. */
  lemma AcquireTarget(s: State, t: TaskId, spare: LockId)
    requires Inv(s) && t in s.tasks && s.tasks[t].pc.Looked? && spare !in s.locks
    ensures var l := Acquire(s, t, spare).tasks[t].pc.lock;
            l in s.locks ==> Manned(s, l) && t !in s.locks[l].waiters
  {
    var k := KeyOf(s.tasks[t].msg);
    if k in s.registry {
      assert Owned(s, k);
      assert Manned(s, s.registry[k].lock);
    }
  }

  lemma AcquireSeats(s: State, t: TaskId, spare: LockId)
    requires Inv(s) && t in s.tasks && s.tasks[t].pc.Looked? && spare !in s.locks
    ensures var s' := Acquire(s, t, spare); forall u :: u in s'.tasks ==> Seated(s', u)
  {
    var s' := Acquire(s, t, spare);
    forall u | u in s'.tasks ensures Seated(s', u) {
      if u != t { assert Seated(s, u); }
    }
  }

  lemma AcquireMans(s: State, t: TaskId, spare: LockId, m: LockId)
    requires Inv(s) && t in s.tasks && s.tasks[t].pc.Looked? && spare !in s.locks
    requires m in Acquire(s, t, spare).locks
    ensures Manned(Acquire(s, t, spare), m)
  {
    AcquireTarget(s, t, spare);
    if m == Acquire(s, t, spare).tasks[t].pc.lock {
      TargetManned(s, t, spare);
    } else {
      assert Manned(s, m);
    }
  }

  lemma TargetManned(s: State, t: TaskId, spare: LockId)
    requires t in s.tasks && s.tasks[t].pc.Looked? && spare !in s.locks
    requires var l := Acquire(s, t, spare).tasks[t].pc.lock;
             l in s.locks ==> Manned(s, l) && t !in s.locks[l].waiters
    ensures Manned(Acquire(s, t, spare), Acquire(s, t, spare).tasks[t].pc.lock)
  {
    var s' := Acquire(s, t, spare);
    var l := s'.tasks[t].pc.lock;
    forall u | u in s'.locks[l].waiters ensures At(s', u, l) && s'.tasks[u].pc.Waiting? {
      assert u != t ==> l in s.locks && At(s, u, l);
    }
  }

  lemma AcquireOwns(s: State, t: TaskId, spare: LockId)
    requires Inv(s) && t in s.tasks && s.tasks[t].pc.Looked? && spare !in s.locks
    ensures RegistryOwned(Acquire(s, t, spare))
  {
    var s' := Acquire(s, t, spare);
    forall k | k in s'.registry ensures Owned(s', k) { assert k in s.registry ==> Owned(s, k); }
  }

  lemma AcquireKeepsInv(s: State, t: TaskId, spare: LockId)
    requires Inv(s) && t in s.tasks && s.tasks[t].pc.Looked? && spare !in s.locks
    ensures Inv(Acquire(s, t, spare))
  {
    var s' := Acquire(s, t, spare);
    AcquireSeats(s, t, spare);
    forall m | m in s'.locks ensures Manned(s', m) { AcquireMans(s, t, spare, m); }
    AcquireOwns(s, t, spare);
    forall u | u in s'.tasks ensures Backed(s'.tasks[u].pc, s'.gateway) { assert Backed(s.tasks[u].pc, s.gateway); }
  }

  lemma TakeLockSeats(s: State, t: TaskId, u: TaskId)
    requires Inv(s) && Enabled(s, TakeLock(t)) && u in s.tasks
    ensures Seated(Apply(s, TakeLock(t)), u)
  {
    var l := s.tasks[t].pc.lock;
    assert s.locks[l].waiters == [t] + s.locks[l].waiters[1..];
    assert Seated(s, u);
  }

  lemma TakeLockMans(s: State, t: TaskId, m: LockId)
    requires Inv(s) && Enabled(s, TakeLock(t)) && m in s.locks
    ensures Manned(Apply(s, TakeLock(t)), m)
  {
    var s' := Apply(s, TakeLock(t));
    assert Manned(s, m) && Manned(s, s.tasks[t].pc.lock);
    forall u | u in s'.locks[m].waiters ensures At(s', u, m) && s'.tasks[u].pc.Waiting? {
      assert At(s, u, m);
    }
  }

  lemma TakeLockKeepsInv(s: State, t: TaskId)
    requires Inv(s) && Enabled(s, TakeLock(t))
    ensures Inv(Apply(s, TakeLock(t)))
  {
    var s' := Apply(s, TakeLock(t));
    forall u | u in s'.tasks ensures Seated(s', u) && Backed(s'.tasks[u].pc, s'.gateway) {
      TakeLockSeats(s, t, u);
      assert Backed(s.tasks[u].pc, s.gateway);
    }
    forall m | m in s'.locks ensures Manned(s', m) { TakeLockMans(s, t, m); }
    forall k | k in s'.registry ensures Owned(s', k) { assert Owned(s, k); }
  }

  /** Steps that leave locks and registry alone and keep the task at its seat. */
  lemma MoveKeepsInv(s: State, t: TaskId, pc: Pc, mappings: map<Ident, ThreadId>,
                     gateway: set<ThreadId>, creators: set<TaskId>)
    requires Inv(s) && t in s.tasks && Backed(pc, gateway) && s.gateway <= gateway
    requires forall i :: i in mappings ==> mappings[i] in gateway
    requires creators <= s.tasks.Keys
    requires var was := s.tasks[t].pc;
             was.Locking() == pc.Locking() && was.Critical() == pc.Critical()
             && (pc.Locking() ==> pc.lock == was.lock)
    ensures Inv(Goto(s, t, pc).(mappings := mappings, gateway := gateway, creators := creators))
  {
    var s' := Goto(s, t, pc).(mappings := mappings, gateway := gateway, creators := creators);
    forall u | u in s'.tasks ensures Seated(s', u) { assert Seated(s, u); }
    forall m | m in s'.locks ensures Manned(s', m) { assert Manned(s, m); }
    forall k | k in s'.registry ensures Owned(s', k) { assert Owned(s, k); }
    forall u | u in s'.tasks ensures Backed(s'.tasks[u].pc, gateway) { assert Backed(s.tasks[u].pc, s.gateway); }
  }

  /** Actions that only add a task or touch mappings keep everybody seated. */
  lemma BackgroundKeepsInv(s: State, a: Action)
    requires Inv(s) && Enabled(s, a) && (a.Arrive? || a.Overwrite?)
    ensures Inv(Apply(s, a))
  {
    var s' := Apply(s, a);
    forall u | u in s'.tasks ensures Seated(s', u) && Backed(s'.tasks[u].pc, s'.gateway) {
      assert u in s.tasks ==> Seated(s, u) && Backed(s.tasks[u].pc, s.gateway);
    }
    forall m | m in s'.locks ensures Manned(s', m) { assert Manned(s, m); }
    forall k | k in s'.registry ensures Owned(s', k) { assert Owned(s, k); }
  }

  /** The actions that move one task without touching a lock or the registry. */
  predicate Moves(s: State, a: Action)
    requires Enabled(s, a)
  {
    match a
    case ReadFirst(_) => true
    case ReadAgain(_) => true
    case GatewayCreates(_, _) => true
    case GatewayConfirms(_) => true
    case WriteMapping(_) => true
    case ResumeFirst(t, _) => s.tasks[t].pc.found.Some?
    case ResumeAgain(t) => s.tasks[t].pc.found.None?
    case GatewayConflicts(t) => s.tasks[t].msg.preferred.Some?
    case Fail(t) => !s.tasks[t].pc.Locking()
    case _ => false
  }

  lemma MoveIsGoto(s: State, a: Action)
    requires Enabled(s, a) && Moves(s, a)
    ensures a.t in s.tasks && a.t in Apply(s, a).tasks
    ensures var s' := Apply(s, a);
            s' == Goto(s, a.t, s'.tasks[a.t].pc).(mappings := s'.mappings, gateway := s'.gateway,
              creators := s'.creators)
    ensures Apply(s, a).creators <= s.creators + {a.t} && s.gateway <= Apply(s, a).gateway
  {
  }

  lemma MovesKeepInv(s: State, a: Action)
    requires Inv(s) && Enabled(s, a) && Moves(s, a)
    ensures Inv(Apply(s, a))
  {
    var s' := Apply(s, a);
    MoveIsGoto(s, a);
    assert Backed(s.tasks[a.t].pc, s.gateway);
    MoveKeepsInv(s, a.t, s'.tasks[a.t].pc, s'.mappings, s'.gateway, s'.creators);
  }

  lemma StepKeepsInv(s: State, a: Action)
    requires Inv(s) && Enabled(s, a)
    ensures Inv(Apply(s, a))
  {
    if a.Arrive? || a.Overwrite? {
      BackgroundKeepsInv(s, a);
    } else if Moves(s, a) {
      MovesKeepInv(s, a);
    } else if a.ResumeFirst? {
      AcquireKeepsInv(s, a.t, a.spare);
    } else if a.TakeLock? {
      TakeLockKeepsInv(s, a.t);
    } else {
      assert Seated(s, a.t) && Backed(s.tasks[a.t].pc, s.gateway);
      FinishKeepsInv(s, a.t, Apply(s, a).tasks[a.t].pc);
    }
  }

  lemma {:induction false} RunKeepsInv(s: State, acts: seq<Action>, s': State)
    requires Inv(s) && Run(s, acts, s')
    ensures Inv(s')
    decreases |acts|
  {
    if acts != [] {
      StepKeepsInv(s, acts[0]);
      RunKeepsInv(Apply(s, acts[0]), acts[1..], s');
    }
  }

  function InFlightTasks(s: State): set<TaskId> {
    set t | t in s.tasks && s.tasks[t].pc.InFlight()
  }

  /** Distinct registry keys have distinct inserters. */
  lemma InserterBound(s: State, keys: set<LockKey>, ts: set<TaskId>)
    requires keys <= s.registry.Keys
    requires forall k :: k in keys ==> Owned(s, k) && s.registry[k].inserter in ts
    ensures |keys| <= |ts|
    decreases |keys|
  {
    if keys != {} {
      var k :| k in keys;
      assert Owned(s, k);
      var t := s.registry[k].inserter;
      forall k2 | k2 in keys - {k} ensures s.registry[k2].inserter in ts - {t} {
        assert Owned(s, k2);
      }
      InserterBound(s, keys - {k}, ts - {t});
      assert |keys - {k}| == |keys| - 1 && |ts - {t}| == |ts| - 1;
    }
  }

  /**
    On every run, raising creates, cancelled tasks and overwriting commands included:
    each registry entry was put there by a task of that conversation that is still in
    flight, so the registry never outgrows the tasks in flight and is empty when none
    is running; and every id a task returns names a thread that exists at the Gateway.
   */
  lemma RegistryBounded(s0: State, acts: seq<Action>, s: State)
    requires Initial(s0) && Run(s0, acts, s)
    ensures forall k :: k in s.registry ==>
              && s.registry[k].inserter in InFlightTasks(s)
              && KeyOf(s.tasks[s.registry[k].inserter].msg) == k
    ensures |s.registry| <= |InFlightTasks(s)|
    ensures InFlightTasks(s) == {} ==> s.registry == map[]
    ensures forall t :: t in s.tasks && s.tasks[t].pc.Returned? ==> s.tasks[t].pc.id in s.gateway
    ensures s.mappings.Values <= s.gateway
  {
    RunKeepsInv(s0, acts, s);
    EntriesBounded(s);
    ReturnedExist(s);
  }

  lemma EntriesBounded(s: State)
    requires RegistryOwned(s)
    ensures forall k :: k in s.registry ==>
              && s.registry[k].inserter in InFlightTasks(s)
              && KeyOf(s.tasks[s.registry[k].inserter].msg) == k
    ensures |s.registry| <= |InFlightTasks(s)|
    ensures InFlightTasks(s) == {} ==> s.registry == map[]
  {
    forall k | k in s.registry ensures Owned(s, k) && s.registry[k].inserter in InFlightTasks(s) {}
    InserterBound(s, s.registry.Keys, InFlightTasks(s));
    assert |s.registry.Keys| == |s.registry|;
  }

  lemma ReturnedExist(s: State)
    requires ThreadsExist(s)
    ensures forall t :: t in s.tasks && s.tasks[t].pc.Returned? ==> s.tasks[t].pc.id in s.gateway
  {
    forall t | t in s.tasks && s.tasks[t].pc.Returned? ensures s.tasks[t].pc.id in s.gateway {
      assert Backed(s.tasks[t].pc, s.gateway);
    }
  }

  /** The next step of a task that is not queueing for a lock. */
  function OwnStep(s: State, t: TaskId, id: ThreadId, spare: LockId): Action
    requires t in s.tasks
  {
    match s.tasks[t].pc
    case Looking => ReadFirst(t)
    case Looked(_) => ResumeFirst(t, spare)
    case Rechecking(_) => ReadAgain(t)
    case Rechecked(_, _) => ResumeAgain(t)
    case Creating(_) => GatewayCreates(t, id)
    case Storing(_, _) => WriteMapping(t)
    case Stored(_, _) => ResumeStored(t)
    case _ =>
      var preferred := s.tasks[t].msg.preferred;
      if preferred.Some? && preferred.value in s.gateway then GatewayConfirms(t) else Fail(t)
  }

  /**
    The protocol never wedges: while some task is in flight, some task has a step of its
    own to take; in particular no wake-up is lost when a lock holder raises or is cancelled.
   */
  lemma NoDeadlock(s0: State, acts: seq<Action>, s: State, t: TaskId) returns (a: Action)
    requires Initial(s0) && Run(s0, acts, s) && t in InFlightTasks(s)
    ensures Enabled(s, a) && !a.Arrive? && !a.Overwrite?
    ensures a.Fail? ==> a.t in s.tasks && s.tasks[a.t].pc.Verifying? && !Enabled(s, GatewayConfirms(a.t))
  {
    RunKeepsInv(s0, acts, s);
    var spare := FreshLock(s.locks.Keys);
    assert Seated(s, t);
    if s.tasks[t].pc.Waiting? {
      var l := s.tasks[t].pc.lock;
      assert Manned(s, l);
      var lock := s.locks[l];
      if lock.holder.Some? {
        assert At(s, lock.holder.value, l);
        a := OwnStep(s, lock.holder.value, "thread", spare);
      } else {
        assert lock.waiters[0] in lock.waiters;
        assert At(s, lock.waiters[0], l);
        a := TakeLock(lock.waiters[0]);
      }
    } else {
      a := OwnStep(s, t, "thread", spare);
    }
  }

  lemma FreshLock(used: set<LockId>) returns (l: LockId)
    ensures l !in used && forall u :: u in used ==> u < l
    decreases |used|
  {
    if used == {} {
      l := 0;
    } else {
      var u :| u in used;
      var m := FreshLock(used - {u});
      assert used == (used - {u}) + {u};
      l := if m <= u then u + 1 else m;
    }
  }

  // ---------------------------------------------------------------------------
  // Which messages share a thread, by their fields
  // ---------------------------------------------------------------------------

  function TopicText(m: Inbound): string {
    if m.topic.Some? then m.topic.value else ""
  }

  /** The same chat and topic (none and an empty one alike), in the same connection of the repository or
      in the same channel of the store. */
  predicate SameThread(inRepoM: bool, inRepoN: bool, m: Inbound, n: Inbound) {
    && inRepoM == inRepoN && m.chat == n.chat && TopicText(m) == TopicText(n)
    && if inRepoM then m.connection == n.connection else m.channel == n.channel
  }

  /** The store joins channel and chat by colons; a message that may be kept there has none in them. */
  ghost predicate ColonFree(hasRepo: bool, m: Inbound) {
    (hasRepo && m.connection != "" && m.owner != "") || (':' !in m.channel && ':' !in m.chat)
  }

  /** A message reads what another one reads, or writes, exactly when they share a thread by their fields.
      Under a repository a connected message reads there, and writes there if it has an owner. */
  lemma PlacesIff(hasRepo: bool, m: Inbound, n: Inbound)
    requires ColonFree(hasRepo, m) && ColonFree(hasRepo, n)
    ensures LookupIdent(hasRepo, m) == LookupIdent(hasRepo, n) <==>
            SameThread(hasRepo && m.connection != "", hasRepo && n.connection != "", m, n)
    ensures LookupIdent(hasRepo, m) == StoreIdent(hasRepo, n) <==>
            SameThread(hasRepo && m.connection != "", hasRepo && n.connection != "" && n.owner != "", m, n)
  {
    if ':' !in m.channel && ':' !in m.chat && ':' !in n.channel && ':' !in n.chat { EntriesIff(m, n); }
  }

  lemma EntriesIff(m: Inbound, n: Inbound)
    requires ':' !in m.channel && ':' !in m.chat && ':' !in n.channel && ':' !in n.chat
    ensures EntryOf(m) == EntryOf(n) <==> m.channel == n.channel && m.chat == n.chat && TopicText(m) == TopicText(n)
  {
    var c := ChannelStore.Conversation(m.channel, m.chat, ChannelStore.Normal(m.topic));
    var d := ChannelStore.Conversation(n.channel, n.chat, ChannelStore.Normal(n.topic));
    if EntryOf(m) == EntryOf(n) {
      ChannelStore.KeysInjective(c, d);
    }
  }

  /** Two messages contend for one lock exactly when channel, chat and topic are the same. */
  lemma LockKeysIff(m: Inbound, n: Inbound)
    ensures KeyOf(m) == KeyOf(n) <==> m.channel == n.channel && m.chat == n.chat && m.topic == n.topic
  {
  }

  /** The thread stored for the fields of a message. */
  function StoredFor(hasRepo: bool, mappings: map<Ident, ThreadId>, m: Inbound): Option<ThreadId> {
    var place := if hasRepo && m.connection != "" then Row(m.connection, m.chat, TopicText(m))
                 else Entry(ChannelStore.Key(m.channel, m.chat, m.topic));
    if place in mappings then Some(mappings[place]) else None
  }

  /** What a step writes for the fields of a message: a task that shares its thread, or a command. */
  function Writes(s: State, a: Action, m: Inbound): Option<ThreadId>
    requires Enabled(s, a)
  {
    match a
    case WriteMapping(t) =>
      var n := s.tasks[t].msg;
      if SameThread(s.hasRepo && m.connection != "", s.hasRepo && n.connection != "" && n.owner != "", m, n) then
        Some(s.tasks[t].pc.id)
      else None
    case Overwrite(ident, id) => StoredFor(s.hasRepo, map[ident := id], m)
    case _ => None
  }

  function LastWritten(s: State, acts: seq<Action>, m: Inbound, was: Option<ThreadId>): Option<ThreadId>
    decreases |acts|
  {
    if acts == [] || !Enabled(s, acts[0]) then was
    else
      var written := Writes(s, acts[0], m);
      LastWritten(Apply(s, acts[0]), acts[1..], m, if written.Some? then written else was)
  }

  ghost predicate AllColonFree(s: State) {
    forall t :: t in s.tasks ==> ColonFree(s.hasRepo, s.tasks[t].msg)
  }

  ghost predicate ColonFreeArrivals(hasRepo: bool, acts: seq<Action>) {
    forall a :: a in acts && a.Arrive? ==> ColonFree(hasRepo, a.msg)
  }

  lemma StepWritesFor(s: State, a: Action, m: Inbound)
    requires AllColonFree(s) && ColonFree(s.hasRepo, m) && Enabled(s, a)
    requires a.Arrive? ==> ColonFree(s.hasRepo, a.msg)
    ensures AllColonFree(Apply(s, a)) && Apply(s, a).hasRepo == s.hasRepo
    ensures StoredFor(s.hasRepo, Apply(s, a).mappings, m) ==
            if Writes(s, a, m).Some? then Writes(s, a, m) else StoredFor(s.hasRepo, s.mappings, m)
  {
    MessagesKept(s, a);
    if a.WriteMapping? {
      PlacesIff(s.hasRepo, m, s.tasks[a.t].msg);
    } else if !a.Overwrite? {
      UnwrittenKept(s, a);
    }
  }

  lemma MessagesKept(s: State, a: Action)
    requires Enabled(s, a)
    ensures Apply(s, a).hasRepo == s.hasRepo
    ensures forall t :: t in Apply(s, a).tasks ==>
              (a.Arrive? && t == a.t && Apply(s, a).tasks[t].msg == a.msg)
              || (t in s.tasks && Apply(s, a).tasks[t].msg == s.tasks[t].msg)
  {
    var s' := Apply(s, a);
    forall t | t in s'.tasks
      ensures (a.Arrive? && t == a.t && s'.tasks[t].msg == a.msg) || (t in s.tasks && s'.tasks[t].msg == s.tasks[t].msg)
    {
      NoNewTask(s, a, t);
      if t in s.tasks { TaskKept(s, a, t); }
    }
  }

  lemma NoNewTask(s: State, a: Action, t: TaskId)
    requires Enabled(s, a) && t in Apply(s, a).tasks
    ensures t !in s.tasks ==> a.Arrive? && t == a.t && Apply(s, a).tasks[t].msg == a.msg
  {
    // one kind of action at a time
    if a.Overwrite? || a.Arrive? {
    } else if a.ResumeFirst? {
    } else if Finishes(s, a) {
    } else {
    }
  }

  lemma UnwrittenKept(s: State, a: Action)
    requires Enabled(s, a) && !a.WriteMapping? && !a.Overwrite?
    ensures Apply(s, a).mappings == s.mappings
  {
  }

  /** In every reachable state, the thread stored for a message is the last one written for its fields. */
  lemma {:induction false} StoredIsLastWritten(s: State, acts: seq<Action>, s': State, m: Inbound)
    requires AllColonFree(s) && ColonFreeArrivals(s.hasRepo, acts) && ColonFree(s.hasRepo, m) && Run(s, acts, s')
    ensures StoredFor(s'.hasRepo, s'.mappings, m) ==
            LastWritten(s, acts, m, StoredFor(s.hasRepo, s.mappings, m))
    ensures s'.hasRepo == s.hasRepo
    decreases |acts|
  {
    if acts != [] {
      assert acts[0] in acts && forall a :: a in acts[1..] ==> a in acts;
      StepWritesFor(s, acts[0], m);
      StoredIsLastWritten(Apply(s, acts[0]), acts[1..], s', m);
    }
  }

  /** At some moment of the run, the task reads, and the last thread written for its fields is `id`. */
  ghost predicate Reads(s: State, acts: seq<Action>, t: TaskId, m: Inbound, was: Option<ThreadId>, id: ThreadId)
    decreases |acts|
  {
    acts != [] && Enabled(s, acts[0]) && (
      || (acts[0] in {ReadFirst(t), ReadAgain(t)} && was == Some(id))
      || (var written := Writes(s, acts[0], m);
          Reads(Apply(s, acts[0]), acts[1..], t, m, if written.Some? then written else was, id)))
  }

  /** The task has the thread in hand without having created it. */
  predicate HasFound(s: State, t: TaskId, id: ThreadId) {
    && t in s.tasks
    && match s.tasks[t].pc
       case Looked(found) => found == Some(id)
       case Rechecked(_, found) => found == Some(id)
       case Returned(other, created) => other == id && !created
       case _ => false
  }

  /** A thread is found by reading what is stored for the fields of the message. */
  lemma StepFinds(s: State, a: Action, t: TaskId, id: ThreadId)
    requires Enabled(s, a) && HasFound(Apply(s, a), t, id) && !HasFound(s, t, id)
    ensures a in {ReadFirst(t), ReadAgain(t)} && t in s.tasks
    ensures StoredFor(s.hasRepo, s.mappings, s.tasks[t].msg) == Some(id)
  {
    FinderMoves(s, a, t, id);
  }

  lemma FinderMoves(s: State, a: Action, t: TaskId, id: ThreadId)
    requires Enabled(s, a) && HasFound(Apply(s, a), t, id) && !HasFound(s, t, id)
    ensures a in {ReadFirst(t), ReadAgain(t)}
  {
    if a.Overwrite? || a.t != t { OthersStay(s, a, t); }
  }

  lemma {:induction false} FoundWasRead(s: State, acts: seq<Action>, s': State, t: TaskId, m: Inbound, id: ThreadId)
    requires AllColonFree(s) && ColonFreeArrivals(s.hasRepo, acts) && ColonFree(s.hasRepo, m) && Run(s, acts, s')
    requires HasFound(s', t, id) && s'.tasks[t].msg == m && (t in s.tasks ==> s.tasks[t].msg == m)
    ensures HasFound(s, t, id) || Reads(s, acts, t, m, StoredFor(s.hasRepo, s.mappings, m), id)
    decreases |acts|
  {
    if acts != [] {
      var a, s1 := acts[0], Apply(s, acts[0]);
      assert a in acts && forall b :: b in acts[1..] ==> b in acts;
      StepWritesFor(s, a, m);
      MessagesKept(s, a);
      if t in s1.tasks { MessagesLast(s1, acts[1..], s', t); }
      FoundWasRead(s1, acts[1..], s', t, m, id);
      if HasFound(s1, t, id) && !HasFound(s, t, id) {
        StepFinds(s, a, t, id);
      }
    }
  }

  lemma {:induction false} MessagesLast(s: State, acts: seq<Action>, s': State, t: TaskId)
    requires Run(s, acts, s') && t in s.tasks
    ensures t in s'.tasks && s'.tasks[t].msg == s.tasks[t].msg
    decreases |acts|
  {
    if acts != [] {
      TaskKept(s, acts[0], t);
      MessagesLast(Apply(s, acts[0]), acts[1..], s', t);
    }
  }

  lemma TaskKept(s: State, a: Action, t: TaskId)
    requires Enabled(s, a) && t in s.tasks
    ensures t in Apply(s, a).tasks && Apply(s, a).tasks[t].msg == s.tasks[t].msg
    ensures Apply(s, a).hasRepo == s.hasRepo
  {
    // one kind of action at a time
    if a.Overwrite? || a.Arrive? {
    } else if a.ResumeFirst? {
    } else if Finishes(s, a) {
    } else {
    }
  }

  /** The task has got a thread from the Gateway. */
  predicate HasMade(s: State, t: TaskId, id: ThreadId) {
    && t in s.tasks
    && match s.tasks[t].pc
       case Storing(_, other) => other == id
       case Stored(_, other) => other == id
       case Returned(other, created) => other == id && created
       case _ => false
  }

  predicate HasWritten(s: State, t: TaskId) {
    t in s.tasks && (s.tasks[t].pc.Stored? || (s.tasks[t].pc.Returned? && s.tasks[t].pc.created))
  }

  lemma StepMakes(s: State, a: Action, t: TaskId, id: ThreadId)
    requires Enabled(s, a) && HasMade(Apply(s, a), t, id) && !HasMade(s, t, id)
    ensures t in s.tasks
    ensures a == GatewayCreates(t, id) || (a == GatewayConfirms(t) && s.tasks[t].msg.preferred == Some(id))
  {
    if a.Overwrite? || a.t != t { OthersStay(s, a, t); }
  }

  lemma StepWrote(s: State, a: Action, t: TaskId)
    requires Enabled(s, a) && HasWritten(Apply(s, a), t) && !HasWritten(s, t)
    ensures a == WriteMapping(t)
  {
    if a.Overwrite? || a.t != t { OthersStay(s, a, t); }
  }

  lemma {:induction false} MadeAndWritten(s: State, acts: seq<Action>, s': State, t: TaskId, id: ThreadId)
    requires Run(s, acts, s') && t in s'.tasks
    ensures HasMade(s', t, id) ==>
              || HasMade(s, t, id) || GatewayCreates(t, id) in acts
              || (GatewayConfirms(t) in acts && s'.tasks[t].msg.preferred == Some(id))
    ensures HasWritten(s', t) ==> HasWritten(s, t) || WriteMapping(t) in acts
    decreases |acts|
  {
    if acts != [] {
      var a, s1 := acts[0], Apply(s, acts[0]);
      assert a in acts && forall b :: b in acts[1..] ==> b in acts;
      MadeAndWritten(s1, acts[1..], s', t, id);
      if HasMade(s1, t, id) && !HasMade(s, t, id) {
        StepMakes(s, a, t, id);
        MessagesLast(s, acts, s', t);
      }
      if HasWritten(s1, t) && !HasWritten(s, t) { StepWrote(s, a, t); }
    }
  }

  lemma {:induction false} RunColonFree(s: State, acts: seq<Action>, s': State)
    requires AllColonFree(s) && ColonFreeArrivals(s.hasRepo, acts) && Run(s, acts, s')
    ensures AllColonFree(s') && s'.hasRepo == s.hasRepo
    decreases |acts|
  {
    if acts != [] {
      assert acts[0] in acts && forall a :: a in acts[1..] ==> a in acts;
      MessagesKept(s, acts[0]);
      RunColonFree(Apply(s, acts[0]), acts[1..], s');
    }
  }

  /**
    On every run, whatever raises: an id that a task returns without having created it was, at the time
    the task looked, the one last written for the fields of its message, by a task that shares its
    thread by its fields or by a command, or else in the initial mapping. An id that it returns as
    created came from its own call to the Gateway, or is the preferred thread that it confirmed there,
    and has been written.
   */
  lemma ReturnedIdsAreOwn(s0: State, acts: seq<Action>, s: State, t: TaskId)
    requires Initial(s0) && Run(s0, acts, s) && ColonFreeArrivals(s0.hasRepo, acts)
    requires t in s.tasks && s.tasks[t].pc.Returned?
    ensures var m, id := s.tasks[t].msg, s.tasks[t].pc.id;
            && (!s.tasks[t].pc.created ==> Reads(s0, acts, t, m, StoredFor(s0.hasRepo, s0.mappings, m), id))
            && (s.tasks[t].pc.created ==>
                  && WriteMapping(t) in acts
                  && (GatewayCreates(t, id) in acts || (GatewayConfirms(t) in acts && m.preferred == Some(id))))
  {
    RunColonFree(s0, acts, s);
    assert ColonFree(s0.hasRepo, s.tasks[t].msg);
    if s.tasks[t].pc.created {
      MadeAndWritten(s0, acts, s, t, s.tasks[t].pc.id);
    } else {
      FoundWasRead(s0, acts, s, t, s.tasks[t].msg, s.tasks[t].pc.id);
    }
  }

  /** At some moment of the run, the task reads (for the first time, or again under the lock), and
      nothing has been written for its fields. */
  ghost predicate Missed(s: State, acts: seq<Action>, t: TaskId, m: Inbound, was: Option<ThreadId>, again: bool)
    decreases |acts|
  {
    acts != [] && Enabled(s, acts[0]) && (
      || (acts[0] == (if again then ReadAgain(t) else ReadFirst(t)) && was == None)
      || (var written := Writes(s, acts[0], m);
          Missed(Apply(s, acts[0]), acts[1..], t, m, if written.Some? then written else was, again)))
  }

  /** The task goes on because its first look, or its look under the lock, has found nothing. */
  predicate WentOn(s: State, t: TaskId, again: bool) {
    || t in s.creators
    || (t in s.tasks && if again then s.tasks[t].pc.Rechecked? && s.tasks[t].pc.found.None?
                        else s.tasks[t].pc.Locking() || (s.tasks[t].pc.Looked? && s.tasks[t].pc.found.None?))
  }

  lemma StepGoesOn(s: State, a: Action, t: TaskId, again: bool)
    requires Enabled(s, a) && WentOn(Apply(s, a), t, again) && !WentOn(s, t, again)
    ensures a == (if again then ReadAgain(t) else ReadFirst(t)) && t in s.tasks
    ensures StoredFor(s.hasRepo, s.mappings, s.tasks[t].msg) == None
  {
    if a.Overwrite? || a.t != t { OthersStay(s, a, t); }
  }

  lemma {:induction false} WentOnAfterMiss(s: State, acts: seq<Action>, s': State, t: TaskId, m: Inbound, again: bool)
    requires AllColonFree(s) && ColonFreeArrivals(s.hasRepo, acts) && ColonFree(s.hasRepo, m) && Run(s, acts, s')
    requires WentOn(s', t, again) && t in s'.tasks && s'.tasks[t].msg == m && (t in s.tasks ==> s.tasks[t].msg == m)
    ensures WentOn(s, t, again) || Missed(s, acts, t, m, StoredFor(s.hasRepo, s.mappings, m), again)
    decreases |acts|
  {
    if acts != [] {
      var a, s1 := acts[0], Apply(s, acts[0]);
      assert a in acts && forall b :: b in acts[1..] ==> b in acts;
      StepWritesFor(s, a, m);
      MessagesKept(s, a);
      if t in s1.tasks { MessagesLast(s1, acts[1..], s', t); }
      WentOnAfterMiss(s1, acts[1..], s', t, m, again);
      if WentOn(s1, t, again) && !WentOn(s, t, again) {
        StepGoesOn(s, a, t, again);
      }
    }
  }

  /**
    On every run, nobody takes the long way without need: a task queues for a lock only if nothing was
    written for its fields when it looked first, and enters `_create_thread` only if that was still so
    when it looked again under the lock.
   */
  lemma OnlyMissesCreate(s0: State, acts: seq<Action>, s: State, t: TaskId)
    requires Initial(s0) && Run(s0, acts, s) && ColonFreeArrivals(s0.hasRepo, acts) && t in s.tasks
    ensures var m, was := s.tasks[t].msg, StoredFor(s0.hasRepo, s0.mappings, s.tasks[t].msg);
            && (s.tasks[t].pc.Locking() ==> Missed(s0, acts, t, m, was, false))
            && (t in s.creators ==> Missed(s0, acts, t, m, was, false) && Missed(s0, acts, t, m, was, true))
  {
    RunColonFree(s0, acts, s);
    if s.tasks[t].pc.Locking() || t in s.creators {
      WentOnAfterMiss(s0, acts, s, t, s.tasks[t].msg, false);
    }
    if t in s.creators {
      WentOnAfterMiss(s0, acts, s, t, s.tasks[t].msg, true);
    }
  }

  // ---------------------------------------------------------------------------
  // Locks are handed over in the order of arrival
  // ---------------------------------------------------------------------------

  /** Those in a queue before a task. */
  function InFront(ts: seq<TaskId>, u: TaskId): set<TaskId> {
    if ts == [] || ts[0] == u then {} else {ts[0]} + InFront(ts[1..], u)
  }

  /** Those who hold a lock, or queue for it before a task. */
  function AheadOf(lock: Lock, u: TaskId): set<TaskId> {
    InFront(lock.waiters, u) + (if lock.holder.Some? then {lock.holder.value} else {})
  }

  lemma {:induction false} BeforeSnoc(ts: seq<TaskId>, v: TaskId, u: TaskId)
    requires u in ts
    ensures InFront(ts + [v], u) == InFront(ts, u)
  {
    assert (ts + [v])[0] == ts[0] && (ts + [v])[1..] == ts[1..] + [v];
    if ts[0] != u { BeforeSnoc(ts[1..], v, u); }
  }

  lemma {:induction false} BeforeWithout(ts: seq<TaskId>, v: TaskId, u: TaskId)
    requires u != v
    ensures InFront(Without(ts, v), u) <= InFront(ts, u)
  {
    if ts != [] {
      BeforeWithout(ts[1..], v, u);
      var rest := Without(ts[1..], v);
      assert ([ts[0]] + rest)[1..] == rest;
    }
  }

  predicate Queues(s: State, u: TaskId, l: LockId) {
    u in s.tasks && s.tasks[u].pc == Waiting(l)
  }

  lemma AcquireKeepsAhead(s: State, t: TaskId, spare: LockId, u: TaskId, l: LockId)
    requires Inv(s) && t in s.tasks && s.tasks[t].pc.Looked? && spare !in s.locks && Queues(s, u, l)
    ensures var s' := Acquire(s, t, spare);
            l in s.locks && l in s'.locks && AheadOf(s'.locks[l], u) <= AheadOf(s.locks[l], u)
  {
    assert Seated(s, u);
    BeforeSnoc(s.locks[l].waiters, t, u);
  }

  lemma FinishKeepsAhead(s: State, t: TaskId, pc: Pc, u: TaskId, l: LockId)
    requires Inv(s) && t in s.tasks && s.tasks[t].pc.Locking() && s.tasks[t].pc.lock in s.locks
    requires Queues(s, u, l) && t != u
    ensures var s' := Finish(s, t, pc);
            l in s.locks && l in s'.locks && AheadOf(s'.locks[l], u) <= AheadOf(s.locks[l], u)
  {
    assert Seated(s, u);
    BeforeWithout(s.locks[l].waiters, t, u);
  }

  lemma TakeLockKeepsAhead(s: State, t: TaskId, u: TaskId, l: LockId)
    requires Inv(s) && Enabled(s, TakeLock(t)) && Queues(s, u, l) && t != u
    ensures var s' := Apply(s, TakeLock(t));
            l in s.locks && l in s'.locks && AheadOf(s'.locks[l], u) <= AheadOf(s.locks[l], u)
  {
    assert Seated(s, u);
  }

  lemma StepKeepsAhead(s: State, a: Action, u: TaskId, l: LockId)
    requires Inv(s) && Enabled(s, a) && Queues(s, u, l) && Queues(Apply(s, a), u, l)
    ensures var s' := Apply(s, a);
            l in s.locks && l in s'.locks && AheadOf(s'.locks[l], u) <= AheadOf(s.locks[l], u)
  {
    assert Seated(s, u);
    if a.Arrive? || a.Overwrite? {
    } else if Moves(s, a) {
      MoveIsGoto(s, a);
    } else if a.ResumeFirst? {
      AcquireKeepsAhead(s, a.t, a.spare, u, l);
    } else if a.TakeLock? {
      TakeLockKeepsAhead(s, a.t, u, l);
    } else {
      assert a.t != u;
      FinishKeepsAhead(s, a.t, Apply(s, a).tasks[a.t].pc, u, l);
    }
  }

  /** The task has queued for a lock, and does no more. */
  predicate Past(pc: Pc) {
    pc.Critical() || !pc.InFlight()
  }

  lemma StepStaysPast(s: State, a: Action, u: TaskId)
    requires Enabled(s, a) && u in s.tasks && Past(s.tasks[u].pc)
    ensures u in Apply(s, a).tasks && Past(Apply(s, a).tasks[u].pc)
  {
    if a.Overwrite? || a.t != u { OthersStay(s, a, u); }
  }

  lemma StepLeavesQueue(s: State, a: Action, u: TaskId, l: LockId)
    requires Enabled(s, a) && Queues(s, u, l)
    ensures u in Apply(s, a).tasks && (Queues(Apply(s, a), u, l) || Past(Apply(s, a).tasks[u].pc))
  {
    if a.Overwrite? || a.t != u { OthersStay(s, a, u); }
  }

  lemma {:induction false} NeverQueuesAgain(s: State, acts: seq<Action>, s': State, u: TaskId, l: LockId)
    requires Run(s, acts, s') && u in s.tasks && Past(s.tasks[u].pc)
    ensures !Queues(s', u, l)
    decreases |acts|
  {
    if acts != [] {
      StepStaysPast(s, acts[0], u);
      NeverQueuesAgain(Apply(s, acts[0]), acts[1..], s', u, l);
    }
  }

  /**
    On every run, while a task queues for a lock, nobody who came later gets it: whoever holds the lock,
    or is before the task in the queue, held it or was before the task already.
   */
  lemma {:induction false} NobodyOvertakes(s: State, acts: seq<Action>, s': State, u: TaskId, l: LockId)
    requires Inv(s) && Run(s, acts, s') && Queues(s, u, l) && Queues(s', u, l)
    ensures l in s.locks && l in s'.locks && AheadOf(s'.locks[l], u) <= AheadOf(s.locks[l], u)
    decreases |acts|
  {
    assert Seated(s, u);
    if acts != [] {
      var s1 := Apply(s, acts[0]);
      StepKeepsInv(s, acts[0]);
      StepLeavesQueue(s, acts[0], u, l);
      if Queues(s1, u, l) {
        StepKeepsAhead(s, acts[0], u, l);
        NobodyOvertakes(s1, acts[1..], s', u, l);
      } else {
        NeverQueuesAgain(s1, acts[1..], s', u, l);
      }
    }
  }

  // ---------------------------------------------------------------------------
  // One conversation: a single creation
  // ---------------------------------------------------------------------------

  /** A conversation: the place of its mapping, and the lock key its tasks share. Several
      conversations (one chat seen through several connections) may share one lock key. */
  datatype Conv = Conv(key: LockKey, place: Ident)

  /** Messages of the conversation use its lock key, and write the mapping where they read it. */
  predicate Agrees(hasRepo: bool, m: Inbound, k: Conv) {
    && (LookupIdent(hasRepo, m) == k.place ==> KeyOf(m) == k.key)
    && (LookupIdent(hasRepo, m) == k.place <==> StoreIdent(hasRepo, m) == k.place)
  }

  predicate Of(s: State, t: TaskId, k: Conv) {
    t in s.tasks && LookupIdent(s.hasRepo, s.tasks[t].msg) == k.place
  }

  /** A raise (or cancellation) of a task of the conversation inside its `try`/`finally`. */
  predicate Raises(s: State, a: Action, k: Conv) {
    match a
    case Fail(t) => Of(s, t, k) && s.tasks[t].pc.Locking()
    case GatewayConflicts(t) => Of(s, t, k) && s.tasks[t].pc.Locking() && s.tasks[t].msg.preferred.None?
    case _ => false
  }

  /** The actions that run the `finally`. */
  predicate Finishes(s: State, a: Action)
    requires Enabled(s, a)
  {
    match a
    case ResumeAgain(t) => s.tasks[t].pc.found.Some?
    case ResumeStored(_) => true
    case GatewayConflicts(t) => s.tasks[t].msg.preferred.None?
    case Fail(t) => s.tasks[t].pc.Locking()
    case _ => false
  }

  /** The action runs the `finally` that drops the registry entry of the conversation. */
  predicate Drops(s: State, a: Action, k: Conv) {
    Enabled(s, a) && Finishes(s, a) && KeyOf(s.tasks[a.t].msg) == k.key && k.key in s.registry
  }

  /** A task of the conversation other than `t` is inside its `try`/`finally`. */
  ghost predicate OtherInside(s: State, t: TaskId, k: Conv) {
    exists u :: u != t && Of(s, u, k) && s.tasks[u].pc.Locking()
  }

  /** The drops that do harm, whoever makes them and whether by a raise or by a normal return: the
      conversation is unmapped, and another of its tasks is inside its `try`/`finally`. */
  ghost predicate Harmful(s: State, a: Action, k: Conv) {
    Drops(s, a, k) && k.place !in s.mappings && OtherInside(s, a.t, k)
  }

  /** Neither a harmful drop nor a command that overwrites the mapping. */
  ghost predicate Calm(s: State, a: Action, k: Conv) {
    && (a.Arrive? ==> Agrees(s.hasRepo, a.msg, k))
    && (a.Overwrite? ==> a.ident != k.place)
    && !Harmful(s, a, k)
  }

  ghost predicate CalmRun(s: State, acts: seq<Action>, s': State, k: Conv)
    decreases |acts|
  {
    if acts == [] then s == s'
    else Enabled(s, acts[0]) && Calm(s, acts[0], k) && CalmRun(Apply(s, acts[0]), acts[1..], s', k)
  }

  ghost predicate Before(s: State, t: TaskId, k: Conv)
    requires t in s.tasks
  {
    var pc := s.tasks[t].pc;
    && !pc.Returned? && !pc.Stored?
    && (pc.Looked? || pc.Rechecked? ==> pc.found == None)
    && (pc.Locking() ==> k.key in s.registry && s.registry[k.key].lock == pc.lock)
    && (t in s.creators && !pc.Raised? <==> pc.Creating? || pc.Verifying? || pc.Storing?)
    && (pc.Verifying? ==> s.tasks[t].msg.preferred.Some?)
  }

  ghost predicate After(s: State, t: TaskId, id: ThreadId, creator: TaskId)
    requires t in s.tasks
  {
    var pc := s.tasks[t].pc;
    && !pc.Committed()
    && ((pc.Looked? || pc.Rechecked?) && pc.found.Some? ==> pc.found.value == id)
    && (pc.Stored? || pc.Returned? ==> pc.id == id)
    && (t == creator ==> t in s.creators && (pc.Stored? || pc.Raised? || (pc.Returned? && pc.created)))
    && (t != creator ==> !pc.Stored? && !(pc.Returned? && pc.created) && (t in s.creators ==> pc.Raised?))
  }

  ghost predicate AllAfter(s: State, k: Conv, id: ThreadId, creator: TaskId) {
    Of(s, creator, k) && forall t :: Of(s, t, k) ==> After(s, t, id, creator)
  }

  ghost predicate Single(s: State, k: Conv) {
    && (forall t :: t in s.tasks ==> Agrees(s.hasRepo, s.tasks[t].msg, k))
    && (k.place !in s.mappings ==> forall t :: Of(s, t, k) ==> Before(s, t, k))
    && (k.place in s.mappings ==> exists c :: AllAfter(s, k, s.mappings[k.place], c))
  }

  /** While the mapping is missing, one lock guards the conversation. */
  lemma OneInside(s: State, k: Conv, t: TaskId, u: TaskId)
    requires Inv(s) && Single(s, k) && k.place !in s.mappings
    requires Of(s, t, k) && Of(s, u, k) && s.tasks[t].pc.Critical() && s.tasks[u].pc.Critical()
    ensures t == u
  {
    assert Before(s, t, k) && Before(s, u, k) && Seated(s, t) && Seated(s, u);
  }

  /** An action moves at most the task it names, and keeps every message. */
  lemma OthersStay(s: State, a: Action, u: TaskId)
    requires Enabled(s, a) && (a.Overwrite? || u != a.t)
    ensures u in s.tasks <==> u in Apply(s, a).tasks
    ensures u in s.tasks ==> Apply(s, a).tasks[u] == s.tasks[u]
    ensures u in s.creators <==> u in Apply(s, a).creators
  {
    // one kind of action at a time
    if a.Overwrite? || a.Arrive? {
    } else if a.ResumeFirst? {
    } else if Finishes(s, a) {
    } else {
    }
  }

  lemma OnlyFinishDrops(s: State, a: Action, key: LockKey)
    requires Enabled(s, a) && key in s.registry && !(Finishes(s, a) && KeyOf(s.tasks[a.t].msg) == key)
    ensures key in Apply(s, a).registry && Apply(s, a).registry[key] == s.registry[key]
  {
  }

  /** While a task of the unmapped conversation is inside, no other task drops its entry harmlessly. */
  lemma EntryKept(s: State, a: Action, k: Conv, u: TaskId)
    requires k.place !in s.mappings && Enabled(s, a) && !Harmful(s, a, k)
    requires Of(s, u, k) && s.tasks[u].pc.Locking() && (a.Overwrite? || u != a.t)
    requires k.key in s.registry
    ensures k.key in Apply(s, a).registry && Apply(s, a).registry[k.key] == s.registry[k.key]
  {
    OnlyFinishDrops(s, a, k.key);
  }

  lemma OtherBefore(s: State, a: Action, k: Conv, u: TaskId)
    requires Single(s, k) && k.place !in s.mappings && Enabled(s, a) && Calm(s, a, k)
    requires Of(s, u, k) && (a.Overwrite? || u != a.t)
    ensures Of(Apply(s, a), u, k) && Before(Apply(s, a), u, k)
  {
    assert Before(s, u, k);
    OthersStay(s, a, u);
    if s.tasks[u].pc.Locking() {
      EntryKept(s, a, k, u);
    }
  }

  /** A queueing task of the conversation is registered at the lock it waits for. */
  lemma AcquirerBefore(s: State, a: Action, k: Conv)
    requires Single(s, k) && k.place !in s.mappings && Enabled(s, a)
    requires a.ResumeFirst? && Of(s, a.t, k)
    ensures Before(Apply(s, a), a.t, k)
  {
    assert Before(s, a.t, k);
  }

  lemma ReaderBefore(s: State, a: Action, k: Conv)
    requires Single(s, k) && k.place !in s.mappings && Enabled(s, a)
    requires (a.ReadFirst? || a.ReadAgain?) && Of(s, a.t, k)
    ensures Before(Apply(s, a), a.t, k)
  {
    assert Before(s, a.t, k);
    assert Agrees(s.hasRepo, s.tasks[a.t].msg, k);
  }

  lemma RaiserBefore(s: State, a: Action, k: Conv)
    requires Single(s, k) && k.place !in s.mappings && Enabled(s, a)
    requires a.Fail? && Of(s, a.t, k)
    ensures Before(Apply(s, a), a.t, k)
  {
    assert Before(s, a.t, k);
  }

  lemma TakerBefore(s: State, a: Action, k: Conv)
    requires Single(s, k) && k.place !in s.mappings && Enabled(s, a)
    requires a.TakeLock? && Of(s, a.t, k)
    ensures Before(Apply(s, a), a.t, k)
  {
    assert Before(s, a.t, k);
  }

  lemma EntererBefore(s: State, a: Action, k: Conv)
    requires Single(s, k) && k.place !in s.mappings && Enabled(s, a)
    requires a.ResumeAgain? && Of(s, a.t, k)
    ensures Before(Apply(s, a), a.t, k)
  {
    assert Before(s, a.t, k);
  }

  lemma CreatorBefore(s: State, a: Action, k: Conv)
    requires Single(s, k) && k.place !in s.mappings && Enabled(s, a)
    requires (a.GatewayCreates? || a.GatewayConflicts? || a.GatewayConfirms?) && Of(s, a.t, k)
    ensures Before(Apply(s, a), a.t, k)
  {
    assert Before(s, a.t, k);
  }

  lemma ActorBefore(s: State, a: Action, k: Conv)
    requires Inv(s) && Single(s, k) && k.place !in s.mappings && Enabled(s, a)
    requires !a.Overwrite? && !a.WriteMapping? && Of(Apply(s, a), a.t, k)
    ensures Before(Apply(s, a), a.t, k)
  {
    if a.Arrive? {
      assert a.t !in s.creators;
    } else if a.ResumeFirst? {
      AcquirerBefore(s, a, k);
    } else if a.ReadFirst? || a.ReadAgain? {
      ReaderBefore(s, a, k);
    } else if a.Fail? {
      RaiserBefore(s, a, k);
    } else if a.TakeLock? {
      TakerBefore(s, a, k);
    } else if a.ResumeAgain? {
      EntererBefore(s, a, k);
    } else {
      assert Before(s, a.t, k);
      CreatorBefore(s, a, k);
    }
  }

  lemma StepBefore(s: State, a: Action, k: Conv)
    requires Inv(s) && Single(s, k) && k.place !in s.mappings
    requires Enabled(s, a) && Calm(s, a, k)
    requires !(a.WriteMapping? && Of(s, a.t, k))
    ensures Single(Apply(s, a), k)
  {
    var s' := Apply(s, a);
    MessagesStay(s, a, k);
    UnmappedStays(s, a, k);
    forall t | Of(s', t, k) ensures Before(s', t, k) {
      if a.Overwrite? || t != a.t {
        OthersStay(s, a, t);
        OtherBefore(s, a, k, t);
      } else {
        ActorBefore(s, a, k);
      }
    }
  }

  lemma UnmappedStays(s: State, a: Action, k: Conv)
    requires Single(s, k) && k.place !in s.mappings
    requires Enabled(s, a) && Calm(s, a, k)
    requires !(a.WriteMapping? && Of(s, a.t, k))
    ensures k.place !in Apply(s, a).mappings
  {
    if a.WriteMapping? {
      assert Agrees(s.hasRepo, s.tasks[a.t].msg, k);
    } else if !a.Overwrite? {
      OnlyWritesMap(s, a);
    }
  }

  lemma OtherWritten(s: State, t: TaskId, k: Conv, u: TaskId)
    requires Inv(s) && Single(s, k) && k.place !in s.mappings
    requires t in s.tasks && s.tasks[t].pc.Storing? && Of(s, t, k) && Of(s, u, k) && u != t
    ensures After(s, u, s.tasks[t].pc.id, t)
  {
    assert Before(s, u, k);
    if s.tasks[u].pc.Critical() { OneInside(s, k, t, u); }
  }

  lemma OneWritten(s: State, t: TaskId, k: Conv, u: TaskId)
    requires Inv(s) && Single(s, k) && k.place !in s.mappings
    requires Enabled(s, WriteMapping(t)) && Of(s, t, k) && Of(s, u, k)
    requires t in s.creators
    ensures After(Apply(s, WriteMapping(t)), u, s.tasks[t].pc.id, t)
  {
    if u != t {
      OtherWritten(s, t, k, u);
      OthersStay(s, WriteMapping(t), u);
    }
  }

  lemma StepWrites(s: State, t: TaskId, k: Conv)
    requires Inv(s) && Single(s, k) && k.place !in s.mappings
    requires Enabled(s, WriteMapping(t)) && Of(s, t, k)
    requires t in s.creators
    ensures Single(Apply(s, WriteMapping(t)), k)
  {
    var s' := Apply(s, WriteMapping(t));
    forall u | u in s'.tasks
      ensures Agrees(s'.hasRepo, s'.tasks[u].msg, k)
      ensures Of(s', u, k) ==> After(s', u, s.tasks[t].pc.id, t)
    {
      if Of(s, u, k) { OneWritten(s, t, k, u); }
    }
    assert k.place in s'.mappings && s'.mappings[k.place] == s.tasks[t].pc.id;
    assert AllAfter(s', k, s'.mappings[k.place], t);
  }

  lemma AcquirerAfter(s: State, a: Action, k: Conv, id: ThreadId, c: TaskId)
    requires Inv(s) && AllAfter(s, k, id, c) && Enabled(s, a) && a.ResumeFirst? && Of(s, a.t, k)
    ensures After(Apply(s, a), a.t, id, c)
  {
    assert After(s, a.t, id, c);
  }

  lemma MoverAfter(s: State, a: Action, k: Conv, id: ThreadId, c: TaskId)
    requires AllAfter(s, k, id, c) && Enabled(s, a) && Calm(s, a, k)
    requires !a.Overwrite? && Of(s, a.t, k)
    requires !a.Arrive? && !a.ResumeFirst? && !a.ReadFirst? && !a.ReadAgain?
    ensures After(Apply(s, a), a.t, id, c)
  {
    assert After(s, a.t, id, c);
  }

  lemma ReaderAfter(s: State, a: Action, k: Conv, c: TaskId)
    requires Inv(s) && Single(s, k) && k.place in s.mappings && AllAfter(s, k, s.mappings[k.place], c)
    requires Enabled(s, a) && (a.ReadFirst? || a.ReadAgain?) && Of(s, a.t, k)
    ensures After(Apply(s, a), a.t, s.mappings[k.place], c)
  {
    assert After(s, a.t, s.mappings[k.place], c);
    assert Agrees(s.hasRepo, s.tasks[a.t].msg, k);
  }

  lemma OneAfter(s: State, a: Action, k: Conv, c: TaskId, t: TaskId)
    requires Inv(s) && Single(s, k) && k.place in s.mappings && AllAfter(s, k, s.mappings[k.place], c)
    requires Enabled(s, a) && Calm(s, a, k) && Of(Apply(s, a), t, k)
    ensures After(Apply(s, a), t, s.mappings[k.place], c)
  {
    if a.Overwrite? || t != a.t {
      OthersStay(s, a, t);
      assert After(s, t, s.mappings[k.place], c);
    } else if a.Arrive? {
      assert t !in s.creators;
      assert After(s, c, s.mappings[k.place], c);
    } else if a.ResumeFirst? {
      AcquirerAfter(s, a, k, s.mappings[k.place], c);
    } else if a.ReadFirst? || a.ReadAgain? {
      ReaderAfter(s, a, k, c);
    } else {
      MoverAfter(s, a, k, s.mappings[k.place], c);
    }
  }

  lemma OnlyWritesMap(s: State, a: Action)
    requires Enabled(s, a) && !a.WriteMapping? && !a.Overwrite?
    ensures Apply(s, a).mappings == s.mappings
  {
  }

  lemma WriterIsElsewhere(s: State, t: TaskId, k: Conv, c: TaskId)
    requires Single(s, k) && k.place in s.mappings && AllAfter(s, k, s.mappings[k.place], c)
    requires Enabled(s, WriteMapping(t))
    ensures StoreIdent(s.hasRepo, s.tasks[t].msg) != k.place
  {
    assert Agrees(s.hasRepo, s.tasks[t].msg, k);
    forall u | Of(s, u, k) ensures !s.tasks[u].pc.Storing? { assert After(s, u, s.mappings[k.place], c); }
  }

  lemma MappingStays(s: State, a: Action, k: Conv, c: TaskId)
    requires Single(s, k) && k.place in s.mappings && AllAfter(s, k, s.mappings[k.place], c)
    requires Enabled(s, a) && Calm(s, a, k)
    ensures k.place in Apply(s, a).mappings && Apply(s, a).mappings[k.place] == s.mappings[k.place]
  {
    if a.WriteMapping? {
      WriterIsElsewhere(s, a.t, k, c);
    } else if !a.Overwrite? {
      OnlyWritesMap(s, a);
    }
  }

  lemma MessageStays(s: State, a: Action, t: TaskId)
    requires Enabled(s, a) && !a.Arrive? && t in Apply(s, a).tasks
    ensures t in s.tasks && Apply(s, a).tasks[t].msg == s.tasks[t].msg
  {
    MessagesKept(s, a);
  }

  lemma MessagesStay(s: State, a: Action, k: Conv)
    requires Enabled(s, a) && Calm(s, a, k)
    requires forall t :: t in s.tasks ==> Agrees(s.hasRepo, s.tasks[t].msg, k)
    ensures forall t :: t in Apply(s, a).tasks ==> Agrees(Apply(s, a).hasRepo, Apply(s, a).tasks[t].msg, k)
  {
    forall t | t in Apply(s, a).tasks
      ensures Agrees(Apply(s, a).hasRepo, Apply(s, a).tasks[t].msg, k)
    {
      if !a.Arrive? { MessageStays(s, a, t); }
    }
  }

  lemma OneStays(s: State, a: Action, t: TaskId, k: Conv)
    requires Enabled(s, a) && Of(s, t, k)
    ensures Of(Apply(s, a), t, k)
  {
    TaskKept(s, a, t);
  }

  lemma StepAfter(s: State, a: Action, k: Conv)
    requires Inv(s) && Single(s, k) && k.place in s.mappings
    requires Enabled(s, a) && Calm(s, a, k)
    ensures Single(Apply(s, a), k)
  {
    var c :| AllAfter(s, k, s.mappings[k.place], c);
    MessagesStay(s, a, k);
    MappingStays(s, a, k, c);
    assert After(s, c, s.mappings[k.place], c);
    OneStays(s, a, c, k);
    forall t | Of(Apply(s, a), t, k) ensures After(Apply(s, a), t, s.mappings[k.place], c) { OneAfter(s, a, k, c, t); }
    assert AllAfter(Apply(s, a), k, s.mappings[k.place], c);
  }

  lemma StepKeepsSingle(s: State, a: Action, k: Conv)
    requires Inv(s) && Single(s, k) && Enabled(s, a) && Calm(s, a, k)
    ensures Single(Apply(s, a), k)
  {
    if k.place in s.mappings {
      StepAfter(s, a, k);
    } else if a.WriteMapping? && Of(s, a.t, k) {
      assert Before(s, a.t, k);
      StepWrites(s, a.t, k);
    } else {
      StepBefore(s, a, k);
    }
  }

  lemma {:induction false} CalmRunKeepsSingle(s: State, acts: seq<Action>, s': State, k: Conv)
    requires Inv(s) && Single(s, k) && CalmRun(s, acts, s', k)
    ensures Inv(s') && Single(s', k)
    decreases |acts|
  {
    if acts != [] {
      StepKeepsInv(s, acts[0]);
      StepKeepsSingle(s, acts[0], k);
      CalmRunKeepsSingle(Apply(s, acts[0]), acts[1..], s', k);
    }
  }

  lemma {:induction false} CalmRunIsRun(s: State, acts: seq<Action>, s': State, k: Conv)
    requires CalmRun(s, acts, s', k)
    ensures Run(s, acts, s')
    decreases |acts|
  {
    if acts != [] { CalmRunIsRun(Apply(s, acts[0]), acts[1..], s', k); }
  }

  ghost predicate Answered(s: State, t: TaskId, k: Conv) {
    Of(s, t, k) && s.tasks[t].pc.Returned?
  }

  ghost predicate Created(s: State, t: TaskId, k: Conv) {
    Answered(s, t, k) && s.tasks[t].pc.created
  }

  /** The task entered `_create_thread` and has not raised. */
  ghost predicate Entered(s: State, t: TaskId, k: Conv) {
    t in s.creators && Of(s, t, k) && !s.tasks[t].pc.Raised?
  }

  /** Two tasks of the conversation both report a creation, or return different threads. */
  ghost predicate Split(s: State, k: Conv) {
    exists t, u :: Divided(s, t, u, k)
  }

  ghost predicate Divided(s: State, t: TaskId, u: TaskId, k: Conv) {
    && Answered(s, t, k) && Answered(s, u, k)
    && ((t != u && s.tasks[t].pc.created && s.tasks[u].pc.created) || s.tasks[t].pc.id != s.tasks[u].pc.id)
  }

  lemma SingleIsWhole(s: State, k: Conv)
    requires Inv(s) && Single(s, k)
    ensures forall t, u :: Entered(s, t, k) && Entered(s, u, k) ==> t == u
    ensures forall t :: Answered(s, t, k) ==> k.place in s.mappings && s.tasks[t].pc.id == s.mappings[k.place]
    ensures forall t :: Created(s, t, k) ==> t in s.creators
    ensures (exists t :: Answered(s, t, k)) && (forall t :: Of(s, t, k) ==> Answered(s, t, k)) ==>
              exists c :: Created(s, c, k) && forall t :: Created(s, t, k) ==> t == c
    ensures !Split(s, k)
  {
    if k.place in s.mappings {
      var c :| AllAfter(s, k, s.mappings[k.place], c);
      forall t | Of(s, t, k) ensures After(s, t, s.mappings[k.place], c) {}
      if forall t :: Of(s, t, k) ==> Answered(s, t, k) {
        assert After(s, c, s.mappings[k.place], c);
        assert Created(s, c, k);
      }
    } else {
      forall t, u | Entered(s, t, k) && Entered(s, u, k) ensures t == u {
        assert Before(s, t, k) && Before(s, u, k);
        OneInside(s, k, t, u);
      }
      forall t | Of(s, t, k) ensures !Answered(s, t, k) { assert Before(s, t, k); }
    }
  }

  /**
    Starting unmapped, in every interleaving of any number of tasks of the conversation with tasks
    of other conversations (those under the same lock key included), in which tasks raise and return
    anywhere but never drop the entry harmfully: at most one of the tasks that entered
    `_create_thread` has not raised, at most one reports `created`, and every task that has returned
    holds the one mapped thread id.
   */
  lemma SurvivesHarmlessDrops(s0: State, acts: seq<Action>, s: State, k: Conv)
    requires Initial(s0) && k.place !in s0.mappings && CalmRun(s0, acts, s, k)
    ensures forall t, u :: Entered(s, t, k) && Entered(s, u, k) ==> t == u
    ensures forall t :: Answered(s, t, k) ==> k.place in s.mappings && s.tasks[t].pc.id == s.mappings[k.place]
    ensures forall t, u :: Created(s, t, k) && Created(s, u, k) ==> t == u
  {
    CalmRunKeepsSingle(s0, acts, s, k);
    SingleIsWhole(s, k);
  }

  /** A calm run in which tasks of the conversation raise at most in their first lookup. */
  ghost predicate QuietRun(s: State, acts: seq<Action>, s': State, k: Conv)
    decreases |acts|
  {
    if acts == [] then s == s'
    else
      && Enabled(s, acts[0]) && Calm(s, acts[0], k) && !Raises(s, acts[0], k)
      && QuietRun(Apply(s, acts[0]), acts[1..], s', k)
  }

  ghost predicate NoCreatorRaised(s: State, k: Conv) {
    forall t :: t in s.creators && Of(s, t, k) ==> !s.tasks[t].pc.Raised?
  }

  lemma StepKeepsCreators(s: State, a: Action, k: Conv)
    requires Inv(s) && Single(s, k) && Enabled(s, a) && !Raises(s, a, k) && NoCreatorRaised(s, k)
    ensures NoCreatorRaised(Apply(s, a), k)
  {
    var s' := Apply(s, a);
    forall t | t in s'.creators && Of(s', t, k) ensures !s'.tasks[t].pc.Raised? {
      if a.Overwrite? || t != a.t {
        OthersStay(s, a, t);
      } else if s'.tasks[t].pc.Raised? {
        OnlyRaisesRaise(s, a);
        RaiserIsNoCreator(s, a, k);
      }
    }
  }

  lemma OnlyRaisesRaise(s: State, a: Action)
    requires Enabled(s, a) && !a.Overwrite? && Apply(s, a).tasks[a.t].pc.Raised?
    ensures a.Fail? || (a.GatewayConflicts? && s.tasks[a.t].msg.preferred.None?)
  {
  }

  lemma RaiserIsNoCreator(s: State, a: Action, k: Conv)
    requires Single(s, k) && Enabled(s, a) && !Raises(s, a, k)
    requires a.Fail? || (a.GatewayConflicts? && s.tasks[a.t].msg.preferred.None?)
    requires Of(s, a.t, k)
    ensures a.t !in s.creators
  {
    if a.t in s.creators {
      CreatorsLock(s, a.t, k);
    }
  }

  /** A task that entered `_create_thread` is in it, holds the result, or is over. */
  lemma CreatorsLock(s: State, t: TaskId, k: Conv)
    requires Single(s, k) && Of(s, t, k) && t in s.creators && s.tasks[t].pc.InFlight()
    ensures s.tasks[t].pc.Locking()
  {
    if k.place in s.mappings {
      var c :| AllAfter(s, k, s.mappings[k.place], c);
      assert After(s, t, s.mappings[k.place], c);
    } else {
      assert Before(s, t, k);
    }
  }

  lemma {:induction false} QuietRunKeepsSingle(s: State, acts: seq<Action>, s': State, k: Conv)
    requires Inv(s) && Single(s, k) && NoCreatorRaised(s, k) && QuietRun(s, acts, s', k)
    ensures Inv(s') && Single(s', k) && NoCreatorRaised(s', k)
    decreases |acts|
  {
    if acts != [] {
      StepKeepsInv(s, acts[0]);
      StepKeepsSingle(s, acts[0], k);
      StepKeepsCreators(s, acts[0], k);
      QuietRunKeepsSingle(Apply(s, acts[0]), acts[1..], s', k);
    }
  }

  /**
    Starting unmapped, in every interleaving of any number of tasks of the conversation, which may
    raise in their first lookup, with tasks of other conversations (which may share the lock key, and
    may raise, return and be overwritten wherever that drops no entry harmfully): at most one task of
    the conversation ever enters `_create_thread`, at most one reports `created`, and every task that
    has returned holds the one mapped thread id. Once all of them have returned, exactly one of them
    created the thread.
   */
  lemma SingleCreation(s0: State, acts: seq<Action>, s: State, k: Conv)
    requires Initial(s0) && k.place !in s0.mappings && QuietRun(s0, acts, s, k)
    ensures forall t, u :: t in s.creators && u in s.creators && Of(s, t, k) && Of(s, u, k) ==> t == u
    ensures forall t :: Answered(s, t, k) ==> k.place in s.mappings && s.tasks[t].pc.id == s.mappings[k.place]
    ensures forall t :: Answered(s, t, k) && s.tasks[t].pc.created ==> t in s.creators
    ensures (exists t :: Answered(s, t, k)) && (forall t :: Of(s, t, k) ==> Answered(s, t, k)) ==>
              exists c :: Answered(s, c, k) && s.tasks[c].pc.created &&
                          forall t :: Answered(s, t, k) && s.tasks[t].pc.created ==> t == c
  {
    QuietRunKeepsSingle(s0, acts, s, k);
    SingleIsWhole(s, k);
    forall t | t in s.creators && Of(s, t, k) ensures Entered(s, t, k) {}
    forall t | Answered(s, t, k) && s.tasks[t].pc.created ensures Created(s, t, k) {}
    if (exists t :: Answered(s, t, k)) && (forall t :: Of(s, t, k) ==> Answered(s, t, k)) {
      var c :| Created(s, c, k) && forall t :: Created(s, t, k) ==> t == c;
    }
  }

  // ---------------------------------------------------------------------------
  // A harmful drop splits the conversation
  // ---------------------------------------------------------------------------

  lemma {:induction false} QuietExtends(s: State, acts: seq<Action>, s': State, a: Action, k: Conv)
    requires QuietRun(s, acts, s', k) && Enabled(s', a) && Calm(s', a, k) && !Raises(s', a, k)
    ensures QuietRun(s, acts + [a], Apply(s', a), k)
    decreases |acts|
  {
    if acts == [] {
      assert QuietRun(Apply(s', a), [], Apply(s', a), k);
      assert (acts + [a])[1..] == [];
    } else {
      QuietExtends(Apply(s, acts[0]), acts[1..], s', a, k);
      assert (acts + [a])[1..] == acts[1..] + [a];
    }
  }

  /** Steps that a quiet run allows: there is nothing to drop, or nothing to lose. */
  predicate Harmless(s: State, a: Action, k: Conv)
    requires Enabled(s, a)
  {
    && (a.Arrive? ==> Agrees(s.hasRepo, a.msg, k)) && (a.Overwrite? ==> a.ident != k.place)
    && (Finishes(s, a) ==> k.place in s.mappings || k.key !in s.registry)
    && !Raises(s, a, k)
  }

  /** One more step of a quiet run. */
  lemma Next(s: State, acts: seq<Action>, s': State, a: Action, k: Conv)
      returns (acts': seq<Action>, s'': State)
    requires QuietRun(s, acts, s', k) && Enabled(s', a) && Harmless(s', a, k)
    ensures QuietRun(s, acts', s'', k) && s'' == Apply(s', a)
  {
    QuietExtends(s, acts, s', a, k);
    acts', s'' := acts + [a], Apply(s', a);
  }

  lemma NewcomerLooks(s0: State, acts0: seq<Action>, s: State, k: Conv, m: Inbound, v: TaskId)
      returns (acts: seq<Action>, s': State)
    requires QuietRun(s0, acts0, s, k) && k.place !in s.mappings
    requires LookupIdent(s.hasRepo, m) == k.place && Agrees(s.hasRepo, m, k) && v !in s.tasks
    ensures QuietRun(s0, acts, s', k)
    ensures s' == s.(tasks := s.tasks[v := Task(m, Looked(None))])
  {
    acts, s' := Next(s0, acts0, s, Arrive(v, m), k);
    assert s'.tasks[v] == Task(m, Looking) && s'.mappings == s.mappings;
    acts, s' := Next(s0, acts, s', ReadFirst(v), k);
    assert s'.tasks == s.tasks[v := Task(m, Looked(None))];
  }

  /** With no registry entry left, a new message of the unmapped conversation gets a lock of its own. */
  lemma NewcomerLocks(s0: State, acts0: seq<Action>, s: State, k: Conv, m: Inbound, v: TaskId, spare: LockId)
      returns (acts: seq<Action>, s': State)
    requires QuietRun(s0, acts0, s, k) && k.place !in s.mappings && k.key !in s.registry
    requires LookupIdent(s.hasRepo, m) == k.place && Agrees(s.hasRepo, m, k)
    requires v !in s.tasks && spare !in s.locks
    ensures QuietRun(s0, acts, s', k)
    ensures s' == s.(tasks := s.tasks[v := Task(m, Rechecking(spare))],
                     registry := s.registry[k.key := Registered(spare, v)],
                     locks := s.locks[spare := Lock(Some(v), [])])
  {
    acts, s' := NewcomerLooks(s0, acts0, s, k, m, v);
    acts, s' := Next(s0, acts, s', ResumeFirst(v, spare), k);
    assert s'.tasks == s.tasks[v := Task(m, Rechecking(spare))];
  }

  lemma NewcomerEnters(s0: State, acts0: seq<Action>, s: State, k: Conv, v: TaskId)
      returns (acts: seq<Action>, s': State)
    requires QuietRun(s0, acts0, s, k) && k.place !in s.mappings
    requires Of(s, v, k) && s.tasks[v].pc.Rechecking? && s.tasks[v].pc.lock in s.locks
    ensures QuietRun(s0, acts, s', k)
    ensures s' == Goto(s, v, Creating(s.tasks[v].pc.lock)).(creators := s.creators + {v})
  {
    acts, s' := Next(s0, acts0, s, ReadAgain(v), k);
    assert s' == Goto(s, v, Rechecked(s.tasks[v].pc.lock, None));
    acts, s' := Next(s0, acts, s', ResumeAgain(v), k);
    assert s'.tasks == s.tasks[v := s.tasks[v].(pc := Creating(s.tasks[v].pc.lock))];
  }

  /** What a task of the unmapped conversation can be found at. */
  predicate Fit(task: Task) {
    && !task.pc.Stored?
    && (task.pc.Rechecked? ==> task.pc.found.None?)
    && (task.pc.Verifying? ==> task.msg.preferred.Some?)
  }

  /** A task at its lock that can go on: the holder, or first in the queue of a free lock. */
  predicate CanGoOn(s: State, u: TaskId) {
    && u in s.tasks && s.tasks[u].pc.Locking() && s.tasks[u].pc.lock in s.locks && Fit(s.tasks[u])
    && (s.tasks[u].pc.Waiting? ==> Enabled(s, TakeLock(u)))
  }

  /** Steps left before the mapping is written. */
  function StepsLeft(s: State, u: TaskId): nat {
    if u !in s.tasks then 0
    else
      match s.tasks[u].pc
      case Waiting(_) => 5
      case Rechecking(_) => 4
      case Rechecked(_, _) => 3
      case Creating(_) => 2
      case Verifying(_) =>
        var preferred := s.tasks[u].msg.preferred;
        if preferred.Some? && preferred.value in s.gateway then 1 else 2
      case _ => 0
  }

  function Elsewhere(i: Ident): Ident {
    if i.Row? then Entry("") else Row("", "", "")
  }

  /** The next step towards the mapping. The Gateway creates a thread that it does not have yet and
      refuses a preferred one that it has; where it refused one that it does not have, a command of
      another conversation brings it there. */
  function Onward(s: State, u: TaskId, k: Conv, spare: ThreadId): Action
    requires u in s.tasks
  {
    var preferred := s.tasks[u].msg.preferred;
    match s.tasks[u].pc
    case Waiting(_) => TakeLock(u)
    case Rechecking(_) => ReadAgain(u)
    case Rechecked(_, _) => ResumeAgain(u)
    case Creating(_) =>
      if preferred.None? then GatewayCreates(u, spare)
      else if preferred.value in s.gateway then GatewayConflicts(u)
      else GatewayCreates(u, preferred.value)
    case _ =>
      if preferred.Some? && preferred.value !in s.gateway then Overwrite(Elsewhere(k.place), preferred.value)
      else GatewayConfirms(u)
  }

  /** What a step towards the mapping changes: the task moves on, everybody else stays. */
  ghost predicate MovedOn(s: State, s': State, u: TaskId, v: TaskId, k: Conv)
    requires u in s.tasks && s.tasks[u].pc.Locking() && v in s.tasks
  {
    && CanGoOn(s', u) && k.place !in s'.mappings && StepsLeft(s', u) < StepsLeft(s, u)
    && s'.hasRepo == s.hasRepo && s'.tasks.Keys == s.tasks.Keys && s'.tasks[u].msg == s.tasks[u].msg
    && s'.tasks[v] == s.tasks[v] && s'.tasks[u].pc.lock == s.tasks[u].pc.lock && s.locks.Keys <= s'.locks.Keys
    && (s'.tasks[u].pc.Storing? ==> s'.tasks[u].pc.id in s'.gateway)
  }

  lemma OnwardInside(s: State, u: TaskId, v: TaskId, k: Conv, spare: ThreadId)
    requires CanGoOn(s, u) && k.place !in s.mappings && u != v && v in s.tasks && Of(s, u, k)
    requires s.tasks[u].pc.Waiting? || s.tasks[u].pc.Rechecking? || s.tasks[u].pc.Rechecked?
    ensures var a := Onward(s, u, k, spare);
            Enabled(s, a) && Harmless(s, a, k) && MovedOn(s, Apply(s, a), u, v, k)
  {
  }

  lemma OnwardAtGateway(s: State, u: TaskId, v: TaskId, k: Conv, spare: ThreadId)
    requires CanGoOn(s, u) && k.place !in s.mappings && u != v && v in s.tasks
    requires s.tasks[u].pc.Creating? || s.tasks[u].pc.Verifying?
    ensures var a := Onward(s, u, k, spare);
            Enabled(s, a) && Harmless(s, a, k) && MovedOn(s, Apply(s, a), u, v, k)
  {
  }

  /** A thread that is not at the Gateway. */
  lemma FreshThread(used: set<ThreadId>) returns (id: ThreadId)
    ensures id !in used && forall u :: u in used ==> |u| < |id|
    decreases |used|
  {
    if used == {} {
      id := "thread";
    } else {
      var u :| u in used;
      var longer := FreshThread(used - {u});
      assert used == (used - {u}) + {u};
      var next: ThreadId := u + "2";
      id := if |longer| <= |u| then next else longer;
    }
  }

  /** A task at an old lock reaches the point of writing the mapping. */
  lemma {:induction false} OldcomerStores(s0: State, acts0: seq<Action>, s: State, k: Conv, u: TaskId, v: TaskId)
      returns (acts: seq<Action>, s': State)
    requires QuietRun(s0, acts0, s, k) && k.place !in s.mappings
    requires CanGoOn(s, u) && Of(s, u, k) && u != v && v in s.tasks
    requires s.tasks[u].pc.Storing? ==> s.tasks[u].pc.id in s.gateway
    ensures QuietRun(s0, acts, s', k) && CanGoOn(s', u) && s'.tasks[u].pc.Storing? && Of(s', u, k)
    ensures s'.tasks[u].pc.id in s'.gateway
    ensures s'.hasRepo == s.hasRepo && s'.tasks.Keys == s.tasks.Keys && s'.tasks[u].msg == s.tasks[u].msg
    ensures s'.tasks[v] == s.tasks[v] && s.locks.Keys <= s'.locks.Keys
    decreases StepsLeft(s, u)
  {
    if s.tasks[u].pc.Storing? {
      acts, s' := acts0, s;
    } else {
      var spare := FreshThread(s.gateway);
      if s.tasks[u].pc.Creating? || s.tasks[u].pc.Verifying? {
        OnwardAtGateway(s, u, v, k, spare);
      } else {
        OnwardInside(s, u, v, k, spare);
      }
      acts, s' := Next(s0, acts0, s, Onward(s, u, k, spare), k);
      acts, s' := OldcomerStores(s0, acts, s', k, u, v);
    }
  }

  /** Writing the mapping and returning. */
  lemma StorerReturns(s0: State, acts0: seq<Action>, s: State, k: Conv, u: TaskId, v: TaskId)
      returns (acts: seq<Action>, s': State)
    requires QuietRun(s0, acts0, s, k) && Of(s, u, k) && Agrees(s.hasRepo, s.tasks[u].msg, k)
    requires s.tasks[u].pc.Storing? && s.tasks[u].pc.lock in s.locks && u != v && v in s.tasks
    ensures QuietRun(s0, acts, s', k) && s'.tasks.Keys == s.tasks.Keys && s'.hasRepo == s.hasRepo
    ensures s'.tasks[u] == Task(s.tasks[u].msg, Returned(s.tasks[u].pc.id, true)) && s'.tasks[v] == s.tasks[v]
    ensures s.locks.Keys <= s'.locks.Keys && s'.gateway == s.gateway
  {
    acts, s' := Next(s0, acts0, s, WriteMapping(u), k);
    assert s'.tasks[u].pc == Stored(s.tasks[u].pc.lock, s.tasks[u].pc.id) && k.place in s'.mappings;
    acts, s' := Next(s0, acts, s', ResumeStored(u), k);
  }

  /** Somebody at a lock holds it, or is first in the queue of a free lock. */
  lemma HolderOrFirst(s: State, w: TaskId, l: LockId) returns (u: TaskId)
    requires LocksAgree(s) && At(s, w, l)
    ensures At(s, u, l) && l in s.locks && (s.tasks[u].pc.Waiting? ==> Enabled(s, TakeLock(u)))
    ensures s.locks[l].holder == Some(u) || u in s.locks[l].waiters
  {
    assert Seated(s, w) && Manned(s, l);
    if s.locks[l].holder.Some? {
      u := s.locks[l].holder.value;
    } else {
      u := s.locks[l].waiters[0];
      assert u in s.locks[l].waiters;
    }
  }

  /** How many tasks hold the lock or queue for it. */
  function Crew(lock: Lock): nat {
    (if lock.holder.Some? then 1 else 0) + |lock.waiters|
  }

  lemma WithoutShrinks(ts: seq<TaskId>, t: TaskId)
    ensures |Without(ts, t)| <= |ts|
    ensures t in ts ==> |Without(ts, t)| < |ts|
  {
  }

  /** The conversation's tasks at work on an unmapped conversation whose registry entry is gone. */
  ghost predicate Orphaned(s: State, k: Conv) {
    && Inv(s) && k.place !in s.mappings && k.key !in s.registry
    && (forall t :: Of(s, t, k) ==> Fit(s.tasks[t]) && Agrees(s.hasRepo, s.tasks[t].msg, k))
  }

  /** A task of another conversation leaves the lock, which drops nothing any more. */
  lemma LeavesLock(s0: State, acts0: seq<Action>, s: State, k: Conv, h: TaskId, w: TaskId, l: LockId)
      returns (acts: seq<Action>, s': State)
    requires QuietRun(s0, acts0, s, k) && Orphaned(s, k)
    requires At(s, h, l) && !Of(s, h, k) && Of(s, w, k) && At(s, w, l)
    requires l in s.locks && (s.locks[l].holder == Some(h) || h in s.locks[l].waiters)
    ensures QuietRun(s0, acts, s', k) && Orphaned(s', k) && Of(s', w, k) && At(s', w, l)
    ensures l in s'.locks && Crew(s'.locks[l]) < Crew(s.locks[l])
  {
    assert Seated(s, h) && Manned(s, l);
    acts, s' := Next(s0, acts0, s, Fail(h), k);
    StepKeepsInv(s, Fail(h));
    WithoutShrinks(s.locks[l].waiters, h);
    forall t | Of(s', t, k) ensures Fit(s'.tasks[t]) && Agrees(s'.hasRepo, s'.tasks[t].msg, k) {
      assert Of(s, t, k);
    }
  }

  /** Once the tasks of other conversations have left the lock, one of the conversation can go on. */
  lemma {:induction false} SomeoneGoesOn(s0: State, acts0: seq<Action>, s: State, k: Conv, w: TaskId, l: LockId)
      returns (acts: seq<Action>, s': State, u: TaskId)
    requires QuietRun(s0, acts0, s, k) && Orphaned(s, k)
    requires Of(s, w, k) && At(s, w, l) && l in s.locks
    ensures QuietRun(s0, acts, s', k) && Orphaned(s', k) && CanGoOn(s', u) && Of(s', u, k)
    decreases Crew(s.locks[l])
  {
    u := HolderOrFirst(s, w, l);
    if Of(s, u, k) {
      acts, s' := acts0, s;
    } else {
      acts, s' := LeavesLock(s0, acts0, s, k, u, w, l);
      acts, s', u := SomeoneGoesOn(s0, acts, s', k, w, l);
    }
  }

  /** What a harmful drop leaves: no registry entry, and a task of the conversation at the lock. */
  lemma HarmfulLeaves(s: State, a: Action, k: Conv) returns (w: TaskId, l: LockId)
    requires Inv(s) && Single(s, k) && Enabled(s, a) && Harmful(s, a, k)
    ensures Orphaned(Apply(s, a), k)
    ensures Of(Apply(s, a), w, k) && At(Apply(s, a), w, l) && l in Apply(s, a).locks
  {
    var s' := Apply(s, a);
    StepKeepsInv(s, a);
    w :| w != a.t && Of(s, w, k) && s.tasks[w].pc.Locking();
    l := s.tasks[w].pc.lock;
    OthersStay(s, a, w);
    assert Seated(s', w);
    DropLeaves(s, a, k);
    forall t | Of(s', t, k) ensures Fit(s'.tasks[t]) && Agrees(s'.hasRepo, s'.tasks[t].msg, k) {
      MessageStays(s, a, t);
      assert Before(s, t, k);
      if t != a.t { OthersStay(s, a, t); }
    }
  }

  lemma DropLeaves(s: State, a: Action, k: Conv)
    requires Drops(s, a, k)
    ensures Apply(s, a).mappings == s.mappings && k.key !in Apply(s, a).registry
    ensures Apply(s, a).tasks[a.t].pc.Raised? || Apply(s, a).tasks[a.t].pc.Returned?
  {
  }

  /** A newcomer enters the creation under a second lock, while an old task can still go on. */
  lemma SecondCreator(s1: State, acts1: seq<Action>, s: State, k: Conv, m: Inbound, u: TaskId)
      returns (acts: seq<Action>, s': State, v: TaskId)
    requires QuietRun(s1, acts1, s, k) && k.place !in s.mappings && k.key !in s.registry
    requires LookupIdent(s.hasRepo, m) == k.place && Agrees(s.hasRepo, m, k)
    requires CanGoOn(s, u)
    ensures QuietRun(s1, acts, s', k) && k.place !in s'.mappings && s'.hasRepo == s.hasRepo
    ensures u != v && CanGoOn(s', u) && s'.tasks[u] == s.tasks[u] && s'.gateway == s.gateway
    ensures v in s'.tasks && s'.tasks[v].msg == m && s'.tasks[v].pc.Creating? && s'.tasks[v].pc.lock in s'.locks
  {
    v := FreshLock(s.tasks.Keys);
    var spare := FreshLock(s.locks.Keys);
    acts, s' := NewcomerLocks(s1, acts1, s, k, m, v, spare);
    acts, s' := NewcomerEnters(s1, acts, s', k, v);
  }

  /** A task in `_create_thread` at the Gateway creates a given thread, stores it and returns. */
  lemma CreatorReturns(s0: State, acts0: seq<Action>, s: State, k: Conv, v: TaskId, id: ThreadId, u: TaskId)
      returns (acts: seq<Action>, s': State)
    requires QuietRun(s0, acts0, s, k) && u != v && u in s.tasks
    requires Of(s, v, k) && Agrees(s.hasRepo, s.tasks[v].msg, k)
    requires s.tasks[v].pc.Creating? && s.tasks[v].pc.lock in s.locks
    ensures QuietRun(s0, acts, s', k) && s'.hasRepo == s.hasRepo
    ensures v in s'.tasks && s'.tasks[v] == Task(s.tasks[v].msg, Returned(id, true))
    ensures u in s'.tasks && s'.tasks[u] == s.tasks[u]
  {
    acts, s' := Next(s0, acts0, s, GatewayCreates(v, id), k);
    acts, s' := StorerReturns(s0, acts, s', k, v, u);
  }

  /** Two creators under different locks both return, with different threads. */
  lemma BothReturn(s1: State, acts1: seq<Action>, s: State, k: Conv, u: TaskId, v: TaskId)
      returns (acts: seq<Action>, s': State)
    requires QuietRun(s1, acts1, s, k) && k.place !in s.mappings
    requires u != v && CanGoOn(s, u) && (s.tasks[u].pc.Storing? ==> s.tasks[u].pc.id in s.gateway)
    requires Of(s, u, k) && Agrees(s.hasRepo, s.tasks[u].msg, k)
    requires Of(s, v, k) && Agrees(s.hasRepo, s.tasks[v].msg, k)
    requires s.tasks[v].pc.Creating? && s.tasks[v].pc.lock in s.locks
    ensures QuietRun(s1, acts, s', k)
    ensures Created(s', u, k) && Created(s', v, k) && s'.tasks[u].pc.id != s'.tasks[v].pc.id
  {
    acts, s' := OldcomerStores(s1, acts1, s, k, u, v);
    acts, s' := StorerReturns(s1, acts, s', k, u, v);
    var other := FreshThread(s'.gateway);
    acts, s' := CreatorReturns(s1, acts, s', k, v, other, u);
  }

  /** So two tasks of an orphaned conversation create a thread each. */
  lemma OrphanedSplits(s1: State, k: Conv, w: TaskId, l: LockId)
      returns (acts: seq<Action>, s': State, u: TaskId, v: TaskId)
    requires Orphaned(s1, k) && Of(s1, w, k) && At(s1, w, l) && l in s1.locks
    ensures QuietRun(s1, acts, s', k)
    ensures u != v && Created(s', u, k) && Created(s', v, k) && s'.tasks[u].pc.id != s'.tasks[v].pc.id
  {
    assert QuietRun(s1, [], s1, k);
    acts, s', u := SomeoneGoesOn(s1, [], s1, k, w, l);
    var m := s'.tasks[u].msg.(preferred := None);
    assert Agrees(s'.hasRepo, m, k) && Backed(s'.tasks[u].pc, s'.gateway);
    acts, s', v := SecondCreator(s1, acts, s', k, m, u);
    acts, s' := BothReturn(s1, acts, s', k, u, v);
  }

  /**
    Every harmful drop is enough to split the conversation, without a raise in it and without a
    command that overwrites its mapping: a task left inside and a newcomer at a second lock both
    return `created`, with different threads, each of them new or preferred by its message.
   */
  lemma HarmfulDropSplits(s: State, a: Action, k: Conv)
      returns (acts: seq<Action>, s': State, u: TaskId, v: TaskId)
    requires Inv(s) && Single(s, k) && Enabled(s, a) && Harmful(s, a, k)
    ensures QuietRun(Apply(s, a), acts, s', k)
    ensures u != v && Created(s', u, k) && Created(s', v, k) && s'.tasks[u].pc.id != s'.tasks[v].pc.id
  {
    var w, l := HarmfulLeaves(s, a, k);
    acts, s', u, v := OrphanedSplits(Apply(s, a), k, w, l);
  }

  /** Some quiet continuation splits the conversation. */
  ghost predicate CanSplit(s: State, k: Conv) {
    exists acts, s' :: QuietRun(s, acts, s', k) && Split(s', k)
  }

  lemma {:induction false} QuietRunIsCalm(s: State, acts: seq<Action>, s': State, k: Conv)
    requires QuietRun(s, acts, s', k)
    ensures CalmRun(s, acts, s', k)
    decreases |acts|
  {
    if acts != [] { QuietRunIsCalm(Apply(s, acts[0]), acts[1..], s', k); }
  }

  /**
    The exact condition, for every step of every task after any run without a harmful drop so far: the
    step opens a way to split the conversation if and only if it drops the registry entry of the
    conversation while that is unmapped and another of its tasks is inside.
   */
  lemma DropSplitsIff(s0: State, acts: seq<Action>, s: State, a: Action, k: Conv)
    requires Initial(s0) && k.place !in s0.mappings && CalmRun(s0, acts, s, k)
    requires Enabled(s, a)
    requires (a.Arrive? ==> Agrees(s.hasRepo, a.msg, k)) && (a.Overwrite? ==> a.ident != k.place)
    ensures CanSplit(Apply(s, a), k) <==>
              Drops(s, a, k) && k.place !in s.mappings && OtherInside(s, a.t, k)
  {
    CalmRunKeepsSingle(s0, acts, s, k);
    if Harmful(s, a, k) {
      var more, s', u, v := HarmfulDropSplits(s, a, k);
      assert Divided(s', u, v, k);
    } else {
      StepKeepsInv(s, a);
      StepKeepsSingle(s, a, k);
      forall more, s' | QuietRun(Apply(s, a), more, s', k) ensures !Split(s', k) {
        QuietRunIsCalm(Apply(s, a), more, s', k);
        CalmRunKeepsSingle(Apply(s, a), more, s', k);
        SingleIsWhole(s', k);
      }
    }
  }

  // ---------------------------------------------------------------------------
  // The hypotheses are needed
  // ---------------------------------------------------------------------------

  /** A message's mapping is read where it is written exactly when it is written where it
      is read: an unowned connected message looks in the repository and stores elsewhere. */
  lemma ReadsWhereItWrites(hasRepo: bool, m: Inbound)
    ensures LookupIdent(hasRepo, m) == StoreIdent(hasRepo, m) <==> !(hasRepo && m.connection != "" && m.owner == "")
  {
  }

  /** The start state of the counter-runs: nothing mapped. */
  function Start(hasRepo: bool): State {
    State(hasRepo, map[], map[], map[], map[], {}, {})
  }

  lemma {:induction false} RunExtends(s: State, acts: seq<Action>, s': State, a: Action)
    requires Run(s, acts, s') && Enabled(s', a)
    ensures Run(s, acts + [a], Apply(s', a))
    decreases |acts|
  {
    if acts == [] {
      assert Run(Apply(s', a), [], Apply(s', a));
      assert (acts + [a])[1..] == [];
    } else {
      RunExtends(Apply(s, acts[0]), acts[1..], s', a);
      assert (acts + [a])[1..] == acts[1..] + [a];
    }
  }

  lemma Then(s0: State, acts: seq<Action>, s: State, a: Action) returns (acts': seq<Action>, s': State)
    requires Run(s0, acts, s) && Enabled(s, a)
    ensures Run(s0, acts', s') && acts' == acts + [a] && s' == Apply(s, a)
  {
    RunExtends(s0, acts, s, a);
    acts', s' := acts + [a], Apply(s, a);
  }

  /** Neither a raise, nor a conflict at the Gateway, nor a command. */
  predicate Peaceful(a: Action) {
    !a.Fail? && !a.GatewayConflicts? && !a.Overwrite?
  }

  /** The actions so far, and peaceful ones of messages `m` and `n`. */
  ghost predicate Peacefully(before: seq<Action>, acts: seq<Action>, m: Inbound, n: Inbound) {
    forall a :: a in acts ==> a in before || (Peaceful(a) && (a.Arrive? ==> a.msg == m || a.msg == n))
  }

  function Looker(m: Inbound): Task {
    Task(m, Looked(None))
  }

  /** A message of an unmapped conversation arrives and finds nothing. */
  lemma Looks(s0: State, acts0: seq<Action>, s1: State, t: TaskId, m: Inbound)
      returns (acts: seq<Action>, s: State)
    requires Run(s0, acts0, s1) && t !in s1.tasks && LookupIdent(s1.hasRepo, m) !in s1.mappings
    ensures Run(s0, acts, s) && Peacefully(acts0, acts, m, m)
    ensures s == s1.(tasks := s1.tasks[t := Looker(m)])
  {
    acts, s := Then(s0, acts0, s1, Arrive(t, m));
    acts, s := Then(s0, acts, s, ReadFirst(t));
    assert s.tasks == s1.tasks[t := Looker(m)];
  }

  /** A lock holder of an unmapped conversation looks again and enters `_create_thread`. */
  lemma Enters(s0: State, acts0: seq<Action>, s1: State, t: TaskId)
      returns (acts: seq<Action>, s: State)
    requires Run(s0, acts0, s1) && t in s1.tasks && s1.tasks[t].pc.Rechecking? && s1.tasks[t].pc.lock in s1.locks
    requires LookupIdent(s1.hasRepo, s1.tasks[t].msg) !in s1.mappings
    ensures Run(s0, acts, s) && Peacefully(acts0, acts, s1.tasks[t].msg, s1.tasks[t].msg)
    ensures s == Goto(s1, t, Creating(s1.tasks[t].pc.lock)).(creators := s1.creators + {t})
  {
    acts, s := Then(s0, acts0, s1, ReadAgain(t));
    assert s == Goto(s1, t, Rechecked(s1.tasks[t].pc.lock, None));
    acts, s := Then(s0, acts, s, ResumeAgain(t));
    assert s.tasks == s1.tasks[t := s1.tasks[t].(pc := Creating(s1.tasks[t].pc.lock))];
  }

  /** A task in `_create_thread` creates a thread and writes the mapping. */
  lemma Stores(s0: State, acts0: seq<Action>, s1: State, t: TaskId, id: ThreadId)
      returns (acts: seq<Action>, s: State)
    requires Run(s0, acts0, s1) && t in s1.tasks && s1.tasks[t].pc.Creating?
    ensures Run(s0, acts, s) && Peacefully(acts0, acts, s1.tasks[t].msg, s1.tasks[t].msg)
    ensures s == Goto(s1, t, Stored(s1.tasks[t].pc.lock, id)).(gateway := s1.gateway + {id},
                   mappings := s1.mappings[StoreIdent(s1.hasRepo, s1.tasks[t].msg) := id])
  {
    acts, s := Then(s0, acts0, s1, GatewayCreates(t, id));
    assert s.tasks == s1.tasks[t := s1.tasks[t].(pc := Storing(s1.tasks[t].pc.lock, id))];
    acts, s := Then(s0, acts, s, WriteMapping(t));
    assert s.tasks == s1.tasks[t := s1.tasks[t].(pc := Stored(s1.tasks[t].pc.lock, id))];
  }

  /** It then returns, and leaves the lock. */
  lemma Completes(s0: State, acts0: seq<Action>, s1: State, t: TaskId, id: ThreadId)
      returns (acts: seq<Action>, s: State)
    requires Run(s0, acts0, s1) && t in s1.tasks && s1.tasks[t].pc.Creating? && s1.tasks[t].pc.lock in s1.locks
    ensures Run(s0, acts, s) && Peacefully(acts0, acts, s1.tasks[t].msg, s1.tasks[t].msg)
    ensures s.hasRepo == s1.hasRepo
    ensures s.tasks == s1.tasks[t := Task(s1.tasks[t].msg, Returned(id, true))]
    ensures var l := s1.tasks[t].pc.lock; s.locks == s1.locks[l := Lock(None, s1.locks[l].waiters)]
    ensures s.registry == s1.registry - {KeyOf(s1.tasks[t].msg)}
    ensures s.mappings == s1.mappings[StoreIdent(s1.hasRepo, s1.tasks[t].msg) := id]
  {
    acts, s := Stores(s0, acts0, s1, t, id);
    acts, s := Then(s0, acts, s, ResumeStored(t));
    assert s.tasks == s1.tasks[t := Task(s1.tasks[t].msg, Returned(id, true))];
  }

  /** Three messages under one lock key have looked and found nothing. */
  lemma ThreeLookers(hasRepo: bool, m: Inbound, n: Inbound) returns (acts: seq<Action>, s: State)
    ensures Run(Start(hasRepo), acts, s) && Peacefully([], acts, m, n)
    ensures s == Start(hasRepo).(tasks := map[0 := Looker(m), 1 := Looker(n), 2 := Looker(n)])
  {
    var s0 := Start(hasRepo);
    acts, s := Looks(s0, [], s0, 0, m);
    acts, s := Looks(s0, acts, s, 1, n);
    acts, s := Looks(s0, acts, s, 2, n);
  }

  /** Task 0 takes lock 0. */
  lemma FirstLock(hasRepo: bool, m: Inbound, n: Inbound) returns (acts: seq<Action>, s: State)
    ensures Run(Start(hasRepo), acts, s) && Peacefully([], acts, m, n)
    ensures s == State(hasRepo,
      map[0 := Task(m, Rechecking(0)), 1 := Looker(n), 2 := Looker(n)],
      map[KeyOf(m) := Registered(0, 0)], map[0 := Lock(Some(0), [])], map[], {}, {})
  {
    acts, s := ThreeLookers(hasRepo, m, n);
    acts, s := Then(Start(hasRepo), acts, s, ResumeFirst(0, 0));
    assert s.tasks == map[0 := Task(m, Rechecking(0)), 1 := Looker(n), 2 := Looker(n)];
  }

  /** Task 1 queues for it. */
  lemma Queue(hasRepo: bool, m: Inbound, n: Inbound) returns (acts: seq<Action>, s: State)
    requires KeyOf(m) == KeyOf(n)
    ensures Run(Start(hasRepo), acts, s) && Peacefully([], acts, m, n)
    ensures s == State(hasRepo,
      map[0 := Task(m, Rechecking(0)), 1 := Task(n, Waiting(0)), 2 := Looker(n)],
      map[KeyOf(n) := Registered(0, 0)], map[0 := Lock(Some(0), [1])], map[], {}, {})
  {
    acts, s := FirstLock(hasRepo, m, n);
    acts, s := Then(Start(hasRepo), acts, s, ResumeFirst(1, 1));
    assert [] + [1] == [1];
    assert s.tasks == map[0 := Task(m, Rechecking(0)), 1 := Task(n, Waiting(0)), 2 := Looker(n)];
    assert s.locks == map[0 := Lock(Some(0), [1])];
  }

  /** Task 0 holds lock 0 and has entered `_create_thread`; task 1 queues for lock 0. */
  lemma Crowd(hasRepo: bool, m: Inbound, n: Inbound) returns (acts: seq<Action>, s: State)
    requires KeyOf(m) == KeyOf(n)
    ensures Run(Start(hasRepo), acts, s) && Peacefully([], acts, m, n)
    ensures s == State(hasRepo,
      map[0 := Task(m, Creating(0)), 1 := Task(n, Waiting(0)), 2 := Looker(n)],
      map[KeyOf(n) := Registered(0, 0)], map[0 := Lock(Some(0), [1])], map[], {}, {0})
  {
    acts, s := Queue(hasRepo, m, n);
    acts, s := Enters(Start(hasRepo), acts, s, 0);
    assert s.tasks == map[0 := Task(m, Creating(0)), 1 := Task(n, Waiting(0)), 2 := Looker(n)];
  }

  /** The registry has lost lock 0, for which task 1 of the unmapped conversation still queues. */
  ghost predicate Dropped(s: State, over: Task, n: Inbound) {
    && s.tasks == map[0 := over, 1 := Task(n, Waiting(0)), 2 := Looker(n)]
    && s.registry == map[] && s.locks == map[0 := Lock(None, [1])]
    && LookupIdent(s.hasRepo, n) !in s.mappings
  }

  /** So task 2 registers a second lock. */
  lemma Registers(s0: State, acts0: seq<Action>, s1: State, over: Task, n: Inbound)
      returns (acts: seq<Action>, s: State)
    requires Run(s0, acts0, s1) && Dropped(s1, over, n)
    ensures Run(s0, acts, s) && Peacefully(acts0, acts, n, n)
    ensures s.tasks == map[0 := over, 1 := Task(n, Waiting(0)), 2 := Task(n, Rechecking(1))]
    ensures s.locks == map[0 := Lock(None, [1]), 1 := Lock(Some(2), [])]
    ensures s.mappings == s1.mappings && s.hasRepo == s1.hasRepo
  {
    acts, s := Then(s0, acts0, s1, ResumeFirst(2, 1));
    assert s.tasks == map[0 := over, 1 := Task(n, Waiting(0)), 2 := Task(n, Rechecking(1))];
  }

  /** Both locks are then held. */
  lemma SecondLock(s0: State, acts0: seq<Action>, s1: State, over: Task, n: Inbound)
      returns (acts: seq<Action>, s: State)
    requires Run(s0, acts0, s1) && Dropped(s1, over, n)
    ensures Run(s0, acts, s) && Peacefully(acts0, acts, n, n)
    ensures {1, 2} <= s.tasks.Keys && {0, 1} <= s.locks.Keys
    ensures s.tasks[1] == Task(n, Rechecking(0)) && s.tasks[2] == Task(n, Rechecking(1))
    ensures s.mappings == s1.mappings && s.hasRepo == s1.hasRepo
  {
    acts, s := Registers(s0, acts0, s1, over, n);
    acts, s := Then(s0, acts, s, TakeLock(1));
    assert [1][1..] == [];
  }

  /** Both are then inside `_create_thread` at once. */
  lemma TwoInside(s0: State, acts0: seq<Action>, s1: State, over: Task, n: Inbound)
      returns (acts: seq<Action>, s: State)
    requires Run(s0, acts0, s1) && Dropped(s1, over, n)
    ensures Run(s0, acts, s) && Peacefully(acts0, acts, n, n)
    ensures {1, 2} <= s.tasks.Keys && {0, 1} <= s.locks.Keys && s.hasRepo == s1.hasRepo
    ensures s.tasks[1] == Task(n, Creating(0)) && s.tasks[2] == Task(n, Creating(1))
  {
    acts, s := SecondLock(s0, acts0, s1, over, n);
    acts, s := Enters(s0, acts, s, 1);
    acts, s := Enters(s0, acts, s, 2);
  }

  /** Tasks 1 and 2 each create a thread, write the mapping and return. */
  lemma TwoCreated(s0: State, acts0: seq<Action>, s1: State, over: Task, n: Inbound, b: ThreadId, c: ThreadId)
      returns (acts: seq<Action>, s: State)
    requires Run(s0, acts0, s1) && Dropped(s1, over, n)
    ensures Run(s0, acts, s) && Peacefully(acts0, acts, n, n) && s.hasRepo == s1.hasRepo
    ensures {1, 2} <= s.tasks.Keys
    ensures s.tasks[1] == Task(n, Returned(b, true)) && s.tasks[2] == Task(n, Returned(c, true))
  {
    acts, s := TwoInside(s0, acts0, s1, over, n);
    acts, s := Completes(s0, acts, s, 1, b);
    acts, s := Completes(s0, acts, s, 2, c);
  }

  function Plain(): Inbound {
    Inbound("feishu", "chat", None, "", "", None)
  }

  /** The create of task 0 raises: the registry loses lock 0 while task 1 still queues for it. */
  lemma DroppedByRaise() returns (acts: seq<Action>, s: State)
    ensures Run(Start(false), acts, s) && forall a :: a in acts ==> Peaceful(a) || a == Fail(0)
    ensures Dropped(s, Task(Plain(), Raised), Plain()) && !s.hasRepo
  {
    acts, s := Crowd(false, Plain(), Plain());
    acts, s := Then(Start(false), acts, s, Fail(0));
    assert s.registry == map[] && s.locks == map[0 := Lock(None, [1])];
    assert s.tasks == map[0 := Task(Plain(), Raised), 1 := Task(Plain(), Waiting(0)), 2 := Looker(Plain())];
  }

  /**
    One raised create is enough to break the single creation: two later tasks of the same
    conversation both return `created`, with different thread ids, and one thread is orphaned.
   */
  lemma RaisedCreateSplitsConversation() returns (acts: seq<Action>, s: State)
    ensures Run(Start(false), acts, s) && forall a :: a in acts ==> Peaceful(a) || a == Fail(0)
    ensures var k := Conv(KeyOf(Plain()), EntryOf(Plain()));
            Created(s, 1, k) && Created(s, 2, k) && s.tasks[1].pc.id != s.tasks[2].pc.id
  {
    var dropped, s1 := DroppedByRaise();
    acts, s := TwoCreated(Start(false), dropped, s1, Task(Plain(), Raised), Plain(), "b", "c");
  }

  /** A message of one chat that came through a connection of its own. */
  function Through(connection: string): Inbound {
    Inbound("slack", "chat", Some("topic"), connection, "owner", None)
  }

  /** Task 0 returns normally, and so drops lock 0, for which task 1 of another connection queues. */
  lemma DroppedByReturn(m: Inbound, n: Inbound) returns (acts: seq<Action>, s: State)
    requires m == Through("1") && n == Through("2")
    ensures Run(Start(true), acts, s) && Peacefully([], acts, m, n)
    ensures Dropped(s, Task(m, Returned("a", true)), n) && s.hasRepo
  {
    var s0 := Start(true);
    acts, s := Crowd(true, m, n);
    acts, s := Completes(s0, acts, s, 0, "a");
    assert RowOf(m).connection[0] != RowOf(n).connection[0];
    assert s.tasks == map[0 := Task(m, Returned("a", true)), 1 := Task(n, Waiting(0)), 2 := Looker(n)];
    assert s.registry == map[] && s.locks == map[0 := Lock(None, [1])];
  }

  /**
    So is a normal return, where two connections see one chat and share its lock key: with no raise,
    no conflict and no command, and every mapping read where it is written, two tasks of the second
    connection both return `created`, with different threads.
   */
  lemma SharedLockKeySplitsConversation() returns (acts: seq<Action>, s: State)
    ensures Run(Start(true), acts, s) && forall a :: a in acts ==> Peaceful(a)
    ensures var k := Conv(KeyOf(Through("2")), RowOf(Through("2")));
            && (forall a :: a in acts && a.Arrive? ==> Agrees(true, a.msg, k))
            && Created(s, 1, k) && Created(s, 2, k) && s.tasks[1].pc.id != s.tasks[2].pc.id
  {
    var m, n := Through("1"), Through("2");
    var dropped, s1 := DroppedByReturn(m, n);
    acts, s := TwoCreated(Start(true), dropped, s1, Task(m, Returned("a", true)), n, "b", "c");
    assert RowOf(m).connection[0] != RowOf(n).connection[0];
  }

  /** A message that has found nothing takes a lock of its own when its lock key has none. */
  lemma Locks(s0: State, acts0: seq<Action>, s1: State, t: TaskId, spare: LockId)
      returns (acts: seq<Action>, s: State)
    requires Run(s0, acts0, s1) && t in s1.tasks && s1.tasks[t].pc == Looked(None)
    requires KeyOf(s1.tasks[t].msg) !in s1.registry && spare !in s1.locks
    ensures Run(s0, acts, s) && Peacefully(acts0, acts, s1.tasks[t].msg, s1.tasks[t].msg)
    ensures s == Goto(s1, t, Rechecking(spare)).(
                   registry := s1.registry[KeyOf(s1.tasks[t].msg) := Registered(spare, t)],
                   locks := s1.locks[spare := Lock(Some(t), [])])
  {
    acts, s := Then(s0, acts0, s1, ResumeFirst(t, spare));
  }

  /** A lone message looks and locks. */
  lemma Comes(s0: State, acts0: seq<Action>, s1: State, t: TaskId, m: Inbound)
      returns (acts: seq<Action>, s: State)
    requires Run(s0, acts0, s1) && t !in s1.tasks && t !in s1.locks
    requires LookupIdent(s1.hasRepo, m) !in s1.mappings && KeyOf(m) !in s1.registry
    ensures Run(s0, acts, s) && Peacefully(acts0, acts, m, m)
    ensures s == s1.(tasks := s1.tasks[t := Task(m, Rechecking(t))],
                     registry := s1.registry[KeyOf(m) := Registered(t, t)],
                     locks := s1.locks[t := Lock(Some(t), [])])
  {
    acts, s := Looks(s0, acts0, s1, t, m);
    acts, s := Locks(s0, acts, s, t, t);
    assert s.tasks == s1.tasks[t := Task(m, Rechecking(t))];
  }

  /** It then enters `_create_thread`. */
  lemma Arrives(s0: State, acts0: seq<Action>, s1: State, t: TaskId, m: Inbound)
      returns (acts: seq<Action>, s: State)
    requires Run(s0, acts0, s1) && t !in s1.tasks && t !in s1.locks
    requires LookupIdent(s1.hasRepo, m) !in s1.mappings && KeyOf(m) !in s1.registry
    ensures Run(s0, acts, s) && Peacefully(acts0, acts, m, m)
    ensures s == s1.(tasks := s1.tasks[t := Task(m, Creating(t))],
                     registry := s1.registry[KeyOf(m) := Registered(t, t)],
                     locks := s1.locks[t := Lock(Some(t), [])], creators := s1.creators + {t})
  {
    acts, s := Comes(s0, acts0, s1, t, m);
    acts, s := Enters(s0, acts, s, t);
    assert s.tasks == s1.tasks[t := Task(m, Creating(t))];
  }

  lemma BothComplete(s0: State, acts0: seq<Action>, s1: State, m: Inbound, n: Inbound, a: ThreadId, b: ThreadId)
      returns (acts: seq<Action>, s: State)
    requires Run(s0, acts0, s1) && {0, 1} <= s1.tasks.Keys && {0, 1} <= s1.locks.Keys
    requires s1.tasks[0] == Task(m, Creating(0)) && s1.tasks[1] == Task(n, Creating(1))
    ensures Run(s0, acts, s) && Peacefully(acts0, acts, m, n) && s.hasRepo == s1.hasRepo
    ensures {0, 1} <= s.tasks.Keys
    ensures s.tasks[0] == Task(m, Returned(a, true)) && s.tasks[1] == Task(n, Returned(b, true))
  {
    acts, s := Completes(s0, acts0, s1, 0, a);
    acts, s := Completes(s0, acts, s, 1, b);
  }

  /**
    A place with two lock keys is split as well: for any two messages that share the place of their
    mapping but not the lock key, a run with no raise, conflict or command in which both return
    `created`, with different threads.
   */
  lemma TwoLockKeysSplit(hasRepo: bool, m: Inbound, n: Inbound) returns (acts: seq<Action>, s: State)
    requires LookupIdent(hasRepo, m) == LookupIdent(hasRepo, n) && KeyOf(m) != KeyOf(n)
    ensures Run(Start(hasRepo), acts, s) && Peacefully([], acts, m, n)
    ensures var k := Conv(KeyOf(m), LookupIdent(hasRepo, m));
            Created(s, 0, k) && Created(s, 1, k) && s.tasks[0].pc.id != s.tasks[1].pc.id
  {
    var s0 := Start(hasRepo);
    acts, s := Arrives(s0, [], s0, 0, m);
    acts, s := Arrives(s0, acts, s, 1, n);
    acts, s := BothComplete(s0, acts, s, m, n, "a", "b");
    assert "a"[0] != "b"[0];
  }

  /**
    And so is a mapping that is not read where it is written: for any such message, a run with no
    raise, conflict or command in which it comes twice, one after the other, and both tasks return
    `created`, with different threads.
   */
  lemma MisplacedMappingSplits(hasRepo: bool, m: Inbound) returns (acts: seq<Action>, s: State)
    requires LookupIdent(hasRepo, m) != StoreIdent(hasRepo, m)
    ensures Run(Start(hasRepo), acts, s) && Peacefully([], acts, m, m)
    ensures var k := Conv(KeyOf(m), LookupIdent(hasRepo, m));
            Created(s, 0, k) && Created(s, 1, k) && s.tasks[0].pc.id != s.tasks[1].pc.id
  {
    var s0 := Start(hasRepo);
    acts, s := Arrives(s0, [], s0, 0, m);
    acts, s := Completes(s0, acts, s, 0, "a");
    acts, s := Arrives(s0, acts, s, 1, m);
    acts, s := Completes(s0, acts, s, 1, "b");
    assert "a"[0] != "b"[0];
  }
}
