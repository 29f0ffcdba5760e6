/**
  The running card of a Feishu conversation (backend/app/channels/feishu.py): one card is
  created in the background per source message, patched while the answer streams, and
  forgotten after the final answer. Inbound preparation, creation tasks, their
  done-callbacks and sends interleave at every `await`.
 */
module FeishuCards {
  import opened Options

  type Source = string
  type TaskId = nat
  type CardId = nat
  type SendId = nat

  type Cards = map<Source, CardId>
  type Tasks = map<Source, TaskId>

  /** How `_send_card_message` goes on after looking at both maps. */
  datatype Route = Patch(card: CardId) | Await(task: TaskId) | Reply | Create

  function RouteOf(ids: Cards, tasks: Tasks, src: Source, final: bool): Route {
    if src in ids then Patch(ids[src])
    else if src in tasks then Await(tasks[src])
    else if final then Reply
    else Create
  }

  /** `_ensure_running_card_started` creates a task only if there is neither a card nor a task. */
  predicate NeedsTask(ids: Cards, tasks: Tasks, src: Source) {
    src !in ids && src !in tasks
  }

  /** The done-callback drops the entry only if it is still the finished task's. */
  function Finalized(tasks: Tasks, src: Source, task: TaskId): Tasks {
    if src in tasks && tasks[src] == task then tasks - {src} else tasks
  }

  /** `_running_card_ids` and `_running_card_tasks` with the code that edits them between awaits. */
  class RunningCards {
    var ids: Cards
    var tasks: Tasks

    constructor ()
      ensures ids == map[] && tasks == map[]
    {
      ids, tasks := map[], map[];
    }

    /** `_ensure_running_card_started`; `spare` is the task `create_task` would return. */
    method EnsureStarted(src: Source, spare: TaskId) returns (task: Option<TaskId>)
      modifies this
      ensures ids == old(ids)
      ensures tasks == if NeedsTask(ids, old(tasks), src) then old(tasks)[src := spare] else old(tasks)
      ensures task == if src in ids then None else Some(tasks[src])
    {
      if src in ids {
        return None;
      }
      if src in tasks {
        return Some(tasks[src]);
      }
      tasks := tasks[src := spare];
      task := Some(spare);
    }

    /** The end of `_create_running_card`. */
    method Cache(src: Source, card: Option<CardId>)
      modifies this
      ensures tasks == old(tasks)
      ensures ids == if card.Some? then old(ids)[src := card.value] else old(ids)
    {
      if card.Some? {
        ids := ids[src := card.value];
      }
    }

    /** `_finalize_running_card_task`. */
    method Finalize(src: Source, task: TaskId)
      modifies this
      ensures ids == old(ids) && tasks == Finalized(old(tasks), src, task)
    {
      if src in tasks && tasks[src] == task {
        tasks := tasks - {src};
      }
    }

    /** The first stretch of `_send_card_message`. */
    method BeginSend(src: Source, final: bool) returns (route: Route)
      ensures route == RouteOf(ids, tasks, src, final)
    {
      if src in ids {
        return Patch(ids[src]);
      }
      if src in tasks {
        return Await(tasks[src]);
      }
      if final {
        return Reply;
      }
      route := Create;
    }

    /** The last stretch of `_send_card_message`. */
    method EndSend(src: Source, final: bool)
      modifies this
      ensures tasks == old(tasks) && ids == if final then old(ids) - {src} else old(ids)
    {
      if final {
        ids := ids - {src};
      }
    }
  }

  // ---------------------------------------------------------------------------
  // Interleavings
  // ---------------------------------------------------------------------------

  datatype Phase =
    | Calling                          // the reply request is under way
    | Replied(card: Option<CardId>)    // answered, coroutine not resumed
    | Done(card: Option<CardId>)
    | Broken                           // the request raised

  datatype Job = Job(src: Source, text: string, phase: Phase) {
    predicate InFlight() {
      phase.Calling? || phase.Replied?
    }
  }

  datatype Pc =
    | Awaiting(task: TaskId)           // waiting for the card somebody else is creating
    | Ensuring(task: TaskId)           // waiting for the card this send created
    | Patching(card: CardId)
    | Patched(card: CardId)
    | Replying
    | Answered(card: CardId)
    | Finished
    | Failed
  {
    predicate Over() {
      Finished? || Failed?
    }
  }

  datatype Send = Send(src: Source, text: string, final: bool, pc: Pc)

  datatype Card = Card(src: Source, text: string)

  datatype State = State(
    ids: Cards,
    tasks: Tasks,
    jobs: map<TaskId, Job>,
    callbacks: set<TaskId>,            // finished jobs whose done-callback has not run
    cards: map<CardId, Card>,          // the cards that exist at Feishu
    sends: map<SendId, Send>
  )

  datatype Action =
    | Prepare(src: Source, task: TaskId)
    | CardCreated(task: TaskId, card: CardId)
    | CardWithoutId(task: TaskId)
    | CreateRaises(task: TaskId)
    | JobResumes(task: TaskId)
    | Callback(task: TaskId)
    | StartSend(x: SendId, src: Source, text: string, final: bool, task: TaskId)
    | Wake(x: SendId)
    | PatchApplies(x: SendId)
    | PatchFails(x: SendId)
    | ReplyLands(x: SendId, card: CardId)
    | ReplyFails(x: SendId)
    | EndSend(x: SendId)

  predicate Enabled(s: State, a: Action) {
    match a
    case Prepare(_, t) => t !in s.jobs
    case CardCreated(t, c) => t in s.jobs && s.jobs[t].phase.Calling? && c !in s.cards
    case CardWithoutId(t) => t in s.jobs && s.jobs[t].phase.Calling?
    case CreateRaises(t) => t in s.jobs && s.jobs[t].phase.Calling?
    case JobResumes(t) => t in s.jobs && s.jobs[t].phase.Replied?
    case Callback(t) => t in s.callbacks && t in s.jobs
    case StartSend(x, _, _, _, t) => x !in s.sends && t !in s.jobs
    case Wake(x) =>
      && x in s.sends && (s.sends[x].pc.Awaiting? || s.sends[x].pc.Ensuring?)
      && s.sends[x].pc.task in s.jobs && !s.jobs[s.sends[x].pc.task].InFlight()
    case PatchApplies(x) => x in s.sends && s.sends[x].pc.Patching? && s.sends[x].pc.card in s.cards
    case PatchFails(x) => x in s.sends && s.sends[x].pc.Patching?
    case ReplyLands(x, c) => x in s.sends && s.sends[x].pc.Replying? && c !in s.cards
    case ReplyFails(x) => x in s.sends && s.sends[x].pc.Replying?
    case EndSend(x) => x in s.sends && (s.sends[x].pc.Patched? || s.sends[x].pc.Answered?)
  }

  function Goto(s: State, x: SendId, pc: Pc): State
    requires x in s.sends
  {
    s.(sends := s.sends[x := s.sends[x].(pc := pc)])
  }

  function Phased(s: State, t: TaskId, phase: Phase): State
    requires t in s.jobs
  {
    s.(jobs := s.jobs[t := s.jobs[t].(phase := phase)],
       callbacks := if phase.Done? || phase.Broken? then s.callbacks + {t} else s.callbacks)
  }

  /** What a send does once the awaited creation is over. */
  function AfterAwait(send: Send, job: Job): Pc {
    if job.phase.Broken? then Failed
    else if send.pc.Ensuring? then Finished
    else if job.phase.Done? && job.phase.card.Some? then Patching(job.phase.card.value)
    else if send.final then Replying
    else Finished
  }

  function Apply(s: State, a: Action): State
    requires Enabled(s, a)
  {
    match a
    case Prepare(src, t) =>
      if NeedsTask(s.ids, s.tasks, src) then
        s.(tasks := s.tasks[src := t], jobs := s.jobs[t := Job(src, "thinking...", Calling)])
      else s
    case CardCreated(t, c) =>
      Phased(s, t, Replied(Some(c))).(cards := s.cards[c := Card(s.jobs[t].src, s.jobs[t].text)])
    case CardWithoutId(t) => Phased(s, t, Replied(None))
    case CreateRaises(t) => Phased(s, t, Broken)
    case JobResumes(t) =>
      var card := s.jobs[t].phase.card;
      Phased(s, t, Done(card)).(ids := if card.Some? then s.ids[s.jobs[t].src := card.value] else s.ids)
    case Callback(t) => s.(callbacks := s.callbacks - {t}, tasks := Finalized(s.tasks, s.jobs[t].src, t))
    case StartSend(x, src, text, final, t) =>
      (match RouteOf(s.ids, s.tasks, src, final)
       case Patch(c) => s.(sends := s.sends[x := Send(src, text, final, Patching(c))])
       case Await(u) => s.(sends := s.sends[x := Send(src, text, final, Awaiting(u))])
       case Reply => s.(sends := s.sends[x := Send(src, text, final, Replying)])
       case Create => s.(sends := s.sends[x := Send(src, text, final, Ensuring(t))],
                         tasks := s.tasks[src := t], jobs := s.jobs[t := Job(src, text, Calling)]))
    case Wake(x) => Goto(s, x, AfterAwait(s.sends[x], s.jobs[s.sends[x].pc.task]))
    case PatchApplies(x) =>
      var c := s.sends[x].pc.card;
      Goto(s, x, Patched(c)).(cards := s.cards[c := s.cards[c].(text := s.sends[x].text)])
    case PatchFails(x) => Goto(s, x, if s.sends[x].final then Replying else Failed)
    case ReplyLands(x, c) =>
      Goto(s, x, Answered(c)).(cards := s.cards[c := Card(s.sends[x].src, s.sends[x].text)])
    case ReplyFails(x) => Goto(s, x, Failed)
    case EndSend(x) =>
      Goto(s, x, Finished).(ids := if s.sends[x].final then s.ids - {s.sends[x].src} else s.ids)
  }

  const START := State(map[], map[], map[], {}, map[], map[])

  ghost predicate Run(s: State, acts: seq<Action>, s': State)
    decreases |acts|
  {
    if acts == [] then s == s'
    else Enabled(s, acts[0]) && Run(Apply(s, acts[0]), acts[1..], s')
  }

  // ---------------------------------------------------------------------------
  // Single flight
  // ---------------------------------------------------------------------------

  /** A creation in flight is the registered task of its source. */
  ghost predicate Registered(s: State) {
    forall t :: t in s.jobs && s.jobs[t].InFlight() ==> s.jobs[t].src in s.tasks && s.tasks[s.jobs[t].src] == t
  }

  /** A registered task is in flight, or finished with its callback still to run. */
  ghost predicate NoStale(s: State) {
    && (forall src :: src in s.tasks ==>
          var t := s.tasks[src];
          t in s.jobs && s.jobs[t].src == src && (s.jobs[t].InFlight() || t in s.callbacks))
    && (forall t :: t in s.callbacks ==> t in s.jobs && !s.jobs[t].InFlight())
  }

  ghost predicate AwaitsOwn(s: State) {
    forall x :: x in s.sends && (s.sends[x].pc.Awaiting? || s.sends[x].pc.Ensuring?) ==>
      s.sends[x].pc.task in s.jobs && s.jobs[s.sends[x].pc.task].src == s.sends[x].src
  }

  predicate Owns(s: State, src: Source, c: CardId) {
    c in s.cards && s.cards[c].src == src
  }

  /** Every card id in use names an existing card of its own source. */
  ghost predicate CardsOwn(s: State) {
    && (forall src :: src in s.ids ==> Owns(s, src, s.ids[src]))
    && (forall t :: t in s.jobs && (s.jobs[t].phase.Replied? || s.jobs[t].phase.Done?) && s.jobs[t].phase.card.Some? ==>
          Owns(s, s.jobs[t].src, s.jobs[t].phase.card.value))
    && (forall x :: x in s.sends && (s.sends[x].pc.Patching? || s.sends[x].pc.Patched? || s.sends[x].pc.Answered?) ==>
          Owns(s, s.sends[x].src, s.sends[x].pc.card))
  }

  ghost predicate Inv(s: State) {
    Registered(s) && NoStale(s) && AwaitsOwn(s) && CardsOwn(s)
  }

  lemma CardsStay(s: State, a: Action, src: Source, c: CardId)
    requires Enabled(s, a) && Owns(s, src, c)
    ensures Owns(Apply(s, a), src, c)
  {
  }

  /** An action adds at most the job it names, and keeps sources and finished phases. */
  lemma JobsAfter(s: State, a: Action, t: TaskId)
    requires Enabled(s, a)
    ensures t in s.jobs ==>
              && t in Apply(s, a).jobs && Apply(s, a).jobs[t].src == s.jobs[t].src
              && (!s.jobs[t].InFlight() ==> Apply(s, a).jobs[t] == s.jobs[t])
    ensures t in Apply(s, a).jobs && t !in s.jobs ==>
              (a.Prepare? || a.StartSend?) && a.task == t && Apply(s, a).jobs[t].InFlight()
  {
  }

  lemma StepRegisters(s: State, a: Action)
    requires Registered(s) && NoStale(s) && Enabled(s, a)
    ensures Registered(Apply(s, a))
  {
    var s' := Apply(s, a);
    forall t | t in s'.jobs && s'.jobs[t].InFlight()
      ensures s'.jobs[t].src in s'.tasks && s'.tasks[s'.jobs[t].src] == t
    {
      JobsAfter(s, a, t);
    }
  }

  /** A creation in flight stays so or leaves a callback to run, and only that callback takes it away. */
  lemma Followed(s: State, a: Action, t: TaskId)
    requires Enabled(s, a) && t in s.jobs
    ensures t in Apply(s, a).jobs
    ensures s.jobs[t].InFlight() ==> Apply(s, a).jobs[t].InFlight() || t in Apply(s, a).callbacks
    ensures t in s.callbacks && a != Callback(t) ==> t in Apply(s, a).callbacks
  {
  }

  /** A registered task was registered before, or starts with this step. */
  lemma TasksAfter(s: State, a: Action, src: Source)
    requires Enabled(s, a) && src in Apply(s, a).tasks
    ensures var t := Apply(s, a).tasks[src];
            || (src in s.tasks && s.tasks[src] == t && (t in s.jobs && s.jobs[t].src == src ==> a != Callback(t)))
            || (t in Apply(s, a).jobs && Apply(s, a).jobs[t].src == src && Apply(s, a).jobs[t].InFlight())
  {
  }

  lemma TaskNotStale(s: State, a: Action, src: Source)
    requires Registered(s) && NoStale(s) && Enabled(s, a) && src in Apply(s, a).tasks
    ensures var s' := Apply(s, a);
            var t := s'.tasks[src];
            t in s'.jobs && s'.jobs[t].src == src && (s'.jobs[t].InFlight() || t in s'.callbacks)
  {
    TasksAfter(s, a, src);
    if src in s.tasks && s.tasks[src] == Apply(s, a).tasks[src] {
      JobsAfter(s, a, s.tasks[src]);
      Followed(s, a, s.tasks[src]);
    }
  }

  lemma CallbackOver(s: State, a: Action, t: TaskId)
    requires NoStale(s) && Enabled(s, a) && t in Apply(s, a).callbacks
    ensures t in Apply(s, a).jobs && !Apply(s, a).jobs[t].InFlight()
  {
    if t in s.callbacks { JobsAfter(s, a, t); }
  }

  lemma StepLeavesNoStale(s: State, a: Action)
    requires Registered(s) && NoStale(s) && Enabled(s, a)
    ensures NoStale(Apply(s, a))
  {
    var s' := Apply(s, a);
    forall src | src in s'.tasks
      ensures var t := s'.tasks[src];
              t in s'.jobs && s'.jobs[t].src == src && (s'.jobs[t].InFlight() || t in s'.callbacks)
    {
      TaskNotStale(s, a, src);
    }
    forall t | t in s'.callbacks ensures t in s'.jobs && !s'.jobs[t].InFlight() { CallbackOver(s, a, t); }
  }

  /** The action is a stretch of the send, or an answer to it. */
  predicate ActsOn(a: Action, x: SendId) {
    match a
    case StartSend(y, _, _, _, _) => x == y
    case Wake(y) => x == y
    case PatchApplies(y) => x == y
    case PatchFails(y) => x == y
    case ReplyLands(y, _) => x == y
    case ReplyFails(y) => x == y
    case EndSend(y) => x == y
    case _ => false
  }

  lemma Unmoved(s: State, a: Action, x: SendId)
    requires Enabled(s, a) && !ActsOn(a, x)
    ensures x in s.sends <==> x in Apply(s, a).sends
    ensures x in s.sends ==> Apply(s, a).sends[x] == s.sends[x]
  {
  }

  lemma StartedWaits(s: State, a: Action)
    requires Enabled(s, a) && a.StartSend?
    ensures var d := Apply(s, a).sends[a.x];
            d.pc.Awaiting? || d.pc.Ensuring? ==>
              || (d.src in s.tasks && d.pc.task == s.tasks[d.src])
              || (d.pc.task in Apply(s, a).jobs && Apply(s, a).jobs[d.pc.task].src == d.src)
  {
  }

  lemma MovedWaitsNoMore(s: State, a: Action, x: SendId)
    requires Enabled(s, a) && ActsOn(a, x) && !a.StartSend?
    ensures x in s.sends && x in Apply(s, a).sends
    ensures !Apply(s, a).sends[x].pc.Awaiting? && !Apply(s, a).sends[x].pc.Ensuring?
  {
  }

  /** Only the start of a send makes it wait, for the registered task or the one it creates. */
  lemma AwaitsAfter(s: State, a: Action, x: SendId)
    requires Enabled(s, a) && x in Apply(s, a).sends
    requires Apply(s, a).sends[x].pc.Awaiting? || Apply(s, a).sends[x].pc.Ensuring?
    ensures var d := Apply(s, a).sends[x];
            || (x in s.sends && s.sends[x] == d)
            || (d.src in s.tasks && d.pc.task == s.tasks[d.src])
            || (d.pc.task in Apply(s, a).jobs && Apply(s, a).jobs[d.pc.task].src == d.src)
  {
    if !ActsOn(a, x) {
      Unmoved(s, a, x);
    } else {
      assert a.StartSend? by {
        if !a.StartSend? { MovedWaitsNoMore(s, a, x); }
      }
      StartedWaits(s, a);
    }
  }

  lemma StepAwaitsOwn(s: State, a: Action)
    requires NoStale(s) && AwaitsOwn(s) && Enabled(s, a)
    ensures AwaitsOwn(Apply(s, a))
  {
    var s' := Apply(s, a);
    forall x | x in s'.sends && (s'.sends[x].pc.Awaiting? || s'.sends[x].pc.Ensuring?)
      ensures s'.sends[x].pc.task in s'.jobs && s'.jobs[s'.sends[x].pc.task].src == s'.sends[x].src
    {
      AwaitsAfter(s, a, x);
      JobsAfter(s, a, s'.sends[x].pc.task);
    }
  }

  lemma StepIdsOwn(s: State, a: Action, src: Source)
    requires CardsOwn(s) && Enabled(s, a) && src in Apply(s, a).ids
    ensures Owns(Apply(s, a), src, Apply(s, a).ids[src])
  {
    var c := Apply(s, a).ids[src];
    if src in s.ids && s.ids[src] == c {
      CardsStay(s, a, src, c);
    } else {
      CardsStay(s, a, s.jobs[a.task].src, c);
    }
  }

  lemma StepJobsOwn(s: State, a: Action, t: TaskId)
    requires CardsOwn(s) && Enabled(s, a) && t in Apply(s, a).jobs
    ensures var j := Apply(s, a).jobs[t];
            (j.phase.Replied? || j.phase.Done?) && j.phase.card.Some? ==> Owns(Apply(s, a), j.src, j.phase.card.value)
  {
    var j := Apply(s, a).jobs[t];
    if (j.phase.Replied? || j.phase.Done?) && j.phase.card.Some? && !a.CardCreated? {
      CardsStay(s, a, j.src, j.phase.card.value);
    } else if a.CardCreated? && t in s.jobs && t != a.task && j.phase != Calling && j.phase != Broken
        && j.phase.card.Some? {
      CardsStay(s, a, j.src, j.phase.card.value);
    }
  }

  predicate HasCard(pc: Pc) {
    pc.Patching? || pc.Patched? || pc.Answered?
  }

  /** Where the card of a moving send comes from: it had it, it was cached, a creation returned it, or
      its own reply made it. */
  lemma CardOfMoved(s: State, a: Action, x: SendId)
    requires Enabled(s, a) && ActsOn(a, x) && HasCard(Apply(s, a).sends[x].pc)
    ensures var d := Apply(s, a).sends[x];
            || (x in s.sends && s.sends[x].src == d.src && HasCard(s.sends[x].pc) && s.sends[x].pc.card == d.pc.card)
            || (d.src in s.ids && s.ids[d.src] == d.pc.card)
            || (x in s.sends && s.sends[x].src == d.src && s.sends[x].pc.Awaiting? && s.sends[x].pc.task in s.jobs
                && s.jobs[s.sends[x].pc.task].phase == Done(Some(d.pc.card)))
            || Owns(Apply(s, a), d.src, d.pc.card)
  {
  }

  lemma StepSendsOwn(s: State, a: Action, x: SendId)
    requires AwaitsOwn(s) && CardsOwn(s) && Enabled(s, a) && x in Apply(s, a).sends
    ensures var d := Apply(s, a).sends[x];
            d.pc.Patching? || d.pc.Patched? || d.pc.Answered? ==> Owns(Apply(s, a), d.src, d.pc.card)
  {
    var d := Apply(s, a).sends[x];
    if HasCard(d.pc) {
      if ActsOn(a, x) { CardOfMoved(s, a, x); } else { Unmoved(s, a, x); }
      if Owns(s, d.src, d.pc.card) {
        CardsStay(s, a, d.src, d.pc.card);
      }
    }
  }

  lemma StepCardsOwn(s: State, a: Action)
    requires AwaitsOwn(s) && CardsOwn(s) && Enabled(s, a)
    ensures CardsOwn(Apply(s, a))
  {
    var s' := Apply(s, a);
    forall src | src in s'.ids ensures Owns(s', src, s'.ids[src]) { StepIdsOwn(s, a, src); }
    forall t | t in s'.jobs && (s'.jobs[t].phase.Replied? || s'.jobs[t].phase.Done?) && s'.jobs[t].phase.card.Some?
      ensures Owns(s', s'.jobs[t].src, s'.jobs[t].phase.card.value)
    {
      StepJobsOwn(s, a, t);
    }
    forall x | x in s'.sends && (s'.sends[x].pc.Patching? || s'.sends[x].pc.Patched? || s'.sends[x].pc.Answered?)
      ensures Owns(s', s'.sends[x].src, s'.sends[x].pc.card)
    {
      StepSendsOwn(s, a, x);
    }
  }

  lemma StepKeepsInv(s: State, a: Action)
    requires Inv(s) && Enabled(s, a)
    ensures Inv(Apply(s, a))
  {
    StepRegisters(s, a);
    StepLeavesNoStale(s, a);
    StepAwaitsOwn(s, a);
    StepCardsOwn(s, a);
  }

  lemma {:induction false} RunKeepsInv(s: State, acts: seq<Action>, s': State)
    requires Inv(s) && Run(s, acts, s')
    ensures Inv(s')
    decreases |acts|
  {
    if acts != [] {
      StepKeepsInv(s, acts[0]);
      RunKeepsInv(Apply(s, acts[0]), acts[1..], s');
    }
  }

  ghost predicate Creating(s: State, t: TaskId) {
    t in s.jobs && s.jobs[t].InFlight()
  }

  /**
    In every interleaving of preparations, creations (which may raise or yield no id), callbacks
    and concurrent sends: per source at most one creation is in flight, and once the
    callbacks have run the task map names exactly the creations in flight.
   */
  lemma SingleFlight(acts: seq<Action>, s: State)
    requires Run(START, acts, s)
    ensures forall t, u :: Creating(s, t) && Creating(s, u) && s.jobs[t].src == s.jobs[u].src ==> t == u
    ensures s.callbacks == {} ==> forall src :: src in s.tasks <==> exists t :: Creating(s, t) && s.jobs[t].src == src
  {
    RunKeepsInv(START, acts, s);
    if s.callbacks == {} {
      forall src ensures src in s.tasks <==> exists t :: Creating(s, t) && s.jobs[t].src == src {
        if src in s.tasks { assert Creating(s, s.tasks[src]); }
      }
    }
  }

  // ---------------------------------------------------------------------------
  // How a send can end
  // ---------------------------------------------------------------------------

  /** At some moment of the run, the send waits for that creation. */
  ghost predicate WaitsFor(s: State, acts: seq<Action>, x: SendId, t: TaskId)
    decreases |acts|
  {
    || (x in s.sends && (s.sends[x].pc == Awaiting(t) || s.sends[x].pc == Ensuring(t)))
    || (acts != [] && Enabled(s, acts[0]) && WaitsFor(Apply(s, acts[0]), acts[1..], x, t))
  }

  /** The step puts the text of the send on a card of its source: by its patch, by its reply, or by the
      creation it has started. */
  ghost predicate Shows(s: State, a: Action, x: SendId) {
    && Enabled(s, a) && x in s.sends
    && (a == PatchApplies(x) || (a.ReplyLands? && a.x == x)
        || (a.CardCreated? && s.sends[x].pc == Ensuring(a.task)))
    && exists c :: Owns(Apply(s, a), s.sends[x].src, c) && Apply(s, a).cards[c].text == s.sends[x].text
  }

  ghost predicate Shown(s: State, acts: seq<Action>, x: SendId)
    decreases |acts|
  {
    acts != [] && (Shows(s, acts[0], x) || (Enabled(s, acts[0]) && Shown(Apply(s, acts[0]), acts[1..], x)))
  }

  /** At some moment of the run, the send ends and its source has no card entry any more. */
  ghost predicate Forgets(s: State, acts: seq<Action>, x: SendId)
    decreases |acts|
  {
    acts != [] && Enabled(s, acts[0]) && (
      || (x in s.sends && acts[0] == EndSend(x) && s.sends[x].src !in Apply(s, acts[0]).ids)
      || Forgets(Apply(s, acts[0]), acts[1..], x))
  }

  ghost predicate Raised(s: State, acts: seq<Action>, t: TaskId) {
    CreateRaises(t) in acts || (t in s.jobs && s.jobs[t].phase.Broken?)
  }

  ghost predicate EndedEmpty(s: State, acts: seq<Action>, t: TaskId) {
    CardWithoutId(t) in acts || (t in s.jobs && s.jobs[t].phase in {Replied(None), Done(None)})
  }

  /** A creation raises, or yields no id, only by the action that says so. */
  lemma PhaseAfter(s: State, a: Action, t: TaskId)
    requires Enabled(s, a) && t in Apply(s, a).jobs
    ensures Apply(s, a).jobs[t].phase.Broken? ==> a == CreateRaises(t) || (t in s.jobs && s.jobs[t].phase.Broken?)
    ensures Apply(s, a).jobs[t].phase in {Replied(None), Done(None)} ==>
              a == CardWithoutId(t) || (t in s.jobs && s.jobs[t].phase in {Replied(None), Done(None)})
  {
  }

  /** Only a send that is not final waits for a creation of its own. */
  ghost predicate EnsuringNotFinal(s: State) {
    forall x :: x in s.sends && s.sends[x].pc.Ensuring? ==> !s.sends[x].final
  }

  lemma StepEnsuring(s: State, a: Action)
    requires EnsuringNotFinal(s) && Enabled(s, a)
    ensures EnsuringNotFinal(Apply(s, a))
  {
    var s' := Apply(s, a);
    forall x | x in s'.sends && s'.sends[x].pc.Ensuring? ensures !s'.sends[x].final {
      if ActsOn(a, x) {
        assert a.StartSend? by { if !a.StartSend? { MovedWaitsNoMore(s, a, x); } }
      } else {
        Unmoved(s, a, x);
      }
    }
  }

  /** One step of a send, by where it was. */
  ghost predicate Moves(s: State, a: Action, x: SendId, pc: Pc)
    requires Enabled(s, a)
  {
    x in Apply(s, a).sends && Apply(s, a).sends[x].pc == pc && !(x in s.sends && s.sends[x].pc == pc)
  }

  lemma StepToFailed(s: State, a: Action, x: SendId)
    requires Enabled(s, a) && Moves(s, a, x, Failed)
    ensures x in s.sends
    ensures || a == ReplyFails(x)
            || (a == PatchFails(x) && !s.sends[x].final)
            || ((s.sends[x].pc.Awaiting? || s.sends[x].pc.Ensuring?) && s.sends[x].pc.task in s.jobs
                && s.jobs[s.sends[x].pc.task].phase.Broken?)
  {
    if !ActsOn(a, x) { Unmoved(s, a, x); }
  }

  lemma StepToFinished(s: State, a: Action, x: SendId)
    requires Enabled(s, a) && Moves(s, a, x, Finished)
    ensures x in s.sends
    ensures || (a == EndSend(x) && (s.sends[x].pc.Patched? || s.sends[x].pc.Answered?)
                && (s.sends[x].final ==> s.sends[x].src !in Apply(s, a).ids))
            || (s.sends[x].pc.Ensuring? && s.sends[x].pc.task in s.jobs && s.jobs[s.sends[x].pc.task].phase.Done?)
            || (!s.sends[x].final && s.sends[x].pc.Awaiting? && s.sends[x].pc.task in s.jobs
                && s.jobs[s.sends[x].pc.task].phase == Done(None))
  {
    if !ActsOn(a, x) { Unmoved(s, a, x); }
  }

  /** The text of the send has been put on a card. */
  ghost predicate HasShown(s: State, x: SendId) {
    x in s.sends && (
      || s.sends[x].pc.Patched? || s.sends[x].pc.Answered?
      || (s.sends[x].pc.Ensuring? && s.sends[x].pc.task in s.jobs
          && (s.jobs[s.sends[x].pc.task].phase.Replied? || s.jobs[s.sends[x].pc.task].phase.Done?)
          && s.jobs[s.sends[x].pc.task].phase.card.Some?))
  }

  /** A creation that a send has started carries its text. */
  ghost predicate OwnText(s: State) {
    forall x :: x in s.sends && s.sends[x].pc.Ensuring? ==>
      s.sends[x].pc.task in s.jobs && s.jobs[s.sends[x].pc.task].text == s.sends[x].text
  }

  lemma TextKept(s: State, a: Action, t: TaskId)
    requires Enabled(s, a) && t in s.jobs
    ensures t in Apply(s, a).jobs && Apply(s, a).jobs[t].text == s.jobs[t].text
  {
  }

  lemma StartedOwnText(s: State, a: Action)
    requires Enabled(s, a) && a.StartSend? && Apply(s, a).sends[a.x].pc.Ensuring?
    ensures var s' := Apply(s, a);
            var t := s'.sends[a.x].pc.task;
            t in s'.jobs && s'.jobs[t].text == s'.sends[a.x].text && s'.jobs[t].phase.Calling?
  {
  }

  lemma StepOwnText(s: State, a: Action)
    requires OwnText(s) && Enabled(s, a)
    ensures OwnText(Apply(s, a))
  {
    var s' := Apply(s, a);
    forall x | x in s'.sends && s'.sends[x].pc.Ensuring?
      ensures s'.sends[x].pc.task in s'.jobs && s'.jobs[s'.sends[x].pc.task].text == s'.sends[x].text
    {
      if ActsOn(a, x) {
        assert a.StartSend? by { if !a.StartSend? { MovedWaitsNoMore(s, a, x); } }
        StartedOwnText(s, a);
      } else {
        Unmoved(s, a, x);
        TextKept(s, a, s.sends[x].pc.task);
      }
    }
  }

  /** A creation gets its card by the action that says so. */
  lemma CardAfter(s: State, a: Action, t: TaskId)
    requires Enabled(s, a) && t in s.jobs
    ensures t in Apply(s, a).jobs
    ensures var was, now := s.jobs[t].phase, Apply(s, a).jobs[t].phase;
            (now.Replied? || now.Done?) && now.card.Some? ==>
              ((was.Replied? || was.Done?) && was.card.Some?)
              || (a.CardCreated? && a.task == t && Owns(Apply(s, a), s.jobs[t].src, a.card)
                  && Apply(s, a).cards[a.card].text == s.jobs[t].text)
  {
  }

  lemma StepToCreated(s: State, a: Action, x: SendId)
    requires AwaitsOwn(s) && OwnText(s) && Enabled(s, a) && HasShown(Apply(s, a), x)
    requires Apply(s, a).sends[x].pc.Ensuring?
    ensures HasShown(s, x) || Shows(s, a, x)
  {
    if ActsOn(a, x) {
      assert a.StartSend? by { if !a.StartSend? { MovedWaitsNoMore(s, a, x); } }
      StartedOwnText(s, a);
    } else {
      Unmoved(s, a, x);
      CardAfter(s, a, s.sends[x].pc.task);
    }
  }

  lemma StepToShown(s: State, a: Action, x: SendId)
    requires CardsOwn(s) && Enabled(s, a) && x in Apply(s, a).sends
    requires Apply(s, a).sends[x].pc.Patched? || Apply(s, a).sends[x].pc.Answered?
    ensures x in s.sends && (s.sends[x] == Apply(s, a).sends[x] || Shows(s, a, x))
  {
    if ActsOn(a, x) {
      assert a.PatchApplies? ==> Owns(s, s.sends[x].src, s.sends[x].pc.card);
      assert a.PatchApplies? || a.ReplyLands? ==>
          Owns(Apply(s, a), s.sends[x].src, Apply(s, a).sends[x].pc.card)
          && Apply(s, a).cards[Apply(s, a).sends[x].pc.card].text == s.sends[x].text;
    } else {
      Unmoved(s, a, x);
    }
  }

  /** From any state on: a send fails for one of three reasons. */
  lemma {:induction false} FailsFor(s: State, acts: seq<Action>, s': State, x: SendId)
    requires Run(s, acts, s') && x in s'.sends && s'.sends[x].pc.Failed?
    ensures || (x in s.sends && s.sends[x].pc.Failed?)
            || ReplyFails(x) in acts
            || (PatchFails(x) in acts && !s'.sends[x].final)
            || exists t :: WaitsFor(s, acts, x, t) && Raised(s, acts, t)
    decreases |acts|
  {
    if acts != [] {
      var a, s1 := acts[0], Apply(s, acts[0]);
      FailsFor(s1, acts[1..], s', x);
      if t :| WaitsFor(s1, acts[1..], x, t) && Raised(s1, acts[1..], t) {
        if t in s1.jobs { PhaseAfter(s, a, t); }
        assert WaitsFor(s, acts, x, t) && Raised(s, acts, t);
      } else if x in s1.sends && s1.sends[x].pc.Failed? && !(x in s.sends && s.sends[x].pc.Failed?) {
        StepToFailed(s, a, x);
        FinalKept(s, acts, s', x);
        if s.sends[x].pc.Awaiting? || s.sends[x].pc.Ensuring? {
          assert WaitsFor(s, acts, x, s.sends[x].pc.task) && (a.Wake? ==> Raised(s, acts, s.sends[x].pc.task));
        }
      }
    }
  }

  lemma {:induction false} FinalKept(s: State, acts: seq<Action>, s': State, x: SendId)
    requires Run(s, acts, s') && x in s.sends
    ensures x in s'.sends && s'.sends[x].final == s.sends[x].final
    decreases |acts|
  {
    if acts != [] {
      SendsAfter(s, acts[0], x);
      FinalKept(Apply(s, acts[0]), acts[1..], s', x);
    }
  }

  /** From any state on: a final send finishes only after its text was shown, and with its entry gone. */
  lemma {:induction false} FinalFinishes(s: State, acts: seq<Action>, s': State, x: SendId)
    requires Inv(s) && EnsuringNotFinal(s) && Run(s, acts, s')
    requires x in s'.sends && s'.sends[x].final && s'.sends[x].pc.Finished?
    ensures || (x in s.sends && s.sends[x].pc.Finished?)
            || (Forgets(s, acts, x)
                && (Shown(s, acts, x) || (x in s.sends && (s.sends[x].pc.Patched? || s.sends[x].pc.Answered?))))
    decreases |acts|
  {
    if acts != [] {
      var a, s1 := acts[0], Apply(s, acts[0]);
      StepKeepsInv(s, a);
      StepEnsuring(s, a);
      FinalFinishes(s1, acts[1..], s', x);
      if x in s1.sends && s1.sends[x].pc.Finished? {
        if !(x in s.sends && s.sends[x].pc.Finished?) {
          StepToFinished(s, a, x);
          FinalKept(s, acts, s', x);
        }
      } else if x in s1.sends && (s1.sends[x].pc.Patched? || s1.sends[x].pc.Answered?) {
        StepToShown(s, a, x);
      }
    }
  }

  lemma EmptyBefore(s: State, acts: seq<Action>, t: TaskId)
    requires acts != [] && Enabled(s, acts[0]) && EndedEmpty(Apply(s, acts[0]), acts[1..], t)
    ensures EndedEmpty(s, acts, t)
  {
    if t in Apply(s, acts[0]).jobs { PhaseAfter(s, acts[0], t); }
  }

  /** From any state on: a send finishes after its text was shown, or after waiting for a creation that
      yielded no id. */
  lemma {:induction false} UpdateFinishes(s: State, acts: seq<Action>, s': State, x: SendId)
    requires Inv(s) && OwnText(s) && Run(s, acts, s') && x in s'.sends && s'.sends[x].pc.Finished?
    ensures || (x in s.sends && s.sends[x].pc.Finished?)
            || Shown(s, acts, x) || HasShown(s, x)
            || (exists t :: WaitsFor(s, acts, x, t) && EndedEmpty(s, acts, t))
    decreases |acts|
  {
    if acts != [] {
      var a, s1 := acts[0], Apply(s, acts[0]);
      StepKeepsInv(s, a);
      StepOwnText(s, a);
      UpdateFinishes(s1, acts[1..], s', x);
      if t :| WaitsFor(s1, acts[1..], x, t) && EndedEmpty(s1, acts[1..], t) {
        EmptyBefore(s, acts, t);
        assert WaitsFor(s, acts, x, t);
      } else if x in s1.sends && s1.sends[x].pc.Finished? {
        if !(x in s.sends && s.sends[x].pc.Finished?) {
          FinishedAfterWaiting(s, acts, x);
        }
      } else if HasShown(s1, x) {
        if s1.sends[x].pc.Ensuring? { StepToCreated(s, a, x); } else { StepToShown(s, a, x); }
      }
    }
  }

  lemma FinishedAfterWaiting(s: State, acts: seq<Action>, x: SendId)
    requires acts != [] && Enabled(s, acts[0]) && Moves(s, acts[0], x, Finished)
    ensures HasShown(s, x) || exists t :: WaitsFor(s, acts, x, t) && EndedEmpty(s, acts, t)
  {
    StepToFinished(s, acts[0], x);
    if s.sends[x].pc.Awaiting? || s.sends[x].pc.Ensuring? {
      var t := s.sends[x].pc.task;
      assert WaitsFor(s, acts, x, t);
      assert HasShown(s, x) || EndedEmpty(s, acts, t);
    }
  }

  /**
    On every run, whatever fails: a final send fails only if its own reply raised or the creation it
    waited for raised; a failing patch or a creation without an id is made up for. A final send that
    has finished put its text on a card of its source, and the source's entry was removed.
   */
  lemma FinalSendEnds(acts: seq<Action>, s: State, x: SendId)
    requires Run(START, acts, s) && x in s.sends && s.sends[x].final
    ensures s.sends[x].pc.Failed? ==>
              ReplyFails(x) in acts || exists t :: WaitsFor(START, acts, x, t) && CreateRaises(t) in acts
    ensures s.sends[x].pc.Finished? ==> Shown(START, acts, x) && Forgets(START, acts, x)
  {
    if s.sends[x].pc.Failed? {
      FailsFor(START, acts, s, x);
      if t :| WaitsFor(START, acts, x, t) && Raised(START, acts, t) {
        assert CreateRaises(t) in acts;
      }
    } else if s.sends[x].pc.Finished? {
      FinalFinishes(START, acts, s, x);
    }
  }

  /**
    Any other send fails only if its own patch raised or the creation it waited for raised. Once it has
    finished, its text was shown, or it waited for a creation that yielded no id. It never sends a reply
    of its own.
   */
  lemma UpdateSendEnds(acts: seq<Action>, s: State, x: SendId)
    requires Run(START, acts, s) && x in s.sends && !s.sends[x].final
    ensures s.sends[x].pc.Failed? ==>
              || PatchFails(x) in acts
              || exists t :: WaitsFor(START, acts, x, t) && CreateRaises(t) in acts
    ensures s.sends[x].pc.Finished? ==>
              Shown(START, acts, x) || exists t :: WaitsFor(START, acts, x, t) && CardWithoutId(t) in acts
    ensures forall c :: ReplyLands(x, c) !in acts
  {
    UpdatesNeverReply(START, acts, s, x);
    if s.sends[x].pc.Failed? {
      FailsFor(START, acts, s, x);
      if t :| WaitsFor(START, acts, x, t) && Raised(START, acts, t) {
        assert CreateRaises(t) in acts;
      }
    } else if s.sends[x].pc.Finished? {
      UpdateFinishes(START, acts, s, x);
      if t :| WaitsFor(START, acts, x, t) && EndedEmpty(START, acts, t) {
        assert CardWithoutId(t) in acts;
      }
    }
  }

  /** A send that is not final never sends a reply of its own. */
  lemma {:induction false} UpdatesNeverReply(s: State, acts: seq<Action>, s': State, x: SendId)
    requires Run(s, acts, s') && x in s'.sends && !s'.sends[x].final
    requires x in s.sends ==> !s.sends[x].pc.Replying?
    ensures ReplyFails(x) !in acts && forall c :: ReplyLands(x, c) !in acts
    decreases |acts|
  {
    if acts != [] {
      var a, s1 := acts[0], Apply(s, acts[0]);
      if x in s1.sends {
        FinalKept(s1, acts[1..], s', x);
        StepToReplying(s, a, x);
      }
      UpdatesNeverReply(s1, acts[1..], s', x);
    }
  }

  lemma StepToReplying(s: State, a: Action, x: SendId)
    requires Enabled(s, a) && x in Apply(s, a).sends && !Apply(s, a).sends[x].final
    requires x in s.sends ==> !s.sends[x].pc.Replying?
    ensures !Apply(s, a).sends[x].pc.Replying?
  {
    if !ActsOn(a, x) { Unmoved(s, a, x); }
  }

  lemma {:induction false} OverStays(s: State, acts: seq<Action>, s': State, x: SendId)
    requires Run(s, acts, s') && x in s.sends && s.sends[x].pc.Over()
    ensures x in s'.sends && s'.sends[x] == s.sends[x]
    decreases |acts|
  {
    if acts != [] {
      SendsAfter(s, acts[0], x);
      OverStays(Apply(s, acts[0]), acts[1..], s', x);
    }
  }

  lemma {:induction false} OwnRaiseFails(s: State, acts: seq<Action>, s': State, x: SendId)
    requires Run(s, acts, s')
    requires x in s'.sends && (ReplyFails(x) in acts || (PatchFails(x) in acts && !s'.sends[x].final))
    ensures s'.sends[x].pc.Failed?
    decreases |acts|
  {
    var a, s1 := acts[0], Apply(s, acts[0]);
    if a == ReplyFails(x) || a == PatchFails(x) {
      FinalKept(s, acts, s', x);
      if s1.sends[x].pc.Failed? {
        OverStays(s1, acts[1..], s', x);
      } else {
        OwnRaiseFails(s1, acts[1..], s', x);
      }
    } else {
      OwnRaiseFails(s1, acts[1..], s', x);
    }
  }

  lemma {:induction false} OverRaisesNoMore(s: State, acts: seq<Action>, s': State, t: TaskId)
    requires Run(s, acts, s') && t in s.jobs && !s.jobs[t].InFlight()
    ensures CreateRaises(t) !in acts
    decreases |acts|
  {
    if acts != [] {
      JobsAfter(s, acts[0], t);
      OverRaisesNoMore(Apply(s, acts[0]), acts[1..], s', t);
    }
  }

  lemma WakesFailed(s: State, a: Action, x: SendId, t: TaskId)
    requires Enabled(s, a) && ActsOn(a, x) && x in s.sends
    requires s.sends[x].pc == Awaiting(t) || s.sends[x].pc == Ensuring(t)
    ensures a == Wake(x) && t in s.jobs && !s.jobs[t].InFlight()
    ensures s.jobs[t].phase.Broken? ==> x in Apply(s, a).sends && Apply(s, a).sends[x].pc.Failed?
  {
  }

  lemma {:induction false} AwaitedRaiseFails(s: State, acts: seq<Action>, s': State, x: SendId, t: TaskId)
    requires Run(s, acts, s') && WaitsFor(s, acts, x, t) && Raised(s, acts, t)
    requires x in s'.sends && s'.sends[x].pc.Over()
    ensures s'.sends[x].pc.Failed?
    decreases |acts|
  {
    if acts != [] {
      var a, s1 := acts[0], Apply(s, acts[0]);
      assert acts == [a] + acts[1..];
      RaisedAfter(s, acts, t);
      if x in s.sends && (s.sends[x].pc == Awaiting(t) || s.sends[x].pc == Ensuring(t)) {
        if ActsOn(a, x) {
          WakesFailed(s, a, x, t);
          if !s.jobs[t].phase.Broken? { OverRaisesNoMore(s, acts, s', t); }
          OverStays(s1, acts[1..], s', x);
        } else {
          Unmoved(s, a, x);
          AwaitedRaiseFails(s1, acts[1..], s', x, t);
        }
      } else {
        AwaitedRaiseFails(s1, acts[1..], s', x, t);
      }
    }
  }

  lemma RaisedAfter(s: State, acts: seq<Action>, t: TaskId)
    requires acts != [] && Enabled(s, acts[0]) && Raised(s, acts, t)
    ensures Raised(Apply(s, acts[0]), acts[1..], t)
  {
    if t in s.jobs { JobsAfter(s, acts[0], t); }
  }

  /**
    The exact condition, on every run: a send that is over has failed if and only if its reply raised, or
    its patch raised and it is not final, or a creation it waited for raised.
   */
  lemma SendFailsIff(acts: seq<Action>, s: State, x: SendId)
    requires Run(START, acts, s) && x in s.sends && s.sends[x].pc.Over()
    ensures s.sends[x].pc.Failed? <==>
              || ReplyFails(x) in acts
              || (PatchFails(x) in acts && !s.sends[x].final)
              || exists t :: WaitsFor(START, acts, x, t) && CreateRaises(t) in acts
  {
    if s.sends[x].pc.Failed? {
      FailsFor(START, acts, s, x);
      if t :| WaitsFor(START, acts, x, t) && Raised(START, acts, t) {
        assert CreateRaises(t) in acts;
      }
    }
    if ReplyFails(x) in acts || (PatchFails(x) in acts && !s.sends[x].final) {
      OwnRaiseFails(START, acts, s, x);
    } else if t :| WaitsFor(START, acts, x, t) && CreateRaises(t) in acts {
      assert Raised(START, acts, t);
      AwaitedRaiseFails(START, acts, s, x, t);
    }
  }

  // ---------------------------------------------------------------------------
  // One card per answered message
  // ---------------------------------------------------------------------------

  ghost predicate HasFinal(s: State, src: Source) {
    exists x :: x in s.sends && s.sends[x].src == src && s.sends[x].final
  }

  predicate SendsOver(s: State, src: Source) {
    forall x :: x in s.sends && s.sends[x].src == src ==> s.sends[x].pc.Over()
  }

  /** For this source: creations return an id, patches and replies succeed, sends come one after
      the other and end with the final one, and no preparation starts a creation after it. */
  ghost predicate Smooth(s: State, a: Action, src: Source)
    requires Enabled(s, a)
  {
    match a
    case Prepare(other, _) => other == src && HasFinal(s, src) ==> !NeedsTask(s.ids, s.tasks, src)
    case StartSend(_, other, _, _, _) => other == src ==> !HasFinal(s, src) && SendsOver(s, src)
    case CardWithoutId(t) => s.jobs[t].src != src
    case CreateRaises(t) => s.jobs[t].src != src
    case PatchFails(x) => s.sends[x].src != src
    case ReplyFails(x) => s.sends[x].src != src
    case _ => true
  }

  ghost predicate SmoothRun(s: State, acts: seq<Action>, s': State, src: Source)
    decreases |acts|
  {
    if acts == [] then s == s'
    else Enabled(s, acts[0]) && Smooth(s, acts[0], src) && SmoothRun(Apply(s, acts[0]), acts[1..], s', src)
  }

  /** How far the card of a source has got. */
  datatype Stage =
    | Untouched
    | Making(task: TaskId)
    | Landed(task: TaskId, card: CardId)
    | Ready(task: TaskId, card: CardId)
    | Direct(card: CardId)              // the final send replied by itself
    | Closed(card: CardId)

  ghost predicate NoJobs(s: State, src: Source) {
    forall t :: t in s.jobs ==> s.jobs[t].src != src
  }

  ghost predicate OnlyJob(s: State, src: Source, t: TaskId, phase: Phase) {
    t in s.jobs && s.jobs[t].src == src && s.jobs[t].phase == phase
    && forall u :: u in s.jobs && s.jobs[u].src == src ==> u == t
  }

  ghost predicate NoCards(s: State, src: Source) {
    forall c :: c in s.cards ==> s.cards[c].src != src
  }

  ghost predicate OnlyCard(s: State, src: Source, c: CardId) {
    c in s.cards && s.cards[c].src == src
    && forall d :: d in s.cards && s.cards[d].src == src ==> d == c
  }

  ghost predicate AtStage(s: State, src: Source, g: Stage) {
    match g
    case Untouched => NoJobs(s, src) && NoCards(s, src) && src !in s.ids
    case Making(t) => OnlyJob(s, src, t, Calling) && NoCards(s, src) && src !in s.ids
    case Landed(t, c) => OnlyJob(s, src, t, Replied(Some(c))) && OnlyCard(s, src, c) && src !in s.ids
    case Ready(t, c) => OnlyJob(s, src, t, Done(Some(c))) && OnlyCard(s, src, c) && src in s.ids && s.ids[src] == c
    case Direct(c) => NoJobs(s, src) && OnlyCard(s, src, c) && src !in s.ids && HasFinal(s, src)
    case Closed(c) =>
      && (forall t :: t in s.jobs && s.jobs[t].src == src ==> !s.jobs[t].InFlight())
      && OnlyCard(s, src, c) && src !in s.ids && HasFinal(s, src)
  }

  /** Where a send of the source can stand at each stage. */
  ghost predicate SendFits(s: State, send: Send, g: Stage) {
    match send.pc
    case Awaiting(t) => (g.Making? || g.Landed? || g.Ready?) && g.task == t
    case Ensuring(t) => (g.Making? || g.Landed? || g.Ready?) && g.task == t && !send.final
    case Patching(c) => g.Ready? && g.card == c
    case Patched(c) => g.Ready? && g.card == c && c in s.cards && s.cards[c].text == send.text
    case Replying => g.Untouched? && send.final
    case Answered(c) => g == Direct(c) && send.final && c in s.cards && s.cards[c].text == send.text
    case Finished => send.final ==> g.Closed? && g.card in s.cards && s.cards[g.card].text == send.text
    case Failed => false
  }

  ghost predicate SendsFit(s: State, src: Source, g: Stage) {
    forall x :: x in s.sends && s.sends[x].src == src ==> SendFits(s, s.sends[x], g)
  }

  /** Sends of the source take turns, and nothing follows a final one. */
  ghost predicate Sequential(s: State, src: Source) {
    forall x, y :: x in s.sends && y in s.sends && s.sends[x].src == src && s.sends[y].src == src && x != y ==>
      (s.sends[x].pc.Over() || s.sends[y].pc.Over()) && (s.sends[x].final ==> s.sends[y].pc.Over() && !s.sends[y].final)
  }

  ghost predicate Tidy(s: State, src: Source, g: Stage) {
    AtStage(s, src, g) && SendsFit(s, src, g) && Sequential(s, src)
  }

  function NextStage(s: State, a: Action, src: Source, g: Stage): Stage
    requires Enabled(s, a)
  {
    match a
    case Prepare(other, t) => if other == src && g.Untouched? then Making(t) else g
    case StartSend(_, other, _, final, t) => if other == src && g.Untouched? && !final then Making(t) else g
    case CardCreated(t, c) => if g == Making(t) then Landed(t, c) else g
    case JobResumes(t) => if g.Landed? && g.task == t then Ready(t, g.card) else g
    case ReplyLands(x, c) => if s.sends[x].src == src then Direct(c) else g
    case EndSend(x) => if s.sends[x].src == src && s.sends[x].final then Closed(s.sends[x].pc.card) else g
    case _ => g
  }

  /** An action moves at most the send it names; a send that is over stays as it is. */
  lemma SendsAfter(s: State, a: Action, x: SendId)
    requires Enabled(s, a)
    ensures x in s.sends ==>
              && x in Apply(s, a).sends
              && Apply(s, a).sends[x] == s.sends[x].(pc := Apply(s, a).sends[x].pc)
              && (s.sends[x].pc.Over() ==> Apply(s, a).sends[x] == s.sends[x])
    ensures x in Apply(s, a).sends && x !in s.sends ==>
              a.StartSend? && a.x == x && Apply(s, a).sends[x].src == a.src && Apply(s, a).sends[x].final == a.final
  {
  }

  lemma FinalStays(s: State, a: Action, src: Source)
    requires Enabled(s, a) && HasFinal(s, src)
    ensures HasFinal(Apply(s, a), src)
  {
    var x :| x in s.sends && s.sends[x].src == src && s.sends[x].final;
    SendsAfter(s, a, x);
  }

  /** The source an action works for. */
  function SourceOf(s: State, a: Action): Source
    requires Enabled(s, a)
  {
    match a
    case Prepare(src, _) => src
    case StartSend(_, src, _, _, _) => src
    case CardCreated(t, _) => s.jobs[t].src
    case CardWithoutId(t) => s.jobs[t].src
    case CreateRaises(t) => s.jobs[t].src
    case JobResumes(t) => s.jobs[t].src
    case Callback(t) => s.jobs[t].src
    case Wake(x) => s.sends[x].src
    case PatchApplies(x) => s.sends[x].src
    case PatchFails(x) => s.sends[x].src
    case ReplyLands(x, _) => s.sends[x].src
    case ReplyFails(x) => s.sends[x].src
    case EndSend(x) => s.sends[x].src
  }

  ghost predicate SameJobs(s: State, s': State, src: Source) {
    && (forall t :: t in s.jobs && s.jobs[t].src == src ==> t in s'.jobs && s'.jobs[t] == s.jobs[t])
    && (forall t :: t in s'.jobs && s'.jobs[t].src == src ==> t in s.jobs && s'.jobs[t] == s.jobs[t])
  }

  ghost predicate SameCards(s: State, s': State, src: Source) {
    && (forall c :: c in s.cards && s.cards[c].src == src ==> c in s'.cards && s'.cards[c] == s.cards[c])
    && (forall c :: c in s'.cards && s'.cards[c].src == src ==> c in s.cards && s'.cards[c] == s.cards[c])
    && (src in s.ids <==> src in s'.ids) && (src in s.ids ==> s.ids[src] == s'.ids[src])
  }

  ghost predicate SameSends(s: State, s': State, src: Source) {
    && (forall x :: x in s.sends && s.sends[x].src == src ==> x in s'.sends && s'.sends[x] == s.sends[x])
    && (forall x :: x in s'.sends && s'.sends[x].src == src ==> x in s.sends && s'.sends[x] == s.sends[x])
  }

  /** Everything that belongs to a source is the same in both states. */
  ghost predicate SameFor(s: State, s': State, src: Source) {
    SameJobs(s, s', src) && SameCards(s, s', src) && SameSends(s, s', src)
  }

  lemma ForeignJobs(s: State, a: Action, src: Source)
    requires Enabled(s, a) && SourceOf(s, a) != src
    ensures SameJobs(s, Apply(s, a), src)
  {
  }

  lemma ForeignCard(s: State, a: Action, src: Source, c: CardId)
    requires CardsOwn(s) && Enabled(s, a) && SourceOf(s, a) != src
    ensures Owns(s, src, c) || Owns(Apply(s, a), src, c) ==>
              c in s.cards && c in Apply(s, a).cards && Apply(s, a).cards[c] == s.cards[c]
  {
  }

  lemma ForeignIds(s: State, a: Action, src: Source)
    requires Enabled(s, a) && SourceOf(s, a) != src
    ensures src in s.ids <==> src in Apply(s, a).ids
    ensures src in s.ids ==> s.ids[src] == Apply(s, a).ids[src]
  {
  }

  lemma ForeignCards(s: State, a: Action, src: Source)
    requires CardsOwn(s) && Enabled(s, a) && SourceOf(s, a) != src
    ensures SameCards(s, Apply(s, a), src)
  {
    var s' := Apply(s, a);
    ForeignIds(s, a, src);
    forall c
      ensures Owns(s, src, c) || Owns(s', src, c) ==> c in s.cards && c in s'.cards && s'.cards[c] == s.cards[c]
    {
      ForeignCard(s, a, src, c);
    }
  }

  lemma ForeignSends(s: State, a: Action, src: Source)
    requires Enabled(s, a) && SourceOf(s, a) != src
    ensures SameSends(s, Apply(s, a), src)
  {
    var s' := Apply(s, a);
    forall x ensures (x in s.sends && s.sends[x].src == src) || (x in s'.sends && s'.sends[x].src == src) ==>
                       x in s.sends && x in s'.sends && s'.sends[x] == s.sends[x]
    {
      ForeignSend(s, a, src, x);
    }
  }

  lemma ForeignSend(s: State, a: Action, src: Source, x: SendId)
    requires Enabled(s, a) && SourceOf(s, a) != src
    ensures (x in s.sends && s.sends[x].src == src) || (x in Apply(s, a).sends && Apply(s, a).sends[x].src == src) ==>
              x in s.sends && x in Apply(s, a).sends && Apply(s, a).sends[x] == s.sends[x]
  {
  }

  lemma ForeignTidy(s: State, s': State, src: Source, g: Stage)
    requires SameFor(s, s', src) && Tidy(s, src, g) && CardsOwn(s)
    ensures Tidy(s', src, g)
  {
    if HasFinal(s, src) {
      var x :| x in s.sends && s.sends[x].src == src && s.sends[x].final;
      assert HasFinal(s', src);
    }
    forall x | x in s'.sends && s'.sends[x].src == src ensures SendFits(s', s'.sends[x], g) {
      assert SendFits(s, s.sends[x], g);
    }
  }

  lemma StepUntouched(s: State, a: Action, src: Source)
    requires Inv(s) && Tidy(s, src, Untouched) && Enabled(s, a) && Smooth(s, a, src) && SourceOf(s, a) == src
    ensures AtStage(Apply(s, a), src, NextStage(s, a, src, Untouched))
  {
    forall x | x in s.sends && s.sends[x].src == src
      ensures SendFits(s, s.sends[x], Untouched) && x in Apply(s, a).sends
    {
      SendsAfter(s, a, x);
    }
  }

  lemma StepMaking(s: State, a: Action, src: Source, g: Stage)
    requires (g.Making? || g.Landed?) && Inv(s) && Tidy(s, src, g) && Enabled(s, a) && Smooth(s, a, src)
             && SourceOf(s, a) == src
    ensures AtStage(Apply(s, a), src, NextStage(s, a, src, g))
  {
    assert OnlyJob(s, src, g.task, s.jobs[g.task].phase);
    forall x | x in s.sends && s.sends[x].src == src ensures SendFits(s, s.sends[x], g) {}
  }

  lemma StepReady(s: State, a: Action, src: Source, g: Stage)
    requires g.Ready? && Inv(s) && Tidy(s, src, g) && Enabled(s, a) && Smooth(s, a, src) && SourceOf(s, a) == src
    ensures AtStage(Apply(s, a), src, NextStage(s, a, src, g))
  {
    forall x | x in s.sends && s.sends[x].src == src ensures SendFits(s, s.sends[x], g) && x in Apply(s, a).sends {
      SendsAfter(s, a, x);
    }
  }

  lemma StepFinal(s: State, a: Action, src: Source, g: Stage)
    requires (g.Direct? || g.Closed?) && Inv(s) && Tidy(s, src, g) && Enabled(s, a) && Smooth(s, a, src)
             && SourceOf(s, a) == src
    ensures AtStage(Apply(s, a), src, NextStage(s, a, src, g))
  {
    FinalStays(s, a, src);
    forall x | x in s.sends && s.sends[x].src == src ensures SendFits(s, s.sends[x], g) {}
  }

  lemma StepStage(s: State, a: Action, src: Source, g: Stage)
    requires Inv(s) && Tidy(s, src, g) && Enabled(s, a) && Smooth(s, a, src) && SourceOf(s, a) == src
    ensures AtStage(Apply(s, a), src, NextStage(s, a, src, g))
  {
    match g
    case Untouched => StepUntouched(s, a, src);
    case Making(_) => StepMaking(s, a, src, g);
    case Landed(_, _) => StepMaking(s, a, src, g);
    case Ready(_, _) => StepReady(s, a, src, g);
    case Direct(_) => StepFinal(s, a, src, g);
    case Closed(_) => StepFinal(s, a, src, g);
  }

  lemma MovedSendFits(s: State, a: Action, src: Source, g: Stage, x: SendId)
    requires Inv(s) && Tidy(s, src, g) && Enabled(s, a) && Smooth(s, a, src)
    requires x in s.sends && s.sends[x].src == src && ActsOn(a, x) && x in Apply(s, a).sends
    ensures SendFits(Apply(s, a), Apply(s, a).sends[x], NextStage(s, a, src, g))
  {
    assert SendFits(s, s.sends[x], g);
  }

  lemma StillSendFits(s: State, a: Action, src: Source, g: Stage, x: SendId)
    requires Inv(s) && Tidy(s, src, g) && Enabled(s, a) && Smooth(s, a, src) && SourceOf(s, a) == src
    requires x in s.sends && s.sends[x].src == src && !ActsOn(a, x)
    ensures SendFits(Apply(s, a), s.sends[x], NextStage(s, a, src, g))
  {
    assert SendFits(s, s.sends[x], g);
  }

  lemma NewSendFits(s: State, a: Action, src: Source, g: Stage, x: SendId)
    requires Inv(s) && Tidy(s, src, g) && Enabled(s, a) && Smooth(s, a, src) && SourceOf(s, a) == src
    requires a.StartSend? && a.x == x
    ensures SendFits(Apply(s, a), Apply(s, a).sends[x], NextStage(s, a, src, g))
  {
  }

  lemma StepSends(s: State, a: Action, src: Source, g: Stage)
    requires Inv(s) && Tidy(s, src, g) && Enabled(s, a) && Smooth(s, a, src) && SourceOf(s, a) == src
    ensures SendsFit(Apply(s, a), src, NextStage(s, a, src, g))
  {
    var s' := Apply(s, a);
    forall x | x in s'.sends && s'.sends[x].src == src ensures SendFits(s', s'.sends[x], NextStage(s, a, src, g)) {
      SendsAfter(s, a, x);
      if x in s.sends {
        if ActsOn(a, x) {
          MovedSendFits(s, a, src, g, x);
        } else {
          Unmoved(s, a, x);
          StillSendFits(s, a, src, g, x);
        }
      } else {
        NewSendFits(s, a, src, g, x);
      }
    }
  }

  lemma StepSequential(s: State, a: Action, src: Source, g: Stage)
    requires Inv(s) && Tidy(s, src, g) && Enabled(s, a) && Smooth(s, a, src) && SourceOf(s, a) == src
    ensures Sequential(Apply(s, a), src)
  {
    var s' := Apply(s, a);
    forall x, y | x in s'.sends && y in s'.sends && s'.sends[x].src == src && s'.sends[y].src == src && x != y
      ensures s'.sends[x].pc.Over() || s'.sends[y].pc.Over()
      ensures s'.sends[x].final ==> s'.sends[y].pc.Over() && !s'.sends[y].final
    {
      SendsAfter(s, a, x);
      SendsAfter(s, a, y);
    }
  }

  lemma StepTidy(s: State, a: Action, src: Source, g: Stage) returns (g': Stage)
    requires Inv(s) && Tidy(s, src, g) && Enabled(s, a) && Smooth(s, a, src)
    ensures Tidy(Apply(s, a), src, g')
  {
    if SourceOf(s, a) == src {
      g' := NextStage(s, a, src, g);
      StepStage(s, a, src, g);
      StepSends(s, a, src, g);
      StepSequential(s, a, src, g);
    } else {
      g' := g;
      ForeignJobs(s, a, src);
      ForeignCards(s, a, src);
      ForeignSends(s, a, src);
      ForeignTidy(s, Apply(s, a), src, g);
    }
  }

  lemma {:induction false} SmoothRunKeepsTidy(s: State, acts: seq<Action>, s': State, src: Source, g: Stage)
      returns (g': Stage)
    requires Inv(s) && Tidy(s, src, g) && SmoothRun(s, acts, s', src)
    ensures Inv(s') && Tidy(s', src, g')
    decreases |acts|
  {
    g' := g;
    if acts != [] {
      StepKeepsInv(s, acts[0]);
      g' := StepTidy(s, acts[0], src, g);
      g' := SmoothRunKeepsTidy(Apply(s, acts[0]), acts[1..], s', src, g');
    }
  }

  /**
    If creations of the source return an id and its patches and replies succeed, then any sequence
    of non-final sends ended by one final send, interleaved with everything other sources do and with
    preparations of this one (after the final send has started, those that find a card or a task),
    creates exactly one card, leaves the final text on it, and, once the callbacks have run, leaves
    no entry of the source in either map.
   */
  lemma OneCardWithFinalText(acts: seq<Action>, s: State, src: Source, x: SendId)
    requires SmoothRun(START, acts, s, src)
    requires x in s.sends && s.sends[x].src == src && s.sends[x].final && s.sends[x].pc.Finished?
    ensures exists c :: OnlyCard(s, src, c) && s.cards[c].text == s.sends[x].text
    ensures src !in s.ids
    ensures s.callbacks == {} ==> src !in s.tasks
  {
    var g := SmoothRunKeepsTidy(START, acts, s, src, Untouched);
    assert SendFits(s, s.sends[x], g);
    assert OnlyCard(s, src, g.card);
  }

  // ---------------------------------------------------------------------------
  // Preparations after the final send
  // ---------------------------------------------------------------------------

  /** The card that a creation returned. */
  function CardOfJob(s: State, t: TaskId): Option<CardId> {
    if t in s.jobs && (s.jobs[t].phase.Replied? || s.jobs[t].phase.Done?) then s.jobs[t].phase.card else None
  }

  ghost predicate TwoCards(s: State, src: Source) {
    exists c, d :: c != d && Owns(s, src, c) && Owns(s, src, d)
  }

  /** The final send `x` has a card (`answer`) or has not replied; the late creation `t` makes another. */
  ghost predicate Doubling(s: State, src: Source, x: SendId, t: TaskId, answer: Option<CardId>) {
    && x in s.sends && s.sends[x].src == src && t in s.jobs && s.jobs[t].src == src
    && (if answer.Some? then Owns(s, src, answer.value) else s.sends[x].pc.Replying? || s.sends[x].pc.Failed?)
    && (CardOfJob(s, t).Some? ==> Owns(s, src, CardOfJob(s, t).value) && answer != CardOfJob(s, t))
  }

  lemma StepKeepsDoubling(s: State, a: Action, src: Source, x: SendId, t: TaskId, answer: Option<CardId>)
      returns (answer': Option<CardId>)
    requires Enabled(s, a) && Doubling(s, src, x, t, answer)
    ensures Doubling(Apply(s, a), src, x, t, answer')
  {
    answer' := if answer.None? && a.ReplyLands? && a.x == x then Some(a.card) else answer;
    JobsAfter(s, a, t);
    SendsAfter(s, a, x);
    if answer.Some? { CardsStay(s, a, src, answer.value); }
    if CardOfJob(s, t).Some? { CardsStay(s, a, src, CardOfJob(s, t).value); }
    LateCardStays(s, a, t);
  }

  /** A creation gets its card from `CardCreated`, and keeps it. */
  lemma LateCardStays(s: State, a: Action, t: TaskId)
    requires Enabled(s, a) && t in s.jobs
    ensures CardOfJob(s, t).Some? ==> CardOfJob(Apply(s, a), t) == CardOfJob(s, t)
    ensures CardOfJob(Apply(s, a), t).Some? && CardOfJob(s, t).None? ==>
              a == CardCreated(t, CardOfJob(Apply(s, a), t).value)
  {
  }

  lemma {:induction false} RunKeepsDoubling(s: State, acts: seq<Action>, s': State, src: Source, x: SendId, t: TaskId,
                                            answer: Option<CardId>) returns (answer': Option<CardId>)
    requires Run(s, acts, s') && Doubling(s, src, x, t, answer)
    ensures Doubling(s', src, x, t, answer')
    decreases |acts|
  {
    answer' := answer;
    if acts != [] {
      answer' := StepKeepsDoubling(s, acts[0], src, x, t, answer);
      answer' := RunKeepsDoubling(Apply(s, acts[0]), acts[1..], s', src, x, t, answer');
    }
  }

  /** Where a late preparation that finds neither card nor task meets the final send. */
  lemma LateStage(s: State, src: Source, x: SendId, t: TaskId, g: Stage) returns (answer: Option<CardId>)
    requires Inv(s) && Tidy(s, src, g) && NeedsTask(s.ids, s.tasks, src) && t !in s.jobs
    requires x in s.sends && s.sends[x].src == src && s.sends[x].final
    ensures Doubling(Apply(s, Prepare(src, t)), src, x, t, answer)
    ensures s.sends[x].pc.Replying? || s.sends[x].pc.Answered? || s.sends[x].pc.Finished?
  {
    assert SendFits(s, s.sends[x], g);
    assert forall u :: u in s.jobs && s.jobs[u].src == src ==> !s.jobs[u].InFlight();
    answer := if g.Direct? || g.Closed? then Some(g.card) else None;
  }

  lemma {:induction false} SmoothRunIsRun(s: State, acts: seq<Action>, s': State, src: Source)
    requires SmoothRun(s, acts, s', src)
    ensures Run(s, acts, s')
    decreases |acts|
  {
    if acts != [] { SmoothRunIsRun(Apply(s, acts[0]), acts[1..], s', src); }
  }

  /**
    A preparation after the final send has started that finds neither a card nor a task: on every
    continuation at all, once its creation has returned an id and the final send is through, the
    source has two cards.
   */
  lemma LatePreparationDoubles(acts: seq<Action>, s: State, src: Source, x: SendId, t: TaskId,
                               more: seq<Action>, s': State)
    requires SmoothRun(START, acts, s, src) && NeedsTask(s.ids, s.tasks, src) && Enabled(s, Prepare(src, t))
    requires x in s.sends && s.sends[x].src == src && s.sends[x].final
    requires Run(Apply(s, Prepare(src, t)), more, s')
    requires CardOfJob(s', t).Some? && x in s'.sends && s'.sends[x].pc.Finished?
    ensures TwoCards(s', src)
  {
    var g := SmoothRunKeepsTidy(START, acts, s, src, Untouched);
    var answer := LateStage(s, src, x, t, g);
    answer := RunKeepsDoubling(Apply(s, Prepare(src, t)), more, s', src, x, t, answer);
    assert Owns(s', src, answer.value) && Owns(s', src, CardOfJob(s', t).value);
  }

  /** Some otherwise smooth continuation ends the final send with more or fewer than one card. */
  ghost predicate CanSpoil(s: State, src: Source, x: SendId) {
    exists acts, s' :: SmoothRun(s, acts, s', src) && Spoiled(s', src, x)
  }

  ghost predicate Spoiled(s: State, src: Source, x: SendId) {
    && x in s.sends && s.sends[x].src == src && s.sends[x].final && s.sends[x].pc.Finished?
    && forall c :: !OnlyCard(s, src, c)
  }

  lemma FreshCard(used: set<CardId>) returns (c: CardId)
    ensures c !in used && forall u :: u in used ==> u < c
    decreases |used|
  {
    if used == {} {
      c := 0;
    } else {
      var u :| u in used;
      var m := FreshCard(used - {u});
      assert used == (used - {u}) + {u};
      c := if m <= u then u + 1 else m;
    }
  }

  lemma {:induction false} SmoothExtends(s: State, acts: seq<Action>, s': State, a: Action, src: Source)
    requires SmoothRun(s, acts, s', src) && Enabled(s', a) && Smooth(s', a, src)
    ensures SmoothRun(s, acts + [a], Apply(s', a), src)
    decreases |acts|
  {
    if acts == [] {
      assert SmoothRun(Apply(s', a), [], Apply(s', a), src);
    } else {
      SmoothExtends(Apply(s, acts[0]), acts[1..], s', a, src);
      assert (acts + [a])[1..] == acts[1..] + [a];
    }
  }

  /** The late creation gets a card. */
  lemma LateCreates(s0: State, acts0: seq<Action>, s: State, src: Source, x: SendId, t: TaskId)
      returns (acts: seq<Action>, s': State)
    requires SmoothRun(s0, acts0, s, src)
    requires t in s.jobs && s.jobs[t].phase.Calling? && x in s.sends
    ensures SmoothRun(s0, acts, s', src) && CardOfJob(s', t).Some? && x in s'.sends && s'.sends[x] == s.sends[x]
  {
    var c := FreshCard(s.cards.Keys);
    SmoothExtends(s0, acts0, s, CardCreated(t, c), src);
    acts, s' := acts0 + [CardCreated(t, c)], Apply(s, CardCreated(t, c));
  }

  /** The final send gets through. */
  lemma FinalEnds(s0: State, acts0: seq<Action>, s: State, src: Source, x: SendId, t: TaskId)
      returns (acts: seq<Action>, s': State)
    requires SmoothRun(s0, acts0, s, src) && CardOfJob(s, t).Some?
    requires x in s.sends && s.sends[x].final
    requires s.sends[x].pc.Replying? || s.sends[x].pc.Answered? || s.sends[x].pc.Finished?
    ensures SmoothRun(s0, acts, s', src) && CardOfJob(s', t).Some?
    ensures x in s'.sends && s'.sends[x] == s.sends[x].(pc := Finished)
  {
    acts, s' := acts0, s;
    if s'.sends[x].pc.Replying? {
      var c := FreshCard(s'.cards.Keys);
      SmoothExtends(s0, acts, s', ReplyLands(x, c), src);
      acts, s' := acts + [ReplyLands(x, c)], Apply(s', ReplyLands(x, c));
    }
    if s'.sends[x].pc.Answered? {
      SmoothExtends(s0, acts, s', EndSend(x), src);
      acts, s' := acts + [EndSend(x)], Apply(s', EndSend(x));
    }
  }

  lemma LatePreparationSpoils(acts: seq<Action>, s: State, src: Source, x: SendId, t: TaskId)
    requires SmoothRun(START, acts, s, src) && Enabled(s, Prepare(src, t)) && NeedsTask(s.ids, s.tasks, src)
    requires x in s.sends && s.sends[x].src == src && s.sends[x].final
    ensures CanSpoil(Apply(s, Prepare(src, t)), src, x)
  {
    var s1 := Apply(s, Prepare(src, t));
    var g := SmoothRunKeepsTidy(START, acts, s, src, Untouched);
    var answer := LateStage(s, src, x, t, g);
    assert SmoothRun(s1, [], s1, src);
    var more, s' := LateCreates(s1, [], s1, src, x, t);
    more, s' := FinalEnds(s1, more, s', src, x, t);
    SmoothRunIsRun(s1, more, s', src);
    LatePreparationDoubles(acts, s, src, x, t, more, s');
    assert Spoiled(s', src, x);
  }

  lemma TidyIsUnspoiled(s: State, acts: seq<Action>, s': State, src: Source, g: Stage, x: SendId)
    requires Inv(s) && Tidy(s, src, g) && SmoothRun(s, acts, s', src)
    ensures !Spoiled(s', src, x)
  {
    var g' := SmoothRunKeepsTidy(s, acts, s', src, g);
    if x in s'.sends && s'.sends[x].src == src && s'.sends[x].final && s'.sends[x].pc.Finished? {
      assert SendFits(s', s'.sends[x], g');
      assert OnlyCard(s', src, g'.card);
    }
  }

  /**
    The exact condition, after any smooth run in which the final send has started: a further
    preparation can spoil the outcome if and only if it finds neither a card nor a task.
   */
  lemma LatePreparationSpoilsIff(acts: seq<Action>, s: State, src: Source, x: SendId, t: TaskId)
    requires SmoothRun(START, acts, s, src) && Enabled(s, Prepare(src, t))
    requires x in s.sends && s.sends[x].src == src && s.sends[x].final
    ensures CanSpoil(Apply(s, Prepare(src, t)), src, x) <==> NeedsTask(s.ids, s.tasks, src)
  {
    if NeedsTask(s.ids, s.tasks, src) {
      LatePreparationSpoils(acts, s, src, x, t);
    } else {
      var g := SmoothRunKeepsTidy(START, acts, s, src, Untouched);
      forall more, s' | SmoothRun(s, more, s', src) ensures !Spoiled(s', src, x) {
        TidyIsUnspoiled(s, more, s', src, g, x);
      }
    }
  }

  lemma {:induction false} RunExtends(s: State, acts: seq<Action>, s': State, a: Action)
    requires Run(s, acts, s') && Enabled(s', a)
    ensures Run(s, acts + [a], Apply(s', a))
    decreases |acts|
  {
    if acts == [] {
      assert Run(Apply(s', a), [], Apply(s', a));
    } else {
      RunExtends(Apply(s, acts[0]), acts[1..], s', a);
      assert (acts + [a])[1..] == acts[1..] + [a];
    }
  }

  lemma Then(acts: seq<Action>, s: State, a: Action) returns (acts': seq<Action>, s': State)
    requires Run(START, acts, s) && Enabled(s, a)
    ensures Run(START, acts', s') && s' == Apply(s, a)
  {
    RunExtends(START, acts, s, a);
    acts', s' := acts + [a], Apply(s, a);
  }

  lemma AnsweredDirectly(src: Source) returns (acts: seq<Action>, s: State)
    ensures Run(START, acts, s)
    ensures s == State(map[], map[], map[], {}, map[0 := Card(src, "done")],
                       map[0 := Send(src, "done", true, Finished)])
  {
    acts, s := Then([], START, StartSend(0, src, "done", true, 0));
    acts, s := Then(acts, s, ReplyLands(0, 0));
    acts, s := Then(acts, s, EndSend(0));
  }

  /** A redelivered message prepared after its final answer leaves a second card, still "thinking...",
      and an entry that nothing will remove. */
  lemma LatePreparationLeavesCard(src: Source) returns (acts: seq<Action>, s: State)
    ensures Run(START, acts, s) && s.callbacks == {} && s.tasks == map[]
    ensures s.cards == map[0 := Card(src, "done"), 1 := Card(src, "thinking...")] && s.ids == map[src := 1]
    ensures s.sends == map[0 := Send(src, "done", true, Finished)]
  {
    acts, s := AnsweredDirectly(src);
    acts, s := Then(acts, s, Prepare(src, 1));
    acts, s := Then(acts, s, CardCreated(1, 1));
    acts, s := Then(acts, s, JobResumes(1));
    acts, s := Then(acts, s, Callback(1));
  }
}
