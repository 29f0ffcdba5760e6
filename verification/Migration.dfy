/**
  The move of legacy thread, agent and skill directories into the per-user layout
  (backend/scripts/migrate_user_isolation.py). Paths are relative to the base directory.
 */
module Migration {
  import opened Options
  import opened FileTree

  /** The three migrations; `owners` says who owns a thread, `user` receives agents and skills. */
  datatype Job =
    | Threads(owners: map<string, string>)
    | Agents(user: string)
    | Skills(user: string)

  const HISTORY := ".history"

  function LegacyRoot(job: Job): Path {
    match job
    case Threads(_) => ["threads"]
    case Agents(_) => ["agents"]
    case Skills(_) => ["skills", "custom"]
  }

  function Source(job: Job, name: string): Path {
    LegacyRoot(job) + [name]
  }

  function UserOf(job: Job, name: string): string {
    match job
    case Threads(owners) => if name in owners then owners[name] else "default"
    case Agents(user) => user
    case Skills(user) => user
  }

  function Lower(s: string): string {
    if s == "" then "" else [LowerChar(s[0])] + Lower(s[1..])
  }

  function LowerChar(c: char): char {
    if 'A' <= c <= 'Z' then c + ' ' else c
  }

  /** Agent directories are looked up, and so placed, under their lower-case name. */
  function Dest(job: Job, name: string): Path {
    match job
    case Threads(_) => ["users", UserOf(job, name), "threads", name]
    case Agents(user) => ["users", user, "agents", Lower(name)]
    case Skills(user) => ["users", user, "skills", "custom", name]
  }

  function Slot(job: Job, name: string): Path {
    match job
    case Threads(_) => ["migration-conflicts", name]
    case Agents(_) => ["migration-conflicts", "agents", name]
    case Skills(_) => ["migration-conflicts", "skills", name]
  }

  /** Hidden entries of the skills directory are internal. */
  predicate Skipped(job: Job, name: string) {
    job.Skills? && name != "" && name[0] == '.'
  }

  datatype Action = Moved(to: Path) | Conflicted(to: Path)

  datatype Entry = Entry(name: string, user: string, action: Action)

  /** The tree, the report so far, and whether a call raised. */
  datatype Outcome = Outcome(root: Node, report: seq<Entry>, raised: bool)

  function EntryFor(root: Node, job: Job, name: string): Entry {
    Entry(name, UserOf(job, name), if Exists(root, Dest(job, name))
        then Conflicted(Slot(job, name)) else Moved(Dest(job, name)))
  }

  /** One directory of the loop; the skills' history directory is moved without a report entry. */
  function Step(o: Outcome, job: Job, name: string, dryRun: bool): Outcome {
    if o.raised || !IsDir(o.root, Source(job, name)) then o
    else
      var entry := EntryFor(o.root, job, name);
      var report := if Skipped(job, name) then o.report else o.report + [entry];
      if dryRun then Outcome(o.root, report, false)
      else
        var moved := Shifted(o.root, Source(job, name), entry.action.to);
        if moved.None? then Outcome(o.root, o.report, true) else Outcome(moved.value, report, false)
  }

  function Ran(root: Node, job: Job, work: seq<string>, dryRun: bool): Outcome {
    if work == [] then Outcome(root, [], false)
    else Step(Ran(root, job, work[..|work| - 1], dryRun), job, work[|work| - 1], dryRun)
  }

  /** The directories in the order they are taken: the skills' history first, then what the loop does not skip. */
  function Work(job: Job, names: seq<string>): seq<string> {
    (if job.Skills? then [HISTORY] else []) + Visible(job, names)
  }

  function Visible(job: Job, names: seq<string>): seq<string> {
    if names == [] then []
    else Visible(job, names[..|names| - 1]) + (if Skipped(job, names[|names| - 1]) then [] else [names[|names| - 1]])
  }

  /** An empty legacy directory is removed. */
  function CleanedUp(root: Node, job: Job): Node {
    if Lookup(root, LegacyRoot(job)) == Some(EMPTY) then Delete(root, LegacyRoot(job)) else root
  }

  function Migrated(root: Node, job: Job, names: seq<string>, dryRun: bool): Outcome {
    if !Exists(root, LegacyRoot(job)) then Outcome(root, [], false)
    else if !IsDir(root, LegacyRoot(job)) then Outcome(root, [], true)
    else
      var o := Ran(root, job, Work(job, names), dryRun);
      if o.raised || dryRun then o else o.(root := CleanedUp(o.root, job))
  }

  /** `names` lists the legacy directory, each entry once. */
  ghost predicate Lists(names: seq<string>, root: Node, job: Job) {
    && Distinct(names)
    && (IsDir(root, LegacyRoot(job)) ==>
          forall name :: name in names <==> name in Lookup(root, LegacyRoot(job)).value.entries)
  }

  ghost predicate Distinct(names: seq<string>) {
    forall i, j :: 0 <= i < j < |names| ==> names[i] != names[j]
  }

  class FileSystem {
    var root: Node

    constructor (tree: Node)
      ensures root == tree
    {
      root := tree;
    }

    /** `shutil.move`, after `mkdir` of the target's parents. */
    method Move(src: Path, dst: Path) returns (ok: bool)
      requires src != [] && Exists(root, src)
      modifies this
      ensures ok == Shifted(old(root), src, dst).Some?
      ensures root == if ok then Shifted(old(root), src, dst).value else old(root)
    {
      var moved := Shifted(root, src, dst);
      ok := moved.Some?;
      if ok {
        root := moved.value;
      }
    }

    /** `migrate_thread_dirs`, `migrate_agents` and `migrate_skills`; `names` is the sorted listing. */
    method Migrate(job: Job, names: seq<string>, dryRun: bool) returns (report: seq<Entry>, raised: bool)
      requires Lists(names, root, job)
      modifies this
      ensures Outcome(root, report, raised) == Migrated(old(root), job, names, dryRun)
    {
      report, raised := [], false;
      if !Exists(root, LegacyRoot(job)) {
        return;
      }
      if !IsDir(root, LegacyRoot(job)) {
        return [], true;  // `iterdir` raises
      }
      ghost var before := root;
      if job.Skills? {
        report, raised := MigrateOne(job, HISTORY, dryRun, report);
      }
      FirstWork(before, job, dryRun);
      if raised {
        assert names[..0] == [];
        RaisedStaysFrom(before, job, names, 0, dryRun);
        return;
      }
      report, raised := MigrateEach(job, names, dryRun, report, before);
      if !raised && !dryRun && Lookup(root, LegacyRoot(job)) == Some(EMPTY) {
        root := Delete(root, LegacyRoot(job));
      }
    }

    /** The loop over the listing. */
    method MigrateEach(job: Job, names: seq<string>, dryRun: bool, first: seq<Entry>, ghost before: Node)
        returns (report: seq<Entry>, raised: bool)
      requires Outcome(root, first, false) == Ran(before, job, Work(job, []), dryRun)
      modifies this
      ensures Outcome(root, report, raised) == Ran(before, job, Work(job, names), dryRun)
    {
      report, raised := first, false;
      assert names[..0] == [];
      for n := 0 to |names|
        invariant Outcome(root, report, false) == Ran(before, job, Work(job, names[..n]), dryRun)
      {
        WorkOneMore(before, job, names, n, dryRun);
        if Skipped(job, names[n]) {
          continue;
        }
        report, raised := MigrateOne(job, names[n], dryRun, report);
        if raised {
          RaisedStaysFrom(before, job, names, n + 1, dryRun);
          return;
        }
      }
      assert names[..|names|] == names;
    }

    /** `migrate_memory`. */
    method MigrateMemory(user: string, dryRun: bool) returns (raised: bool)
      modifies this
      ensures dryRun ==> root == old(root) && !raised
      ensures !dryRun ==> raised == MemoryMoved(old(root), user).None?
      ensures !dryRun && !raised ==> root == MemoryMoved(old(root), user).value
    {
      raised := false;
      if FileAt(root, MEMORY).None? {
        return;
      }
      if Exists(root, MemoryDest(user)) {
        if !dryRun {
          if IsDir(root, BACKUP) {
            return true;
          }
          root := Relocated(root, MEMORY, BACKUP);
        }
        return;
      }
      if !dryRun {
        if !CanPut(root, MemoryDest(user)) {
          return true;
        }
        root := Relocated(root, MEMORY, MemoryDest(user));
      }
    }

    /** The body of the loop. */
    method MigrateOne(job: Job, name: string, dryRun: bool, report: seq<Entry>) returns (grown: seq<Entry>,
        raised: bool)
      modifies this
      ensures Outcome(root, grown, raised) == Step(Outcome(old(root), report, false), job, name, dryRun)
    {
      grown, raised := report, false;
      var src := Source(job, name);
      if !IsDir(root, src) {
        return;
      }
      var dest := Dest(job, name);
      var action := Moved(dest);
      if Exists(root, dest) {
        action := Conflicted(Slot(job, name));
      }
      if !dryRun {
        var ok := Move(src, action.to);
        if !ok {
          raised := true;
          return;
        }
      }
      if !Skipped(job, name) {
        grown := grown + [Entry(name, UserOf(job, name), action)];
      }
    }
  }

  lemma FirstWork(root: Node, job: Job, dryRun: bool)
    ensures Ran(root, job, Work(job, []), dryRun) ==
            if job.Skills? then Step(Outcome(root, [], false), job, HISTORY, dryRun) else Outcome(root, [], false)
  {
    assert Visible(job, []) == [];
    if job.Skills? {
      RanMore(root, job, [], HISTORY, dryRun);
      assert Work(job, []) == [] + [HISTORY];
      assert Ran(root, job, [], dryRun) == Outcome(root, [], false);
    } else {
      assert Work(job, []) == [];
    }
  }

  lemma WorkOneMore(root: Node, job: Job, names: seq<string>, n: nat, dryRun: bool)
    requires n < |names|
    ensures Ran(root, job, Work(job, names[..n + 1]), dryRun) ==
            if Skipped(job, names[n]) then Ran(root, job, Work(job, names[..n]), dryRun)
            else Step(Ran(root, job, Work(job, names[..n]), dryRun), job, names[n], dryRun)
  {
    assert names[..n + 1][..n] == names[..n];
    assert Visible(job, names[..n + 1]) ==
      Visible(job, names[..n]) + (if Skipped(job, names[n]) then [] else [names[n]]);
    if Skipped(job, names[n]) {
      assert Work(job, names[..n + 1]) == Work(job, names[..n]);
    } else {
      assert Work(job, names[..n + 1]) == Work(job, names[..n]) + [names[n]];
      RanMore(root, job, Work(job, names[..n]), names[n], dryRun);
    }
  }

  lemma RanMore(root: Node, job: Job, work: seq<string>, name: string, dryRun: bool)
    ensures Ran(root, job, work + [name], dryRun) == Step(Ran(root, job, work, dryRun), job, name, dryRun)
  {
    assert (work + [name])[..|work|] == work;
  }

  lemma {:induction false} RaisedStays(root: Node, job: Job, done: seq<string>, more: seq<string>, dryRun: bool)
    requires Ran(root, job, done, dryRun).raised
    ensures Ran(root, job, done + more, dryRun) == Ran(root, job, done, dryRun)
  {
    if more == [] {
      assert done + more == done;
    } else {
      RaisedStays(root, job, done, more[..|more| - 1], dryRun);
      assert (done + more)[..|done + more| - 1] == done + more[..|more| - 1];
    }
  }

  lemma {:induction false} WorkPrefix(job: Job, names: seq<string>, n: nat) returns (more: seq<string>)
    requires n <= |names|
    ensures Work(job, names) == Work(job, names[..n]) + more
    decreases |names|
  {
    if n == |names| {
      more := [];
      assert names[..n] == names;
    } else {
      var front := names[..|names| - 1];
      assert front[..n] == names[..n];
      var rest := WorkPrefix(job, front, n);
      var last := if Skipped(job, names[|names| - 1]) then [] else [names[|names| - 1]];
      more := rest + last;
      assert Work(job, names) == Work(job, front) + last;
    }
  }

  lemma RaisedStaysFrom(root: Node, job: Job, names: seq<string>, n: nat, dryRun: bool)
    requires n <= |names| && Ran(root, job, Work(job, names[..n]), dryRun).raised
    ensures Ran(root, job, Work(job, names), dryRun) == Ran(root, job, Work(job, names[..n]), dryRun)
  {
    var more := WorkPrefix(job, names, n);
    RaisedStays(root, job, Work(job, names[..n]), more, dryRun);
  }

  // ---------------------------------------------------------------------------
  // Where directories go
  // ---------------------------------------------------------------------------

  /** A directory that a run should move. */
  predicate Eligible(root: Node, job: Job, name: string) {
    IsDir(root, Source(job, name))
  }

  /** The destination is there already, or an earlier directory goes to the same one. */
  ghost predicate Taken(root: Node, job: Job, before: seq<string>, name: string) {
    Exists(root, Dest(job, name))
    || exists i :: 0 <= i < |before| && Claims(root, job, before[i], Dest(job, name))
  }

  ghost predicate Claims(root: Node, job: Job, name: string, dest: Path) {
    Eligible(root, job, name) && Dest(job, name) == dest
  }

  /** The path that the report names. */
  ghost function Place(root: Node, job: Job, before: seq<string>, name: string): Path {
    if Taken(root, job, before, name) then Slot(job, name) else Dest(job, name)
  }

  /** The path a move to `place` ends at: `place` itself when that is free, one level deeper when it is
      a directory, and none when a file stands in the way or the deeper path is occupied as well. */
  function Landing(root: Node, place: Path, name: string): Option<Path> {
    if !CanPut(root, place) then None
    else if !Exists(root, place) then Some(place)
    else if IsDir(root, place) && !Exists(root, place + [name]) then Some(place + [name])
    else None
  }

  /** Where a directory ends, by what was in the tree before the run and which directories go before it. */
  ghost function Spot(root: Node, job: Job, before: seq<string>, name: string): Option<Path> {
    Landing(root, Place(root, job, before, name), name)
  }

  /** Every eligible directory has somewhere to go. */
  ghost predicate Clear(root: Node, job: Job, work: seq<string>) {
    forall i :: 0 <= i < |work| ==> HasSpot(root, job, work, i)
  }

  ghost predicate HasSpot(root: Node, job: Job, work: seq<string>, i: nat)
    requires i < |work|
  {
    Eligible(root, job, work[i]) ==> Spot(root, job, work[..i], work[i]).Some?
  }

  lemma ClearOneMore(root: Node, job: Job, front: seq<string>, v: string)
    ensures Clear(root, job, front + [v]) <==>
            Clear(root, job, front) && (Eligible(root, job, v) ==> Spot(root, job, front, v).Some?)
  {
    var all := front + [v];
    assert all[..|front|] == front;
    forall i | 0 <= i < |front| ensures HasSpot(root, job, all, i) <==> HasSpot(root, job, front, i) {
      assert all[..i] == front[..i];
    }
    assert HasSpot(root, job, all, |front|) <==> (Eligible(root, job, v) ==> Spot(root, job, front, v).Some?);
    if Clear(root, job, all) {
      forall i | 0 <= i < |front| ensures HasSpot(root, job, front, i) { assert HasSpot(root, job, all, i); }
    }
  }

  lemma PathsApart(job: Job, v: string, w: string)
    ensures Apart(Source(job, v), Dest(job, w)) && Apart(Source(job, v), Slot(job, w))
    ensures Apart(Dest(job, v), Slot(job, w))
    ensures v != w ==> Apart(Source(job, v), Source(job, w)) && Apart(Slot(job, v), Slot(job, w))
    ensures Dest(job, v) != Dest(job, w) ==> Apart(Dest(job, v), Dest(job, w))
  {
    FirstsApart(Source(job, v), Dest(job, w));
    FirstsApart(Source(job, v), Slot(job, w));
    FirstsApart(Dest(job, v), Slot(job, w));
    SameLengthApart(Source(job, v), Source(job, w));
    SameLengthApart(Slot(job, v), Slot(job, w));
    SameLengthApart(Dest(job, v), Dest(job, w));
    var n := |Source(job, v)| - 1;
    assert Source(job, v)[n] == v && Source(job, w)[n] == w;
  }

  lemma FirstsApart(p: Path, q: Path)
    requires p != [] && q != [] && p[0] != q[0]
    ensures Apart(p, q)
  {
  }

  lemma SameLengthApart(p: Path, q: Path)
    requires |p| == |q|
    ensures p != q ==> Apart(p, q)
  {
  }

  /** The two paths a directory can be moved towards are the beginnings of where it lands. */
  lemma LandingInside(root: Node, place: Path, name: string)
    requires Landing(root, place, name).Some?
    ensures var p := Landing(root, place, name).value;
            place <= p && CanPut(root, p) && !Exists(root, p) && (Exists(root, place) <==> p != place)
  {
    if Exists(root, place) {
      CanPutInside(root, place, name);
    }
  }

  /** The path a step moves a directory towards, by the tree at that time. */
  function Towards(root: Node, job: Job, name: string): Path {
    if Exists(root, Dest(job, name)) then Slot(job, name) else Dest(job, name)
  }

  /** One step moves its directory to where it lands, or raises when it lands nowhere. */
  lemma StepMoves(o: Outcome, job: Job, name: string)
    requires !o.raised && Eligible(o.root, job, name)
    ensures var landing := Landing(o.root, Towards(o.root, job, name), name);
            && (landing.None? ==> Step(o, job, name, false) == o.(raised := true))
            && (landing.Some? ==>
                  && Apart(Source(job, name), landing.value) && CanPut(o.root, landing.value)
                  && !Exists(o.root, landing.value) && !Step(o, job, name, false).raised
                  && Step(o, job, name, false).root == Relocated(o.root, Source(job, name), landing.value))
  {
    var place := Towards(o.root, job, name);
    PathsApart(job, name, name);
    assert Source(job, name)[|Source(job, name)| - 1] == name;
    if Landing(o.root, place, name).Some? {
      LandingInside(o.root, place, name);
      PrefixesApart(place, Source(job, name), Landing(o.root, place, name).value);
    }
  }

  /** Anything apart from where a step moves its directory from and towards stays. */
  lemma StepFrame(o: Outcome, job: Job, v: string, q: Path)
    requires !o.raised && Apart(Source(job, v), q) && Apart(Towards(o.root, job, v), q)
    ensures var after := Step(o, job, v, false).root;
            Lookup(after, q) == Lookup(o.root, q) && (CanPut(after, q) <==> CanPut(o.root, q))
  {
    if Eligible(o.root, job, v) {
      StepMoves(o, job, v);
      var src, place := Source(job, v), Towards(o.root, job, v);
      var landing := Landing(o.root, place, v);
      if landing.Some? {
        LandingInside(o.root, place, v);
        PrefixesApart(place, q, landing.value);
        RelocatedLookup(o.root, src, landing.value, q);
        RelocatedCanPut(o.root, src, landing.value, q);
      }
    }
  }

  /** What a step leaves of the destination of another directory. */
  lemma StepLeavesDest(o: Outcome, job: Job, v: string, w: string)
    requires !o.raised && !Step(o, job, v, false).raised
    ensures var after := Step(o, job, v, false).root;
            && (CanPut(after, Dest(job, w)) <==> CanPut(o.root, Dest(job, w)))
            && (Exists(after, Dest(job, w)) <==>
                  Exists(o.root, Dest(job, w)) || Claims(o.root, job, v, Dest(job, w)))
  {
    PathsApart(job, v, w);
    PathsApart(job, w, v);
    if Eligible(o.root, job, v) {
      if Towards(o.root, job, v) == Dest(job, w) {
        StepMoves(o, job, v);
        var src, dest := Source(job, v), Dest(job, w);
        assert Landing(o.root, dest, v) == Some(dest);
        RelocatedLookup(o.root, src, dest, dest);
        RelocatedCanPut(o.root, src, dest, dest);
        assert dest[|dest|..] == [] && src + [] == src;
      } else {
        StepFrame(o, job, v, Dest(job, w));
      }
    }
  }

  lemma TakenOneMore(root: Node, job: Job, work: seq<string>, v: string, w: string)
    ensures Taken(root, job, work + [v], w) <==> Taken(root, job, work, w) || Claims(root, job, v, Dest(job, w))
  {
    var all := work + [v];
    if Claims(root, job, v, Dest(job, w)) {
      assert Claims(root, job, all[|work|], Dest(job, w));
    }
    if i :| 0 <= i < |work| && Claims(root, job, work[i], Dest(job, w)) {
      assert Claims(root, job, all[i], Dest(job, w));
    }
  }

  /** What a directory finds when its turn comes. */
  ghost predicate AsBefore(root: Node, now: Node, job: Job, work: seq<string>, w: string) {
    && Lookup(now, Source(job, w)) == Lookup(root, Source(job, w))
    && Lookup(now, Slot(job, w)) == Lookup(root, Slot(job, w))
    && (CanPut(now, Slot(job, w)) <==> CanPut(root, Slot(job, w)))
    && (CanPut(now, Dest(job, w)) <==> CanPut(root, Dest(job, w)))
    && (Exists(now, Dest(job, w)) <==> Taken(root, job, work, w))
  }

  lemma StepLeaves(root: Node, o: Outcome, job: Job, front: seq<string>, v: string, w: string)
    requires v != w && !o.raised && !Step(o, job, v, false).raised
    requires AsBefore(root, o.root, job, front, v) && AsBefore(root, o.root, job, front, w)
    ensures AsBefore(root, Step(o, job, v, false).root, job, front + [v], w)
  {
    PathsApart(job, v, w);
    PathsApart(job, w, v);
    StepFrame(o, job, v, Source(job, w));
    StepFrame(o, job, v, Slot(job, w));
    StepLeavesDest(o, job, v, w);
    TakenOneMore(root, job, front, v, w);
  }

  /** So it lands where it was expected to. */
  lemma LandsAsExpected(root: Node, now: Node, job: Job, work: seq<string>, w: string)
    requires AsBefore(root, now, job, work, w)
    ensures Eligible(now, job, w) <==> Eligible(root, job, w)
    ensures Towards(now, job, w) == Place(root, job, work, w)
    ensures Landing(now, Towards(now, job, w), w) == Spot(root, job, work, w)
  {
    if Taken(root, job, work, w) {
      LookupBelow(now, Slot(job, w), [w]);
      LookupBelow(root, Slot(job, w), [w]);
    }
  }

  /** Before its turn, a directory and its conflict slot are as they were, and its destination exists
      just when it is taken. */
  lemma {:induction false} Pending(root: Node, job: Job, work: seq<string>, w: string)
    requires Distinct(work + [w]) && Clear(root, job, work)
    ensures var o := Ran(root, job, work, false);
            && !o.raised && AsBefore(root, o.root, job, work, w)
            && (Eligible(o.root, job, w) <==> Eligible(root, job, w))
            && Towards(o.root, job, w) == Place(root, job, work, w)
            && Landing(o.root, Towards(o.root, job, w), w) == Spot(root, job, work, w)
    decreases |work|
  {
    var o := Ran(root, job, work, false);
    if work != [] {
      var n := |work| - 1;
      var front, v := work[..n], work[n];
      SplitLast(work, w);
      ClearOneMore(root, job, front, v);
      Pending(root, job, front, w);
      Pending(root, job, front, v);
      NoRaise(Ran(root, job, front, false), job, v);
      StepLeaves(root, Ran(root, job, front, false), job, front, v, w);
    }
    LandsAsExpected(root, o.root, job, work, w);
  }

  lemma SplitLast(work: seq<string>, w: string)
    requires work != [] && Distinct(work + [w])
    ensures var n := |work| - 1;
            && work == work[..n] + [work[n]] && work[n] != w
            && Distinct(work[..n] + [w]) && Distinct(work[..n] + [work[n]])
  {
    var n, all := |work| - 1, work + [w];
    assert all[n] == work[n] && all[n + 1] == w;
    assert forall k :: 0 <= k < n ==> all[k] == work[..n][k];
  }

  lemma NoRaise(o: Outcome, job: Job, v: string)
    requires !o.raised
    requires Eligible(o.root, job, v) ==> Landing(o.root, Towards(o.root, job, v), v).Some?
    ensures !Step(o, job, v, false).raised
  {
    if Eligible(o.root, job, v) {
      StepMoves(o, job, v);
    }
  }

  // ---------------------------------------------------------------------------
  // Exactly when a run raises, and where a directory ends
  // ---------------------------------------------------------------------------

  lemma NeverRaises(root: Node, job: Job, work: seq<string>)
    requires Distinct(work) && Clear(root, job, work)
    ensures !Ran(root, job, work, false).raised
  {
    if work != [] {
      var n := |work| - 1;
      assert work == work[..n] + [work[n]];
      ClearOneMore(root, job, work[..n], work[n]);
      Pending(root, job, work[..n], work[n]);
      NoRaise(Ran(root, job, work[..n], false), job, work[n]);
    }
  }

  /** A run raises if and only if some eligible directory has nowhere to go. */
  lemma {:induction false} RaisesIff(root: Node, job: Job, work: seq<string>)
    requires Distinct(work)
    ensures Ran(root, job, work, false).raised <==> !Clear(root, job, work)
  {
    if work != [] {
      var n := |work| - 1;
      var front, v := work[..n], work[n];
      assert work == front + [v];
      ClearOneMore(root, job, front, v);
      RaisesIff(root, job, front);
      if Clear(root, job, front) {
        Pending(root, job, front, v);
        var o := Ran(root, job, front, false);
        NoRaiseIff(o, job, v);
      }
    }
  }

  lemma NoRaiseIff(o: Outcome, job: Job, v: string)
    requires !o.raised
    ensures Step(o, job, v, false).raised <==>
            Eligible(o.root, job, v) && Landing(o.root, Towards(o.root, job, v), v).None?
  {
    if Eligible(o.root, job, v) {
      StepMoves(o, job, v);
    }
  }

  /** After its turn, a directory is at its spot, whole, and gone from the legacy root; whatever follows. */
  lemma {:induction false} Settled(root: Node, job: Job, work: seq<string>, i: nat)
    requires Distinct(work) && Clear(root, job, work) && i < |work| && Eligible(root, job, work[i])
    ensures HasSpot(root, job, work, i)
    ensures var o, spot := Ran(root, job, work, false), Spot(root, job, work[..i], work[i]).value;
            && Lookup(o.root, spot) == Lookup(root, Source(job, work[i]))
            && !Exists(o.root, Source(job, work[i]))
    decreases |work|
  {
    assert HasSpot(root, job, work, i);
    var n := |work| - 1;
    var front, v := work[..n], work[n];
    assert work == front + [v];
    ClearOneMore(root, job, front, v);
    Pending(root, job, front, v);
    var o := Ran(root, job, front, false);
    if i == n {
      StepSettles(o, job, v);
    } else {
      Settled(root, job, front, i);
      assert front[..i] == work[..i] && front[i] == work[i];
      SettledStays(root, job, front, i, v);
    }
  }

  lemma StepSettles(o: Outcome, job: Job, v: string)
    requires !o.raised && Eligible(o.root, job, v) && Landing(o.root, Towards(o.root, job, v), v).Some?
    ensures var after, p := Step(o, job, v, false).root, Landing(o.root, Towards(o.root, job, v), v).value;
            Lookup(after, p) == Lookup(o.root, Source(job, v)) && !Exists(after, Source(job, v))
  {
    StepMoves(o, job, v);
    var src, p := Source(job, v), Landing(o.root, Towards(o.root, job, v), v).value;
    RelocatedLookup(o.root, src, p, p);
    RelocatedLookup(o.root, src, p, src);
    assert p[|p|..] == [] && src + [] == src;
  }

  /** The places of two directories, the earlier first, are apart. */
  lemma PlacesApart(root: Node, job: Job, front: seq<string>, i: nat, v: string)
    requires Distinct(front + [v]) && i < |front| && Eligible(root, job, front[i])
    ensures Apart(Place(root, job, front, v), Place(root, job, front[..i], front[i]))
    ensures Apart(Source(job, v), Place(root, job, front[..i], front[i]))
    ensures Apart(Source(job, v), Source(job, front[i])) && Apart(Place(root, job, front, v), Source(job, front[i]))
  {
    var u := front[i];
    assert (front + [v])[i] == u && (front + [v])[|front|] == v;
    PathsApart(job, v, u);
    PathsApart(job, u, v);
    assert Claims(root, job, front[i], Dest(job, u));
  }

  /** A later step does not touch where an earlier directory landed, nor where it came from. */
  lemma SettledStays(root: Node, job: Job, front: seq<string>, i: nat, v: string)
    requires Distinct(front + [v]) && Clear(root, job, front) && i < |front| && Eligible(root, job, front[i])
    requires Spot(root, job, front[..i], front[i]).Some?
    ensures var o, spot := Ran(root, job, front, false), Spot(root, job, front[..i], front[i]).value;
            var after := Step(o, job, v, false);
            && Lookup(after.root, spot) == Lookup(o.root, spot)
            && Lookup(after.root, Source(job, front[i])) == Lookup(o.root, Source(job, front[i]))
  {
    var o, place := Ran(root, job, front, false), Place(root, job, front[..i], front[i]);
    Pending(root, job, front, v);
    PlacesApart(root, job, front, i, v);
    LandingInside(root, place, front[i]);
    var spot := Spot(root, job, front[..i], front[i]).value;
    PrefixesApart(place, Source(job, v), spot);
    PrefixesApart(place, Place(root, job, front, v), spot);
    StepFrame(o, job, v, spot);
    StepFrame(o, job, v, Source(job, front[i]));
  }

  // ---------------------------------------------------------------------------
  // Conservation
  // ---------------------------------------------------------------------------

  /** Where the file at `q` after the run was before it. */
  ghost function Origin(root: Node, job: Job, work: seq<string>, q: Path): Option<Path> {
    if work == [] then Some(q)
    else
      var front, v := work[..|work| - 1], work[|work| - 1];
      var spot := Spot(root, job, front, v);
      if !Eligible(root, job, v) || spot.None? then Origin(root, job, front, q)
      else if spot.value <= q then Some(Source(job, v) + q[|spot.value|..])
      else if Source(job, v) <= q then None
      else Origin(root, job, front, q)
  }

  /** What one step does to the file at `q`. */
  lemma StepRenames(root: Node, job: Job, front: seq<string>, v: string, q: Path)
    requires Distinct(front + [v]) && Clear(root, job, front)
    requires Eligible(root, job, v) && Spot(root, job, front, v).Some?
    ensures var o, spot := Ran(root, job, front, false), Spot(root, job, front, v).value;
            FileAt(Step(o, job, v, false).root, q) ==
            if spot <= q then FileAt(root, Source(job, v) + q[|spot|..])
            else if Source(job, v) <= q then None
            else FileAt(o.root, q)
  {
    var o, src, spot := Ran(root, job, front, false), Source(job, v), Spot(root, job, front, v).value;
    Pending(root, job, front, v);
    StepMoves(o, job, v);
    RelocatedLookup(o.root, src, spot, q);
    if spot <= q {
      LookupBelow(o.root, src, q[|spot|..]);
      LookupBelow(root, src, q[|spot|..]);
    }
  }

  /** The files after a run are those before it, renamed: none is lost, changed, overwritten or made up. */
  lemma {:induction false} FilesRenamed(root: Node, job: Job, work: seq<string>, q: Path)
    requires Distinct(work) && Clear(root, job, work)
    ensures var was := Origin(root, job, work, q);
            FileAt(Ran(root, job, work, false).root, q) == if was.Some? then FileAt(root, was.value) else None
    decreases |work|
  {
    if work != [] {
      var n := |work| - 1;
      var front, v := work[..n], work[n];
      assert work == front + [v];
      ClearOneMore(root, job, front, v);
      FilesRenamed(root, job, front, q);
      if Eligible(root, job, v) {
        StepRenames(root, job, front, v, q);
      } else {
        Pending(root, job, front, v);
      }
    }
  }

  lemma {:induction false} VisibleDistinct(job: Job, names: seq<string>)
    requires Distinct(names)
    ensures Distinct(Visible(job, names))
    ensures forall name :: name in Visible(job, names) <==> name in names && !Skipped(job, name)
  {
    if names != [] {
      var front, last := names[..|names| - 1], names[|names| - 1];
      VisibleDistinct(job, front);
      assert names == front + [last];
      var shown := Visible(job, front);
      assert forall i :: 0 <= i < |shown| ==> shown[i] in shown;
    }
  }

  lemma WorkDistinct(job: Job, names: seq<string>)
    requires Distinct(names)
    ensures Distinct(Work(job, names))
    ensures forall name :: name in Work(job, names) <==>
                           (job.Skills? && name == HISTORY) || (name in names && !Skipped(job, name))
  {
    VisibleDistinct(job, names);
    var shown := Visible(job, names);
    assert forall i :: 0 <= i < |shown| ==> shown[i] in shown;
    assert job.Skills? ==> Skipped(job, HISTORY);
  }

  lemma CleaningKeepsFiles(root: Node, job: Job, q: Path)
    ensures FileAt(CleanedUp(root, job), q) == FileAt(root, q)
  {
    var legacy := LegacyRoot(job);
    if Lookup(root, legacy) == Some(EMPTY) {
      LookupDelete(root, legacy, q);
      if legacy <= q {
        LookupBelow(root, legacy, q[|legacy|..]);
        assert legacy + q[|legacy|..] == q;
      }
    }
  }

  /** A migration raises if and only if the legacy root is a file or some eligible directory has
      nowhere to go: a file stands where it needs a directory, or its destination is taken and its
      conflict slot is a file or holds the name already. */
  lemma MigrationRaisesIff(root: Node, job: Job, names: seq<string>)
    requires Distinct(names)
    ensures Migrated(root, job, names, false).raised <==>
            Exists(root, LegacyRoot(job)) &&
            (!IsDir(root, LegacyRoot(job)) || !Clear(root, job, Work(job, names)))
  {
    WorkDistinct(job, names);
    RaisesIff(root, job, Work(job, names));
  }

  /** A migration that finds somewhere for every directory renames the files. */
  lemma MigrationRenamesFiles(root: Node, job: Job, names: seq<string>, q: Path)
    requires IsDir(root, LegacyRoot(job)) && Distinct(names) && Clear(root, job, Work(job, names))
    ensures var o, was := Migrated(root, job, names, false), Origin(root, job, Work(job, names), q);
            !o.raised && FileAt(o.root, q) == if was.Some? then FileAt(root, was.value) else None
  {
    WorkDistinct(job, names);
    var work := Work(job, names);
    FilesRenamed(root, job, work, q);
    NeverRaises(root, job, work);
    CleaningKeepsFiles(Ran(root, job, work, false).root, job, q);
  }

  lemma {:induction false} OriginIsSelf(root: Node, job: Job, work: seq<string>, p: Path)
    requires FileAt(root, p).Some?
    requires forall i :: 0 <= i < |work| ==> !Inside(root, job, work[i], p)
    ensures Origin(root, job, work, p) == Some(p)
  {
    if work != [] {
      var front, v := work[..|work| - 1], work[|work| - 1];
      OriginIsSelf(root, job, front, p);
      assert !Inside(root, job, v, p);
      if Spot(root, job, front, v).Some? {
        LandingInside(root, Place(root, job, front, v), v);
        NotBelowAbsent(root, Spot(root, job, front, v).value, p);
      }
    }
  }

  /** A file apart from where the last directory comes from and goes was where it was before that one. */
  lemma OriginSkips(root: Node, job: Job, front: seq<string>, v: string, q: Path)
    requires Apart(Source(job, v), q) && Apart(Place(root, job, front, v), q)
    ensures Origin(root, job, front + [v], q) == Origin(root, job, front, q)
  {
    var work := front + [v];
    assert work[..|work| - 1] == front && work[|work| - 1] == v;
    SpotNotAbove(root, job, front, v, q);
  }

  lemma OriginLast(root: Node, job: Job, front: seq<string>, v: string, rest: Path)
    requires Eligible(root, job, v) && Spot(root, job, front, v).Some?
    ensures Origin(root, job, front + [v], Spot(root, job, front, v).value + rest) == Some(Source(job, v) + rest)
  {
    var work, spot := front + [v], Spot(root, job, front, v).value;
    assert work[..|work| - 1] == front && work[|work| - 1] == v;
    assert (spot + rest)[|spot|..] == rest;
  }

  lemma {:induction false} OriginInside(root: Node, job: Job, work: seq<string>, i: nat, rest: Path)
    requires Distinct(work) && i < |work| && Eligible(root, job, work[i])
    requires Spot(root, job, work[..i], work[i]).Some?
    ensures var spot := Spot(root, job, work[..i], work[i]).value;
            Origin(root, job, work, spot + rest) == Some(Source(job, work[i]) + rest)
    decreases |work|
  {
    var n := |work| - 1;
    var front, v := work[..n], work[n];
    assert work == front + [v];
    if i == n {
      OriginLast(root, job, front, v, rest);
    } else {
      var place, spot := Place(root, job, work[..i], work[i]), Spot(root, job, work[..i], work[i]).value;
      assert front[..i] == work[..i] && front[i] == work[i];
      OriginInside(root, job, front, i, rest);
      PlacesApart(root, job, front, i, v);
      LandingInside(root, place, work[i]);
      assert place <= spot + rest;
      PrefixesApart(place, Source(job, v), spot + rest);
      PrefixesApart(place, Place(root, job, front, v), spot + rest);
      OriginSkips(root, job, front, v, spot + rest);
    }
  }

  lemma SpotNotAbove(root: Node, job: Job, front: seq<string>, v: string, q: Path)
    requires Apart(Place(root, job, front, v), q)
    ensures Spot(root, job, front, v).Some? ==> !(Spot(root, job, front, v).value <= q)
  {
    var place := Place(root, job, front, v);
    if Spot(root, job, front, v).Some? {
      LandingInside(root, place, v);
      PrefixesApart(place, q, Spot(root, job, front, v).value);
    }
  }

  /** Where a file goes: along with its eligible directory, or nowhere. */
  ghost function Goes(root: Node, job: Job, work: seq<string>, p: Path): Path {
    if i :| 0 <= i < |work| && Carried(root, job, work, i, p) then
      Spot(root, job, work[..i], work[i]).value + p[|Source(job, work[i])|..]
    else p
  }

  predicate Inside(root: Node, job: Job, name: string, p: Path) {
    Eligible(root, job, name) && Source(job, name) <= p
  }

  ghost predicate Carried(root: Node, job: Job, work: seq<string>, i: nat, p: Path)
    requires i < |work|
  {
    Inside(root, job, work[i], p) && Spot(root, job, work[..i], work[i]).Some?
  }

  lemma GoesInside(root: Node, job: Job, work: seq<string>, p: Path) returns (i: nat)
    requires exists i :: 0 <= i < |work| && Carried(root, job, work, i, p)
    ensures i < |work| && Carried(root, job, work, i, p)
    ensures Goes(root, job, work, p) == Spot(root, job, work[..i], work[i]).value + p[|Source(job, work[i])|..]
  {
    i :| 0 <= i < |work| && Carried(root, job, work, i, p)
         && Goes(root, job, work, p) == Spot(root, job, work[..i], work[i]).value + p[|Source(job, work[i])|..];
  }

  /** No two files go to the same path. */
  lemma OriginInvertsGoes(root: Node, job: Job, work: seq<string>, p: Path)
    requires Distinct(work) && Clear(root, job, work) && FileAt(root, p).Some?
    ensures Origin(root, job, work, Goes(root, job, work, p)) == Some(p)
  {
    if exists i :: 0 <= i < |work| && Carried(root, job, work, i, p) {
      var i := GoesInside(root, job, work, p);
      var rest := p[|Source(job, work[i])|..];
      OriginInside(root, job, work, i, rest);
      assert Source(job, work[i]) + rest == p;
    } else {
      forall i | 0 <= i < |work| ensures !Inside(root, job, work[i], p) {
        assert HasSpot(root, job, work, i) && !Carried(root, job, work, i, p);
      }
      OriginIsSelf(root, job, work, p);
    }
  }

  /** No file is lost: each is found, unchanged, where it goes. */
  lemma EveryFileKept(root: Node, job: Job, names: seq<string>, p: Path)
    requires IsDir(root, LegacyRoot(job)) && Distinct(names) && Clear(root, job, Work(job, names))
    requires FileAt(root, p).Some?
    ensures FileAt(Migrated(root, job, names, false).root, Goes(root, job, Work(job, names), p)) == FileAt(root, p)
  {
    WorkDistinct(job, names);
    OriginInvertsGoes(root, job, Work(job, names), p);
    MigrationRenamesFiles(root, job, names, Goes(root, job, Work(job, names), p));
  }

  // ---------------------------------------------------------------------------
  // Each directory
  // ---------------------------------------------------------------------------

  lemma StepKeepsSlot(root: Node, job: Job, front: seq<string>, v: string, w: string)
    requires Distinct(front + [v]) && Clear(root, job, front)
    requires v != w || !Taken(root, job, front, w)
    ensures var o := Ran(root, job, front, false);
            Lookup(Step(o, job, v, false).root, Slot(job, w)) == Lookup(o.root, Slot(job, w))
  {
    Pending(root, job, front, v);
    PathsApart(job, v, w);
    PathsApart(job, w, v);
    StepFrame(Ran(root, job, front, false), job, v, Slot(job, w));
  }

  /** The conflict slot of a directory that is not taken stays as it was. */
  lemma {:induction false} SlotStays(root: Node, job: Job, work: seq<string>, i: nat)
    requires Distinct(work) && Clear(root, job, work) && i < |work|
    requires !Taken(root, job, work[..i], work[i])
    ensures Lookup(Ran(root, job, work, false).root, Slot(job, work[i])) == Lookup(root, Slot(job, work[i]))
    decreases |work|
  {
    var n := |work| - 1;
    var front, v := work[..n], work[n];
    assert work == front + [v];
    ClearOneMore(root, job, front, v);
    StepKeepsSlot(root, job, front, v, work[i]);
    if i < n {
      assert front[..i] == work[..i];
      SlotStays(root, job, front, i);
    } else {
      Pending(root, job, front, v);
    }
  }

  lemma CleaningFrame(root: Node, job: Job, q: Path)
    ensures Apart(LegacyRoot(job), q) ==> Lookup(CleanedUp(root, job), q) == Lookup(root, q)
    ensures Exists(CleanedUp(root, job), q) ==> Exists(root, q)
  {
    LookupDelete(root, LegacyRoot(job), q);
  }

  /** When every directory has somewhere to go, each ends whole at its spot, gone from the legacy root:
      at the per-user path, with its conflict slot as it was, or in the slot when that was taken. */
  lemma EveryDirectorySettles(root: Node, job: Job, names: seq<string>, i: nat)
    requires IsDir(root, LegacyRoot(job)) && Distinct(names) && Clear(root, job, Work(job, names))
    requires i < |Work(job, names)| && Eligible(root, job, Work(job, names)[i])
    ensures HasSpot(root, job, Work(job, names), i)
    ensures var o, work := Migrated(root, job, names, false), Work(job, names);
            var name := work[i];
            && !o.raised && !Exists(o.root, Source(job, name))
            && Lookup(o.root, Spot(root, job, work[..i], name).value) == Lookup(root, Source(job, name))
            && (!Taken(root, job, work[..i], name) ==>
                  Lookup(o.root, Slot(job, name)) == Lookup(root, Slot(job, name)))
  {
    WorkDistinct(job, names);
    var work := Work(job, names);
    var name, place, ran := work[i], Place(root, job, work[..i], work[i]), Ran(root, job, work, false).root;
    NeverRaises(root, job, work);
    Settled(root, job, work, i);
    if !Taken(root, job, work[..i], name) {
      SlotStays(root, job, work, i);
    }
    LandingInside(root, place, name);
    FirstsApart(LegacyRoot(job), Spot(root, job, work[..i], name).value);
    FirstsApart(LegacyRoot(job), Slot(job, name));
    CleaningFrame(ran, job, Spot(root, job, work[..i], name).value);
    CleaningFrame(ran, job, Source(job, name));
    CleaningFrame(ran, job, Slot(job, name));
  }

  /** An occupied conflict slot: the directory ends one level below the path that the report names, and
      what was in the slot stays. */
  lemma OccupiedSlotNests(root: Node, job: Job, names: seq<string>, i: nat, q: Path)
    requires IsDir(root, LegacyRoot(job)) && Distinct(names) && Clear(root, job, Work(job, names))
    requires i < |Work(job, names)| && Eligible(root, job, Work(job, names)[i])
    requires var name := Work(job, names)[i];
             Taken(root, job, Work(job, names)[..i], name) && Exists(root, Slot(job, name))
    ensures var o, name := Migrated(root, job, names, false), Work(job, names)[i];
            && Lookup(o.root, Slot(job, name) + [name]) == Lookup(root, Source(job, name))
            && (FileAt(root, Slot(job, name) + q).Some? ==>
                  FileAt(o.root, Slot(job, name) + q) == FileAt(root, Slot(job, name) + q))
  {
    var work, slot := Work(job, names), Slot(job, Work(job, names)[i]);
    EveryDirectorySettles(root, job, names, i);
    forall k | 0 <= k < |work| ensures !Inside(root, job, work[k], slot + q) {
      PathsApart(job, work[k], work[i]);
      PrefixesApart(slot, Source(job, work[k]), slot + q);
    }
    if FileAt(root, slot + q).Some? {
      WorkDistinct(job, names);
      OriginIsSelf(root, job, work, slot + q);
      MigrationRenamesFiles(root, job, names, slot + q);
    }
  }

  /** The directory is gone from the legacy root and whole at the path that the report names. */
  ghost predicate AtReported(root: Node, after: Node, job: Job, work: seq<string>, i: nat)
    requires i < |work|
  {
    && !Exists(after, Source(job, work[i]))
    && Lookup(after, Place(root, job, work[..i], work[i])) == Lookup(root, Source(job, work[i]))
  }

  /** The path that the report names can be created and is free. */
  ghost predicate PlaceFree(root: Node, job: Job, work: seq<string>, i: nat)
    requires i < |work|
  {
    var place := Place(root, job, work[..i], work[i]);
    CanPut(root, place) && !Exists(root, place)
  }

  lemma {:induction false} RanPast(root: Node, job: Job, work: seq<string>, i: nat)
    requires Distinct(work) && i < |work| && Eligible(root, job, work[i])
    ensures AtReported(root, Ran(root, job, work, false).root, job, work, i) <==>
            Clear(root, job, work[..i]) && PlaceFree(root, job, work, i)
    decreases |work|
  {
    var n := |work| - 1;
    var front, v := work[..n], work[n];
    assert work == front + [v];
    RaisesIff(root, job, front);
    if i == n {
      LastTurn(root, job, work);
    } else {
      assert front[..i] == work[..i] && front[i] == work[i];
      RanPast(root, job, front, i);
      if Clear(root, job, front) {
        StillReported(root, job, front, i, v);
      }
    }
  }

  /** The last directory, whose turn comes unless the run has raised. */
  lemma LastTurn(root: Node, job: Job, work: seq<string>)
    requires work != [] && Distinct(work) && Eligible(root, job, work[|work| - 1])
    ensures AtReported(root, Ran(root, job, work, false).root, job, work, |work| - 1) <==>
            Clear(root, job, work[..|work| - 1]) && PlaceFree(root, job, work, |work| - 1)
  {
    var n := |work| - 1;
    var front, v := work[..n], work[n];
    assert work == front + [v];
    if Clear(root, job, front) {
      Pending(root, job, front, v);
      OwnTurn(root, Ran(root, job, front, false), job, work, v);
    } else {
      StillThere(root, job, front, v);
    }
  }

  lemma StillReported(root: Node, job: Job, front: seq<string>, i: nat, v: string)
    requires Distinct(front + [v]) && Clear(root, job, front) && i < |front| && Eligible(root, job, front[i])
    ensures var o := Ran(root, job, front, false);
            AtReported(root, Step(o, job, v, false).root, job, front, i) <==> AtReported(root, o.root, job, front, i)
  {
    Pending(root, job, front, v);
    PlacesApart(root, job, front, i, v);
    StepFrame(Ran(root, job, front, false), job, v, Place(root, job, front[..i], front[i]));
    StepFrame(Ran(root, job, front, false), job, v, Source(job, front[i]));
  }

  lemma OwnTurn(root: Node, o: Outcome, job: Job, work: seq<string>, v: string)
    requires work != [] && work[|work| - 1] == v && !o.raised && Eligible(root, job, v)
    requires AsBefore(root, o.root, job, work[..|work| - 1], v)
    requires Eligible(o.root, job, v) && Towards(o.root, job, v) == Place(root, job, work[..|work| - 1], v)
    requires Landing(o.root, Towards(o.root, job, v), v) == Spot(root, job, work[..|work| - 1], v)
    ensures AtReported(root, Step(o, job, v, false).root, job, work, |work| - 1)
            <==> PlaceFree(root, job, work, |work| - 1)
  {
    var place, spot := Towards(o.root, job, v), Landing(o.root, Towards(o.root, job, v), v);
    StepMoves(o, job, v);
    if spot.Some? {
      StepSettles(o, job, v);
      LandingInside(root, place, v);
      if spot.value != place {
        LookupBelow(Step(o, job, v, false).root, place, [v]);
        assert spot.value == place + [v];
        NotInItself(Step(o, job, v, false).root, place, v);
      }
    }
  }

  /** A directory is not the same as one of its entries. */
  lemma NotInItself(n: Node, p: Path, name: string)
    requires Exists(n, p + [name])
    ensures Exists(n, p) && Lookup(n, p) != Lookup(n, p + [name])
  {
    LookupBelow(n, p, [name]);
    var d := Lookup(n, p).value;
    assert [name][1..] == [];
    assert d.Dir? && Lookup(d, [name]).value == d.entries[name];
    assert d.entries[name] < d;
  }

  /** Once a run has raised, the directories still to come stay. */
  lemma {:induction false} StillThere(root: Node, job: Job, front: seq<string>, w: string)
    requires Distinct(front + [w]) && Eligible(root, job, w) && !Clear(root, job, front)
    ensures Exists(Step(Ran(root, job, front, false), job, w, false).root, Source(job, w))
    decreases |front|
  {
    RaisesIffPrefix(root, job, front, w);
    var n := |front| - 1;
    SplitLast(front, w);
    ClearOneMore(root, job, front[..n], front[n]);
    if Clear(root, job, front[..n]) {
      Pending(root, job, front[..n], w);
      Pending(root, job, front[..n], front[n]);
      StepMoves(Ran(root, job, front[..n], false), job, front[n]);
    } else {
      RaisesIff(root, job, front[..n]);
      StillThere(root, job, front[..n], w);
    }
  }

  lemma RaisesIffPrefix(root: Node, job: Job, front: seq<string>, w: string)
    requires Distinct(front + [w])
    ensures Distinct(front)
    ensures Ran(root, job, front, false).raised <==> !Clear(root, job, front)
  {
    assert forall k :: 0 <= k < |front| ==> (front + [w])[k] == front[k];
    RaisesIff(root, job, front);
  }

  /**
    The exact condition, over whole runs on any tree: an eligible directory ends whole at the path
    that the report names if and only if no directory before it makes the run raise and that path was
    free, that is, its destination was not taken, or it was and its conflict slot was free.
   */
  lemma EndsAtReportedIff(root: Node, job: Job, names: seq<string>, i: nat)
    requires IsDir(root, LegacyRoot(job)) && Distinct(names)
    requires i < |Work(job, names)| && Eligible(root, job, Work(job, names)[i])
    ensures AtReported(root, Migrated(root, job, names, false).root, job, Work(job, names), i) <==>
            Clear(root, job, Work(job, names)[..i]) && PlaceFree(root, job, Work(job, names), i)
  {
    WorkDistinct(job, names);
    var work := Work(job, names);
    RanPast(root, job, work, i);
    var ran := Ran(root, job, work, false);
    var place := Place(root, job, work[..i], work[i]);
    FirstsApart(LegacyRoot(job), place);
    CleaningFrame(ran.root, job, place);
    CleaningFrame(ran.root, job, Source(job, work[i]));
    if Exists(ran.root, Source(job, work[i])) {
      LegacyNotEmpty(ran.root, job, work[i]);
    }
  }

  lemma LegacyNotEmpty(root: Node, job: Job, name: string)
    requires Exists(root, Source(job, name))
    ensures CleanedUp(root, job) == root
  {
    LookupBelow(root, LegacyRoot(job), [name]);
  }

  // ---------------------------------------------------------------------------
  // Paths and users, written out
  // ---------------------------------------------------------------------------

  /** The report of a run, by what was in the tree before it. */
  ghost function Expected(root: Node, job: Job, work: seq<string>): seq<Entry> {
    if work == [] then []
    else
      var front, v := work[..|work| - 1], work[|work| - 1];
      Expected(root, job, front)
      + (if Eligible(root, job, v) && !Skipped(job, v) then [ExpectedFor(root, job, front, v)] else [])
  }

  ghost function ExpectedFor(root: Node, job: Job, before: seq<string>, name: string): Entry {
    Entry(name, UserOf(job, name),
      if Taken(root, job, before, name) then Conflicted(Slot(job, name)) else Moved(Dest(job, name)))
  }

  lemma {:induction false} ReportIsExpected(root: Node, job: Job, work: seq<string>)
    requires Distinct(work) && Clear(root, job, work)
    ensures Ran(root, job, work, false).report == Expected(root, job, work)
  {
    if work != [] {
      var n := |work| - 1;
      var front, v := work[..n], work[n];
      assert work == front + [v];
      ClearOneMore(root, job, front, v);
      ReportIsExpected(root, job, front);
      Pending(root, job, front, v);
      if Eligible(root, job, v) {
        StepMoves(Ran(root, job, front, false), job, v);
      }
    }
  }

  lemma {:induction false} ExpectedHolds(root: Node, job: Job, work: seq<string>, i: nat)
    requires i < |work| && Eligible(root, job, work[i]) && !Skipped(job, work[i])
    ensures ExpectedFor(root, job, work[..i], work[i]) in Expected(root, job, work)
    decreases |work|
  {
    if i < |work| - 1 {
      assert work[..|work| - 1][..i] == work[..i];
      ExpectedHolds(root, job, work[..|work| - 1], i);
    }
  }

  function NamesOf(report: seq<Entry>): seq<string> {
    if report == [] then [] else NamesOf(report[..|report| - 1]) + [report[|report| - 1].name]
  }

  /** The directories of a listing, in its order; for skills without the hidden ones. */
  function Directories(root: Node, legacy: Path, hidden: bool, names: seq<string>): seq<string> {
    if names == [] then []
    else
      var name := names[|names| - 1];
      Directories(root, legacy, hidden, names[..|names| - 1])
      + (if IsDir(root, legacy + [name]) && (hidden || name == "" || name[0] != '.') then [name] else [])
  }

  lemma NamesOfConcat(a: seq<Entry>, b: seq<Entry>)
    requires |b| <= 1
    ensures NamesOf(a + b) == NamesOf(a) + NamesOf(b)
  {
    if b == [] {
      assert a + b == a;
    } else {
      assert (a + b)[..|a|] == a && b[..0] == [];
    }
  }

  lemma {:induction false} ExpectedNames(root: Node, job: Job, names: seq<string>)
    ensures NamesOf(Expected(root, job, Work(job, names))) ==
            Directories(root, LegacyRoot(job), !job.Skills?, names)
  {
    if names == [] {
      ExpectedFirst(root, job);
    } else {
      var n := |names| - 1;
      ExpectedNames(root, job, names[..n]);
      WorkGrows(job, names);
      if !Skipped(job, names[n]) {
        ExpectedOneMore(root, job, Work(job, names[..n]), names[n]);
      }
    }
  }

  lemma WorkGrows(job: Job, names: seq<string>)
    requires names != []
    ensures var n := |names| - 1;
            Work(job, names) == if Skipped(job, names[n]) then Work(job, names[..n])
                                else Work(job, names[..n]) + [names[n]]
  {
  }

  lemma ExpectedFirst(root: Node, job: Job)
    ensures Expected(root, job, Work(job, [])) == []
  {
    assert Visible(job, []) == [];
    if job.Skills? {
      assert Work(job, []) == [HISTORY] && [HISTORY][..0] == [];
      assert Expected(root, job, []) == [];
    }
  }

  lemma ExpectedOneMore(root: Node, job: Job, front: seq<string>, v: string)
    requires !Skipped(job, v)
    ensures NamesOf(Expected(root, job, front + [v])) ==
            NamesOf(Expected(root, job, front)) + (if IsDir(root, LegacyRoot(job) + [v]) then [v] else [])
  {
    assert (front + [v])[..|front|] == front;
    if Eligible(root, job, v) {
      var last := ExpectedFor(root, job, front, v);
      NamesOfConcat(Expected(root, job, front), [last]);
      assert [last][..0] == [];
      assert NamesOf([last]) == NamesOf([]) + [v];
    } else {
      assert Expected(root, job, front + [v]) == Expected(root, job, front);
    }
  }

  /** The report names the directories of the legacy root, in the order of the listing: all threads,
      all agents, and all skills that are not hidden. */
  lemma ReportNamesDirectories(root: Node, job: Job, names: seq<string>)
    requires Distinct(names) && !Migrated(root, job, names, false).raised
    ensures NamesOf(Migrated(root, job, names, false).report) ==
      match job
      case Threads(_) => Directories(root, ["threads"], true, names)
      case Agents(_) => Directories(root, ["agents"], true, names)
      case Skills(_) => Directories(root, ["skills", "custom"], false, names)
  {
    MigrationRaisesIff(root, job, names);
    if Exists(root, LegacyRoot(job)) {
      WorkDistinct(job, names);
      ReportIsExpected(root, job, Work(job, names));
      ExpectedNames(root, job, names);
    } else {
      NoDirectories(root, LegacyRoot(job), !job.Skills?, names);
    }
  }

  lemma {:induction false} NoDirectories(root: Node, legacy: Path, hidden: bool, names: seq<string>)
    requires !Exists(root, legacy)
    ensures Directories(root, legacy, hidden, names) == []
  {
    if names != [] {
      NoDirectories(root, legacy, hidden, names[..|names| - 1]);
      LookupBelow(root, legacy, [names[|names| - 1]]);
    }
  }

  /** A directory of the listing has a turn of its own, at which the ones before it have been taken. */
  lemma {:induction false} TurnOf(job: Job, names: seq<string>, i: nat) returns (k: nat)
    requires i < |names| && !Skipped(job, names[i])
    ensures k < |Work(job, names)| && Work(job, names)[k] == names[i]
    ensures Work(job, names)[..k] == Work(job, names[..i])
    decreases |names|
  {
    var n := |names| - 1;
    if i == n {
      k := |Work(job, names[..n])|;
      assert Work(job, names) == Work(job, names[..n]) + [names[n]];
    } else {
      k := TurnOf(job, names[..n], i);
      assert names[..n][..i] == names[..i];
      var more := if Skipped(job, names[n]) then [] else [names[n]];
      assert Work(job, names) == Work(job, names[..n]) + more;
    }
  }

  /** A directory ends where it is expected, and the report says so. */
  lemma EndsAndReported(root: Node, job: Job, names: seq<string>, i: nat)
    requires Distinct(names) && !Migrated(root, job, names, false).raised
    requires i < |names| && !Skipped(job, names[i]) && IsDir(root, LegacyRoot(job)) && Eligible(root, job, names[i])
    ensures var o, name := Migrated(root, job, names, false), names[i];
            var taken := Taken(root, job, Work(job, names[..i]), name);
            && !Exists(o.root, Source(job, name))
            && Entry(name, UserOf(job, name), if taken then Conflicted(Slot(job, name)) else Moved(Dest(job, name)))
               in o.report
            && (!taken ==> Lookup(o.root, Dest(job, name)) == Lookup(root, Source(job, name)))
            && (taken ==> Lookup(o.root, if Exists(root, Slot(job, name)) then Slot(job, name) + [name]
                                         else Slot(job, name)) == Lookup(root, Source(job, name)))
  {
    var work := Work(job, names);
    MigrationRaisesIff(root, job, names);
    WorkDistinct(job, names);
    var k := TurnOf(job, names, i);
    ReportIsExpected(root, job, work);
    ExpectedHolds(root, job, work, k);
    EveryDirectorySettles(root, job, names, k);
    assert Migrated(root, job, names, false).report == Ran(root, job, work, false).report;
  }

  /** Where the destinations of a job end in the name itself, only what was there before takes them. */
  lemma OnlyTreeTakes(root: Node, job: Job, names: seq<string>, i: nat)
    requires !job.Agents? && Distinct(names) && i < |names| && !Skipped(job, names[i])
    ensures Taken(root, job, Work(job, names[..i]), names[i]) <==> Exists(root, Dest(job, names[i]))
  {
    var before := Work(job, names[..i]);
    WorkDistinct(job, names[..i]);
    assert names[i] !in names[..i];
    forall k | 0 <= k < |before| ensures !Claims(root, job, before[k], Dest(job, names[i])) {
      var n := |Dest(job, before[k])| - 1;
      assert before[k] in before;
      assert Dest(job, before[k])[n] == before[k];
      assert Dest(job, names[i])[|Dest(job, names[i])| - 1] == names[i];
    }
  }

  /**
    A thread goes to its owner, or to `default` when it has none. If the place is free it ends there,
    whole, and the report says so; otherwise it ends in its conflict slot, or below that when it is
    occupied, and the report names the slot.
   */
  lemma ThreadEnds(root: Node, owners: map<string, string>, names: seq<string>, t: string, user: string)
    requires Distinct(names) && !Migrated(root, Threads(owners), names, false).raised
    requires t in names && IsDir(root, ["threads"]) && IsDir(root, ["threads", t])
    requires user == if t in owners then owners[t] else "default"
    ensures var o := Migrated(root, Threads(owners), names, false);
            var place, slot := ["users", user, "threads", t], ["migration-conflicts", t];
            && !Exists(o.root, ["threads", t])
            && (!Exists(root, place) ==>
                  Lookup(o.root, place) == Lookup(root, ["threads", t]) && Entry(t, user, Moved(place)) in o.report)
            && (Exists(root, place) ==>
                  && Lookup(o.root, if Exists(root, slot) then slot + [t] else slot) == Lookup(root, ["threads", t])
                  && Entry(t, user, Conflicted(slot)) in o.report)
  {
    var job := Threads(owners);
    var i :| 0 <= i < |names| && names[i] == t;
    assert Source(job, t) == ["threads", t] && LegacyRoot(job) == ["threads"];
    EndsAndReported(root, job, names, i);
    OnlyTreeTakes(root, job, names, i);
  }

  /** The same for skills, which go to one user; hidden ones but the history are not touched. */
  lemma SkillEnds(root: Node, user: string, names: seq<string>, k: string)
    requires Distinct(names) && !Migrated(root, Skills(user), names, false).raised
    requires k in names && IsDir(root, ["skills", "custom"]) && IsDir(root, ["skills", "custom", k])
    requires k == "" || k[0] != '.'
    ensures var o := Migrated(root, Skills(user), names, false);
            var was := ["skills", "custom", k];
            var place, slot := ["users", user, "skills", "custom", k], ["migration-conflicts", "skills", k];
            && !Exists(o.root, was)
            && (!Exists(root, place) ==>
                  Lookup(o.root, place) == Lookup(root, was) && Entry(k, user, Moved(place)) in o.report)
            && (Exists(root, place) ==>
                  && Lookup(o.root, if Exists(root, slot) then slot + [k] else slot) == Lookup(root, was)
                  && Entry(k, user, Conflicted(slot)) in o.report)
  {
    var job := Skills(user);
    var i :| 0 <= i < |names| && names[i] == k;
    assert Source(job, k) == ["skills", "custom", k] && LegacyRoot(job) == ["skills", "custom"];
    EndsAndReported(root, job, names, i);
    OnlyTreeTakes(root, job, names, i);
  }

  lemma HistoryEnds(root: Node, user: string, names: seq<string>)
    requires Distinct(names) && !Migrated(root, Skills(user), names, false).raised
    requires IsDir(root, ["skills", "custom"]) && IsDir(root, ["skills", "custom", ".history"])
    ensures var o := Migrated(root, Skills(user), names, false);
            var was := ["skills", "custom", ".history"];
            var place, slot := ["users", user, "skills", "custom", ".history"],
                               ["migration-conflicts", "skills", ".history"];
            && !Exists(o.root, was)
            && (!Exists(root, place) ==> Lookup(o.root, place) == Lookup(root, was))
            && (Exists(root, place) ==>
                  Lookup(o.root, if Exists(root, slot) then slot + [".history"] else slot) == Lookup(root, was))
  {
    var job := Skills(user);
    var work := Work(job, names);
    assert Source(job, HISTORY) == ["skills", "custom", ".history"] && LegacyRoot(job) == ["skills", "custom"];
    MigrationRaisesIff(root, job, names);
    EveryDirectorySettles(root, job, names, 0);
    assert work[..0] == [];
  }

  lemma HiddenStays(root: Node, user: string, names: seq<string>, k: string)
    requires Distinct(names) && !Migrated(root, Skills(user), names, false).raised
    requires k != "" && k[0] == '.' && k != ".history"
    ensures Lookup(Migrated(root, Skills(user), names, false).root, ["skills", "custom", k]) ==
            Lookup(root, ["skills", "custom", k])
  {
    var job := Skills(user);
    assert Source(job, k) == ["skills", "custom", k];
    MigrationRaisesIff(root, job, names);
    if Exists(root, LegacyRoot(job)) {
      WorkDistinct(job, names);
      Unmoved(root, job, Work(job, names), k);
      CleaningFrame(Ran(root, job, Work(job, names), false).root, job, Source(job, k));
      var ran := Ran(root, job, Work(job, names), false).root;
      if Exists(ran, Source(job, k)) { LegacyNotEmpty(ran, job, k); }
    }
  }

  /** Lower case, by code points. */
  ghost predicate IsLower(lower: string, name: string) {
    && |lower| == |name|
    && forall i :: 0 <= i < |name| ==>
         lower[i] as int == if 65 <= name[i] as int <= 90 then name[i] as int + 32 else name[i] as int
  }

  lemma {:induction false} LowerIsLower(name: string)
    ensures IsLower(Lower(name), name)
  {
    if name != "" {
      LowerIsLower(name[1..]);
      var lower := Lower(name);
      assert lower[0] == LowerChar(name[0]);
      forall i | 0 < i < |name|
        ensures lower[i] as int == if 65 <= name[i] as int <= 90 then name[i] as int + 32 else name[i] as int
      {
        assert lower[i] == Lower(name[1..])[i - 1] && name[i] == name[1..][i - 1];
      }
    }
  }

  lemma LowerIsOne(name: string, lower: string)
    requires IsLower(lower, name)
    ensures lower == Lower(name)
  {
    LowerIsLower(name);
    var l := Lower(name);
    assert forall i :: 0 <= i < |name| ==> lower[i] as int == l[i] as int;
  }

  /** The same for agents, which go to one user under their lower-case name; an agent listed earlier
      with the same lower-case name takes the place as well. */
  lemma AgentEnds(root: Node, user: string, names: seq<string>, i: nat, lower: string)
    requires Distinct(names) && !Migrated(root, Agents(user), names, false).raised
    requires i < |names| && IsDir(root, ["agents"]) && IsDir(root, ["agents", names[i]]) && IsLower(lower, names[i])
    ensures var o, a := Migrated(root, Agents(user), names, false), names[i];
            var place, slot := ["users", user, "agents", lower], ["migration-conflicts", "agents", a];
            var taken := Exists(root, place)
                         || exists j :: 0 <= j < i && IsDir(root, ["agents", names[j]]) && IsLower(lower, names[j]);
            && !Exists(o.root, ["agents", a])
            && (!taken ==>
                  Lookup(o.root, place) == Lookup(root, ["agents", a]) && Entry(a, user, Moved(place)) in o.report)
            && (taken ==>
                  && Lookup(o.root, if Exists(root, slot) then slot + [a] else slot) == Lookup(root, ["agents", a])
                  && Entry(a, user, Conflicted(slot)) in o.report)
  {
    var job := Agents(user);
    assert Source(job, names[i]) == ["agents", names[i]] && LegacyRoot(job) == ["agents"];
    LowerIsOne(names[i], lower);
    AgentsWork(job, names[..i]);
    forall j | 0 <= j < i
      ensures Claims(root, job, names[..i][j], Dest(job, names[i])) <==>
              IsDir(root, ["agents", names[j]]) && IsLower(lower, names[j])
    {
      LowerClaims(root, user, names[j], names[i], lower);
    }
    EndsAndReported(root, job, names, i);
  }

  lemma {:induction false} AgentsWork(job: Job, names: seq<string>)
    requires job.Agents?
    ensures Work(job, names) == names
  {
    if names != [] {
      AgentsWork(job, names[..|names| - 1]);
    }
  }

  lemma LowerClaims(root: Node, user: string, b: string, a: string, lower: string)
    requires lower == Lower(a)
    ensures Claims(root, Agents(user), b, Dest(Agents(user), a)) <==>
            IsDir(root, ["agents", b]) && IsLower(lower, b)
  {
    assert Source(Agents(user), b) == ["agents", b];
    assert Dest(Agents(user), a)[3] == lower && Dest(Agents(user), b)[3] == Lower(b);
    LowerIsLower(b);
    if IsLower(lower, b) { LowerIsOne(b, lower); }
  }

  // ---------------------------------------------------------------------------
  // Running again
  // ---------------------------------------------------------------------------

  /** A directory that is not taken, or is not one, is not touched. */
  lemma {:induction false} Unmoved(root: Node, job: Job, work: seq<string>, w: string)
    requires Distinct(work) && Clear(root, job, work) && (w !in work || !Eligible(root, job, w))
    ensures Lookup(Ran(root, job, work, false).root, Source(job, w)) == Lookup(root, Source(job, w))
  {
    if work != [] {
      var n := |work| - 1;
      var front, v := work[..n], work[n];
      assert work == front + [v];
      ClearOneMore(root, job, front, v);
      Unmoved(root, job, front, w);
      Pending(root, job, front, v);
      if v != w {
        PathsApart(job, v, w);
        PathsApart(job, w, v);
        StepFrame(Ran(root, job, front, false), job, v, Source(job, w));
      }
    }
  }

  lemma {:induction false} LegacyRootStays(root: Node, job: Job, work: seq<string>)
    requires Distinct(work) && Clear(root, job, work) && IsDir(root, LegacyRoot(job))
    ensures IsDir(Ran(root, job, work, false).root, LegacyRoot(job))
  {
    if work != [] {
      var n := |work| - 1;
      var front, v := work[..n], work[n];
      assert work == front + [v];
      ClearOneMore(root, job, front, v);
      LegacyRootStays(root, job, front);
      Pending(root, job, front, v);
      if Eligible(root, job, v) {
        StepKeepsLegacyRoot(Ran(root, job, front, false), job, v);
      }
    }
  }

  lemma StepKeepsLegacyRoot(o: Outcome, job: Job, v: string)
    requires !o.raised && Eligible(o.root, job, v) && IsDir(o.root, LegacyRoot(job))
    requires Landing(o.root, Towards(o.root, job, v), v).Some?
    ensures IsDir(Step(o, job, v, false).root, LegacyRoot(job))
  {
    StepMoves(o, job, v);
    LandingInside(o.root, Towards(o.root, job, v), v);
    var p := Landing(o.root, Towards(o.root, job, v), v).value;
    FirstsApart(p, LegacyRoot(job));
    RelocatedLookup(o.root, Source(job, v), p, LegacyRoot(job));
  }

  /** After a run, the legacy root holds no directory that another run would take. */
  lemma NothingLeft(root: Node, job: Job, names: seq<string>, name: string)
    requires IsDir(root, LegacyRoot(job)) && Lists(names, root, job) && Clear(root, job, Work(job, names))
    requires !Skipped(job, name) || (job.Skills? && name == HISTORY)
    ensures !IsDir(Ran(root, job, Work(job, names), false).root, Source(job, name))
  {
    WorkDistinct(job, names);
    var work := Work(job, names);
    if name in work && Eligible(root, job, name) {
      var i :| 0 <= i < |work| && work[i] == name;
      Settled(root, job, work, i);
    } else {
      Unmoved(root, job, work, name);
      LookupBelow(root, LegacyRoot(job), [name]);
    }
  }

  lemma {:induction false} NothingToDo(root: Node, job: Job, work: seq<string>, dryRun: bool)
    requires forall name :: name in work ==> !IsDir(root, Source(job, name))
    ensures Ran(root, job, work, dryRun) == Outcome(root, [], false)
  {
    if work != [] {
      var front, v := work[..|work| - 1], work[|work| - 1];
      assert v in work && forall name :: name in front ==> name in work;
      NothingToDo(root, job, front, dryRun);
    }
  }

  /** Nothing is left to do: the legacy root is gone, or holds something but no directory to take. */
  ghost predicate Finished(root: Node, job: Job) {
    Exists(root, LegacyRoot(job)) ==>
      && IsDir(root, LegacyRoot(job)) && Lookup(root, LegacyRoot(job)) != Some(EMPTY)
      && forall name :: !Skipped(job, name) || (job.Skills? && name == HISTORY) ==> !IsDir(root, Source(job, name))
  }

  /** A run that does not raise finishes the job. */
  lemma RunFinishes(root: Node, job: Job, names: seq<string>)
    requires Lists(names, root, job) && !Migrated(root, job, names, false).raised
    ensures Finished(Migrated(root, job, names, false).root, job)
  {
    MigrationRaisesIff(root, job, names);
    if Exists(root, LegacyRoot(job)) {
      WorkDistinct(job, names);
      var work := Work(job, names);
      LegacyRootStays(root, job, work);
      var ran := Ran(root, job, work, false).root;
      if Lookup(ran, LegacyRoot(job)) == Some(EMPTY) {
        LookupDelete(ran, LegacyRoot(job), LegacyRoot(job));
      } else {
        forall name | !Skipped(job, name) || (job.Skills? && name == HISTORY)
          ensures !IsDir(ran, Source(job, name))
        {
          NothingLeft(root, job, names, name);
        }
      }
    }
  }

  lemma FinishedIsNoOp(root: Node, job: Job, names: seq<string>, dryRun: bool)
    requires Finished(root, job) && Distinct(names)
    ensures Migrated(root, job, names, dryRun) == Outcome(root, [], false)
  {
    if Exists(root, LegacyRoot(job)) {
      WorkDistinct(job, names);
      NothingToDo(root, job, Work(job, names), dryRun);
    }
  }

  /** A second run changes nothing and reports nothing. */
  lemma SecondRunIsNoOp(root: Node, job: Job, names: seq<string>, again: seq<string>, dryRun: bool)
    requires Lists(names, root, job) && Clear(root, job, Work(job, names))
    requires Exists(root, LegacyRoot(job)) ==> IsDir(root, LegacyRoot(job))
    requires Lists(again, Migrated(root, job, names, false).root, job)
    ensures var after := Migrated(root, job, names, false).root;
            Migrated(after, job, again, dryRun) == Outcome(after, [], false)
  {
    MigrationRaisesIff(root, job, names);
    RunFinishes(root, job, names);
    FinishedIsNoOp(Migrated(root, job, names, false).root, job, again, dryRun);
  }

  // ---------------------------------------------------------------------------
  // Dry runs
  // ---------------------------------------------------------------------------

  /** A dry run never raises once the legacy root is a directory, and leaves the tree alone. */
  lemma {:induction false} DryRunKeepsTree(root: Node, job: Job, work: seq<string>)
    ensures !Ran(root, job, work, true).raised && Ran(root, job, work, true).root == root
  {
    if work != [] {
      DryRunKeepsTree(root, job, work[..|work| - 1]);
    }
  }

  /** Two legacy directories go to one new destination. */
  ghost predicate Clash(root: Node, job: Job, work: seq<string>, i: nat, j: nat)
    requires i < j < |work|
  {
    && Eligible(root, job, work[i]) && Eligible(root, job, work[j]) && !Skipped(job, work[j])
    && Dest(job, work[i]) == Dest(job, work[j]) && !Exists(root, Dest(job, work[j]))
  }

  ghost predicate NoClash(root: Node, job: Job, work: seq<string>) {
    forall i, j :: 0 <= i < j < |work| ==> !Clash(root, job, work, i, j)
  }

  /** The entry of a directory differs between a dry run and the run. */
  ghost predicate Misreported(root: Node, job: Job, front: seq<string>, v: string) {
    Eligible(root, job, v) && !Skipped(job, v) && !Exists(root, Dest(job, v)) && Taken(root, job, front, v)
  }

  lemma NoClashOneMore(root: Node, job: Job, front: seq<string>, v: string)
    ensures NoClash(root, job, front + [v]) <==> NoClash(root, job, front) && !Misreported(root, job, front, v)
  {
    var all, n := front + [v], |front|;
    forall i, j | 0 <= i < j < n ensures Clash(root, job, all, i, j) <==> Clash(root, job, front, i, j) {
    }
    forall i | 0 <= i < n
      ensures Clash(root, job, all, i, n) <==>
              Claims(root, job, front[i], Dest(job, v))
              && Eligible(root, job, v) && !Skipped(job, v) && !Exists(root, Dest(job, v))
    {
    }
  }

  lemma {:induction false} ReportsAgree(root: Node, job: Job, work: seq<string>)
    requires Distinct(work) && Clear(root, job, work)
    ensures |Ran(root, job, work, true).report| == |Ran(root, job, work, false).report|
    ensures Ran(root, job, work, true).report == Ran(root, job, work, false).report <==> NoClash(root, job, work)
  {
    if work != [] {
      var n := |work| - 1;
      var front, v := work[..n], work[n];
      assert work == front + [v];
      ClearOneMore(root, job, front, v);
      ReportsAgree(root, job, front);
      NoClashOneMore(root, job, front, v);
      ReportStep(root, job, front, v);
    }
  }

  lemma ReportStep(root: Node, job: Job, front: seq<string>, v: string)
    requires Distinct(front + [v]) && Clear(root, job, front)
    requires Eligible(root, job, v) ==> Spot(root, job, front, v).Some?
    requires |Ran(root, job, front, true).report| == |Ran(root, job, front, false).report|
    ensures var dry, ran := Ran(root, job, front, true), Ran(root, job, front, false);
            var dry', ran' := Step(dry, job, v, true), Step(ran, job, v, false);
            && |dry'.report| == |ran'.report|
            && (dry'.report == ran'.report <==> dry.report == ran.report && !Misreported(root, job, front, v))
  {
    var dry, ran := Ran(root, job, front, true), Ran(root, job, front, false);
    DryRunKeepsTree(root, job, front);
    Pending(root, job, front, v);
    if Eligible(root, job, v) {
      StepMoves(ran, job, v);
      var a, b := EntryFor(root, job, v), EntryFor(ran.root, job, v);
      assert a == b <==> (Exists(root, Dest(job, v)) <==> Taken(root, job, front, v));
      SnocEqual(dry.report, ran.report, a, b);
    }
  }

  lemma SnocEqual(s: seq<Entry>, t: seq<Entry>, a: Entry, b: Entry)
    requires |s| == |t|
    ensures s + [a] == t + [b] <==> s == t && a == b
  {
    if s + [a] == t + [b] {
      assert s == (s + [a])[..|s|] == (t + [b])[..|t|] == t;
      assert a == (s + [a])[|s|] == (t + [b])[|t|] == b;
    }
  }

  /** A dry run leaves the tree alone, and the run returns the report it forecasts exactly when every
      directory has somewhere to go and no two go to one new destination. */
  lemma DryRunForecastsIff(root: Node, job: Job, names: seq<string>)
    requires IsDir(root, LegacyRoot(job)) && Distinct(names)
    ensures var dry, ran := Migrated(root, job, names, true), Migrated(root, job, names, false);
            && dry.root == root && !dry.raised
            && (!ran.raised && dry.report == ran.report <==>
                  Clear(root, job, Work(job, names)) && NoClash(root, job, Work(job, names)))
  {
    WorkDistinct(job, names);
    DryRunKeepsTree(root, job, Work(job, names));
    RaisesIff(root, job, Work(job, names));
    if Clear(root, job, Work(job, names)) {
      ReportsAgree(root, job, Work(job, names));
    }
  }

  /** Threads and skills never clash; only agents, whose destinations are lower-cased, can. */
  lemma OnlyAgentsClash(root: Node, job: Job, names: seq<string>)
    requires Distinct(names) && !job.Agents?
    ensures NoClash(root, job, Work(job, names))
  {
    WorkDistinct(job, names);
    var work := Work(job, names);
    forall i, j | 0 <= i < j < |work| ensures !Clash(root, job, work, i, j) {
      var n := |Dest(job, work[i])| - 1;
      assert Dest(job, work[i])[n] == work[i] && Dest(job, work[j])[|Dest(job, work[j])| - 1] == work[j];
    }
  }

  /** The concrete case: agents `Foo` and `foo` in an otherwise empty base directory. The dry run
      reports two moves, the run itself a move and a conflict. */
  lemma CaseClashMisreported(root: Node, agents: Node)
    requires root == Dir(map["agents" := agents]) && agents == Dir(map["Foo" := EMPTY, "foo" := EMPTY])
    ensures var job, names := Agents("default"), ["Foo", "foo"];
            && Lists(names, root, job)
            && Migrated(root, job, names, true).report != Migrated(root, job, names, false).report
  {
    var job, names := Agents("default"), ["Foo", "foo"];
    LookupAgents(root, agents, []);
    LookupAgents(root, agents, ["Foo"]);
    LookupAgents(root, agents, ["foo"]);
    LookupAgent(agents, "Foo");
    LookupAgent(agents, "foo");
    LowerFoo();
    WorkOfTwo(job, "Foo", "foo");
    AbsentFirst(root, Dest(job, "Foo"));
    AbsentFirst(root, Slot(job, "Foo"));
    AbsentFirst(root, Slot(job, "foo"));
    assert Clash(root, job, names, 0, 1);
    FreeOnes(root, job, names);
    MigrationRaisesIff(root, job, names);
    DryRunForecastsIff(root, job, names);
  }

  /** Directories with both paths free have somewhere to go. */
  lemma FreeOnes(root: Node, job: Job, work: seq<string>)
    requires forall i :: 0 <= i < |work| ==>
               && CanPut(root, Dest(job, work[i])) && !Exists(root, Dest(job, work[i]))
               && CanPut(root, Slot(job, work[i])) && !Exists(root, Slot(job, work[i]))
    ensures Clear(root, job, work)
  {
    forall i | 0 <= i < |work| ensures HasSpot(root, job, work, i) {}
  }

  lemma LookupAgents(root: Node, agents: Node, rest: Path)
    requires root == Dir(map["agents" := agents])
    ensures Lookup(root, ["agents"] + rest) == Lookup(agents, rest)
  {
    assert (["agents"] + rest)[1..] == rest;
  }

  lemma LookupAgent(agents: Node, name: string)
    requires agents.Dir? && name in agents.entries
    ensures Lookup(agents, [name]) == Some(agents.entries[name])
  {
    assert [name][1..] == [];
  }

  lemma AbsentFirst(n: Node, p: Path)
    requires n.Dir? && p != [] && p[0] !in n.entries
    ensures CanPut(n, p) && !Exists(n, p)
  {
  }

  lemma WorkOfTwo(job: Job, a: string, b: string)
    requires job.Agents?
    ensures Work(job, [a, b]) == [a, b]
  {
    assert [a, b][..1] == [a] && [a][..0] == [];
    assert Visible(job, [a]) == Visible(job, []) + [a];
    assert Visible(job, [a, b]) == Visible(job, [a]) + [b];
  }

  lemma LowerFoo()
    ensures Lower("Foo") == "foo" == Lower("foo")
  {
    assert "Foo"[1..] == "oo" && "foo"[1..] == "oo" && "oo"[1..] == "o" && "o"[1..] == "";
    assert 'F' + ' ' == 'f';
  }

  // ---------------------------------------------------------------------------
  // The whole script
  // ---------------------------------------------------------------------------

  const MEMORY: Path := ["memory.json"]
  const BACKUP: Path := ["memory.legacy.json"]

  function MemoryDest(user: string): Path {
    ["users", user, "memory.json"]
  }

  /** `migrate_memory`: `None` when a call raises; a directory called `memory.json` is left alone. */
  function MemoryMoved(root: Node, user: string): Option<Node> {
    if FileAt(root, MEMORY).None? then Some(root)
    else if Exists(root, MemoryDest(user)) then
      if IsDir(root, BACKUP) then None else Some(Relocated(root, MEMORY, BACKUP))
    else if CanPut(root, MemoryDest(user)) then Some(Relocated(root, MEMORY, MemoryDest(user)))
    else None
  }

  /** The rename of the legacy memory replaces an older backup. */
  predicate ReplacesBackup(root: Node, user: string) {
    FileAt(root, MEMORY).Some? && Exists(root, MemoryDest(user)) && FileAt(root, BACKUP).Some?
  }

  function MemoryGoes(root: Node, user: string, p: Path): Path {
    if p == MEMORY && FileAt(root, MEMORY).Some? then
      if Exists(root, MemoryDest(user)) then BACKUP else MemoryDest(user)
    else p
  }

  /** Below a file there is nothing. */
  lemma NothingBelowFile(n: Node, p: Path, q: Path)
    requires FileAt(n, p).Some? && p <= q && Exists(n, q)
    ensures p == q
  {
    LookupBelow(n, p, q[|p|..]);
    assert p + q[|p|..] == q;
  }

  lemma FileRelocated(n: Node, src: Path, p: Path, q: Path)
    requires src != [] && FileAt(n, src).Some? && Apart(src, p) && CanPut(n, p) && FileAt(n, q).Some?
    requires q != src && q != p && !(p <= q)
    ensures FileAt(Relocated(n, src, p), q) == FileAt(n, q)
  {
    CanPutAfterDelete(n, src, p);
    LookupDelete(n, src, q);
    LookupPut(Delete(n, src), p, Lookup(n, src).value, q);
    if src <= q { NothingBelowFile(n, src, q); }
  }

  lemma FileArrives(n: Node, src: Path, p: Path)
    requires src != [] && FileAt(n, src).Some? && Apart(src, p) && CanPut(n, p)
    ensures FileAt(Relocated(n, src, p), p) == FileAt(n, src)
  {
    CanPutAfterDelete(n, src, p);
    LookupPut(Delete(n, src), p, Lookup(n, src).value, p);
    assert p[|p|..] == [];
  }

  /** Where the legacy memory goes is apart from it and holds no file. */
  lemma MemoryTarget(root: Node, user: string)
    requires FileAt(root, MEMORY).Some? && MemoryMoved(root, user).Some? && !ReplacesBackup(root, user)
    ensures var to := MemoryGoes(root, user, MEMORY);
            && Apart(MEMORY, to) && CanPut(root, to) && !Exists(root, to)
            && MemoryMoved(root, user).value == Relocated(root, MEMORY, to)
  {
  }

  /** Unless it replaces an older backup, the memory step keeps every file. */
  lemma MemoryKeepsFiles(root: Node, user: string, p: Path)
    requires MemoryMoved(root, user).Some? && !ReplacesBackup(root, user) && FileAt(root, p).Some?
    ensures FileAt(MemoryMoved(root, user).value, MemoryGoes(root, user, p)) == FileAt(root, p)
  {
    if FileAt(root, MEMORY).Some? {
      var to := MemoryGoes(root, user, MEMORY);
      MemoryTarget(root, user);
      NotBelowAbsent(root, to, p);
      if p == MEMORY {
        FileArrives(root, MEMORY, to);
      } else {
        FileRelocated(root, MEMORY, to, p);
      }
    }
  }

  lemma MemoryGoesApart(root: Node, user: string, p: Path, q: Path)
    requires MemoryMoved(root, user).Some? && !ReplacesBackup(root, user)
    requires FileAt(root, p).Some? && FileAt(root, q).Some? && p != q
    ensures MemoryGoes(root, user, p) != MemoryGoes(root, user, q)
  {
    if FileAt(root, MEMORY).Some? {
      MemoryTarget(root, user);
    }
  }

  /** When it replaces an older backup, that file is gone: its path holds the memory instead. */
  lemma BackupReplaced(root: Node, user: string)
    requires MemoryMoved(root, user).Some? && ReplacesBackup(root, user)
    ensures FileAt(MemoryMoved(root, user).value, BACKUP) == FileAt(root, MEMORY)
    ensures FileAt(MemoryMoved(root, user).value, MEMORY) == None
  {
    FileArrives(root, MEMORY, BACKUP);
    CanPutAfterDelete(root, MEMORY, BACKUP);
    LookupDelete(root, MEMORY, MEMORY);
    LookupPut(Delete(root, MEMORY), BACKUP, Lookup(root, MEMORY).value, MEMORY);
  }

  /** The legacy memory goes to the user, or to the backup when the user has a memory already, which
      then stays as it is. */
  lemma MemoryEnds(root: Node, user: string)
    requires FileAt(root, ["memory.json"]).Some? && MemoryMoved(root, user).Some?
    ensures var after, place := MemoryMoved(root, user).value, ["users", user, "memory.json"];
            && FileAt(after, ["memory.json"]) == None
            && (!Exists(root, place) ==> FileAt(after, place) == FileAt(root, ["memory.json"]))
            && (Exists(root, place) ==>
                  && FileAt(after, ["memory.legacy.json"]) == FileAt(root, ["memory.json"])
                  && Lookup(after, place) == Lookup(root, place))
  {
    var to := MemoryGoes(root, user, MEMORY);
    FirstsApart(MEMORY, to);
    FirstsApart(BACKUP, MemoryDest(user));
    FirstsApart(MEMORY, MemoryDest(user));
    FileArrives(root, MEMORY, to);
    CanPutAfterDelete(root, MEMORY, to);
    LookupDelete(root, MEMORY, MEMORY);
    LookupPut(Delete(root, MEMORY), to, Lookup(root, MEMORY).value, MEMORY);
    LookupDelete(root, MEMORY, MemoryDest(user));
    LookupPut(Delete(root, MEMORY), to, Lookup(root, MEMORY).value, MemoryDest(user));
  }

  /** Where one migration takes a file. */
  ghost function StageGoes(root: Node, job: Job, names: seq<string>, p: Path): Path {
    if Exists(root, LegacyRoot(job)) then Goes(root, job, Work(job, names), p) else p
  }

  lemma StageKeeps(root: Node, job: Job, names: seq<string>, p: Path)
    requires Distinct(names) && !Migrated(root, job, names, false).raised && FileAt(root, p).Some?
    ensures FileAt(Migrated(root, job, names, false).root, StageGoes(root, job, names, p)) == FileAt(root, p)
  {
    MigrationRaisesIff(root, job, names);
    if Exists(root, LegacyRoot(job)) {
      EveryFileKept(root, job, names, p);
    }
  }

  lemma StageGoesApart(root: Node, job: Job, names: seq<string>, p: Path, q: Path)
    requires Distinct(names) && !Migrated(root, job, names, false).raised
    requires FileAt(root, p).Some? && FileAt(root, q).Some? && p != q
    ensures StageGoes(root, job, names, p) != StageGoes(root, job, names, q)
  {
    MigrationRaisesIff(root, job, names);
    if Exists(root, LegacyRoot(job)) {
      WorkDistinct(job, names);
      OriginInvertsGoes(root, job, Work(job, names), p);
      OriginInvertsGoes(root, job, Work(job, names), q);
    }
  }

  /** What `main` is given: the thread owners, the user for the rest, and the sorted listings that the
      three migrations read in turn. */
  datatype Plan = Plan(owners: map<string, string>, user: string,
                       threads: seq<string>, agents: seq<string>, skills: seq<string>)

  /** What the threads, the memory, the agents and the skills leave behind, in turn. */
  datatype Stages = Stages(threads: Outcome, memory: Node, agents: Outcome, skills: Outcome)

  function MemoryStep(root: Node, user: string, dryRun: bool): Option<Node> {
    if dryRun then Some(root) else MemoryMoved(root, user)
  }

  /** `main`: each step starts from what the one before left; `None` when a step raises. */
  function WholeRun(root: Node, plan: Plan, dryRun: bool): Option<Stages> {
    var threads := Migrated(root, Threads(plan.owners), plan.threads, dryRun);
    if threads.raised then None
    else
      var memory := MemoryStep(threads.root, plan.user, dryRun);
      if memory.None? then None
      else
        var agents := Migrated(memory.value, Agents(plan.user), plan.agents, dryRun);
        if agents.raised then None
        else
          var skills := Migrated(agents.root, Skills(plan.user), plan.skills, dryRun);
          if skills.raised then None else Some(Stages(threads, memory.value, agents, skills))
  }

  ghost predicate Listings(plan: Plan) {
    Distinct(plan.threads) && Distinct(plan.agents) && Distinct(plan.skills)
  }

  ghost function WholeGoes(root: Node, plan: Plan, t: Stages, p: Path): Path {
    var p1 := StageGoes(root, Threads(plan.owners), plan.threads, p);
    var p2 := MemoryGoes(t.threads.root, plan.user, p1);
    var p3 := StageGoes(t.memory, Agents(plan.user), plan.agents, p2);
    StageGoes(t.agents.root, Skills(plan.user), plan.skills, p3)
  }

  /**
    The script as a whole, even where one migration lands in the conflict slots of the next (a thread
    called `agents`, say): if no step raises and the memory step replaces no older backup, every file
    is found, unchanged, where the steps take it, and no two files end at the same path.
   */
  lemma WholeRunKeepsFiles(root: Node, plan: Plan, p: Path, q: Path)
    requires Listings(plan) && WholeRun(root, plan, false).Some?
    requires !ReplacesBackup(WholeRun(root, plan, false).value.threads.root, plan.user)
    requires FileAt(root, p).Some? && FileAt(root, q).Some?
    ensures var t := WholeRun(root, plan, false).value;
            && FileAt(t.skills.root, WholeGoes(root, plan, t, p)) == FileAt(root, p)
            && (p != q ==> WholeGoes(root, plan, t, p) != WholeGoes(root, plan, t, q))
  {
    var t := WholeRun(root, plan, false).value;
    var p1, q1 := FirstHalf(root, plan, t, p, q);
    StageKeeps(t.memory, Agents(plan.user), plan.agents, p1);
    StageKeeps(t.memory, Agents(plan.user), plan.agents, q1);
    var p2 := StageGoes(t.memory, Agents(plan.user), plan.agents, p1);
    var q2 := StageGoes(t.memory, Agents(plan.user), plan.agents, q1);
    StageKeeps(t.agents.root, Skills(plan.user), plan.skills, p2);
    if p != q {
      StageGoesApart(t.memory, Agents(plan.user), plan.agents, p1, q1);
      StageGoesApart(t.agents.root, Skills(plan.user), plan.skills, p2, q2);
    }
  }

  /** The threads and the memory. */
  lemma FirstHalf(root: Node, plan: Plan, t: Stages, p: Path, q: Path) returns (p': Path, q': Path)
    requires Listings(plan) && WholeRun(root, plan, false) == Some(t) && !ReplacesBackup(t.threads.root, plan.user)
    requires FileAt(root, p).Some? && FileAt(root, q).Some?
    ensures p' == MemoryGoes(t.threads.root, plan.user, StageGoes(root, Threads(plan.owners), plan.threads, p))
    ensures q' == MemoryGoes(t.threads.root, plan.user, StageGoes(root, Threads(plan.owners), plan.threads, q))
    ensures FileAt(t.memory, p') == FileAt(root, p) && FileAt(t.memory, q') == FileAt(root, q)
    ensures p != q ==> p' != q'
  {
    var job := Threads(plan.owners);
    var p1, q1 := StageGoes(root, job, plan.threads, p), StageGoes(root, job, plan.threads, q);
    StageKeeps(root, job, plan.threads, p);
    StageKeeps(root, job, plan.threads, q);
    MemoryKeepsFiles(t.threads.root, plan.user, p1);
    MemoryKeepsFiles(t.threads.root, plan.user, q1);
    p', q' := MemoryGoes(t.threads.root, plan.user, p1), MemoryGoes(t.threads.root, plan.user, q1);
    if p != q {
      StageGoesApart(root, job, plan.threads, p, q);
      MemoryGoesApart(t.threads.root, plan.user, p1, q1);
    }
  }

  // ---------------------------------------------------------------------------
  // The whole script again, and dry
  // ---------------------------------------------------------------------------

  /** A migration changes nothing apart from its legacy root and the places it moves towards. */
  ghost predicate OutOfTheWay(job: Job, q: Path) {
    && Apart(LegacyRoot(job), q)
    && forall v :: Apart(Dest(job, v), q) && Apart(Slot(job, v), q)
  }

  lemma {:induction false} RanFrame(root: Node, job: Job, work: seq<string>, q: Path)
    requires OutOfTheWay(job, q)
    ensures Lookup(Ran(root, job, work, false).root, q) == Lookup(root, q)
  {
    if work != [] {
      var front, v := work[..|work| - 1], work[|work| - 1];
      RanFrame(root, job, front, q);
      var o := Ran(root, job, front, false);
      if !o.raised {
        PrefixesApart(LegacyRoot(job), q, Source(job, v));
        assert Apart(Dest(job, v), q) && Apart(Slot(job, v), q);
        StepFrame(o, job, v, q);
      }
    }
  }

  lemma StageFrame(root: Node, job: Job, names: seq<string>, q: Path)
    requires OutOfTheWay(job, q)
    ensures Lookup(Migrated(root, job, names, false).root, q) == Lookup(root, q)
  {
    RanFrame(root, job, Work(job, names), q);
    CleaningFrame(Ran(root, job, Work(job, names), false).root, job, q);
  }

  /** The legacy roots of the other jobs, and the legacy memory, are out of the way. */
  lemma RootsOutOfTheWay(job: Job, q: Path)
    requires q != [] && q[0] != LegacyRoot(job)[0] && q[0] != "users" && q[0] != "migration-conflicts"
    ensures OutOfTheWay(job, q)
  {
    FirstsApart(LegacyRoot(job), q);
    forall v ensures Apart(Dest(job, v), q) && Apart(Slot(job, v), q) {
      FirstsApart(Dest(job, v), q);
      FirstsApart(Slot(job, v), q);
    }
  }

  lemma ThirdsApart(p: Path, q: Path)
    requires |p| > 2 && |q| > 2 && p[2] != q[2]
    ensures Apart(p, q)
  {
  }

  /** So are the destinations of the other jobs. */
  lemma DestsOutOfTheWay(job: Job, other: Job, name: string)
    requires Dest(job, name)[2] != Dest(other, name)[2]
    ensures OutOfTheWay(job, Dest(other, name))
  {
    var q := Dest(other, name);
    FirstsApart(LegacyRoot(job), q);
    forall v ensures Apart(Dest(job, v), q) && Apart(Slot(job, v), q) {
      ThirdsApart(Dest(job, v), q);
      FirstsApart(Slot(job, v), q);
    }
  }

  lemma MemoryFrame(root: Node, user: string, q: Path)
    requires MemoryMoved(root, user).Some?
    requires Apart(MEMORY, q) && Apart(BACKUP, q) && Apart(MemoryDest(user), q)
    ensures Lookup(MemoryMoved(root, user).value, q) == Lookup(root, q)
  {
    if FileAt(root, MEMORY).Some? {
      var to := MemoryGoes(root, user, MEMORY);
      CanPutAfterDelete(root, MEMORY, to);
      LookupDelete(root, MEMORY, q);
      LookupPut(Delete(root, MEMORY), to, Lookup(root, MEMORY).value, q);
    }
  }

  /** The memory step leaves no legacy memory file. */
  lemma MemoryGone(root: Node, user: string)
    requires MemoryMoved(root, user).Some?
    ensures FileAt(MemoryMoved(root, user).value, MEMORY) == None
  {
    if FileAt(root, MEMORY).Some? {
      var to := MemoryGoes(root, user, MEMORY);
      CanPutAfterDelete(root, MEMORY, to);
      LookupDelete(root, MEMORY, MEMORY);
      LookupPut(Delete(root, MEMORY), to, Lookup(root, MEMORY).value, MEMORY);
    }
  }

  lemma FinishedByLookup(root: Node, after: Node, job: Job)
    requires Finished(root, job) && Lookup(after, LegacyRoot(job)) == Lookup(root, LegacyRoot(job))
    ensures Finished(after, job)
  {
    forall name ensures IsDir(after, Source(job, name)) == IsDir(root, Source(job, name)) {
      LookupBelow(after, LegacyRoot(job), [name]);
      LookupBelow(root, LegacyRoot(job), [name]);
    }
  }

  /** The owners and the user do not matter to what is left to do. */
  lemma FinishedForAll(root: Node, job: Job, other: Job)
    requires Finished(root, job) && LegacyRoot(other) == LegacyRoot(job) && job.Skills? == other.Skills?
    ensures Finished(root, other)
  {
    forall name ensures Source(other, name) == Source(job, name) && Skipped(other, name) == Skipped(job, name) {}
  }

  /** Each listing is that of its legacy directory when its step begins. */
  ghost predicate ListsStages(root: Node, plan: Plan, t: Stages) {
    && Lists(plan.threads, root, Threads(plan.owners))
    && Lists(plan.agents, t.memory, Agents(plan.user))
    && Lists(plan.skills, t.agents.root, Skills(plan.user))
  }

  /** The legacy roots of the steps before a given one stay as these steps left them. */
  lemma RootsStay(root: Node, plan: Plan, t: Stages)
    requires WholeRun(root, plan, false) == Some(t)
    ensures Lookup(t.skills.root, ["threads"]) == Lookup(t.threads.root, ["threads"])
    ensures Lookup(t.skills.root, ["agents"]) == Lookup(t.agents.root, ["agents"])
    ensures Lookup(t.skills.root, MEMORY) == Lookup(t.memory, MEMORY)
  {
    var agents, skills := Agents(plan.user), Skills(plan.user);
    FirstsApart(MEMORY, ["threads"]);
    FirstsApart(BACKUP, ["threads"]);
    FirstsApart(MemoryDest(plan.user), ["threads"]);
    MemoryFrame(t.threads.root, plan.user, ["threads"]);
    RootsOutOfTheWay(agents, ["threads"]);
    StageFrame(t.memory, agents, plan.agents, ["threads"]);
    RootsOutOfTheWay(agents, MEMORY);
    StageFrame(t.memory, agents, plan.agents, MEMORY);
    RootsOutOfTheWay(skills, ["threads"]);
    StageFrame(t.agents.root, skills, plan.skills, ["threads"]);
    RootsOutOfTheWay(skills, ["agents"]);
    StageFrame(t.agents.root, skills, plan.skills, ["agents"]);
    RootsOutOfTheWay(skills, MEMORY);
    StageFrame(t.agents.root, skills, plan.skills, MEMORY);
  }

  /** After a whole run that does not raise, nothing is left to do, for any owners and any user. */
  lemma WholeRunFinishes(root: Node, plan: Plan, t: Stages, again: Plan)
    requires WholeRun(root, plan, false) == Some(t) && ListsStages(root, plan, t)
    ensures var after := t.skills.root;
            && Finished(after, Threads(again.owners)) && FileAt(after, MEMORY) == None
            && Finished(after, Agents(again.user)) && Finished(after, Skills(again.user))
  {
    var after := t.skills.root;
    RunFinishes(root, Threads(plan.owners), plan.threads);
    RunFinishes(t.memory, Agents(plan.user), plan.agents);
    RunFinishes(t.agents.root, Skills(plan.user), plan.skills);
    MemoryGone(t.threads.root, plan.user);
    RootsStay(root, plan, t);
    FinishedByLookup(t.threads.root, after, Threads(plan.owners));
    FinishedByLookup(t.agents.root, after, Agents(plan.user));
    FinishedForAll(after, Threads(plan.owners), Threads(again.owners));
    FinishedForAll(after, Agents(plan.user), Agents(again.user));
    FinishedForAll(after, Skills(plan.user), Skills(again.user));
  }

  /**
    The script as a whole is idempotent: after a run in which no step raises, running it again, for any
    owners, any user and any listings, dry or not, raises nothing, changes nothing and reports nothing.
   */
  lemma SecondWholeRunIsNoOp(root: Node, plan: Plan, again: Plan, dryRun: bool)
    requires WholeRun(root, plan, false).Some? && ListsStages(root, plan, WholeRun(root, plan, false).value)
    requires Listings(again)
    ensures var after := WholeRun(root, plan, false).value.skills.root;
            var nothing := Outcome(after, [], false);
            WholeRun(after, again, dryRun) == Some(Stages(nothing, after, nothing, nothing))
  {
    var t := WholeRun(root, plan, false).value;
    var after := t.skills.root;
    WholeRunFinishes(root, plan, t, again);
    FinishedIsNoOp(after, Threads(again.owners), again.threads, dryRun);
    FinishedIsNoOp(after, Agents(again.user), again.agents, dryRun);
    FinishedIsNoOp(after, Skills(again.user), again.skills, dryRun);
  }

  lemma DryStage(root: Node, job: Job, names: seq<string>)
    ensures Migrated(root, job, names, true).root == root
    ensures Migrated(root, job, names, true).raised <==>
            Exists(root, LegacyRoot(job)) && !IsDir(root, LegacyRoot(job))
  {
    DryRunKeepsTree(root, job, Work(job, names));
  }

  /** A dry run of the whole script raises exactly when a legacy root is a file, and leaves the tree alone. */
  lemma WholeDryRunKeepsTree(root: Node, plan: Plan)
    ensures var dry := WholeRun(root, plan, true);
            && (dry.Some? ==> dry.value.threads.root == dry.value.memory == dry.value.agents.root == root
                              && dry.value.skills.root == root)
            && (dry.Some? <==> forall job :: job in [Threads(plan.owners), Agents(plan.user), Skills(plan.user)] ==>
                                 (Exists(root, LegacyRoot(job)) ==> IsDir(root, LegacyRoot(job))))
  {
    var jobs := [Threads(plan.owners), Agents(plan.user), Skills(plan.user)];
    DryStage(root, Threads(plan.owners), plan.threads);
    DryStage(root, Agents(plan.user), plan.agents);
    DryStage(root, Skills(plan.user), plan.skills);
    assert jobs[0] in jobs && jobs[1] in jobs && jobs[2] in jobs;
  }

  /** Two trees look the same to a job: the same legacy root, and the same destinations taken. */
  ghost predicate LooksAlike(root: Node, other: Node, job: Job) {
    && Lookup(root, LegacyRoot(job)) == Lookup(other, LegacyRoot(job))
    && forall name :: Exists(root, Dest(job, name)) <==> Exists(other, Dest(job, name))
  }

  lemma EligibleAlike(root: Node, other: Node, job: Job, name: string)
    requires LooksAlike(root, other, job)
    ensures Eligible(root, job, name) <==> Eligible(other, job, name)
  {
    LookupBelow(root, LegacyRoot(job), [name]);
    LookupBelow(other, LegacyRoot(job), [name]);
  }

  lemma {:induction false} DryReportsAlike(root: Node, other: Node, job: Job, work: seq<string>)
    requires LooksAlike(root, other, job)
    ensures Ran(root, job, work, true).report == Ran(other, job, work, true).report
  {
    if work != [] {
      var front, v := work[..|work| - 1], work[|work| - 1];
      DryReportsAlike(root, other, job, front);
      DryRunKeepsTree(root, job, front);
      DryRunKeepsTree(other, job, front);
      EligibleAlike(root, other, job, v);
    }
  }

  lemma ClashesAlike(root: Node, other: Node, job: Job, work: seq<string>)
    requires LooksAlike(root, other, job)
    ensures NoClash(root, job, work) <==> NoClash(other, job, work)
  {
    forall i, j | 0 <= i < j < |work| ensures Clash(root, job, work, i, j) <==> Clash(other, job, work, i, j) {
      EligibleAlike(root, other, job, work[i]);
      EligibleAlike(root, other, job, work[j]);
    }
  }

  /** What a dry run on the first tree forecasts for a run on one that looks alike. */
  lemma StageForecast(root: Node, other: Node, job: Job, names: seq<string>)
    requires LooksAlike(root, other, job) && Distinct(names) && !Migrated(other, job, names, false).raised
    ensures Migrated(root, job, names, true).report == Migrated(other, job, names, false).report <==>
            NoClash(root, job, Work(job, names))
  {
    MigrationRaisesIff(other, job, names);
    if Exists(root, LegacyRoot(job)) {
      DryRunForecastsIff(other, job, names);
      DryReportsAlike(root, other, job, Work(job, names));
      ClashesAlike(root, other, job, Work(job, names));
    } else {
      forall name ensures !Eligible(root, job, name) { LookupBelow(root, LegacyRoot(job), [name]); }
    }
  }

  lemma AlikeAfterStage(root: Node, job: Job, names: seq<string>, other: Job)
    requires LegacyRoot(other)[0] != LegacyRoot(job)[0]
    requires forall name :: Dest(job, name)[2] != Dest(other, name)[2]
    ensures LooksAlike(root, Migrated(root, job, names, false).root, other)
  {
    RootsOutOfTheWay(job, LegacyRoot(other));
    StageFrame(root, job, names, LegacyRoot(other));
    forall name ensures Lookup(Migrated(root, job, names, false).root, Dest(other, name)) ==
                        Lookup(root, Dest(other, name))
    {
      DestsOutOfTheWay(job, other, name);
      StageFrame(root, job, names, Dest(other, name));
    }
  }

  lemma AlikeAfterMemory(root: Node, user: string, other: Job)
    requires MemoryMoved(root, user).Some?
    ensures LooksAlike(root, MemoryMoved(root, user).value, other)
  {
    FirstsApart(MEMORY, LegacyRoot(other));
    FirstsApart(BACKUP, LegacyRoot(other));
    FirstsApart(MemoryDest(user), LegacyRoot(other));
    MemoryFrame(root, user, LegacyRoot(other));
    forall name ensures Lookup(MemoryMoved(root, user).value, Dest(other, name)) == Lookup(root, Dest(other, name)) {
      FirstsApart(MEMORY, Dest(other, name));
      FirstsApart(BACKUP, Dest(other, name));
      ThirdsApart(MemoryDest(user), Dest(other, name));
      MemoryFrame(root, user, Dest(other, name));
    }
  }

  lemma AlikeChains(a: Node, b: Node, c: Node, job: Job)
    requires LooksAlike(a, b, job) && LooksAlike(b, c, job)
    ensures LooksAlike(a, c, job)
  {
  }

  /**
    The exact condition for the forecast of the whole script, where no step raises: a dry run returns
    the three reports of the run if and only if no two legacy agents go to one new destination,
    although every step of the run starts from what the one before left.
   */
  lemma WholeDryRunForecastsIff(root: Node, plan: Plan)
    requires Listings(plan) && WholeRun(root, plan, false).Some?
    ensures WholeRun(root, plan, true).Some?
    ensures var dry, ran := WholeRun(root, plan, true).value, WholeRun(root, plan, false).value;
            && (dry.threads.report == ran.threads.report && dry.agents.report == ran.agents.report
                && dry.skills.report == ran.skills.report <==>
                  NoClash(root, Agents(plan.user), plan.agents))
  {
    var t := WholeRun(root, plan, false).value;
    var threads, agents, skills := Threads(plan.owners), Agents(plan.user), Skills(plan.user);
    AlikeAfterStage(root, threads, plan.threads, agents);
    AlikeAfterStage(root, threads, plan.threads, skills);
    AlikeAfterMemory(t.threads.root, plan.user, agents);
    AlikeAfterMemory(t.threads.root, plan.user, skills);
    AlikeAfterStage(t.memory, agents, plan.agents, skills);
    AlikeChains(root, t.threads.root, t.memory, agents);
    AlikeChains(root, t.threads.root, t.memory, skills);
    AlikeChains(root, t.memory, t.agents.root, skills);
    StagesForecast(root, plan, t);
  }

  lemma StagesForecast(root: Node, plan: Plan, t: Stages)
    requires Listings(plan) && WholeRun(root, plan, false) == Some(t)
    requires LooksAlike(root, t.memory, Agents(plan.user)) && LooksAlike(root, t.agents.root, Skills(plan.user))
    ensures WholeRun(root, plan, true).Some?
    ensures var dry := WholeRun(root, plan, true).value;
            && (dry.threads.report == t.threads.report && dry.agents.report == t.agents.report
                && dry.skills.report == t.skills.report <==>
                  NoClash(root, Agents(plan.user), plan.agents))
  {
    var agents, skills := Agents(plan.user), Skills(plan.user);
    StageAsForecast(root, root, Threads(plan.owners), plan.threads);
    StageAsForecast(root, t.memory, agents, plan.agents);
    StageAsForecast(root, t.agents.root, skills, plan.skills);
    AgentsWork(agents, plan.agents);
  }

  /** One stage: the dry run on the first tree does not raise, and forecasts the report unless agents clash. */
  lemma StageAsForecast(root: Node, other: Node, job: Job, names: seq<string>)
    requires Distinct(names) && LooksAlike(root, other, job) && !Migrated(other, job, names, false).raised
    ensures var dry := Migrated(root, job, names, true);
            && dry.root == root && !dry.raised
            && (dry.report == Migrated(other, job, names, false).report <==>
                  !job.Agents? || NoClash(root, job, Work(job, names)))
  {
    MigrationRaisesIff(other, job, names);
    DryStage(root, job, names);
    StageForecast(root, other, job, names);
    if !job.Agents? { OnlyAgentsClash(root, job, names); }
  }
}
