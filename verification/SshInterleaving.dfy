/** Gateway handlers that overlap: each handler is cut where it gives up a lock or waits, and the pieces of
    different handlers interleave freely. */
module SshInterleaving {
  import opened Wrappers
  import opened RemoteCommand
  import opened SshGateway

  /** How far a handler has come. A connect probes its child, has replaced the session, has written the
      upstream. A status call has taken a stale session, has stopped it. A disconnect has taken the session, has
      written the upstream. Handlers between the two writes know which change of the slot was theirs. */
  datatype Task =
    | Probing(started: SshSession)
    | Replaced(installed: SshSession, previous: Option<SshSession>, change: nat)
    | Written(previous: Option<SshSession>)
    | Taken(stale: SshSession, change: nat)
    | Stopped(change: nat)
    | Leaving(left: SshSession, change: nat)
    | Left(left: SshSession)

  /** A change of the session slot: emptied, or filled with a session on this local port. */
  datatype SlotChange = Cleared | Installed(localPort: nat)

  /** `changes` lists the changes of the session slot, the first being the start; `writer` is the one whose handler
      wrote the upstream last. */
  datatype World = World(
    config: Config, children: seq<Child>, session: Option<SshSession>, upstream: Upstream, tasks: map<nat, Task>,
    lockedBy: Option<nat>, changes: seq<SlotChange>, writer: nat)

  datatype Action =
    | SpawnChild(id: nat, target: string, localPort: nat, remotePort: nat, args: seq<string>)
    | GiveUp(id: nat, life: Life)
    | ReplaceSession(id: nat)
    | WriteUpstream(id: nat)
    | StopReplaced(id: nat)
    | TakeSession(id: nat)
    | LeaveUpstream(id: nat)
    | StopLeft(id: nat)
    | TakeStale(id: nat, waitFails: bool)
    | StopTaken(id: nat)
    | RestoreUpstream(id: nat)
    | DropHandler(id: nat)
    | ChildDies(pid: nat)

  function Done(tasks: map<nat, Task>, id: nat): map<nat, Task> {
    map k | k in tasks && k != id :: tasks[k]
  }

  function AsGateway(w: World): Gateway {
    Gateway(w.config, w.children, w.session, w.upstream)
  }

  /** A disconnect keeps the slot locked until it is done. */
  predicate Enabled(w: World, a: Action) {
    match a
    case SpawnChild(id, _, _, _, _) => id !in w.tasks
    case GiveUp(id, life) => id in w.tasks && w.tasks[id].Probing? && !life.Running?
    case ReplaceSession(id) => id in w.tasks && w.tasks[id].Probing? && w.lockedBy.None?
    case WriteUpstream(id) => id in w.tasks && w.tasks[id].Replaced?
    case StopReplaced(id) => id in w.tasks && w.tasks[id].Written?
    case TakeSession(id) => id !in w.tasks && w.lockedBy.None? && w.session.Some?
    case LeaveUpstream(id) => id in w.tasks && w.tasks[id].Leaving?
    case StopLeft(id) => id in w.tasks && w.tasks[id].Left?
    case TakeStale(id, waitFails) => id !in w.tasks && w.lockedBy.None? && IsStale(AsGateway(w), waitFails)
    case StopTaken(id) => id in w.tasks && w.tasks[id].Taken?
    case RestoreUpstream(id) => id in w.tasks && w.tasks[id].Stopped?
    case DropHandler(id) => id in w.tasks
    case ChildDies(_) => true
  }

  /** The session whose child goes with a handler that is dropped. */
  function HeldBy(task: Task): Option<SshSession> {
    match task
    case Probing(started) => Some(started)
    case Replaced(_, previous, _) => previous
    case Written(previous) => previous
    case Taken(stale, _) => Some(stale)
    case Stopped(_) => None
    case Leaving(left, _) => Some(left)
    case Left(left) => Some(left)
  }

  function SetLife(children: seq<Child>, pid: nat, life: Life): seq<Child> {
    if pid < |children| then children[pid := children[pid].(life := life)] else children
  }

  function ChangeTo(session: Option<SshSession>): SlotChange {
    if session.Some? then Installed(session.value.localPort) else Cleared
  }

  /** A change of the slot, by a handler that goes on with `task`. */
  function ChangeSlot(w: World, id: nat, session: Option<SshSession>, task: Task): World {
    w.(session := session, tasks := w.tasks[id := task], changes := w.changes + [ChangeTo(session)])
  }

  function Unlocked(w: World, id: nat): Option<nat> {
    if w.lockedBy == Some(id) then None else w.lockedBy
  }

  function Act(w: World, a: Action): World
    requires Enabled(w, a)
  {
    match a
    case SpawnChild(id, target, localPort, remotePort, args) =>
      w.(children := w.children + [Child(args, Running)],
         tasks := w.tasks[id := Probing(SshSession(|w.children|, target, localPort, remotePort))])
    case GiveUp(id, life) =>
      w.(children := SetLife(w.children, w.tasks[id].started.pid, life), tasks := Done(w.tasks, id))
    case ReplaceSession(id) =>
      ChangeSlot(w, id, Some(w.tasks[id].started), Replaced(w.tasks[id].started, w.session, |w.changes|))
    case WriteUpstream(id) =>
      w.(upstream := SshUpstream(w.tasks[id].installed), writer := w.tasks[id].change,
         tasks := w.tasks[id := Written(w.tasks[id].previous)])
    case StopReplaced(id) =>
      w.(children := StopPrevious(w.children, w.tasks[id].previous), tasks := Done(w.tasks, id))
    case TakeSession(id) =>
      ChangeSlot(w, id, None, Leaving(w.session.value, |w.changes|)).(lockedBy := Some(id))
    case LeaveUpstream(id) =>
      w.(upstream := LocalUpstream(w.config), writer := w.tasks[id].change,
          tasks := w.tasks[id := Left(w.tasks[id].left)])
    case StopLeft(id) =>
      w.(children := Stop(w.children, w.tasks[id].left.pid), tasks := Done(w.tasks, id), lockedBy := Unlocked(w, id))
    case TakeStale(id, _) =>
      ChangeSlot(w, id, None, Taken(w.session.value, |w.changes|))
    case StopTaken(id) =>
      w.(children := Stop(w.children, w.tasks[id].stale.pid), tasks := w.tasks[id := Stopped(w.tasks[id].change)])
    case RestoreUpstream(id) =>
      w.(upstream := LocalUpstream(w.config), writer := w.tasks[id].change, tasks := Done(w.tasks, id))
    case DropHandler(id) =>
      w.(children := StopPrevious(w.children, HeldBy(w.tasks[id])), tasks := Done(w.tasks, id),
          lockedBy := Unlocked(w, id))
    case ChildDies(pid) =>
      if pid < |w.children| && w.children[pid].life.Running? then w.(children := SetLife(w.children, pid, Ended)) else w
  }

  predicate IsRun(w: World, actions: seq<Action>)
    decreases |actions|
  {
    actions == [] || (Enabled(w, actions[0]) && IsRun(Act(w, actions[0]), actions[1..]))
  }

  function Run(w: World, actions: seq<Action>): World
    requires IsRun(w, actions)
    decreases |actions|
  {
    if actions == [] then w else Run(Act(w, actions[0]), actions[1..])
  }

  function Idle(config: Config): World {
    World(config, [], None, LocalUpstream(config), map[], None, [Cleared], 0)
  }

  // ---------- every running child has exactly one owner ----------

  predicate Has(session: Option<SshSession>, pid: nat) {
    session.Some? && session.value.pid == pid
  }

  predicate Holds(tasks: map<nat, Task>, id: nat, pid: nat) {
    id in tasks && Has(HeldBy(tasks[id]), pid)
  }

  ghost predicate Owned(w: World, pid: nat) {
    Has(w.session, pid) || exists id :: Holds(w.tasks, id, pid)
  }

  /** No child runs without an owner. */
  ghost predicate NoOrphans(w: World) {
    forall pid: nat :: pid < |w.children| && w.children[pid].life.Running? ==> Owned(w, pid)
  }

  /** No child has two owners, so no handler stops a child that is not its own. */
  ghost predicate Exclusive(w: World) {
    && (w.session.Some? ==> w.session.value.pid < |w.children|)
    && (forall id: nat, pid: nat :: Holds(w.tasks, id, pid) ==> pid < |w.children| && !Has(w.session, pid))
    && (forall i: nat, j: nat, pid: nat :: Holds(w.tasks, i, pid) && Holds(w.tasks, j, pid) ==> i == j)
  }

  predicate TakesSlot(a: Action) {
    a.ReplaceSession? || a.TakeStale? || a.TakeSession?
  }

  lemma OthersStay(w: World, a: Action)
    requires Enabled(w, a)
    ensures forall id :: id in w.tasks && (a.ChildDies? || id != a.id) ==>
              id in Act(w, a).tasks && Act(w, a).tasks[id] == w.tasks[id]
  {
  }

  lemma RunningBefore(w: World, a: Action, pid: nat)
    requires Enabled(w, a) && pid < |Act(w, a).children| && Act(w, a).children[pid].life.Running?
    ensures pid < |w.children| ==> w.children[pid].life.Running?
    ensures pid >= |w.children| ==> a.SpawnChild? && pid == |w.children|
  {
  }

  /** What the step takes an owner away from is no longer running. */
  lemma MoverReleases(w: World, a: Action, pid: nat)
    requires Enabled(w, a) && !a.ChildDies? && Holds(w.tasks, a.id, pid) && pid < |w.children|
    requires Act(w, a).children[pid].life.Running?
    ensures Owned(Act(w, a), pid)
  {
    var after := Act(w, a);
    if a.WriteUpstream? || a.LeaveUpstream? {
      assert Holds(after.tasks, a.id, pid);
    }
  }

  lemma SlotReleases(w: World, a: Action, pid: nat)
    requires Enabled(w, a) && Has(w.session, pid) && pid < |w.children|
    requires Act(w, a).children[pid].life.Running?
    ensures Owned(Act(w, a), pid)
  {
    var after := Act(w, a);
    if TakesSlot(a) {
      assert Holds(after.tasks, a.id, pid);
    }
  }

  lemma ActKeepsNoOrphans(w: World, a: Action)
    requires NoOrphans(w) && Enabled(w, a)
    ensures NoOrphans(Act(w, a))
  {
    var after := Act(w, a);
    OthersStay(w, a);
    forall pid: nat | pid < |after.children| && after.children[pid].life.Running? ensures Owned(after, pid) {
      RunningBefore(w, a, pid);
      if pid >= |w.children| {
        assert Holds(after.tasks, a.id, pid);
      } else {
        if Has(w.session, pid) {
          SlotReleases(w, a, pid);
        }
        if !a.ChildDies? && Holds(w.tasks, a.id, pid) {
          MoverReleases(w, a, pid);
        }
        if !Owned(after, pid) {
          var id :| Holds(w.tasks, id, pid);
          assert Holds(after.tasks, id, pid);
        }
      }
    }
  }

  lemma ActKeepsLength(w: World, a: Action)
    requires Enabled(w, a)
    ensures |Act(w, a).children| == |w.children| + if a.SpawnChild? then 1 else 0
  {
  }

  /** Who holds a child after a step held it before, or got it from the slot, or has just spawned it. */
  lemma HeldBefore(w: World, a: Action, id: nat, pid: nat)
    requires Enabled(w, a) && Holds(Act(w, a).tasks, id, pid)
    ensures || (Holds(w.tasks, id, pid) && !(a.ReplaceSession? && a.id == id))
            || (TakesSlot(a) && id == a.id && Has(w.session, pid))
            || (a.SpawnChild? && id == a.id && pid == |w.children|)
  {
  }

  lemma SlotBefore(w: World, a: Action, pid: nat)
    requires Enabled(w, a) && Has(Act(w, a).session, pid)
    ensures if a.ReplaceSession? then Holds(w.tasks, a.id, pid) else Has(w.session, pid) && !TakesSlot(a)
  {
  }

  lemma ActKeepsExclusive(w: World, a: Action)
    requires Exclusive(w) && Enabled(w, a)
    ensures Exclusive(Act(w, a))
  {
    var after := Act(w, a);
    ActKeepsLength(w, a);
    if after.session.Some? {
      SlotBefore(w, a, after.session.value.pid);
    }
    forall id: nat, pid: nat | Holds(after.tasks, id, pid) ensures pid < |after.children| && !Has(after.session, pid) {
      HeldBefore(w, a, id, pid);
      if Has(after.session, pid) {
        SlotBefore(w, a, pid);
      }
    }
    forall i: nat, j: nat, pid: nat | Holds(after.tasks, i, pid) && Holds(after.tasks, j, pid) ensures i == j {
      HeldBefore(w, a, i, pid);
      HeldBefore(w, a, j, pid);
    }
  }

  lemma {:induction false} RunKeepsOwnership(w: World, actions: seq<Action>)
    requires NoOrphans(w) && Exclusive(w) && IsRun(w, actions)
    ensures NoOrphans(Run(w, actions)) && Exclusive(Run(w, actions))
    decreases |actions|
  {
    if actions != [] {
      ActKeepsNoOrphans(w, actions[0]);
      ActKeepsExclusive(w, actions[0]);
      RunKeepsOwnership(Act(w, actions[0]), actions[1..]);
    }
  }

  /** However handlers overlap, and even if some are dropped half-way: a child that still runs is the installed
      one or in the hands of exactly one handler, and once all handlers have finished only the installed one runs. */
  lemma ChildrenAreNeverOrphaned(config: Config, actions: seq<Action>)
    requires IsRun(Idle(config), actions)
    ensures var w := Run(Idle(config), actions);
            NoOrphans(w) && Exclusive(w) && (w.tasks == map[] ==> OnlyInstalledRuns(w.children, w.session))
  {
    RunKeepsOwnership(Idle(config), actions);
    var w := Run(Idle(config), actions);
    if w.tasks == map[] {
      forall pid: nat | pid < |w.children| && w.children[pid].life.Running? ensures Has(w.session, pid) {
        assert Owned(w, pid);
      }
    }
  }

  // ---------- a disconnect keeps the slot ----------

  predicate Releases(a: Action, id: nat) {
    (a.StopLeft? || a.DropHandler?) && a.id == id
  }

  lemma LockedSlotStays(w: World, id: nat, a: Action)
    requires w.lockedBy == Some(id) && Enabled(w, a) && !Releases(a, id)
    ensures Act(w, a).lockedBy == Some(id) && Act(w, a).session == w.session
  {
  }

  lemma {:induction false} LockedSlotStaysEmpty(w: World, id: nat, actions: seq<Action>)
    requires w.lockedBy == Some(id) && w.session.None? && IsRun(w, actions)
    requires forall a :: a in actions ==> !Releases(a, id)
    ensures Run(w, actions).session.None?
    decreases |actions|
  {
    if actions != [] {
      LockedSlotStays(w, id, actions[0]);
      LockedSlotStaysEmpty(Act(w, actions[0]), id, actions[1..]);
    }
  }

  /** From the moment a disconnect takes the session until it is done or dropped, no handler changes the slot. */
  lemma DisconnectKeepsTheSlotEmpty(w: World, id: nat, actions: seq<Action>)
    requires Enabled(w, TakeSession(id)) && IsRun(Act(w, TakeSession(id)), actions)
    requires forall a :: a in actions ==> !Releases(a, id)
    ensures Run(Act(w, TakeSession(id)), actions).session.None?
  {
    LockedSlotStaysEmpty(Act(w, TakeSession(id)), id, actions);
  }

  // ---------- when the upstream follows the session ----------

  /** The upstream that a change calls for. */
  function CalledFor(config: Config, change: SlotChange): Upstream {
    match change
    case Cleared => LocalUpstream(config)
    case Installed(localPort) => Upstream(Url(localPort), LOOPBACK, localPort, Ssh)
  }

  /** A handler is between its change of the slot and its write of the upstream. */
  predicate InWindow(task: Task) {
    task.Replaced? || task.Taken? || task.Stopped? || task.Leaving?
  }

  /** The change that the handler made. */
  function Made(task: Task): SlotChange
    requires InWindow(task)
  {
    if task.Replaced? then Installed(task.installed.localPort) else Cleared
  }

  /** The last change is the one the slot shows, the upstream is what its last writer's change called for, and
      each handler in its window knows its own change. */
  ghost predicate Recorded(w: World) {
    && w.writer < |w.changes|
    && w.changes[|w.changes| - 1] == ChangeTo(w.session)
    && CalledFor(w.config, w.changes[w.writer]) == w.upstream
    && (forall id :: id in w.tasks && InWindow(w.tasks[id]) ==>
          w.tasks[id].change < |w.changes| && w.changes[w.tasks[id].change] == Made(w.tasks[id]))
  }

  /** Some handler is still about to write for this change. */
  ghost predicate Awaited(w: World, change: nat) {
    exists id :: id in w.tasks && InWindow(w.tasks[id]) && w.tasks[id].change == change
  }

  lemma ChangeKeepsRecorded(w: World, id: nat, session: Option<SshSession>, task: Task)
    requires Recorded(w) && InWindow(task) && task.change == |w.changes|
    requires Made(task) == ChangeTo(session)
    ensures Recorded(ChangeSlot(w, id, session, task))
  {
    var after := ChangeSlot(w, id, session, task);
    assert forall i :: 0 <= i < |w.changes| ==> after.changes[i] == w.changes[i];
  }

  lemma ActKeepsRecorded(w: World, a: Action)
    requires Recorded(w) && Enabled(w, a)
    ensures Recorded(Act(w, a)) && Act(w, a).config == w.config
  {
    match a {
      case ReplaceSession(id) =>
        ChangeKeepsRecorded(w, id, Some(w.tasks[id].started), Replaced(w.tasks[id].started, w.session, |w.changes|));
      case TakeSession(id) =>
        ChangeKeepsRecorded(w, id, None, Leaving(w.session.value, |w.changes|));
      case TakeStale(id, _) =>
        ChangeKeepsRecorded(w, id, None, Taken(w.session.value, |w.changes|));
      case _ =>
        OtherActsKeepRecorded(w, a);
    }
  }

  lemma OtherActsKeepRecorded(w: World, a: Action)
    requires Recorded(w) && Enabled(w, a) && !TakesSlot(a)
    ensures Recorded(Act(w, a)) && Act(w, a).config == w.config
  {
    var after := Act(w, a);
    assert after.changes == w.changes && after.session == w.session && after.config == w.config;
    forall id | id in after.tasks && InWindow(after.tasks[id])
      ensures id in w.tasks && InWindow(w.tasks[id])
      ensures after.tasks[id].change == w.tasks[id].change && Made(after.tasks[id]) == Made(w.tasks[id])
    {
    }
  }

  lemma {:induction false} RunKeepsRecorded(w: World, actions: seq<Action>)
    requires Recorded(w) && IsRun(w, actions)
    ensures Recorded(Run(w, actions)) && Run(w, actions).config == w.config
    decreases |actions|
  {
    if actions != [] {
      ActKeepsRecorded(w, actions[0]);
      RunKeepsRecorded(Act(w, actions[0]), actions[1..]);
    }
  }

  /** In every run, whatever overlaps or is dropped: the upstream follows the session exactly when the handler
      that wrote last and the one that changed the slot last both emptied it, or both filled it with a session on
      the same local port. */
  lemma UpstreamFollowsSessionExactlyWhen(config: Config, actions: seq<Action>)
    requires IsRun(Idle(config), actions)
    ensures var w := Run(Idle(config), actions);
            && w.writer < |w.changes|
            && (w.upstream == (if w.session.Some? then SshUpstream(w.session.value) else LocalUpstream(config)) <==>
                match (w.changes[w.writer], w.changes[|w.changes| - 1])
                case (Cleared, Cleared) => true
                case (Installed(written), Installed(shown)) => written == shown
                case _ => false)
  {
    RunKeepsRecorded(Idle(config), actions);
  }

  // ---------- writes in the order of the changes ----------

  /** The change for which a step writes the upstream, if it does. */
  function WritesFor(w: World, a: Action): Option<nat>
    requires Enabled(w, a)
  {
    match a
    case WriteUpstream(id) => Some(w.tasks[id].change)
    case LeaveUpstream(id) => Some(w.tasks[id].change)
    case RestoreUpstream(id) => Some(w.tasks[id].change)
    case _ => None
  }

  /** Handlers write the upstream in the order in which they changed the slot, and none is dropped in between.
      Their windows may overlap. */
  ghost predicate WritesInOrder(w: World, actions: seq<Action>)
    requires IsRun(w, actions)
    decreases |actions|
  {
    actions == []
    || (&& (WritesFor(w, actions[0]).Some? ==> w.writer < WritesFor(w, actions[0]).value)
        && (actions[0].DropHandler? ==> !InWindow(w.tasks[actions[0].id]))
        && WritesInOrder(Act(w, actions[0]), actions[1..]))
  }

  /** Every change after the last one written for is still awaited. */
  ghost predicate LaterAwaited(w: World) {
    forall change: nat :: w.writer < change < |w.changes| ==> Awaited(w, change)
  }

  lemma ActKeepsLaterAwaited(w: World, a: Action)
    requires LaterAwaited(w) && Enabled(w, a)
    requires WritesFor(w, a).Some? ==> w.writer < WritesFor(w, a).value
    requires a.DropHandler? ==> !InWindow(w.tasks[a.id])
    ensures LaterAwaited(Act(w, a))
  {
    var after := Act(w, a);
    OthersStay(w, a);
    forall change: nat | after.writer < change < |after.changes| ensures Awaited(after, change) {
      if change == |w.changes| {
        assert TakesSlot(a) && InWindow(after.tasks[a.id]) && after.tasks[a.id].change == change;
      } else {
        assert Awaited(w, change);
        var id :| id in w.tasks && InWindow(w.tasks[id]) && w.tasks[id].change == change;
        assert id in after.tasks && InWindow(after.tasks[id]) && after.tasks[id].change == change;
      }
    }
  }

  lemma {:induction false} RunKeepsLaterAwaited(w: World, actions: seq<Action>)
    requires LaterAwaited(w) && IsRun(w, actions) && WritesInOrder(w, actions)
    ensures LaterAwaited(Run(w, actions))
    decreases |actions|
  {
    if actions != [] {
      ActKeepsLaterAwaited(w, actions[0]);
      RunKeepsLaterAwaited(Act(w, actions[0]), actions[1..]);
    }
  }

  /** If handlers write in the order of their changes, the upstream follows the session whenever no handler is
      between the two, however much they overlap. */
  lemma OrderedWritesFollowTheSession(config: Config, actions: seq<Action>)
    requires IsRun(Idle(config), actions) && WritesInOrder(Idle(config), actions)
    ensures var w := Run(Idle(config), actions);
            NoWindow(w) ==>
              w.writer == |w.changes| - 1
              && w.upstream == if w.session.Some? then SshUpstream(w.session.value) else LocalUpstream(config)
  {
    RunKeepsLaterAwaited(Idle(config), actions);
    RunKeepsRecorded(Idle(config), actions);
    var w := Run(Idle(config), actions);
    assert w.writer < |w.changes| - 1 ==> Awaited(w, |w.changes| - 1);
  }

  ghost predicate NoWindow(w: World) {
    forall id :: id in w.tasks ==> !InWindow(w.tasks[id])
  }

  /** No handler changes the slot while another is in its window, and none is dropped there. */
  ghost predicate WindowsDisjoint(w: World, actions: seq<Action>)
    requires IsRun(w, actions)
    decreases |actions|
  {
    actions == []
    || (&& (TakesSlot(actions[0]) ==> NoWindow(w))
        && (actions[0].DropHandler? ==> !InWindow(w.tasks[actions[0].id]))
        && WindowsDisjoint(Act(w, actions[0]), actions[1..]))
  }

  /** At most one window is open, for the last change, which nobody has written for yet. */
  ghost predicate OneWindow(w: World) {
    && w.writer < |w.changes|
    && (forall i, j :: i in w.tasks && j in w.tasks && InWindow(w.tasks[i]) && InWindow(w.tasks[j]) ==> i == j)
    && (forall id :: id in w.tasks && InWindow(w.tasks[id]) ==> w.writer < w.tasks[id].change == |w.changes| - 1)
  }

  lemma ActKeepsOneWindow(w: World, a: Action)
    requires OneWindow(w) && Enabled(w, a) && (TakesSlot(a) ==> NoWindow(w))
    ensures OneWindow(Act(w, a))
    ensures WritesFor(w, a).Some? ==> w.writer < WritesFor(w, a).value
  {
    var after := Act(w, a);
    forall id | id in after.tasks && InWindow(after.tasks[id])
      ensures if TakesSlot(a) then id == a.id
              else id in w.tasks && InWindow(w.tasks[id]) && after.tasks[id].change == w.tasks[id].change
                   && (WritesFor(w, a).Some? ==> id != a.id)
    {
    }
  }

  /** Handlers whose windows do not overlap write in order: they need not be serialised as a whole. */
  lemma {:induction false} DisjointWindowsWriteInOrder(w: World, actions: seq<Action>)
    requires OneWindow(w) && IsRun(w, actions) && WindowsDisjoint(w, actions)
    ensures WritesInOrder(w, actions)
    decreases |actions|
  {
    if actions != [] {
      ActKeepsOneWindow(w, actions[0]);
      DisjointWindowsWriteInOrder(Act(w, actions[0]), actions[1..]);
    }
  }

  // ---------- two orders that go wrong ----------

  ghost predicate Reaches(w: World, v: World) {
    exists actions :: IsRun(w, actions) && Run(w, actions) == v
  }

  lemma ReachesNext(w: World, a: Action)
    requires Enabled(w, a)
    ensures Reaches(w, Act(w, a))
  {
    var v := Act(w, a);
    assert [a][1..] == [] && IsRun(v, []) && Run(v, []) == v;
    assert IsRun(w, [a]) && Run(w, [a]) == v;
  }

  lemma {:induction false} RunConcat(w: World, a: seq<Action>, b: seq<Action>)
    requires IsRun(w, a) && IsRun(Run(w, a), b)
    ensures IsRun(w, a + b) && Run(w, a + b) == Run(Run(w, a), b)
    decreases |a|
  {
    if a == [] {
      assert a + b == b;
    } else {
      assert (a + b)[0] == a[0] && (a + b)[1..] == a[1..] + b;
      RunConcat(Act(w, a[0]), a[1..], b);
    }
  }

  lemma ReachesOn(w: World, v: World, x: World)
    requires Reaches(w, v) && Reaches(v, x)
    ensures Reaches(w, x)
  {
    var a :| IsRun(w, a) && Run(w, a) == v;
    var b :| IsRun(v, b) && Run(v, b) == x;
    RunConcat(w, a, b);
  }

  lemma StartConnect(w: World, id: nat, target: string, port: nat, args: seq<string>) returns (v: World)
    requires id !in w.tasks && w.lockedBy.None?
    ensures Reaches(w, v) && v.session.Some? && v.lockedBy.None?
    ensures id in v.tasks && v.tasks[id].Replaced? && v.tasks == w.tasks[id := v.tasks[id]]
  {
    var spawn := SpawnChild(id, target, port, port, args);
    var spawned := Act(w, spawn);
    v := Act(spawned, ReplaceSession(id));
    ReachesNext(w, spawn);
    ReachesNext(spawned, ReplaceSession(id));
    ReachesOn(w, spawned, v);
  }

  lemma FinishConnect(w: World, id: nat) returns (v: World)
    requires id in w.tasks && w.tasks[id].Replaced?
    ensures Reaches(w, v) && v.session == w.session && v.upstream.mode.Ssh? && v.lockedBy == w.lockedBy
    ensures v.tasks == Done(w.tasks, id)
  {
    var written := Act(w, WriteUpstream(id));
    v := Act(written, StopReplaced(id));
    ReachesNext(w, WriteUpstream(id));
    ReachesNext(written, StopReplaced(id));
    ReachesOn(w, written, v);
  }

  lemma WholeDisconnect(w: World, id: nat) returns (v: World)
    requires id !in w.tasks && w.lockedBy.None? && w.session.Some?
    ensures Reaches(w, v) && v.session.None? && v.lockedBy.None? && v.tasks == w.tasks
  {
    var taken := Act(w, TakeSession(id));
    var left := Act(taken, LeaveUpstream(id));
    v := Act(left, StopLeft(id));
    ReachesNext(w, TakeSession(id));
    ReachesNext(taken, LeaveUpstream(id));
    ReachesNext(left, StopLeft(id));
    ReachesOn(w, taken, left);
    ReachesOn(w, left, v);
  }

  lemma StartStatus(w: World, id: nat) returns (v: World)
    requires id !in w.tasks && w.lockedBy.None? && w.session.Some?
    ensures Reaches(w, v) && v.session.None? && v.lockedBy.None?
    ensures id in v.tasks && v.tasks[id].Stopped? && v.tasks == w.tasks[id := v.tasks[id]]
  {
    var taken := Act(w, TakeStale(id, true));
    v := Act(taken, StopTaken(id));
    ReachesNext(w, TakeStale(id, true));
    ReachesNext(taken, StopTaken(id));
    ReachesOn(w, taken, v);
  }

  /** All handlers have finished. */
  predicate Quiet(w: World) {
    w.tasks == map[] && w.lockedBy.None?
  }

  /** A disconnect between the two writes of a connect leaves an SSH upstream without a session, whatever the
      state was before. */
  lemma DisconnectInsideConnect(w: World, target: string, port: nat, args: seq<string>)
    requires Quiet(w)
    ensures exists actions :: IsRun(w, actions) && Quiet(Run(w, actions))
              && Run(w, actions).session.None? && Run(w, actions).upstream.mode.Ssh?
  {
    var connecting := StartConnect(w, 1, target, port, args);
    var disconnected := WholeDisconnect(connecting, 2);
    var end := FinishConnect(disconnected, 1);
    ReachesOn(w, connecting, disconnected);
    ReachesOn(w, disconnected, end);
    assert end.tasks == map[];
    var actions :| IsRun(w, actions) && Run(w, actions) == end;
  }

  /** A connect between the two writes of a status call leaves a session behind a local upstream. */
  lemma ConnectInsideStatus(w: World, target: string, port: nat, args: seq<string>)
    requires Quiet(w) && w.session.Some?
    ensures exists actions :: IsRun(w, actions) && Quiet(Run(w, actions))
              && Run(w, actions).session.Some? && Run(w, actions).upstream.mode.Local?
  {
    var taken := StartStatus(w, 1);
    var connecting := StartConnect(taken, 2, target, port, args);
    var connected := FinishConnect(connecting, 2);
    var end := Act(connected, RestoreUpstream(1));
    ReachesNext(connected, RestoreUpstream(1));
    ReachesOn(w, taken, connecting);
    ReachesOn(w, connecting, connected);
    ReachesOn(w, connected, end);
    assert end.tasks == map[];
    var actions :| IsRun(w, actions) && Run(w, actions) == end;
  }
}
