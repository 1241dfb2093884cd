/** The session store of the front end: mutable state, the notification handler and the steps of
    `openThread` and `startThread`, each proved against the reducer. */
module SessionStore {
  import opened Wrappers
  import opened Conversation
  import opened Reducer = Session
  import DeltaOrder
  import Switch = ThreadSwitch

  /** The active thread, if there is one, with these turns. */
  function Retold(s: Session, turns: seq<Turn>): Session {
    s.(activeThread := WithTurns(s.activeThread, turns))
  }

  function Patched(s: Session, w: Write): Session {
    Retold(s, Patch(Turns(s), w))
  }

  /** A placeholder is put in first and written to afterwards: the two steps are one patch. */
  lemma PlaceholderThenChange(turns: seq<Turn>, w: Write)
    requires !w.change.SetChanges?
    ensures var placed := if FindItem(turns, w.turnId, w.itemId).Some? then turns
                          else UpsertItem(turns, w.turnId, Placeholder(w.itemId, w.change));
            && FindItem(placed, w.turnId, w.itemId).Some?
            && UpsertItem(placed, w.turnId, Changed(FindItem(placed, w.turnId, w.itemId).value, w.change)) ==
                Patch(turns, w)
  {
    var placeholder := Placeholder(w.itemId, w.change);
    var items := ItemsOf(turns, w.turnId);
    UpsertItemIsSetTurn(turns, w.turnId, placeholder);
    PatchIsSetTurn(turns, w);
    if FindIn(items, w.itemId).Some? {
      UpsertItemIsSetTurn(turns, w.turnId, Changed(FindIn(items, w.itemId).value, w.change));
    } else {
      var placed := UpsertItem(turns, w.turnId, placeholder);
      UpsertItemFinds(turns, w.turnId, placeholder, w.turnId);
      MergeFinds(items, placeholder, w.itemId);
      UpsertItemIsSetTurn(placed, w.turnId, Changed(placeholder, w.change));
      MergeTwice(items, placeholder, Changed(placeholder, w.change));
      DeltaOrder.SetTwice(turns, w.turnId, MergeItem(items, placeholder), PatchItems(items, w.itemId, w.change));
    }
  }

  lemma ChangesAreAPatch(turns: seq<Turn>, turnId: string, itemId: string, changes: Json)
    ensures var found := FindItem(turns, turnId, itemId);
            Patch(turns, Write(turnId, itemId, SetChanges(changes))) ==
            if found.Some? then UpsertItem(turns, turnId, Changed(found.value, SetChanges(changes))) else turns
  {
    var found := FindItem(turns, turnId, itemId);
    if found.Some? {
      PatchIsSetTurn(turns, Write(turnId, itemId, SetChanges(changes)));
      UpsertItemIsSetTurn(turns, turnId, Changed(found.value, SetChanges(changes)));
    }
  }

  lemma UpsertItemIsSetTurn(turns: seq<Turn>, turnId: string, item: Item)
    ensures UpsertItem(turns, turnId, item) == SetTurn(turns, turnId, MergeItem(ItemsOf(turns, turnId), item))
  {
  }

  lemma MergeTwice(items: seq<Item>, first: Item, second: Item)
    requires first.id == second.id
    ensures MergeItem(MergeItem(items, first), second) == MergeItem(items, second)
  {
    var merged := MergeItem(items, first);
    var i := ItemIndex(items, first.id);
    assert merged[i] == first;
    assert ItemIndex(merged, first.id) == i;
  }

  // ---------- which field each kind of notification touches ----------

  /** The kinds that touch no field but the turns. */
  predicate OnlyTurns(kind: Kind) {
    && !kind.ThreadStarted? && !kind.ThreadStatusChanged? && !IsTurnEvent(kind) && !kind.RequestResolved?
    && !kind.TurnDiffUpdated? && !kind.TurnPlanUpdated? && !kind.ExecOutputDelta? && !kind.Other?
  }

  lemma TurnsOnly(s: Session, n: Notification)
    requires OnlyTurns(n.kind)
    ensures Apply(s, n) == Retold(s, TurnsAfter(Turns(s), n))
  {
  }

  lemma DeltaKinds(n: Notification)
    requires ChangeOf(n).Some?
    ensures OnlyTurns(n.kind) && !IsItemEvent(n.kind)
  {
  }

  lemma DeltasOnlyPatch(s: Session, n: Notification)
    requires ChangeOf(n).Some?
    ensures Apply(s, n) == Patched(s, WriteOf(n).value)
  {
    DeltaKinds(n);
    TurnsOnly(s, n);
  }

  /** The kinds whose effects are outside the modelled state. */
  lemma OthersDoNothing(s: Session, n: Notification)
    requires OnlyTurns(n.kind) && !IsItemEvent(n.kind) && ChangeOf(n).None?
    ensures Apply(s, n) == s
  {
    TurnsOnly(s, n);
  }

  lemma OutsideTheTurns(turns: seq<Turn>, n: Notification)
    requires !OnlyTurns(n.kind) && !IsTurnEvent(n.kind)
    ensures TurnsAfter(turns, n) == turns
  {
  }

  lemma ShellOnly(s: Session, n: Notification)
    requires n.kind.ExecOutputDelta?
    ensures Apply(s, n) == s.(shellOutput := ShellAfter(s.shellProcessId, s.shellOutput, n))
  {
    OutsideTheTurns(Turns(s), n);
  }

  lemma ThreadsOnly(s: Session, n: Notification)
    requires n.kind.ThreadStarted?
    ensures Apply(s, n) == s.(threads := ThreadsAfter(s.threads, n))
  {
    OutsideTheTurns(Turns(s), n);
  }

  function StatusAfter(thread: Option<Thread>, n: Notification): Option<Thread> {
    if thread.Some? && SetsStatus(n)
        then Some(SetStatus(thread.value, StringField(n.params, "threadId"), n.params["status"])) else thread
  }

  lemma StatusOnly(s: Session, n: Notification)
    requires n.kind.ThreadStatusChanged?
    ensures Apply(s, n) == s.(threads := ThreadsAfter(s.threads, n), activeThread := StatusAfter(s.activeThread, n))
  {
    OutsideTheTurns(Turns(s), n);
  }

  lemma RecordsOnly(s: Session, n: Notification)
    requires n.kind.TurnDiffUpdated? || n.kind.TurnPlanUpdated?
    ensures Apply(s, n) == s.(turnDiffs := DiffsAfter(s.turnDiffs, n), turnPlans := PlansAfter(s.turnPlans, n))
  {
    OutsideTheTurns(Turns(s), n);
  }

  lemma RequestsOnly(s: Session, n: Notification)
    requires n.kind.RequestResolved?
    ensures Apply(s, n) == s.(pendingRequests := RequestsAfter(s.pendingRequests, n))
  {
    OutsideTheTurns(Turns(s), n);
  }

  lemma UnknownOnly(s: Session, n: Notification)
    requires n.kind.Other?
    ensures Apply(s, n) == s.(unknownActivity := UnknownAfter(s.activeThreadId, s.unknownActivity, n))
  {
    OutsideTheTurns(Turns(s), n);
  }

  class SessionStore {
    var activeThreadId: Option<string>
    var activeThread: Option<Thread>
    var activeTurnId: Option<string>
    var threads: seq<Thread>
    var turnDiffs: map<string, string>
    var turnPlans: map<string, Plan>
    var pendingRequests: seq<Json>
    var shellProcessId: Option<string>
    var shellOutput: string
    var terminalEvents: seq<LogEntry>
    var unknownActivity: seq<LogEntry>
    var openThreadGeneration: nat
    var loadingConversation: bool
    var calls: map<nat, Call>
    ghost var written: seq<Choice>

    ghost function State(): Session
      reads this
    {
      Session(activeThreadId, activeThread, activeTurnId, threads, turnDiffs, turnPlans, pendingRequests,
          shellProcessId,
              shellOutput, terminalEvents, unknownActivity, openThreadGeneration, loadingConversation, calls, written)
    }

    constructor (remembered: Option<string>)
      ensures Switch.Initial(State())
      ensures activeThreadId == remembered && activeThread == None && threads == []
    {
      activeThreadId, activeThread, activeTurnId, threads := remembered, None, None, [];
      turnDiffs, turnPlans, pendingRequests := map[], map[], [];
      shellProcessId, shellOutput, terminalEvents, unknownActivity := None, "", [], [];
      openThreadGeneration, loadingConversation, calls, written := 0, false, map[], [];
    }

    // ---------- logs ----------

    method AppendEvent(entry: LogEntry)
      modifies this
      ensures State() == Reducer.AppendEvent(old(State()), entry)
    {
      terminalEvents := terminalEvents + [entry];
      if |terminalEvents| > MAX_EVENTS {
        terminalEvents := terminalEvents[|terminalEvents| - MAX_EVENTS..];
      }
    }

    method AddUnknown(entry: LogEntry)
      modifies this
      ensures State() == old(State()).(unknownActivity := Reducer.AddUnknown(old(unknownActivity), entry))
    {
      unknownActivity := unknownActivity + [entry];
      if |unknownActivity| > MAX_UNKNOWN {
        unknownActivity := unknownActivity[1..];
      }
    }

    // ---------- threads, turns and items ----------

    method UpsertThread(thread: Thread)
      modifies this
      ensures State() == old(State()).(threads := Reducer.UpsertThread(old(threads), thread))
    {
      var index := ThreadIndex(threads, thread.id);
      if index < |threads| {
        threads := threads[index := thread];
      } else {
        threads := [thread] + threads;
      }
    }

    method SetTurns(turns: seq<Turn>)
      requires activeThread.Some?
      modifies this
      ensures State() == Retold(old(State()), turns)
    {
      activeThread := Some(activeThread.value.(turns := turns));
    }

    method UpsertTurn(turn: Turn)
      modifies this
      ensures State() == Retold(old(State()), Conversation.UpsertTurn(Turns(old(State())), turn))
    {
      if activeThread.None? { return; }
      var turns := activeThread.value.turns;
      var index := TurnIndex(turns, turn.id);
      if index < |turns| {
        SetTurns(turns[index := turn]);
      } else {
        SetTurns(turns + [turn]);
      }
    }

    method UpsertItem(turnId: string, item: Item)
      modifies this
      ensures State() == Retold(old(State()), Conversation.UpsertItem(Turns(old(State())), turnId, item))
    {
      if activeThread.None? { return; }
      var turns := activeThread.value.turns;
      var index := TurnIndex(turns, turnId);
      if index == |turns| {
        turns := turns + [Turn(turnId, [], IN_PROGRESS)];
      }
      var items := MergeItem(turns[index].items, item);
      turns := turns[index := turns[index].(items := items)];
      assert turns == Conversation.UpsertItem(activeThread.value.turns, turnId, item);
      SetTurns(turns);
    }

    /** `appendItemString` */
    method AppendItemString(turnId: string, itemId: string, kind: string, field: string, delta: string)
      modifies this
      ensures State() == Patched(old(State()), Write(turnId, itemId, AppendText(kind, field, delta)))
    {
      ChangeItem(Write(turnId, itemId, AppendText(kind, field, delta)));
    }

    /** `appendIndexedString` */
    method AppendIndexedString(turnId: string, itemId: string, field: string, index: Option<nat>, delta: string)
      modifies this
      ensures State() == Patched(old(State()), Write(turnId, itemId, AppendIndexed(field, index, delta)))
    {
      ChangeItem(Write(turnId, itemId, AppendIndexed(field, index, delta)));
    }

    /** The item is looked up, put in if it is missing, and then written to; the assignment to the item shows in
        the turn that holds it. Without an active thread the placeholder is thrown away. */
    method ChangeItem(w: Write)
      requires !w.change.SetChanges?
      modifies this
      ensures State() == Patched(old(State()), w)
    {
      if activeThread.None? { return; }
      PlaceholderThenChange(Turns(State()), w);
      var found := FindItem(activeThread.value.turns, w.turnId, w.itemId);
      if found.None? {
        UpsertItem(w.turnId, Placeholder(w.itemId, w.change));
        found := FindItem(activeThread.value.turns, w.turnId, w.itemId);
      }
      UpsertItem(w.turnId, Changed(found.value, w.change));
    }

    method SetChangesOf(turnId: string, itemId: string, changes: Json)
      modifies this
      ensures State() == Patched(old(State()), Write(turnId, itemId, SetChanges(changes)))
    {
      if activeThread.None? { return; }
      ChangesAreAPatch(activeThread.value.turns, turnId, itemId, changes);
      var found := FindItem(activeThread.value.turns, turnId, itemId);
      if found.Some? {
        UpsertItem(turnId, Changed(found.value, SetChanges(changes)));
      }
    }

    method SetThreadStatuses(id: string, status: Json)
      modifies this
      ensures State() == old(State()).(threads := SetStatuses(old(threads), id, status))
    {
      var i := 0;
      while i < |threads|
        invariant 0 <= i <= |threads| == |old(threads)|
        invariant forall k :: 0 <= k < |threads| ==>
          threads[k] == if k < i then SetStatus(old(threads)[k], id, status) else old(threads)[k]
        invariant State() == old(State()).(threads := threads)
      {
        if threads[i].id == id {
          threads := threads[i := threads[i].(status := status)];
        }
        i := i + 1;
      }
      assert threads == SetStatuses(old(threads), id, status);
    }

    // ---------- the notification handler, one branch at a time ----------

    method OnThreadStatusChanged(n: Notification)
      requires n.kind.ThreadStatusChanged?
      modifies this
      ensures State() == old(State()).(threads := ThreadsAfter(old(threads), n),
          activeThread := StatusAfter(old(activeThread), n))
    {
      var id := StringField(n.params, "threadId");
      if "status" in n.params && n.params["status"].Obj? {
        SetThreadStatuses(id, n.params["status"]);
        if activeThread.Some? && activeThread.value.id == id {
          activeThread := Some(activeThread.value.(status := n.params["status"]));
        }
      }
    }

    method OnThreadStarted(n: Notification)
      requires n.kind.ThreadStarted?
      modifies this
      ensures State() == old(State()).(threads := ThreadsAfter(old(threads), n))
    {
      if n.thread.Some? {
        UpsertThread(n.thread.value);
      }
    }

    method OnTurnStarted(n: Notification)
      requires n.kind.TurnStarted?
      modifies this
      ensures State() == Apply(old(State()), n)
    {
      if n.turn.Some? {
        UpsertTurn(n.turn.value);
        activeTurnId := Some(n.turn.value.id);
      }
    }

    method OnTurnCompleted(n: Notification)
      requires n.kind.TurnCompleted?
      modifies this
      ensures State() == Apply(old(State()), n)
    {
      if n.turn.Some? {
        UpsertTurn(n.turn.value);
      }
      activeTurnId := None;
    }

    method OnItem(n: Notification)
      requires IsItemEvent(n.kind)
      modifies this
      ensures State() == Apply(old(State()), n)
    {
      if n.item.Some? {
        UpsertItem(StringField(n.params, "turnId"), n.item.value);
      }
    }

    method OnDelta(n: Notification)
      requires ChangeOf(n).Some?
      modifies this
      ensures State() == Patched(old(State()), WriteOf(n).value)
    {
      var turnId, itemId, delta := StringField(n.params, "turnId"), StringField(n.params, "itemId"),
          StringField(n.params, "delta");
      match n.kind {
        case AgentMessageDelta =>
          AppendItemString(turnId, itemId, "agentMessage", TEXT, delta);
        case PlanDelta =>
          AppendItemString(turnId, itemId, "plan", TEXT, delta);
        case SummaryTextDelta =>
          AppendIndexedString(turnId, itemId, SUMMARY, IndexField(n.params, "summaryIndex"), delta);
        case ReasoningTextDelta =>
          AppendIndexedString(turnId, itemId, CONTENT, IndexField(n.params, "contentIndex"), delta);
        case CommandOutputDelta =>
          AppendItemString(turnId, itemId, "commandExecution", AGGREGATED_OUTPUT, delta);
        case FileOutputDelta =>
          AppendItemString(turnId, itemId, "fileChange", OUTPUT, delta);
        case FilePatchUpdated =>
          SetChangesOf(turnId, itemId, n.params["changes"]);
      }
    }

    method OnRequestResolved(n: Notification)
      requires n.kind.RequestResolved?
      modifies this
      ensures State() == old(State()).(pendingRequests := RequestsAfter(old(pendingRequests), n))
    {
      if "requestId" in n.params && (n.params["requestId"].Str? || n.params["requestId"].Num?) {
        pendingRequests := Unresolved(pendingRequests, n.params["requestId"]);
      }
    }

    method OnTurnRecord(n: Notification)
      requires n.kind.TurnDiffUpdated? || n.kind.TurnPlanUpdated?
      modifies this
      ensures State() == old(State()).(turnDiffs := DiffsAfter(old(turnDiffs), n),
          turnPlans := PlansAfter(old(turnPlans), n))
    {
      var turnId := StringField(n.params, "turnId");
      if n.kind.TurnDiffUpdated? {
        turnDiffs := turnDiffs[turnId := StringField(n.params, "diff")];
      } else {
        turnPlans := turnPlans[turnId := PlanOf(n.params)];
      }
    }

    method OnExecOutput(n: Notification)
      requires n.kind.ExecOutputDelta?
      modifies this
      ensures State() == old(State()).(shellOutput := ShellAfter(shellProcessId, old(shellOutput), n))
    {
      if shellProcessId != Some(StringField(n.params, "processId")) { return; }
      shellOutput := ExecOutput(shellOutput, StringField(n.params, "deltaBase64"));
    }

    method OnOther(n: Notification)
      requires n.kind.Other?
      modifies this
      ensures State() == old(State()).(unknownActivity := UnknownAfter(activeThreadId, old(unknownActivity), n))
    {
      if activeThreadId == Some(StringField(n.params, "threadId")) || "item/" <= n.kind.name {
        AddUnknown(Received(n));
      }
    }

    /** The switch of `handleNotification`. */
    method Dispatch(n: Notification)
      modifies this
      ensures State() == Apply(old(State()), n)
    {
      if n.kind.ThreadStarted? {
        ThreadsOnly(State(), n);
        OnThreadStarted(n);
      } else if n.kind.ThreadStatusChanged? {
        StatusOnly(State(), n);
        OnThreadStatusChanged(n);
      } else if n.kind.TurnStarted? {
        OnTurnStarted(n);
      } else if n.kind.RequestResolved? {
        RequestsOnly(State(), n);
        OnRequestResolved(n);
      } else if n.kind.TurnCompleted? {
        OnTurnCompleted(n);
      } else if IsItemEvent(n.kind) {
        OnItem(n);
      } else if ChangeOf(n).Some? {
        DeltasOnlyPatch(State(), n);
        OnDelta(n);
      } else if n.kind.TurnDiffUpdated? || n.kind.TurnPlanUpdated? {
        RecordsOnly(State(), n);
        OnTurnRecord(n);
      } else if n.kind.ExecOutputDelta? {
        ShellOnly(State(), n);
        OnExecOutput(n);
      } else if n.kind.Other? {
        UnknownOnly(State(), n);
        OnOther(n);
      } else {
        OthersDoNothing(State(), n);
      }
    }

    method HandleNotification(n: Notification)
      modifies this
      ensures State() == Handle(old(State()), n)
    {
      AppendEvent(Received(n));
      if !ShouldApply(activeThreadId, n) { return; }
      Dispatch(n);
    }

    // ---------- openThread and startThread ----------

    method BeginCall(call: Call)
      modifies this
      ensures State() == Switch.Begin(old(State()), call)
    {
      openThreadGeneration := openThreadGeneration + 1;
      loadingConversation := true;
      calls := calls[openThreadGeneration := call];
    }

    method FinishCall(g: nat)
      modifies this
      ensures State() == Switch.Finish(old(State()), g)
    {
      calls := map k | k in calls && k != g :: calls[k];
      if g == openThreadGeneration {
        loadingConversation := false;
      }
    }

    method FailOpen(g: nat, threadId: string)
      modifies this
      ensures State() == Switch.OpenFailure(old(State()), g, threadId)
    {
      if g == openThreadGeneration {
        AppendEvent(OpenFailed(threadId));
      }
      FinishCall(g);
    }

    method Show(g: nat, threadId: string, thread: Thread)
      modifies this
      ensures State() == Switch.Show(old(State()), g, threadId, thread)
    {
      activeThreadId := Some(threadId);
      activeThread := Some(thread);
      written := written + [Choice(g, threadId)];
    }

    /** The first response of `openThread`: the second request goes out whatever the generation is now. */
    method OnRead(g: nat, read: Option<Thread>)
      requires g in calls && calls[g].Reading?
      modifies this
      ensures State() == Switch.Step(old(State()), Switch.ReadReturned(g, read))
    {
      if read.Some? {
        calls := calls[g := Resuming(calls[g].threadId, read.value)];
      } else {
        FailOpen(g, calls[g].threadId);
      }
    }

    method OnResumed(g: nat, resumed: Option<Thread>)
      requires g in calls && calls[g].Resuming?
      modifies this
      ensures State() == Switch.Step(old(State()), Switch.ResumeReturned(g, resumed))
    {
      var threadId, read := calls[g].threadId, calls[g].read;
      if resumed.None? {
        FailOpen(g, threadId);
        return;
      }
      if g == openThreadGeneration {
        var nextThread := if resumed.value.turns != [] then resumed.value else read;
        Show(g, threadId, nextThread);
        activeTurnId := Switch.LastInProgress(nextThread.turns);
      }
      FinishCall(g);
    }

    method OnStarted(g: nat, started: Option<Thread>)
      requires g in calls && calls[g].Starting?
      modifies this
      ensures State() == Switch.Step(old(State()), Switch.StartReturned(g, started))
    {
      if started.Some? && g == openThreadGeneration {
        Show(g, started.value.id, started.value);
        UpsertThread(started.value);
      }
      FinishCall(g);
    }

    // ---------- replies, server requests and their answers ----------

    method OnTurnAccepted(turn: Turn)
      modifies this
      ensures State() == Switch.AcceptTurn(old(State()), turn)
    {
      UpsertTurn(turn);
      activeTurnId := if turn.status == IN_PROGRESS then Some(turn.id) else None;
    }

    method OnUnhandled(payload: Json)
      modifies this
      ensures State() == Switch.LogUnhandled(old(State()), payload)
    {
      AppendEvent(Unreadable(payload));
      AddUnknown(Unreadable(payload));
    }

    /** The reply to `thread/list`. */
    method ListThreads(listed: seq<Thread>)
      modifies this
      ensures State() == old(State()).(threads := listed)
    {
      threads := listed;
    }

    method StartShell(processId: string)
      modifies this
      ensures State() == old(State()).(shellProcessId := Some(processId), shellOutput := "")
    {
      shellProcessId := Some(processId);
      shellOutput := "";
    }

    method PrintToShell(text: string)
      modifies this
      ensures State() == old(State()).(shellOutput := old(shellOutput) + text)
    {
      shellOutput := shellOutput + text;
    }

    method HandleServerRequest(id: Json)
      modifies this
      ensures State() == Switch.Ask(old(State()), id)
    {
      pendingRequests := pendingRequests + [id];
      AppendEvent(Asked(id));
    }

    /** The user answers or rejects a request. */
    method RespondTo(index: nat)
      modifies this
      ensures State() == old(State()).(pendingRequests := Switch.WithoutEntry(old(pendingRequests), index))
    {
      if index >= |pendingRequests| { return; }
      pendingRequests := pendingRequests[..index] + pendingRequests[index + 1..];
    }

    /** The connection leaves `ready`, or has just become ready again. */
    method DropRequests()
      modifies this
      ensures State() == old(State()).(pendingRequests := [])
    {
      pendingRequests := [];
    }

    /** One event of the store's environment. */
    method HandleEvent(e: Switch.Event)
      requires Switch.Enabled(State(), e)
      modifies this
      ensures State() == Switch.Step(old(State()), e)
    {
      match e {
        case Notified(n) => HandleNotification(n);
        case OpenThread(threadId) => BeginCall(Reading(threadId));
        case StartThread => BeginCall(Starting);
        case ReadReturned(g, read) => OnRead(g, read);
        case ResumeReturned(g, resumed) => OnResumed(g, resumed);
        case StartReturned(g, started) => OnStarted(g, started);
        case TurnAccepted(_, turn) => OnTurnAccepted(turn);
        case ThreadsListed(listed) => ListThreads(listed);
        case Unhandled(payload) => OnUnhandled(payload);
        case ShellStarted(processId) => StartShell(processId);
        case ShellPrinted(text) => PrintToShell(text);
        case RequestAsked(id) => HandleServerRequest(id);
        case RequestAnswered(index) => RespondTo(index);
        case RequestsDropped => DropRequests();
        case Remarked(text) => AppendEvent(Remark(text));
      }
    }
  }
}
