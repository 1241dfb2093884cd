/** What every run of the store keeps: streamed text, the active turn, diffs, logs, pending requests and the
    list of threads, through notifications, thread switches, replies and server requests in any order. */
module StoreRuns {
  import opened Wrappers
  import opened Conversation
  import opened Session
  import opened ThreadSwitch
  import Base64
  import SessionStreams
  import Tail
  import Utf8
  import Utf8Pieces

  /** The event puts this thread on display. */
  function Displayed(s: Session, e: Event): Option<Thread>
    requires Enabled(s, e)
  {
    if e.ResumeReturned? && e.g == s.generation && e.resumed.Some? then
      if |e.resumed.value.turns| > 0 then e.resumed else Some(s.calls[e.g].read)
    else if e.StartReturned? && e.g == s.generation then e.started
    else None
  }

  /** The notification is handled on a thread that is on display. */
  predicate Reaches(s: Session, e: Event) {
    e.Notified? && s.activeThread.Some? && !SessionStreams.ForAnotherThread(s.activeThreadId, e.notification)
  }

  // ---------- streamed text ----------

  /** The value that an event sets a slot to, if it does not merely append to it. */
  function SetTo(s: Session, e: Event, turnId: string, itemId: string, slot: Slot): Option<string>
    requires Enabled(s, e)
  {
    if Displayed(s, e).Some? then Some(Value(Displayed(s, e).value.turns, turnId, itemId, slot))
    else if Reaches(s, e) then SessionStreams.ResetTo(e.notification, turnId, itemId, slot)
    else if e.TurnAccepted? && s.activeThread.Some? && e.turn.id == turnId
        then Some(ValueIn(e.turn.items, itemId, slot))
    else None
  }

  function Appended(s: Session, e: Event, turnId: string, itemId: string, slot: Slot): string {
    if Reaches(s, e) then SessionStreams.Delta(e.notification, turnId, itemId, slot) else ""
  }

  /** The deltas of a run, in order. */
  function DeltaText(s: Session, es: seq<Event>, turnId: string, itemId: string, slot: Slot): string
    requires IsRun(s, es)
    decreases |es|
  {
    if es == [] then ""
    else Appended(s, es[0], turnId, itemId, slot) + DeltaText(Step(s, es[0]), es[1..], turnId, itemId, slot)
  }

  predicate OnlyAppends(s: Session, es: seq<Event>, turnId: string, itemId: string, slot: Slot)
    requires IsRun(s, es)
    decreases |es|
  {
    es == []
    || (SetTo(s, es[0], turnId, itemId, slot).None? && OnlyAppends(Step(s, es[0]), es[1..], turnId, itemId, slot))
  }

  function Shows(s: Session, turnId: string, itemId: string, slot: Slot): string {
    Value(Turns(s), turnId, itemId, slot)
  }

  lemma NotificationSetsSlot(s: Session, n: Notification, turnId: string, itemId: string, slot: Slot)
    requires Streams(slot)
    ensures var reset := SetTo(s, Notified(n), turnId, itemId, slot);
            Shows(Handle(s, n), turnId, itemId, slot) ==
            if reset.Some? then reset.value
            else Shows(s, turnId, itemId, slot) + Appended(s, Notified(n), turnId, itemId, slot)
  {
    SessionStreams.HandleSetsTurns(s, n);
    if Reaches(s, Notified(n)) {
      SessionStreams.TurnsAfterSetsValue(Turns(s), n, turnId, itemId, slot);
    } else {
      assert Shows(s, turnId, itemId, slot) + "" == Shows(s, turnId, itemId, slot);
    }
  }

  lemma StepSetsTurns(s: Session, e: Event)
    requires Enabled(s, e) && !e.Notified?
    ensures Turns(Step(s, e)) ==
            if Displayed(s, e).Some? then Displayed(s, e).value.turns
            else if e.TurnAccepted? && s.activeThread.Some? then UpsertTurn(Turns(s), e.turn)
            else Turns(s)
  {
  }

  lemma StepSetsSlot(s: Session, e: Event, turnId: string, itemId: string, slot: Slot)
    requires Enabled(s, e) && Streams(slot)
    ensures var reset := SetTo(s, e, turnId, itemId, slot);
            Shows(Step(s, e), turnId, itemId, slot) ==
            if reset.Some? then reset.value else Shows(s, turnId, itemId, slot) + Appended(s, e, turnId, itemId, slot)
  {
    if e.Notified? {
      NotificationSetsSlot(s, e.notification, turnId, itemId, slot);
    } else {
      StepSetsTurns(s, e);
      if e.TurnAccepted? {
        SessionStreams.UpsertTurnFinds(Turns(s), e.turn, turnId);
      }
    }
  }

  /** Deltas accumulate: as long as nothing sets the slot, its value grows by exactly the deltas that reach it,
      in order, however they are interleaved, and whether or not its item existed. */
  lemma {:induction false} DeltasAccumulate(s: Session, es: seq<Event>, turnId: string, itemId: string, slot: Slot)
    requires Streams(slot) && IsRun(s, es) && OnlyAppends(s, es, turnId, itemId, slot)
    ensures Shows(Run(s, es), turnId, itemId, slot) == Shows(s, turnId, itemId, slot)
        + DeltaText(s, es, turnId, itemId, slot)
    decreases |es|
  {
    if es != [] {
      StepSetsSlot(s, es[0], turnId, itemId, slot);
      DeltasAccumulate(Step(s, es[0]), es[1..], turnId, itemId, slot);
      SessionStreams.Associative(Shows(s, turnId, itemId, slot), Appended(s, es[0], turnId, itemId, slot),
                                 DeltaText(Step(s, es[0]), es[1..], turnId, itemId, slot));
    }
  }

  /** A streamed slot always holds what the last event that set it said (a lifecycle payload of its item, a
      replacement of its turn or a switch of the thread), followed by all later deltas that reach it. */
  lemma StreamedContent(s: Session, e: Event, after: seq<Event>, turnId: string, itemId: string, slot: Slot)
    requires Streams(slot) && Enabled(s, e) && IsRun(Step(s, e), after)
    requires SetTo(s, e, turnId, itemId, slot).Some? && OnlyAppends(Step(s, e), after, turnId, itemId, slot)
    ensures Shows(Run(Step(s, e), after), turnId, itemId, slot) ==
            SetTo(s, e, turnId, itemId, slot).value + DeltaText(Step(s, e), after, turnId, itemId, slot)
  {
    StepSetsSlot(s, e, turnId, itemId, slot);
    DeltasAccumulate(Step(s, e), after, turnId, itemId, slot);
  }

  // ---------- the active turn ----------

  /** What an event makes the active turn, if it decides that at all. */
  function TurnDecided(s: Session, e: Event): Option<Option<string>>
    requires Enabled(s, e)
  {
    match e
    case Notified(n) =>
      if SessionStreams.ForAnotherThread(s.activeThreadId, n) then None
      else if Named(n, "turn/completed") then Some(None)
      else if Named(n, "turn/started") && n.turn.Some? then Some(Some(n.turn.value.id))
      else None
    case TurnAccepted(_, turn) => Some(if turn.status == IN_PROGRESS then Some(turn.id) else None)
    case ResumeReturned(_, _) => if Displayed(s, e).Some? then Some(LastInProgress(Displayed(s, e).value.turns))
        else None
    case _ => None
  }

  predicate NoTurnDecided(s: Session, es: seq<Event>)
    requires IsRun(s, es)
    decreases |es|
  {
    es == [] || (TurnDecided(s, es[0]).None? && NoTurnDecided(Step(s, es[0]), es[1..]))
  }

  lemma NotificationDecidesTurn(s: Session, n: Notification)
    ensures Handle(s, n).activeTurnId ==
            if TurnDecided(s, Notified(n)).Some? then TurnDecided(s, Notified(n)).value else s.activeTurnId
  {
    NamesTellKinds(n);
    SessionStreams.ScopeExactlyWhen(s.activeThreadId, n);
    ScopedIsThePattern(n.kind);
  }

  lemma StepDecidesTurn(s: Session, e: Event)
    requires Enabled(s, e)
    ensures Step(s, e).activeTurnId == if TurnDecided(s, e).Some? then TurnDecided(s, e).value else s.activeTurnId
  {
    if e.Notified? {
      NotificationDecidesTurn(s, e.notification);
    }
  }

  lemma {:induction false} ActiveTurnStays(s: Session, es: seq<Event>)
    requires IsRun(s, es) && NoTurnDecided(s, es)
    ensures Run(s, es).activeTurnId == s.activeTurnId
    decreases |es|
  {
    if es != [] {
      StepDecidesTurn(s, es[0]);
      ActiveTurnStays(Step(s, es[0]), es[1..]);
    }
  }

  /** The active turn is what the last event that decides it says: a started or completed turn in scope, an
      accepted turn, or an opened thread. */
  lemma LastDecisionHolds(s: Session, e: Event, after: seq<Event>)
    requires Enabled(s, e) && IsRun(Step(s, e), after)
    requires TurnDecided(s, e).Some? && NoTurnDecided(Step(s, e), after)
    ensures Run(Step(s, e), after).activeTurnId == TurnDecided(s, e).value
  {
    StepDecidesTurn(s, e);
    ActiveTurnStays(Step(s, e), after);
  }

  // ---------- diffs ----------

  function DiffOf(diffs: map<string, string>, turnId: string): Option<string> {
    if turnId in diffs then Some(diffs[turnId]) else None
  }

  /** The diff that an event gives for this turn. */
  function DiffGiven(s: Session, e: Event, turnId: string): Option<string> {
    if e.Notified? && !SessionStreams.ForAnotherThread(s.activeThreadId, e.notification)
       && Named(e.notification, "turn/diff/updated")
       && StringField(e.notification.params, "turnId") == turnId
    then Some(StringField(e.notification.params, "diff"))
    else None
  }

  predicate NoDiffGiven(s: Session, es: seq<Event>, turnId: string)
    requires IsRun(s, es)
    decreases |es|
  {
    es == [] || (DiffGiven(s, es[0], turnId).None? && NoDiffGiven(Step(s, es[0]), es[1..], turnId))
  }

  lemma HandleGivesDiff(s: Session, n: Notification, turnId: string)
    ensures DiffOf(Handle(s, n).turnDiffs, turnId) ==
            if DiffGiven(s, Notified(n), turnId).Some? then DiffGiven(s, Notified(n), turnId)
            else DiffOf(s.turnDiffs, turnId)
  {
    NamesTellKinds(n);
    SessionStreams.ScopeExactlyWhen(s.activeThreadId, n);
  }

  lemma StepGivesDiff(s: Session, e: Event, turnId: string)
    requires Enabled(s, e)
    ensures DiffOf(Step(s, e).turnDiffs, turnId) ==
            if DiffGiven(s, e, turnId).Some? then DiffGiven(s, e, turnId) else DiffOf(s.turnDiffs, turnId)
  {
    if e.Notified? {
      HandleGivesDiff(s, e.notification, turnId);
    }
  }

  lemma {:induction false} DiffStays(s: Session, es: seq<Event>, turnId: string)
    requires IsRun(s, es) && NoDiffGiven(s, es, turnId)
    ensures DiffOf(Run(s, es).turnDiffs, turnId) == DiffOf(s.turnDiffs, turnId)
    decreases |es|
  {
    if es != [] {
      StepGivesDiff(s, es[0], turnId);
      DiffStays(Step(s, es[0]), es[1..], turnId);
    }
  }

  /** The diff of a turn is the last one given in scope. */
  lemma LastDiffIsKept(s: Session, e: Event, after: seq<Event>, turnId: string)
    requires Enabled(s, e) && IsRun(Step(s, e), after)
    requires DiffGiven(s, e, turnId).Some? && NoDiffGiven(Step(s, e), after, turnId)
    ensures DiffOf(Run(Step(s, e), after).turnDiffs, turnId) == DiffGiven(s, e, turnId)
  {
    StepGivesDiff(s, e, turnId);
    DiffStays(Step(s, e), after, turnId);
  }

  // ---------- logs ----------

  /** What an event appends to the event log. */
  function Entry(s: Session, e: Event): seq<LogEntry>
    requires Enabled(s, e)
  {
    match e
    case Notified(n) => [Received(n)]
    case ReadReturned(g, read) => if read.None? && g == s.generation then [OpenFailed(s.calls[g].threadId)] else []
    case ResumeReturned(g, resumed) => if resumed.None? && g == s.generation then [OpenFailed(s.calls[g].threadId)]
        else []
    case RequestAsked(id) => [Asked(id)]
    case Unhandled(payload) => [Unreadable(payload)]
    case Remarked(text) => [Remark(text)]
    case _ => []
  }

  /** What an event appends to the log of unknown activity. */
  function Unknown(s: Session, e: Event): seq<LogEntry> {
    if e.Notified? && !SessionStreams.ForAnotherThread(s.activeThreadId, e.notification)
       && SessionStreams.Unrecognised(s.activeThreadId, e.notification)
    then [Received(e.notification)]
    else if e.Unhandled? then [Unreadable(e.payload)]
    else []
  }

  function Entries(s: Session, es: seq<Event>): seq<LogEntry>
    requires IsRun(s, es)
    decreases |es|
  {
    if es == [] then [] else Entry(s, es[0]) + Entries(Step(s, es[0]), es[1..])
  }

  function Unknowns(s: Session, es: seq<Event>): seq<LogEntry>
    requires IsRun(s, es)
    decreases |es|
  {
    if es == [] then [] else Unknown(s, es[0]) + Unknowns(Step(s, es[0]), es[1..])
  }

  predicate LogsInBounds(s: Session) {
    |s.terminalEvents| <= MAX_EVENTS && |s.unknownActivity| <= MAX_UNKNOWN
  }

  lemma HandleAppends(s: Session, n: Notification)
    requires LogsInBounds(s)
    ensures Handle(s, n).terminalEvents == Tail.Last(MAX_EVENTS, s.terminalEvents + [Received(n)])
    ensures Handle(s, n).unknownActivity == Tail.Last(MAX_UNKNOWN, s.unknownActivity + Unknown(s, Notified(n)))
  {
    SessionStreams.HandleLogs(s, n);
    assert s.unknownActivity + [] == s.unknownActivity;
  }

  lemma StepAppends(s: Session, e: Event)
    requires Enabled(s, e) && LogsInBounds(s)
    ensures Step(s, e).terminalEvents == Tail.Last(MAX_EVENTS, s.terminalEvents + Entry(s, e))
    ensures Step(s, e).unknownActivity == Tail.Last(MAX_UNKNOWN, s.unknownActivity + Unknown(s, e))
  {
    assert s.terminalEvents + [] == s.terminalEvents && s.unknownActivity + [] == s.unknownActivity;
    if e.Notified? {
      HandleAppends(s, e.notification);
    }
  }

  /** After any run the two logs are exactly the last 500 and the last 80 entries appended. */
  lemma {:induction false} LogsAreTails(s: Session, es: seq<Event>)
    requires IsRun(s, es) && LogsInBounds(s)
    ensures Run(s, es).terminalEvents == Tail.Last(500, s.terminalEvents + Entries(s, es))
    ensures Run(s, es).unknownActivity == Tail.Last(80, s.unknownActivity + Unknowns(s, es))
    decreases |es|
  {
    if es == [] {
      assert s.terminalEvents + Entries(s, es) == s.terminalEvents;
      assert s.unknownActivity + Unknowns(s, es) == s.unknownActivity;
    } else {
      var after := Step(s, es[0]);
      StepAppends(s, es[0]);
      LogsAreTails(after, es[1..]);
      SessionStreams.AppendThenMore(MAX_EVENTS, s.terminalEvents, Entry(s, es[0]), Entries(after, es[1..]));
      SessionStreams.AppendThenMore(MAX_UNKNOWN, s.unknownActivity, Unknown(s, es[0]), Unknowns(after, es[1..]));
    }
  }

  // ---------- pending requests ----------

  /** The request that an event reports as resolved. */
  function ResolvedBy(e: Event): set<Json> {
    if e.Notified? && Named(e.notification, "serverRequest/resolved") && "requestId" in e.notification.params
       && (e.notification.params["requestId"].Str? || e.notification.params["requestId"].Num?)
    then {e.notification.params["requestId"]}
    else {}
  }

  function ResolvedIn(es: seq<Event>): set<Json> {
    if es == [] then {} else ResolvedBy(es[0]) + ResolvedIn(es[1..])
  }

  function Outside(requests: seq<Json>, ids: set<Json>): seq<Json> {
    if requests == [] then [] else (if requests[0] in ids then [] else [requests[0]]) + Outside(requests[1..], ids)
  }

  /** The requests asked in a run and not resolved later in it. */
  function StillAsked(es: seq<Event>): seq<Json> {
    if es == [] then []
    else (if es[0].RequestAsked? && es[0].id !in ResolvedIn(es[1..]) then [es[0].id] else []) + StillAsked(es[1..])
  }

  /** The user answers nothing and the connection does not come or go. */
  predicate Unanswered(es: seq<Event>) {
    forall e :: e in es ==> !e.RequestAnswered? && !e.RequestsDropped?
  }

  lemma {:induction false} OutsideOfOne(requests: seq<Json>, id: Json, ids: set<Json>)
    ensures Outside(Unresolved(requests, id), ids) == Outside(requests, {id} + ids)
  {
    if requests != [] {
      OutsideOfOne(requests[1..], id, ids);
      var rest := Unresolved(requests[1..], id);
      assert [] + rest == rest && ([requests[0]] + rest)[1..] == rest;
    }
  }

  lemma {:induction false} OutsideOfNone(requests: seq<Json>)
    ensures Outside(requests, {}) == requests
  {
    if requests != [] {
      OutsideOfNone(requests[1..]);
      assert [requests[0]] + requests[1..] == requests;
    }
  }

  lemma {:induction false} OutsideOfConcat(a: seq<Json>, b: seq<Json>, ids: set<Json>)
    ensures Outside(a + b, ids) == Outside(a, ids) + Outside(b, ids)
  {
    if a == [] {
      assert a + b == b;
    } else {
      assert (a + b)[1..] == a[1..] + b;
      OutsideOfConcat(a[1..], b, ids);
    }
  }

  lemma HandleResolves(s: Session, n: Notification)
    ensures Handle(s, n).pendingRequests == RequestsAfter(s.pendingRequests, n)
  {
    SessionStreams.ScopeExactlyWhen(s.activeThreadId, n);
    ScopedIsThePattern(n.kind);
  }

  lemma StepResolves(s: Session, e: Event, ids: set<Json>)
    requires Enabled(s, e) && !e.RequestAnswered? && !e.RequestsDropped?
    ensures Outside(Step(s, e).pendingRequests, ids) ==
            Outside(s.pendingRequests, ResolvedBy(e) + ids) + if e.RequestAsked? && e.id !in ids then [e.id] else []
  {
    if ResolvedBy(e) == {} {
      assert {} + ids == ids;
      assert Outside(s.pendingRequests, ids) + [] == Outside(s.pendingRequests, ids);
    }
    if e.Notified? {
      NamesTellKinds(e.notification);
      HandleResolves(s, e.notification);
      if ResolvedBy(e) != {} {
        OutsideOfOne(s.pendingRequests, e.notification.params["requestId"], ids);
      }
    } else if e.RequestAsked? {
      OutsideOfConcat(s.pendingRequests, [e.id], ids);
      assert [e.id][1..] == [];
    }
  }

  lemma Regroup(a: seq<Json>, b: seq<Json>, c: seq<Json>)
    ensures a + b + c == a + (b + c)
  {
  }

  lemma FirstUnanswered(es: seq<Event>)
    requires Unanswered(es) && es != []
    ensures !es[0].RequestAnswered? && !es[0].RequestsDropped? && Unanswered(es[1..])
  {
  }

  /** Until the user answers or the connection comes or goes, exactly the requests that were resolved disappear,
      and the others keep their order, the newer ones last. */
  lemma {:induction false} ExactlyTheResolvedDisappear(s: Session, es: seq<Event>)
    requires IsRun(s, es) && Unanswered(es)
    ensures Run(s, es).pendingRequests == Outside(s.pendingRequests, ResolvedIn(es)) + StillAsked(es)
    decreases |es|
  {
    if es == [] {
      OutsideOfNone(s.pendingRequests);
    } else {
      FirstUnanswered(es);
      var asked := if es[0].RequestAsked? && es[0].id !in ResolvedIn(es[1..]) then [es[0].id] else [];
      StepResolves(s, es[0], ResolvedIn(es[1..]));
      ExactlyTheResolvedDisappear(Step(s, es[0]), es[1..]);
      Regroup(Outside(s.pendingRequests, ResolvedIn(es)), asked, StillAsked(es[1..]));
    }
  }

  /** When the connection comes or goes, what is pending afterwards is only what was asked since and not resolved. */
  lemma DroppedRequestsAreGone(s: Session, es: seq<Event>)
    requires IsRun(Step(s, RequestsDropped), es) && Unanswered(es)
    ensures Run(Step(s, RequestsDropped), es).pendingRequests == StillAsked(es)
  {
    ExactlyTheResolvedDisappear(Step(s, RequestsDropped), es);
    assert [] + StillAsked(es) == StillAsked(es);
  }

  // ---------- the list of threads ----------

  ghost predicate DistinctThreads(threads: seq<Thread>) {
    forall j, k :: 0 <= j < k < |threads| ==> threads[j].id != threads[k].id
  }

  lemma UpsertKeepsThreads(threads: seq<Thread>, thread: Thread)
    requires DistinctThreads(threads)
    ensures DistinctThreads(UpsertThread(threads, thread)) && thread in UpsertThread(threads, thread)
    ensures forall t :: t in threads && t.id != thread.id ==> t in UpsertThread(threads, thread)
  {
    var i, after := ThreadIndex(threads, thread.id), UpsertThread(threads, thread);
    if i < |threads| {
      assert after[i] == thread;
      forall t | t in threads && t.id != thread.id ensures t in after {
        var k :| 0 <= k < |threads| && threads[k] == t;
        assert after[k] == t;
      }
    } else {
      assert after[0] == thread;
      assert forall k :: 0 <= k < |threads| ==> after[k + 1] == threads[k];
    }
  }

  lemma StatusesKeepThreads(threads: seq<Thread>, id: string, status: Json)
    requires DistinctThreads(threads)
    ensures DistinctThreads(SetStatuses(threads, id, status))
  {
    var after := SetStatuses(threads, id, status);
    assert forall k :: 0 <= k < |threads| ==> after[k].id == threads[k].id;
  }

  lemma StepKeepsThreads(s: Session, e: Event)
    requires DistinctThreads(s.threads) && Enabled(s, e) && (e.ThreadsListed? ==> DistinctThreads(e.threads))
    ensures DistinctThreads(Step(s, e).threads)
  {
    match e {
      case Notified(n) =>
        assert Handle(s, n).threads == s.threads || Handle(s, n).threads == ThreadsAfter(s.threads, n);
        if n.thread.Some? {
          UpsertKeepsThreads(s.threads, n.thread.value);
        }
        if SetsStatus(n) {
          StatusesKeepThreads(s.threads, StringField(n.params, "threadId"), n.params["status"]);
        }
      case StartReturned(g, started) =>
        if started.Some? {
          UpsertKeepsThreads(s.threads, started.value);
        }
      case ThreadsListed(_) =>
      case _ =>
        assert Step(s, e).threads == s.threads;
    }
  }

  ghost predicate ListsDistinct(es: seq<Event>) {
    es == [] || ((es[0].ThreadsListed? ==> DistinctThreads(es[0].threads)) && ListsDistinct(es[1..]))
  }

  /** Thread ids stay free of duplicates over every run whose thread lists are. */
  lemma {:induction false} RunKeepsThreads(s: Session, es: seq<Event>)
    requires DistinctThreads(s.threads) && IsRun(s, es) && ListsDistinct(es)
    ensures DistinctThreads(Run(s, es).threads)
    decreases |es|
  {
    if es != [] {
      StepKeepsThreads(s, es[0]);
      RunKeepsThreads(Step(s, es[0]), es[1..]);
    }
  }

  // ---------- shell output ----------

  /** The output deltas of one shell process, in order. */
  function ShellDeltas(processId: Option<string>, es: seq<Event>): seq<string> {
    if es == [] then []
    else
      (if es[0].Notified? && SessionStreams.FromShell(processId, es[0].notification)
       then [StringField(es[0].notification.params, "deltaBase64")] else [])
      + ShellDeltas(processId, es[1..])
  }

  /** No command starts, and none returns its output in one piece. */
  predicate OnlyStreams(es: seq<Event>) {
    es == [] || (!es[0].ShellStarted? && !es[0].ShellPrinted? && OnlyStreams(es[1..]))
  }

  lemma StepStreams(s: Session, e: Event)
    requires Enabled(s, e) && !e.ShellStarted? && !e.ShellPrinted?
    ensures Step(s, e).shellProcessId == s.shellProcessId
    ensures Step(s, e).shellOutput == SessionStreams.ShellText(s.shellOutput, ShellDeltas(s.shellProcessId, [e]))
  {
    assert [e][1..] == [];
    if e.Notified? {
      SessionStreams.HandleShell(s, e.notification);
      var delta := StringField(e.notification.params, "deltaBase64");
      assert [delta][1..] == [] && [delta] + [] == [delta];
    }
  }

  lemma {:induction false} ShellTextConcat(output: string, a: seq<string>, b: seq<string>)
    ensures SessionStreams.ShellText(output, a + b) == SessionStreams.ShellText(SessionStreams.ShellText(output, a), b)
    decreases |a|
  {
    if a == [] {
      assert a + b == b;
    } else {
      assert (a + b)[1..] == a[1..] + b;
      ShellTextConcat(ExecOutput(output, a[0]), a[1..], b);
    }
  }

  /** Only the shell process's own deltas reach its output. */
  lemma {:induction false} ShellOutputIsTheDeltas(s: Session, es: seq<Event>)
    requires IsRun(s, es) && OnlyStreams(es)
    ensures Run(s, es).shellOutput == SessionStreams.ShellText(s.shellOutput, ShellDeltas(s.shellProcessId, es))
    decreases |es|
  {
    if es != [] {
      StepStreams(s, es[0]);
      ShellOutputIsTheDeltas(Step(s, es[0]), es[1..]);
      var first, rest := ShellDeltas(s.shellProcessId, [es[0]]), ShellDeltas(s.shellProcessId, es[1..]);
      assert [es[0]][1..] == [] && first + [] == first;
      ShellTextConcat(s.shellOutput, first, rest);
      assert ShellDeltas(s.shellProcessId, es) == first + rest;
    }
  }

  /** Let the deltas of a command carry the bytes of a text, cut anywhere. After the command has started and any
      events but further commands, the shell shows the text exactly when no delta starts inside a character and
      none starts with a byte order mark. */
  lemma ShellShowsTheTextExactlyWhen(s: Session, id: string, es: seq<Event>, pieces: seq<seq<Byte>>, text: string)
    requires IsRun(Step(s, ShellStarted(id)), es) && OnlyStreams(es)
    requires ShellDeltas(Some(id), es) == Base64.Encoded(pieces) && Utf8Pieces.Flat(pieces) == Utf8.Encode(text)
    ensures Run(Step(s, ShellStarted(id)), es).shellOutput == text <==> Utf8Pieces.CleanCuts(pieces)
  {
    ShellOutputIsTheDeltas(Step(s, ShellStarted(id)), es);
    SessionStreams.DeltasShowPieces("", pieces);
    assert "" + Utf8Pieces.DecodedPieces(pieces) == Utf8Pieces.DecodedPieces(pieces);
    Utf8Pieces.PiecesDecodeExactlyWhen(pieces, text);
  }

  /** What an event adds to the shell's output: a delta of its process, or the output of a command that returns it in
      one piece. */
  function Printed(processId: Option<string>, e: Event): string {
    if e.ShellPrinted? then e.text
    else if e.Notified? && SessionStreams.FromShell(processId, e.notification)
    then ExecOutput("", StringField(e.notification.params, "deltaBase64"))
    else ""
  }

  function AllPrinted(processId: Option<string>, es: seq<Event>): string {
    if es == [] then "" else Printed(processId, es[0]) + AllPrinted(processId, es[1..])
  }

  lemma StepPrints(s: Session, e: Event)
    requires Enabled(s, e) && !e.ShellStarted?
    ensures Step(s, e).shellProcessId == s.shellProcessId
    ensures Step(s, e).shellOutput == s.shellOutput + Printed(s.shellProcessId, e)
  {
    assert s.shellOutput + "" == s.shellOutput;
    if e.Notified? {
      SessionStreams.HandleShell(s, e.notification);
      DeltaIsPrinted(s.shellOutput, StringField(e.notification.params, "deltaBase64"));
    } else {
      OthersPrintNothing(s, e);
    }
  }

  lemma DeltaIsPrinted(output: string, delta: string)
    ensures ExecOutput(output, delta) == output + ExecOutput("", delta)
  {
    var text := Base64.DecodeBase64Utf8(delta);
    assert "" + (if text.Some? then text.value else UNREADABLE) == if text.Some? then text.value else UNREADABLE;
  }

  lemma OthersPrintNothing(s: Session, e: Event)
    requires Enabled(s, e) && !e.ShellStarted? && !e.Notified?
    ensures Step(s, e).shellProcessId == s.shellProcessId
    ensures Step(s, e).shellOutput == if e.ShellPrinted? then s.shellOutput + e.text else s.shellOutput
  {
  }

  /** The output of a command is everything printed since it started, in order. */
  lemma {:induction false} OutputIsWhatWasPrinted(s: Session, es: seq<Event>)
    requires IsRun(s, es) && forall e :: e in es ==> !e.ShellStarted?
    ensures Run(s, es).shellOutput == s.shellOutput + AllPrinted(s.shellProcessId, es)
    decreases |es|
  {
    if es == [] {
      assert s.shellOutput + "" == s.shellOutput;
    } else {
      StepPrints(s, es[0]);
      OutputIsWhatWasPrinted(Step(s, es[0]), es[1..]);
      SessionStreams.Associative(s.shellOutput, Printed(s.shellProcessId, es[0]),
                                 AllPrinted(s.shellProcessId, es[1..]));
    }
  }

  // ---------- other threads ----------

  /** The event is about a thread that is not on display: a turn or item notification out of scope, or the reply
      to a request that was made for another thread. */
  predicate Foreign(s: Session, e: Event) {
    || (e.Notified? && SessionStreams.ForAnotherThread(s.activeThreadId, e.notification))
    || (e.TurnAccepted? && s.activeThreadId != Some(e.threadId))
  }

  /** The run without its foreign events. */
  function OnDisplay(s: Session, es: seq<Event>): seq<Event>
    requires IsRun(s, es)
    decreases |es|
  {
    if es == [] then [] else (if Foreign(s, es[0]) then [] else [es[0]]) + OnDisplay(Step(s, es[0]), es[1..])
  }

  function Unlogged(s: Session): Session {
    SessionStreams.Unlogged(s)
  }

  predicate IsResponse(e: Event) {
    e.ReadReturned? || e.ResumeReturned? || e.StartReturned?
  }

  lemma UnloggedFailure(s: Session, g: nat, threadId: string)
    ensures Unlogged(OpenFailure(s, g, threadId)) == Unlogged(OpenFailure(Unlogged(s), g, threadId))
  {
  }

  lemma UnloggedSuccess(s: Session, g: nat, threadId: string, thread: Thread)
    ensures Unlogged(OpenSuccess(s, g, threadId, thread)) == Unlogged(OpenSuccess(Unlogged(s), g, threadId, thread))
  {
  }

  lemma UnloggedStart(s: Session, g: nat, thread: Thread)
    ensures Unlogged(StartSuccess(s, g, thread)) == Unlogged(StartSuccess(Unlogged(s), g, thread))
  {
  }

  lemma UnloggedResponse(s: Session, e: Event)
    requires Enabled(s, e) && IsResponse(e)
    ensures Enabled(Unlogged(s), e) && Unlogged(Step(s, e)) == Unlogged(Step(Unlogged(s), e))
  {
    match e {
      case ReadReturned(g, read) =>
        if read.None? { UnloggedFailure(s, g, s.calls[g].threadId); }
      case ResumeReturned(g, resumed) =>
        if resumed.Some? {
          UnloggedSuccess(s, g, s.calls[g].threadId, Chosen(s.calls[g].read, resumed.value));
        } else {
          UnloggedFailure(s, g, s.calls[g].threadId);
        }
      case StartReturned(g, started) =>
        if started.Some? { UnloggedStart(s, g, started.value); }
    }
  }

  lemma UnloggedOther(s: Session, e: Event)
    requires Enabled(s, e) && !IsResponse(e) && !e.Notified?
    ensures Enabled(Unlogged(s), e) && Unlogged(Step(s, e)) == Unlogged(Step(Unlogged(s), e))
  {
  }

  lemma UnloggedStep(s: Session, e: Event)
    requires Enabled(s, e)
    ensures Enabled(Unlogged(s), e) && Unlogged(Step(s, e)) == Unlogged(Step(Unlogged(s), e))
  {
    if e.Notified? {
      SessionStreams.HandleIgnoresLog(s, Unlogged(s), e.notification);
    } else if IsResponse(e) {
      UnloggedResponse(s, e);
    } else {
      UnloggedOther(s, e);
    }
  }

  lemma SameStep(s: Session, t: Session, e: Event)
    requires Unlogged(s) == Unlogged(t) && Enabled(s, e)
    ensures Enabled(t, e) && Unlogged(Step(s, e)) == Unlogged(Step(t, e)) && (Foreign(s, e) <==> Foreign(t, e))
  {
    UnloggedStep(s, e);
    assert t.calls == Unlogged(t).calls && t.activeThreadId == Unlogged(t).activeThreadId;
    assert s.calls == Unlogged(s).calls && s.activeThreadId == Unlogged(s).activeThreadId;
    UnloggedStep(t, e);
  }

  /** The reply brings nothing new: its turn is already there as it is, and the active turn already what it says. */
  predicate BringsNothing(s: Session, turn: Turn) {
    && s.activeTurnId == (if turn.status == IN_PROGRESS then Some(turn.id) else None)
    && (s.activeThread.Some? ==>
          TurnIndex(Turns(s), turn.id) < |Turns(s)| && Turns(s)[TurnIndex(Turns(s), turn.id)] == turn)
  }

  lemma UpsertChangesNothingExactlyWhen(turns: seq<Turn>, turn: Turn)
    ensures UpsertTurn(turns, turn) == turns <==>
            TurnIndex(turns, turn.id) < |turns| && turns[TurnIndex(turns, turn.id)] == turn
  {
    var i := TurnIndex(turns, turn.id);
    if i < |turns| && UpsertTurn(turns, turn) == turns {
      assert turns[i := turn][i] == turn;
    }
  }

  /** A foreign event changes something beside the event log exactly when it is a reply that brings something
      new: replies are put into whatever thread is on display. */
  lemma ForeignEventsInterfereExactlyWhen(s: Session, e: Event)
    requires Enabled(s, e) && Foreign(s, e)
    ensures Unlogged(Step(s, e)) == Unlogged(s) <==> (e.TurnAccepted? ==> BringsNothing(s, e.turn))
  {
    if e.Notified? {
      SessionStreams.HandleIgnoresLog(s, s, e.notification);
    } else {
      UpsertChangesNothingExactlyWhen(Turns(s), e.turn);
      AcceptedChangesNothingExactlyWhen(s, e.turn);
    }
  }

  lemma AcceptedChangesNothingExactlyWhen(s: Session, turn: Turn)
    ensures AcceptTurn(s, turn) == s <==>
            && s.activeTurnId == (if turn.status == IN_PROGRESS then Some(turn.id) else None)
            && (s.activeThread.Some? ==> UpsertTurn(Turns(s), turn) == Turns(s))
    ensures Unlogged(AcceptTurn(s, turn)) == Unlogged(s) <==> AcceptTurn(s, turn) == s
  {
    var after := AcceptTurn(s, turn);
    assert after.terminalEvents == s.terminalEvents;
    assert Unlogged(after).(terminalEvents := s.terminalEvents) == after;
    assert Unlogged(s).(terminalEvents := s.terminalEvents) == s;
    if s.activeThread.Some? {
      assert after.activeThread.value.turns == UpsertTurn(Turns(s), turn);
      assert s.activeThread.value.(turns := Turns(s)) == s.activeThread.value;
    }
  }

  /** Every foreign reply of the run brings nothing new. */
  predicate NoReplyGoesAstray(s: Session, es: seq<Event>)
    requires IsRun(s, es)
    decreases |es|
  {
    es == []
    || ((Foreign(s, es[0]) && es[0].TurnAccepted? ==> BringsNothing(s, es[0].turn))
        && NoReplyGoesAstray(Step(s, es[0]), es[1..]))
  }

  /** The run and the one without its foreign events agree, the event log aside, at every moment. */
  ghost predicate AgreeThroughout(s: Session, t: Session, es: seq<Event>)
    requires IsRun(s, es)
    decreases |es|
  {
    && Unlogged(s) == Unlogged(t)
    && (es != [] ==>
          if Foreign(s, es[0]) then AgreeThroughout(Step(s, es[0]), t, es[1..])
          else Enabled(t, es[0]) && AgreeThroughout(Step(s, es[0]), Step(t, es[0]), es[1..]))
  }

  /** Other threads do not interfere with the one on display exactly when no reply to a request for another
      thread brings something new. */
  lemma {:induction false} OtherThreadsDoNotInterfereExactlyWhen(s: Session, t: Session, es: seq<Event>)
    requires IsRun(s, es) && Unlogged(s) == Unlogged(t)
    ensures AgreeThroughout(s, t, es) <==> NoReplyGoesAstray(s, es)
    decreases |es|
  {
    if es != [] {
      var e, after := es[0], Step(s, es[0]);
      if Foreign(s, e) {
        ForeignEventsInterfereExactlyWhen(s, e);
        if Unlogged(after) == Unlogged(t) {
          OtherThreadsDoNotInterfereExactlyWhen(after, t, es[1..]);
        }
      } else {
        SameStep(s, t, e);
        OtherThreadsDoNotInterfereExactlyWhen(after, Step(t, e), es[1..]);
      }
    }
  }

  /** Agreement throughout means that the run without its foreign events is a run, with the same outcome. */
  lemma {:induction false} AgreementIsTheSameOutcome(s: Session, t: Session, es: seq<Event>)
    requires IsRun(s, es) && AgreeThroughout(s, t, es)
    ensures IsRun(t, OnDisplay(s, es)) && Unlogged(Run(t, OnDisplay(s, es))) == Unlogged(Run(s, es))
    decreases |es|
  {
    if es != [] {
      var rest := OnDisplay(Step(s, es[0]), es[1..]);
      if Foreign(s, es[0]) {
        AgreementIsTheSameOutcome(Step(s, es[0]), t, es[1..]);
        assert [] + rest == rest;
      } else {
        AgreementIsTheSameOutcome(Step(s, es[0]), Step(t, es[0]), es[1..]);
        assert ([es[0]] + rest)[1..] == rest;
      }
    }
  }
}
