/** The store as a state machine. Of overlapping `openThread` and `startThread` calls the generation counter
    decides whose result is shown. */
module ThreadSwitch {
  import opened Wrappers
  import opened Conversation
  import opened Session
  import SessionStreams

  /** A call is named by the generation it was given. A response without a thread is a rejection. */
  datatype Event =
    | Notified(notification: Notification)
    | OpenThread(threadId: string)
    | StartThread
    | ReadReturned(g: nat, read: Option<Thread>)
    | ResumeReturned(g: nat, resumed: Option<Thread>)
    | StartReturned(g: nat, started: Option<Thread>)
    | TurnAccepted(threadId: string, turn: Turn) // the reply to `turn/start` or `review/start` for this thread
    | ThreadsListed(threads: seq<Thread>)
    | Unhandled(payload: Json)
    | ShellStarted(processId: string)
    | ShellPrinted(text: string)
    | RequestAsked(id: Json)
    | RequestAnswered(index: nat)
    | RequestsDropped
    | Remarked(text: string)

  function Without(calls: map<nat, Call>, g: nat): map<nat, Call> {
    map k | k in calls && k != g :: calls[k]
  }

  function Begin(s: Session, call: Call): Session {
    s.(generation := s.generation + 1, loading := true, calls := s.calls[s.generation + 1 := call])
  }

  /** `findActiveTurn` */
  function LastInProgress(turns: seq<Turn>): Option<string> {
    if turns == [] then None
    else if turns[|turns| - 1].status == IN_PROGRESS then Some(turns[|turns| - 1].id)
    else LastInProgress(turns[..|turns| - 1])
  }

  function Chosen(read: Thread, resumed: Thread): Thread {
    if resumed.turns != [] then resumed else read
  }

  /** The `finally` clauses, and the end of the call. */
  function Finish(s: Session, g: nat): Session {
    s.(calls := Without(s.calls, g), loading := s.loading && g != s.generation)
  }

  function Show(s: Session, g: nat, threadId: string, thread: Thread): Session {
    s.(activeThreadId := Some(threadId), activeThread := Some(thread), written := s.written + [Choice(g, threadId)])
  }

  function OpenFailure(s: Session, g: nat, threadId: string): Session {
    Finish(if g == s.generation then AppendEvent(s, OpenFailed(threadId)) else s, g)
  }

  function OpenSuccess(s: Session, g: nat, threadId: string, thread: Thread): Session {
    Finish(if g == s.generation then Show(s, g, threadId, thread).(activeTurnId := LastInProgress(thread.turns))
        else s, g)
  }

  function StartSuccess(s: Session, g: nat, thread: Thread): Session {
    Finish(if g == s.generation then Show(s, g, thread.id, thread).(threads := UpsertThread(s.threads, thread))
        else s, g)
  }

  predicate Enabled(s: Session, e: Event) {
    match e
    case ReadReturned(g, _) => g in s.calls && s.calls[g].Reading?
    case ResumeReturned(g, _) => g in s.calls && s.calls[g].Resuming?
    case StartReturned(g, _) => g in s.calls && s.calls[g].Starting?
    case _ => true
  }

  /** The turn goes to the thread on display, whichever that is. */
  function AcceptTurn(s: Session, turn: Turn): Session {
    s.(activeThread := WithTurns(s.activeThread, UpsertTurn(Turns(s), turn)),
       activeTurnId := if turn.status == IN_PROGRESS then Some(turn.id) else None)
  }

  /** `handleServerRequest` */
  function Ask(s: Session, id: Json): Session {
    AppendEvent(s.(pendingRequests := s.pendingRequests + [id]), Asked(id))
  }

  /** A message that is neither a response, a request nor a notification, or answers nothing, is logged twice. */
  function LogUnhandled(s: Session, payload: Json): Session {
    AppendEvent(s.(unknownActivity := AddUnknown(s.unknownActivity, Unreadable(payload))), Unreadable(payload))
  }

  function WithoutEntry(requests: seq<Json>, index: nat): seq<Json> {
    if index < |requests| then requests[..index] + requests[index + 1..] else requests
  }

  function Step(s: Session, e: Event): Session
    requires Enabled(s, e)
  {
    match e
    case Notified(n) => Handle(s, n)
    case OpenThread(threadId) => Begin(s, Reading(threadId))
    case StartThread => Begin(s, Starting)
    case ReadReturned(g, read) =>
      if read.Some? then s.(calls := s.calls[g := Resuming(s.calls[g].threadId, read.value)])
      else OpenFailure(s, g, s.calls[g].threadId)
    case ResumeReturned(g, resumed) =>
      if resumed.Some? then OpenSuccess(s, g, s.calls[g].threadId, Chosen(s.calls[g].read, resumed.value))
      else OpenFailure(s, g, s.calls[g].threadId)
    case StartReturned(g, started) =>
      if started.Some? then StartSuccess(s, g, started.value) else Finish(s, g)
    case TurnAccepted(_, turn) => AcceptTurn(s, turn)
    case ThreadsListed(threads) => s.(threads := threads)
    case Unhandled(payload) => LogUnhandled(s, payload)
    case ShellStarted(processId) => s.(shellProcessId := Some(processId), shellOutput := "")
    case ShellPrinted(text) => s.(shellOutput := s.shellOutput + text)
    case RequestAsked(id) => Ask(s, id)
    case RequestAnswered(index) => s.(pendingRequests := WithoutEntry(s.pendingRequests, index))
    case RequestsDropped => s.(pendingRequests := [])
    case Remarked(text) => AppendEvent(s, Remark(text))
  }

  predicate IsRun(s: Session, es: seq<Event>)
    decreases |es|
  {
    es == [] || (Enabled(s, es[0]) && IsRun(Step(s, es[0]), es[1..]))
  }

  function Run(s: Session, es: seq<Event>): Session
    requires IsRun(s, es)
    decreases |es|
  {
    if es == [] then s else Run(Step(s, es[0]), es[1..])
  }

  // ---------- the invariant ----------

  ghost predicate Increasing(written: seq<Choice>) {
    forall j, k :: 0 <= j < k < |written| ==> written[j].generation < written[k].generation
  }

  /** Everything the arbitration keeps. */
  ghost predicate Arbitrated(s: Session) {
    && (forall g :: g in s.calls ==> 1 <= g <= s.generation)
    && (s.loading <==> s.generation in s.calls)
    && Increasing(s.written)
    && (forall k :: 0 <= k < |s.written| ==>
          1 <= s.written[k].generation <= s.generation && s.written[k].generation !in s.calls)
    && (s.written != [] ==> s.activeThreadId == Some(s.written[|s.written| - 1].threadId))
  }

  /** The store before any call. The remembered thread id may be set. */
  predicate Initial(s: Session) {
    s.generation == 0 && !s.loading && s.calls == map[] && s.written == []
  }

  lemma BeginKeeps(s: Session, call: Call)
    requires Arbitrated(s)
    ensures Arbitrated(Begin(s, call))
  {
  }

  lemma FinishKeeps(s: Session, g: nat)
    requires Arbitrated(s)
    ensures Arbitrated(Finish(s, g))
  {
  }

  /** Showing a result and finishing the call, once the call is known to be the newest. */
  lemma ShowKeeps(s: Session, threadId: string, thread: Thread)
    requires Arbitrated(s) && s.generation in s.calls
    ensures Arbitrated(Finish(Show(s, s.generation, threadId, thread), s.generation))
  {
  }

  lemma SameArbitration(s: Session, t: Session)
    requires Arbitrated(s)
    requires t.generation == s.generation && t.loading == s.loading && t.calls == s.calls && t.written == s.written
    requires t.activeThreadId == s.activeThreadId
    ensures Arbitrated(t)
  {
  }

  lemma StepKeepsArbitrated(s: Session, e: Event)
    requires Arbitrated(s) && Enabled(s, e)
    ensures Arbitrated(Step(s, e))
  {
    match e {
      case Notified(n) =>
        NotificationsDoNotArbitrate(s, n);
        SameArbitration(s, Handle(s, n));
      case OpenThread(threadId) =>
        BeginKeeps(s, Reading(threadId));
      case StartThread =>
        BeginKeeps(s, Starting);
      case ReadReturned(g, read) =>
        if read.None? {
          FailureKeeps(s, g, s.calls[g].threadId);
        }
      case ResumeReturned(g, resumed) =>
        if resumed.Some? {
          OpenSuccessKeeps(s, g, s.calls[g].threadId, Chosen(s.calls[g].read, resumed.value));
        } else {
          FailureKeeps(s, g, s.calls[g].threadId);
        }
      case StartReturned(g, started) =>
        if started.Some? {
          StartSuccessKeeps(s, g, started.value);
        } else {
          FinishKeeps(s, g);
        }
      case _ =>
        SameArbitration(s, Step(s, e));
    }
  }

  lemma NotificationsDoNotArbitrate(s: Session, n: Notification)
    ensures var t := Handle(s, n);
            && t.generation == s.generation && t.loading == s.loading && t.calls == s.calls && t.written == s.written
            && t.activeThreadId == s.activeThreadId
  {
  }

  lemma FailureKeeps(s: Session, g: nat, threadId: string)
    requires Arbitrated(s)
    ensures Arbitrated(OpenFailure(s, g, threadId))
  {
    FinishKeeps(s, g);
    SameArbitration(Finish(s, g), OpenFailure(s, g, threadId));
  }

  lemma OpenSuccessKeeps(s: Session, g: nat, threadId: string, thread: Thread)
    requires Arbitrated(s) && g in s.calls
    ensures Arbitrated(OpenSuccess(s, g, threadId, thread))
  {
    if g == s.generation {
      ShowKeeps(s, threadId, thread);
      SameArbitration(Finish(Show(s, g, threadId, thread), g), OpenSuccess(s, g, threadId, thread));
    } else {
      FinishKeeps(s, g);
    }
  }

  lemma StartSuccessKeeps(s: Session, g: nat, thread: Thread)
    requires Arbitrated(s) && g in s.calls
    ensures Arbitrated(StartSuccess(s, g, thread))
  {
    if g == s.generation {
      ShowKeeps(s, thread.id, thread);
      SameArbitration(Finish(Show(s, g, thread.id, thread), g), StartSuccess(s, g, thread));
    } else {
      FinishKeeps(s, g);
    }
  }

  lemma {:induction false} RunKeepsArbitrated(s: Session, es: seq<Event>)
    requires Arbitrated(s) && IsRun(s, es)
    ensures Arbitrated(Run(s, es))
    decreases |es|
  {
    if es != [] {
      StepKeepsArbitrated(s, es[0]);
      RunKeepsArbitrated(Step(s, es[0]), es[1..]);
    }
  }

  /** For any overlapping calls and any order of responses: the generations that were put on display are
      strictly increasing, the last of them is on display, and the store is loading exactly while the newest
      call is in flight. */
  lemma LastWriterWins(s: Session, es: seq<Event>)
    requires Initial(s) && IsRun(s, es)
    ensures var t := Run(s, es);
            && Increasing(t.written)
            && (t.written != [] ==> t.activeThreadId == Some(t.written[|t.written| - 1].threadId))
            && (t.loading <==> t.generation in t.calls)
  {
    RunKeepsArbitrated(s, es);
  }

  ghost predicate IsLastInProgress(turns: seq<Turn>, k: nat) {
    k < |turns| && turns[k].status == IN_PROGRESS && forall j :: k < j < |turns| ==> turns[j].status != IN_PROGRESS
  }

  lemma LastInPrefix(turns: seq<Turn>, n: nat, k: nat)
    requires |turns| == n + 1 && turns[n].status != IN_PROGRESS
    ensures IsLastInProgress(turns[..n], k) <==> IsLastInProgress(turns, k)
  {
    assert forall j :: 0 <= j < n ==> turns[..n][j] == turns[j];
    if IsLastInProgress(turns[..n], k) {
      assert forall j :: k < j < n ==> turns[..n][j].status != IN_PROGRESS;
    }
  }

  /** The turn that opening a thread makes active: the last one that is in progress, if any is. */
  lemma {:induction false} LastInProgressExactlyWhen(turns: seq<Turn>, id: string)
    ensures LastInProgress(turns) == Some(id) <==> exists k: nat :: IsLastInProgress(turns, k) && turns[k].id == id
  {
    if turns != [] {
      var n: nat := |turns| - 1;
      if turns[n].status == IN_PROGRESS {
        assert IsLastInProgress(turns, n);
      } else {
        LastInProgressExactlyWhen(turns[..n], id);
        if k: nat :| IsLastInProgress(turns[..n], k) && turns[..n][k].id == id {
          LastInPrefix(turns, n, k);
        }
        if k: nat :| IsLastInProgress(turns, k) && turns[k].id == id {
          LastInPrefix(turns, n, k);
          assert turns[..n][k] == turns[k];
        }
      }
    }
  }

  // ---------- stale responses ----------

  function GenerationOf(e: Event): Option<nat> {
    match e
    case ReadReturned(g, _) => Some(g)
    case ResumeReturned(g, _) => Some(g)
    case StartReturned(g, _) => Some(g)
    case _ => None
  }

  /** What the user sees: everything but the calls in flight. */
  function Shown(s: Session): Session {
    s.(calls := map[])
  }

  /** The response of a superseded call changes nothing on display, whether it succeeded or failed. */
  lemma StaleResponsesAreInert(s: Session, e: Event)
    requires Arbitrated(s) && Enabled(s, e)
    requires GenerationOf(e).Some? && GenerationOf(e).value != s.generation
    ensures Shown(Step(s, e)) == Shown(s)
  {
  }

  // ---------- which calls write ----------

  /** The response that makes the call of generation `g` succeed. */
  predicate Succeeds(e: Event, g: nat) {
    (e.ResumeReturned? && e.g == g && e.resumed.Some?) || (e.StartReturned? && e.g == g && e.started.Some?)
  }

  predicate Begins(e: Event) {
    e.OpenThread? || e.StartThread?
  }

  predicate NoneBegins(es: seq<Event>) {
    es == [] || (!Begins(es[0]) && NoneBegins(es[1..]))
  }

  predicate SomeSucceeds(es: seq<Event>, g: nat) {
    es != [] && (Succeeds(es[0], g) || SomeSucceeds(es[1..], g))
  }

  function Generations(written: seq<Choice>): seq<nat> {
    seq(|written|, i requires 0 <= i < |written| => written[i].generation)
  }

  function WrittenGenerations(s: Session): seq<nat> {
    Generations(s.written)
  }

  /** What a step puts on display. */
  function ChoiceOf(s: Session, e: Event): seq<Choice>
    requires Enabled(s, e)
  {
    if !Succeeds(e, s.generation) then []
    else if e.ResumeReturned? then [Choice(s.generation, s.calls[s.generation].threadId)]
    else [Choice(s.generation, e.started.value.id)]
  }

  lemma StepRecords(s: Session, e: Event)
    requires Enabled(s, e)
    ensures Step(s, e).written == s.written + ChoiceOf(s, e)
    ensures Step(s, e).generation == s.generation + if Begins(e) then 1 else 0
  {
    if e.Notified? {
      NotificationsDoNotArbitrate(s, e.notification);
    }
  }

  lemma StepEndsCalls(s: Session, e: Event)
    requires Enabled(s, e)
    ensures s.generation !in s.calls && !Begins(e) ==> s.generation !in Step(s, e).calls
    ensures Succeeds(e, s.generation) ==> s.generation !in Step(s, e).calls
  {
    if e.Notified? {
      NotificationsDoNotArbitrate(s, e.notification);
    }
  }

  lemma StepWrites(s: Session, e: Event)
    requires Enabled(s, e)
    ensures Step(s, e).generation == s.generation + if Begins(e) then 1 else 0
    ensures WrittenGenerations(Step(s, e)) == WrittenGenerations(s) + if Succeeds(e, s.generation) then [s.generation]
        else []
  {
    StepRecords(s, e);
    GenerationsConcat(s.written, ChoiceOf(s, e));
    assert Generations(ChoiceOf(s, e)) == if Succeeds(e, s.generation) then [s.generation] else [];
  }

  lemma GenerationsConcat(a: seq<Choice>, b: seq<Choice>)
    ensures Generations(a + b) == Generations(a) + Generations(b)
  {
  }

  lemma NothingToSucceed(s: Session, e: Event)
    requires Enabled(s, e) && s.generation !in s.calls
    ensures !Succeeds(e, s.generation)
  {
  }

  lemma {:induction false} FinishedCallsWriteNoMore(s: Session, es: seq<Event>)
    requires IsRun(s, es) && NoneBegins(es) && s.generation !in s.calls
    ensures Run(s, es).generation == s.generation
    ensures WrittenGenerations(Run(s, es)) == WrittenGenerations(s)
    ensures !SomeSucceeds(es, s.generation)
    decreases |es|
  {
    if es != [] {
      StepWrites(s, es[0]);
      StepEndsCalls(s, es[0]);
      NothingToSucceed(s, es[0]);
      FinishedCallsWriteNoMore(Step(s, es[0]), es[1..]);
    }
  }

  /** While no new call begins, the only call that can be put on display is the newest one, it is put there at
      most once, and it is exactly when its last response is a success. */
  lemma {:induction false} OnlyTheNewestCallWrites(s: Session, es: seq<Event>)
    requires IsRun(s, es) && NoneBegins(es)
    ensures Run(s, es).generation == s.generation
    ensures WrittenGenerations(Run(s, es)) == WrittenGenerations(s) + if SomeSucceeds(es, s.generation)
        then [s.generation] else []
    decreases |es|
  {
    if es != [] {
      var after := Step(s, es[0]);
      StepWrites(s, es[0]);
      StepEndsCalls(s, es[0]);
      if Succeeds(es[0], s.generation) {
        FinishedCallsWriteNoMore(after, es[1..]);
      } else {
        OnlyTheNewestCallWrites(after, es[1..]);
      }
    }
  }

  /** A superseded call never gets on display any more, whatever begins or returns later. */
  lemma {:induction false} SupersededCallsNeverWrite(s: Session, es: seq<Event>, g: nat)
    requires IsRun(s, es) && g < s.generation && g !in WrittenGenerations(s)
    ensures g !in WrittenGenerations(Run(s, es))
    decreases |es|
  {
    if es != [] {
      StepWrites(s, es[0]);
      SupersededCallsNeverWrite(Step(s, es[0]), es[1..], g);
    }
  }

  // ---------- unique ids ----------

  ghost predicate DistinctIfSome(thread: Option<Thread>) {
    thread.Some? ==> Distinct(thread.value.turns)
  }

  ghost predicate WholesomeEvent(e: Event) {
    match e
    case Notified(n) => n.turn.Some? ==> DistinctItems(n.turn.value.items)
    case ReadReturned(_, read) => DistinctIfSome(read)
    case ResumeReturned(_, resumed) => DistinctIfSome(resumed)
    case StartReturned(_, started) => DistinctIfSome(started)
    case TurnAccepted(_, turn) => DistinctItems(turn.items)
    case _ => true
  }

  ghost predicate DistinctEverywhere(s: Session) {
    && Distinct(Turns(s))
    && forall g :: g in s.calls && s.calls[g].Resuming? ==> Distinct(s.calls[g].read.turns)
  }

  lemma NotificationKeepsDistinct(s: Session, n: Notification)
    requires DistinctEverywhere(s) && WholesomeEvent(Notified(n))
    ensures DistinctEverywhere(Handle(s, n))
  {
    SessionStreams.HandleSetsTurns(s, n);
    SessionStreams.TurnsAfterKeepsDistinct(Turns(s), n);
    NotificationsDoNotArbitrate(s, n);
  }

  lemma ReadKeepsDistinct(s: Session, g: nat, call: Call)
    requires DistinctEverywhere(s) && (call.Resuming? ==> Distinct(call.read.turns))
    ensures DistinctEverywhere(s.(calls := s.calls[g := call]))
  {
  }

  lemma FinishKeepsDistinct(s: Session, g: nat)
    requires DistinctEverywhere(s)
    ensures DistinctEverywhere(Finish(s, g))
  {
  }

  lemma ShowKeepsDistinct(s: Session, g: nat, threadId: string, thread: Thread)
    requires DistinctEverywhere(s) && Distinct(thread.turns)
    ensures DistinctEverywhere(OpenSuccess(s, g, threadId, thread))
    ensures DistinctEverywhere(StartSuccess(s, g, thread))
  {
  }

  lemma StepKeepsDistinct(s: Session, e: Event)
    requires DistinctEverywhere(s) && Enabled(s, e) && WholesomeEvent(e)
    ensures DistinctEverywhere(Step(s, e))
  {
    match e {
      case Notified(n) =>
        NotificationKeepsDistinct(s, n);
      case OpenThread(threadId) =>
        ReadKeepsDistinct(s, s.generation + 1, Reading(threadId));
      case StartThread =>
        ReadKeepsDistinct(s, s.generation + 1, Starting);
      case ReadReturned(g, read) =>
        if read.Some? {
          ReadKeepsDistinct(s, g, Resuming(s.calls[g].threadId, read.value));
        }
      case ResumeReturned(g, resumed) =>
        if resumed.Some? {
          ShowKeepsDistinct(s, g, s.calls[g].threadId, Chosen(s.calls[g].read, resumed.value));
        }
      case StartReturned(g, started) =>
        if started.Some? {
          ShowKeepsDistinct(s, g, "", started.value);
        } else {
          FinishKeepsDistinct(s, g);
        }
      case TurnAccepted(_, turn) =>
        UpsertTurnKeepsDistinct(Turns(s), turn);
      case _ =>
    }
  }

  ghost predicate WholesomeRun(es: seq<Event>) {
    es == [] || (WholesomeEvent(es[0]) && WholesomeRun(es[1..]))
  }

  /** Turn ids, and item ids within a turn, stay free of duplicates over every run of calls, responses and
      notifications, if the loaded threads and the incoming turns are. */
  lemma {:induction false} RunKeepsDistinct(s: Session, es: seq<Event>)
    requires DistinctEverywhere(s) && IsRun(s, es) && WholesomeRun(es)
    ensures DistinctEverywhere(Run(s, es))
    decreases |es|
  {
    if es != [] {
      StepKeepsDistinct(s, es[0]);
      RunKeepsDistinct(Step(s, es[0]), es[1..]);
    }
  }
}
