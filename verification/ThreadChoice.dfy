/** What opening or starting a thread shows in the end, over the whole conversation with the server. */
module ThreadChoice {
  import opened Wrappers
  import opened Conversation
  import opened Session
  import opened ThreadSwitch
  import StoreRuns

  // ---------- a call on its way ----------

  lemma StepKeepsCall(s: Session, e: Event, g: nat)
    requires Enabled(s, e) && !Begins(e)
    ensures g in Step(s, e).calls ==>
              && g in s.calls
              && (Step(s, e).calls[g] == s.calls[g]
                  || (e.ReadReturned? && e.g == g && e.read.Some? && s.calls[g].Reading?
                      && Step(s, e).calls[g] == Resuming(s.calls[g].threadId, e.read.value)))
    ensures Step(s, e).generation == s.generation
  {
    if e.Notified? { NotificationsDoNotArbitrate(s, e.notification); }
  }

  /** While no new call begins a call waits for its first response, or is gone for good. */
  lemma {:induction false} StillReading(s: Session, es: seq<Event>, g: nat)
    requires IsRun(s, es) && NoneBegins(es) && g in Run(s, es).calls && Run(s, es).calls[g].Reading?
    ensures g in s.calls && s.calls[g] == Run(s, es).calls[g]
    decreases |es|
  {
    if es != [] {
      StillReading(Step(s, es[0]), es[1..], g);
      StepKeepsCall(s, es[0], g);
    }
  }

  lemma {:induction false} StillResuming(s: Session, es: seq<Event>, g: nat)
    requires IsRun(s, es) && NoneBegins(es) && g in s.calls && s.calls[g].Resuming? && g in Run(s, es).calls
    ensures Run(s, es).calls[g] == s.calls[g]
    decreases |es|
  {
    if es != [] {
      StillCalled(Step(s, es[0]), es[1..], g);
      StepKeepsCall(s, es[0], g);
      StillResuming(Step(s, es[0]), es[1..], g);
    }
  }

  lemma {:induction false} StillCalled(s: Session, es: seq<Event>, g: nat)
    requires IsRun(s, es) && NoneBegins(es) && g in Run(s, es).calls
    ensures g in s.calls
    decreases |es|
  {
    if es != [] {
      StillCalled(Step(s, es[0]), es[1..], g);
      StepKeepsCall(s, es[0], g);
    }
  }

  lemma {:induction false} SameGeneration(s: Session, es: seq<Event>)
    requires IsRun(s, es) && NoneBegins(es)
    ensures Run(s, es).generation == s.generation
    decreases |es|
  {
    if es != [] {
      StepKeepsCall(s, es[0], 0);
      SameGeneration(Step(s, es[0]), es[1..]);
    }
  }

  // ---------- opening ----------

  ghost predicate LastOnes(turns: seq<Turn>, active: Option<string>) {
    && (active.None? <==> forall k :: 0 <= k < |turns| ==> turns[k].status != "inProgress")
    && (active.Some? ==> exists k: nat :: IsLastInProgress(turns, k) && turns[k].id == active.value)
  }

  lemma {:induction false} LastInProgressIsLast(turns: seq<Turn>)
    ensures LastOnes(turns, LastInProgress(turns))
  {
    var active := LastInProgress(turns);
    if active.Some? {
      LastInProgressExactlyWhen(turns, active.value);
    } else {
      forall k | 0 <= k < |turns| ensures turns[k].status != IN_PROGRESS {
        NoneInProgress(turns, k);
      }
    }
  }

  lemma {:induction false} NoneInProgress(turns: seq<Turn>, k: nat)
    requires LastInProgress(turns).None? && k < |turns|
    ensures turns[k].status != IN_PROGRESS
  {
    if k < |turns| - 1 {
      NoneInProgress(turns[..|turns| - 1], k);
      assert turns[..|turns| - 1][k] == turns[k];
    }
  }

  lemma ResumeShows(s: Session, g: nat, id: string, read: Thread, resumed: Thread)
    requires g == s.generation && g in s.calls && s.calls[g] == Resuming(id, read)
    ensures Enabled(s, ResumeReturned(g, Some(resumed)))
    ensures var t := Step(s, ResumeReturned(g, Some(resumed)));
            && t.activeThreadId == Some(id)
            && t.activeThread == Some(if |resumed.turns| > 0 then resumed else read)
            && LastOnes(t.activeThread.value.turns, t.activeTurnId)
            && !t.loading && t.threads == s.threads
  {
    LastInProgressIsLast((if |resumed.turns| > 0 then resumed else read).turns);
  }

  /** The newest `openThread`, from its start: whatever happens before its two responses, the second one puts the
      thread that was asked for on display, with the resumed conversation if that has turns and otherwise the one that
      its first response read, and makes active the last turn of it that is in progress. */
  lemma NewestOpenShows(s: Session, id: string, before: seq<Event>, read: Thread, between: seq<Event>,
                        resumed: Thread)
    requires IsRun(Step(s, OpenThread(id)), before) && NoneBegins(before)
    requires var r := Run(Step(s, OpenThread(id)), before);
             && Enabled(r, ReadReturned(s.generation + 1, Some(read)))
             && IsRun(Step(r, ReadReturned(s.generation + 1, Some(read))), between) && NoneBegins(between)
             && Enabled(Run(Step(r, ReadReturned(s.generation + 1, Some(read))), between),
                        ResumeReturned(s.generation + 1, Some(resumed)))
    ensures var r := Run(Step(s, OpenThread(id)), before);
            var q := Run(Step(r, ReadReturned(s.generation + 1, Some(read))), between);
            var t := Step(q, ResumeReturned(s.generation + 1, Some(resumed)));
            && t.activeThreadId == Some(id)
            && t.activeThread == Some(if |resumed.turns| > 0 then resumed else read)
            && LastOnes(t.activeThread.value.turns, t.activeTurnId)
            && !t.loading && t.threads == q.threads
  {
    var g := s.generation + 1;
    var asked := Step(s, OpenThread(id));
    var r := Run(asked, before);
    StillReading(asked, before, g);
    SameGeneration(asked, before);
    var reading := Step(r, ReadReturned(g, Some(read)));
    var q := Run(reading, between);
    StillResuming(reading, between, g);
    SameGeneration(reading, between);
    ResumeShows(q, g, id, read, resumed);
  }

  // ---------- starting ----------

  /** The newest `startThread`: its response puts the new thread on display and keeps the active turn. */
  lemma NewestStartShows(s: Session, before: seq<Event>, started: Thread)
    requires IsRun(Step(s, StartThread), before) && NoneBegins(before)
    requires Enabled(Run(Step(s, StartThread), before), StartReturned(s.generation + 1, Some(started)))
    ensures var q := Run(Step(s, StartThread), before);
            var t := Step(q, StartReturned(s.generation + 1, Some(started)));
            && t.activeThreadId == Some(started.id) && t.activeThread == Some(started)
            && t.activeTurnId == q.activeTurnId && !t.loading
  {
    SameGeneration(Step(s, StartThread), before);
  }

  // ---------- failing, and answering requests ----------

  /** A call that fails leaves everything on display as it was, and ends the loading if it is the newest. */
  lemma FailuresShowNothing(s: Session, e: Event)
    requires Enabled(s, e)
    requires || (e.ReadReturned? && e.read.None?) || (e.ResumeReturned? && e.resumed.None?)
             || (e.StartReturned? && e.started.None?)
    ensures var t := Step(s, e);
            && t.activeThreadId == s.activeThreadId && t.activeThread == s.activeThread
            && t.activeTurnId == s.activeTurnId && t.threads == s.threads && t.written == s.written
            && t.loading == (s.loading && e.g != s.generation) && t.calls.Keys == s.calls.Keys - {e.g}
  {
  }

  /** Answering takes the request at that place out of the list and leaves the others in their order. */
  lemma AnsweredRequestGoes(s: Session, before: seq<Json>, answered: Json, after: seq<Json>)
    requires s.pendingRequests == before + [answered] + after
    ensures Step(s, RequestAnswered(|before|)) == s.(pendingRequests := before + after)
    ensures forall index: nat :: index >= |s.pendingRequests| ==> Step(s, RequestAnswered(index)) == s
  {
  }
}
