/** When the client's handshake messages stay its own: an application may send `initialize` and `initialized` too. */
module RpcManners {
  import opened Wrappers
  import opened RpcProtocol
  import opened RpcInvariants
  import opened RpcControl
  import opened RpcHandshake
  import opened RpcRuns
  import opened RpcRouting

  lemma HandshakeKeptExactlyWhen(cfg: Config, c: Client, e: Event)
    requires Inv(cfg, c) && Handshaken(c, true) && Enabled(c, e)
    ensures Handshaken(Step(cfg, c, e), true) <==> Polite(e) || !CanSend(c)
  {
    if Polite(e) {
      StepKeepsHandshaken(cfg, c, e, true);
    } else if CanSend(c) {
      RudeSendBreaks(cfg, c, e);
    }
  }

  lemma RudeSendBreaks(cfg: Config, c: Client, e: Event)
    requires Handshaken(c, true) && Enabled(c, e) && !Polite(e) && CanSend(c)
    ensures !Handshaken(Step(cfg, c, e), true)
  {
    var s := c.socket.value;
    var sent := c.sockets[s].sent;
    var f := if e.UserRequest? then Request(c.sequence + 1, INITIALIZE) else WELCOME;
    var d := Step(cfg, c, e);
    assert d.sockets[s].sent == sent + [f] && d.outcomes == c.outcomes;
    RudeFrameBreaks(sent, s, c.outcomes, f);
  }

  lemma RudeFrameBreaks(sent: seq<Frame>, s: nat, outcomes: map<nat, Outcome>, f: Frame)
    requires sent != [] && GoodTranscript(sent, s, outcomes, true) && (IsHello(f) || f == WELCOME)
    ensures !GoodTranscript(sent + [f], s, outcomes, true)
  {
    var longer := sent + [f];
    assert longer[|sent|] == f && longer[0] == sent[0];
    if f == WELCOME {
      if WELCOME in sent {
        var k :| 0 <= k < |sent| && sent[k] == WELCOME;
        assert longer[k] == longer[|sent|] == WELCOME;
      } else {
        assert WELCOME in longer && !Completed(longer, s, outcomes);
      }
    }
  }

  // ---------- a broken handshake is never mended ----------

  /** A second `initialize`, a second `initialized`, or one before the answer. */
  ghost predicate Rude(sent: seq<Frame>, s: nat, outcomes: map<nat, Outcome>) {
    || (exists k :: 0 < k < |sent| && IsHello(sent[k]))
    || (exists j, k :: 0 <= j < k < |sent| && sent[j] == WELCOME && sent[k] == WELCOME)
    || (WELCOME in sent && !Completed(sent, s, outcomes))
  }

  lemma RudeExactlyWhenBroken(c: Client)
    requires Handshaken(c, false)
    ensures Handshaken(c, true) <==> forall s: nat :: s < |c.sockets| ==> !Rude(c.sockets[s].sent, s, c.outcomes)
  {
    forall s: nat | s < |c.sockets|
      ensures GoodTranscript(c.sockets[s].sent, s, c.outcomes, true) <==> !Rude(c.sockets[s].sent, s, c.outcomes)
    {
      assert GoodTranscript(c.sockets[s].sent, s, c.outcomes, false);
    }
  }

  /** What a request came to is never revised. */
  lemma OutcomesStay(cfg: Config, c: Client, e: Event, id: nat)
    requires Bookkeeping(c) && Enabled(c, e) && id in c.outcomes
    ensures id in Step(cfg, c, e).outcomes && Step(cfg, c, e).outcomes[id] == c.outcomes[id]
  {
    if e.MessageEvent? || e.CloseEvent? || e.TimeoutEvent? {
      TrafficKeepsOutcomes(cfg, c, e, id);
    } else if e.UserDisconnect? {
      DisconnectSettlesAll(c);
    } else if e.UserReconnect? {
      ReconnectSettlesAll(c, e.net);
    } else {
      OthersSettleNothing(cfg, c, e);
    }
  }

  lemma TrafficKeepsOutcomes(cfg: Config, c: Client, e: Event, id: nat)
    requires Bookkeeping(c) && Enabled(c, e) && id in c.outcomes
    requires e.MessageEvent? || e.CloseEvent? || e.TimeoutEvent?
    ensures id in Step(cfg, c, e).outcomes && Step(cfg, c, e).outcomes[id] == c.outcomes[id]
  {
    match e
    case MessageEvent(s, m) => MessageSettlesOne(c, s, m);
    case CloseEvent(s, code, reason, jitter) =>
      if c.socket == Some(s) { LossSettlesAll(cfg, c, s, code, reason, jitter); }
    case TimeoutEvent(t) => TimeoutSettlesOne(c, t);
  }

  lemma TimeoutSettlesOne(c: Client, t: nat)
    requires t in c.timers && c.timers[t].Timeout?
    ensures TimeoutFired(c, t, c.timers[t].id, c.timers[t].methodName, c.timers[t].waiter).outcomes
         == c.outcomes[c.timers[t].id := Expired]
  {
    var timer := c.timers[t];
    if timer.waiter.Handshake? {
      FailureSettlesNothing(SettleRequest(c.(timers := c.timers - {t}), timer.id, Expired), timer.waiter.socket,
          TimedOut(timer.methodName));
    }
  }

  lemma OthersSettleNothing(cfg: Config, c: Client, e: Event)
    requires Enabled(c, e) && !e.UserDisconnect? && !e.UserReconnect? && !e.MessageEvent?
    requires !e.CloseEvent? && !e.TimeoutEvent?
    ensures Step(cfg, c, e).outcomes == c.outcomes
  {
    if Dials(e) { ConnectSettlesNothing(Dialing(c, e).0, Dialing(c, e).1); }
  }

  /** The success of a handshake sends `initialized`. */
  lemma CompletionWelcomes(cfg: Config, c: Client, e: Event, s: nat)
    requires Inv(cfg, c) && Handshaken(c, false) && Enabled(c, e) && s < |c.sockets| <= |Step(cfg, c, e).sockets|
    requires !Completed(c.sockets[s].sent, s, c.outcomes) && c.sockets[s].sent != []
    requires Completed(c.sockets[s].sent, s, Step(cfg, c, e).outcomes)
    ensures Step(cfg, c, e).sockets[s].sent == c.sockets[s].sent + [WELCOME]
  {
    var id := c.sockets[s].sent[0].id;
    if id in c.outcomes {
      InvGivesBookkeeping(cfg, c);
      OutcomesStay(cfg, c, e, id);
    } else {
      AnswersComeFromTheCurrentSocket(cfg, c, e, id);
      MessageSettlesOne(c, s, e.message);
      ResponseWelcomes(c, s, id, e.message);
    }
  }

  lemma ResponseWelcomes(c: Client, s: nat, id: nat, m: Inbound)
    requires m.Envelope? && m.result.Some? && m.error.None? && id in c.pending
    requires c.socket == Some(s) && ReadyStateOf(c.sockets, s) == Open && c.pending[id].waiter == Handshake(s)
    ensures s < |HandleResponse(c, s, id, m).sockets|
    ensures HandleResponse(c, s, id, m).sockets[s].sent == c.sockets[s].sent + [WELCOME]
  {
  }

  lemma RudenessStays(cfg: Config, c: Client, e: Event, s: nat)
    requires Inv(cfg, c) && Handshaken(c, false) && Enabled(c, e)
    requires s < |c.sockets| && Rude(c.sockets[s].sent, s, c.outcomes)
    ensures var d := Step(cfg, c, e); s < |d.sockets| && Rude(d.sockets[s].sent, s, d.outcomes)
  {
    var d := Step(cfg, c, e);
    StepExtends(cfg, c, e);
    var before, after := c.sockets[s].sent, d.sockets[s].sent;
    assert Transcripts(c.sockets)[s] == before && Transcripts(d.sockets)[s] == after;
    if WELCOME in before && !Completed(before, s, c.outcomes) && Completed(before, s, d.outcomes) {
      CompletionWelcomes(cfg, c, e, s);
      SecondWelcomeIsRude(before, s, d.outcomes);
    } else {
      PrefixStaysRude(before, after, s, c.outcomes, d.outcomes);
    }
  }

  lemma SecondWelcomeIsRude(sent: seq<Frame>, s: nat, outcomes: map<nat, Outcome>)
    requires WELCOME in sent
    ensures Rude(sent + [WELCOME], s, outcomes)
  {
    var k :| 0 <= k < |sent| && sent[k] == WELCOME;
    assert (sent + [WELCOME])[k] == (sent + [WELCOME])[|sent|] == WELCOME;
  }

  lemma PrefixStaysRude(before: seq<Frame>, after: seq<Frame>, s: nat, was: map<nat, Outcome>, now: map<nat, Outcome>)
    requires before <= after && Rude(before, s, was)
    requires WELCOME in before && !Completed(before, s, was) ==> !Completed(before, s, now)
    ensures Rude(after, s, now)
  {
    assert forall k :: 0 <= k < |before| ==> after[k] == before[k];
  }

  /** The application never sends one of the two messages on an open connection. */
  ghost predicate Mannerly(cfg: Config, c: Client, events: seq<Event>)
    requires IsRun(cfg, c, events)
    decreases |events|
  {
    events == []
    || ((Polite(events[0]) || !CanSend(c)) && Mannerly(cfg, Step(cfg, c, events[0]), events[1..]))
  }

  lemma {:induction false} BrokenStaysBroken(cfg: Config, c: Client, events: seq<Event>)
    requires Inv(cfg, c) && Handshaken(c, false) && !Handshaken(c, true) && IsRun(cfg, c, events)
    ensures !Handshaken(Run(cfg, c, events), true)
    decreases |events|
  {
    if events != [] {
      var d := Step(cfg, c, events[0]);
      StepKeepsInv(cfg, c, events[0]);
      StepKeepsHandshaken(cfg, c, events[0], false);
      RudeExactlyWhenBroken(c);
      RudeExactlyWhenBroken(d);
      var s: nat :| s < |c.sockets| && Rude(c.sockets[s].sent, s, c.outcomes);
      RudenessStays(cfg, c, events[0], s);
      BrokenStaysBroken(cfg, d, events[1..]);
    }
  }

  lemma {:induction false} HandshakenGiven(cfg: Config, c: Client, events: seq<Event>)
    requires Inv(cfg, c) && Handshaken(c, true) && IsRun(cfg, c, events)
    ensures Handshaken(Run(cfg, c, events), true) <==> Mannerly(cfg, c, events)
    decreases |events|
  {
    if events != [] {
      var d := Step(cfg, c, events[0]);
      StepKeepsInv(cfg, c, events[0]);
      HandshakeKeptExactlyWhen(cfg, c, events[0]);
      StepKeepsHandshaken(cfg, c, events[0], false);
      if Handshaken(d, true) {
        HandshakenGiven(cfg, d, events[1..]);
      } else {
        BrokenStaysBroken(cfg, d, events[1..]);
      }
    }
  }

  /** After a run every socket has `initialize` first and only once and `initialized` at most once, exactly when
      that request was answered with success, and phase `ready` means both have happened on the current socket:
      if and only if the application never sent one of the two messages on an open connection. */
  lemma HandshakeOnEverySocketExactlyWhen(cfg: Config, events: seq<Event>)
    requires IsRun(cfg, INITIAL, events)
    ensures var c := Run(cfg, INITIAL, events);
            (&& (forall s: nat :: s < |c.sockets| ==> GoodTranscript(c.sockets[s].sent, s, c.outcomes, true))
             && ReadyIsWelcomed(c.snapshot.phase, c.socket, c.sockets, c.outcomes))
            <==> Mannerly(cfg, INITIAL, events)
  {
    InitiallyHandshaken(cfg);
    HandshakenGiven(cfg, INITIAL, events);
    RunKeepsHandshaken(cfg, INITIAL, events);
    DisciplineIsHandshaken(Run(cfg, INITIAL, events));
  }

  lemma InitiallyHandshaken(cfg: Config)
    ensures Inv(cfg, INITIAL) && Handshaken(INITIAL, true) && Handshaken(INITIAL, false)
  {
  }

  lemma DisciplineIsHandshaken(c: Client)
    requires Handshaken(c, false)
    ensures Handshaken(c, true) <==>
            && (forall s: nat :: s < |c.sockets| ==> GoodTranscript(c.sockets[s].sent, s, c.outcomes, true))
            && ReadyIsWelcomed(c.snapshot.phase, c.socket, c.sockets, c.outcomes)
  {
  }

  lemma Starting(cfg: Config) returns (d: Client, c: Client)
    ensures Enabled(INITIAL, UserConnect(Dialed)) && d == Step(cfg, INITIAL, UserConnect(Dialed))
    ensures Enabled(d, OpenEvent(0)) && c == Step(cfg, d, OpenEvent(0)) && Beginning(c) && Handshaken(c, true)
  {
    d := FirstDial(cfg);
    c := FirstOpen(cfg, d);
    assert Bookkeeping(INITIAL) && Handshaken(INITIAL, true);
    StepKeepsHandshakenGiven(cfg, INITIAL, UserConnect(Dialed), true);
    StepKeepsHandshakenGiven(cfg, d, OpenEvent(0), true);
  }

  lemma BreaksAtOnce(cfg: Config, c: Client, e: Event)
    requires Beginning(c) && Handshaken(c, true) && !Polite(e)
    ensures IsRun(cfg, c, [e]) && !Handshaken(Run(cfg, c, [e]), true)
  {
    RudeSendBreaks(cfg, c, e);
    RunOneMore(cfg, c, e, []);
    assert [e] + [] == [e];
  }

  /** Any such message breaks the discipline right after the first connection has opened. */
  lemma RudenessBreaksTheHandshake(cfg: Config, e: Event)
    requires !Polite(e)
    ensures IsRun(cfg, INITIAL, AfterOpening([e])) && !Handshaken(Run(cfg, INITIAL, AfterOpening([e])), true)
  {
    var d, c := Starting(cfg);
    BreaksAtOnce(cfg, c, e);
    OpensThen(cfg, d, c, [e]);
  }
}
