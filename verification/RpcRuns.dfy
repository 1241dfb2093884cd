/** What holds of the RPC client over whole runs. */
module RpcRuns {
  import opened Wrappers
  import opened RpcProtocol
  import opened RpcInvariants
  import opened RpcControl
  import opened RpcHandshake

  // ---------- settlement ----------

  lemma {:induction false} RunKeepsInv(cfg: Config, c: Client, events: seq<Event>)
    requires Inv(cfg, c) && IsRun(cfg, c, events)
    ensures Inv(cfg, Run(cfg, c, events))
    decreases |events|
  {
    if events != [] {
      StepKeepsInv(cfg, c, events[0]);
      RunKeepsInv(cfg, Step(cfg, c, events[0]), events[1..]);
    }
  }

  ghost predicate Reached(cfg: Config, c: Client) {
    exists events :: IsRun(cfg, INITIAL, events) && Run(cfg, INITIAL, events) == c
  }

  lemma ReachedInv(cfg: Config, c: Client)
    requires Reached(cfg, c)
    ensures Inv(cfg, c)
  {
    var events :| IsRun(cfg, INITIAL, events) && Run(cfg, INITIAL, events) == c;
    assert Inv(cfg, INITIAL);
    RunKeepsInv(cfg, INITIAL, events);
  }

  /** In every reachable state each id ever issued is pending or settled, once and never both. */
  lemma SettlementIsExactlyOnce(cfg: Config, c: Client, id: nat)
    requires Reached(cfg, c)
    ensures c.settled[id] + (if id in c.pending then 1 else 0) == if 1 <= id <= c.sequence then 1 else 0
    ensures id in c.outcomes <==> c.settled[id] == 1
  {
    ReachedInv(cfg, c);
  }

  /** A live timeout belongs to a pending request and every pending timed request has one. */
  lemma TimersMatchPending(cfg: Config, c: Client)
    requires Reached(cfg, c)
    ensures c.timers.Keys == PendingTimers(c.pending) + if c.reconnectTimer.Some? then {c.reconnectTimer.value} else {}
    ensures forall i, j :: i in c.pending && j in c.pending && i != j && c.pending[i].timeout.Some? ==>
        c.pending[i].timeout != c.pending[j].timeout
  {
    ReachedInv(cfg, c);
    forall t | t in c.timers && c.timers[t].Timeout? ensures t in PendingTimers(c.pending) {
      assert c.pending[c.timers[t].id].timeout == Some(t);
    }
  }

  lemma ConnectSettlesNothing(c: Client, net: Network)
    ensures Connect(c, net).pending == c.pending && Connect(c, net).outcomes == c.outcomes
  {
  }

  lemma FailureSettlesNothing(c: Client, s: nat, failure: Notice)
    ensures HandshakeFailed(c, s, failure).pending == c.pending && HandshakeFailed(c, s, failure).outcomes == c.outcomes
  {
  }

  lemma SuccessSettlesNothing(c: Client, s: nat, server: string)
    ensures HandshakeSucceeded(c, s, server).pending == c.pending
    ensures HandshakeSucceeded(c, s, server).outcomes == c.outcomes
  {
    FailureSettlesNothing(c, s, Text("WebSocket 未连接"));
  }

  lemma ResponseSettlesOne(c: Client, s: nat, id: nat, m: Inbound)
    requires m.Envelope? && (m.result.Some? || m.error.Some?) && id in c.pending
    ensures var d := HandleResponse(c, s, id, m);
            d.outcomes == c.outcomes[id := Answered(s, m.error.None?)] && d.pending == c.pending - {id}
  {
    var p := c.pending[id];
    var done := SettleRequest(c.(timers := Cleared(c.timers, p.timeout)), id, Answered(s, m.error.None?));
    if p.waiter.Handshake? {
      if m.error.Some? {
        FailureSettlesNothing(done, p.waiter.socket, Text(m.error.value));
      } else {
        SuccessSettlesNothing(done, p.waiter.socket, m.result.value);
      }
    }
  }

  /** A message settles the request its id names, if that is a response and the request is pending, and
      nothing else. */
  lemma MessageSettlesOne(c: Client, s: nat, m: Inbound)
    ensures var d := HandleMessage(c, s, m);
            if IsResponse(m) && m.id.value.Num? && m.id.value.num in c.pending then
              d.outcomes == c.outcomes[m.id.value.num as nat := Answered(s, m.error.None?)]
                  && d.pending == c.pending - {m.id.value.num}
            else d.outcomes == c.outcomes && d.pending == c.pending
  {
    if IsResponse(m) && m.id.value.Num? && m.id.value.num in c.pending {
      ResponseSettlesOne(c, s, m.id.value.num, m);
    }
  }

  /** `disconnect`, `reconnectNow` and the loss of the current socket leave nothing pending, and each gives
      every request that was pending its own kind of rejection. */
  lemma ReconnectSettlesAll(c: Client, net: Network)
    ensures ReconnectNow(c, net).pending == map[]
    ensures ReconnectNow(c, net).outcomes == c.outcomes + Rejections(c.pending, ConnectionReplaced)
  {
    var replaced := Superseded(c);
    ConnectSettlesNothing(replaced, net);
  }

  lemma DisconnectSettlesAll(c: Client)
    ensures Disconnect(c).pending == map[]
    ensures Disconnect(c).outcomes == c.outcomes + Rejections(c.pending, ConnectionClosed)
  {
  }

  lemma LossSettlesAll(cfg: Config, c: Client, s: nat, code: int, reason: string, jitter: real)
    requires c.socket == Some(s)
    ensures SocketClosed(cfg, c, s, code, reason, jitter).pending == map[]
    ensures SocketClosed(cfg, c, s, code, reason, jitter).outcomes == c.outcomes + Rejections(c.pending, ConnectionLost)
  {
    var lost := LoseCurrent(c, s);
    RetrySettlesNothing(cfg, lost, CloseReason(c, code, reason), jitter);
  }

  lemma RetrySettlesNothing(cfg: Config, c: Client, reason: Notice, jitter: real)
    ensures var d := ScheduleReconnect(cfg, c, reason, jitter); d.pending == c.pending && d.outcomes == c.outcomes
  {
  }

  /** Only a message on the current socket answers a request, and that socket is the one the request went out on. */
  lemma AnswersComeFromTheCurrentSocket(cfg: Config, c: Client, e: Event, id: nat)
    requires Inv(cfg, c) && Enabled(c, e)
    requires id in Step(cfg, c, e).outcomes && id !in c.outcomes && Step(cfg, c, e).outcomes[id].Answered?
    ensures e.MessageEvent? && c.socket == Some(e.s) && Step(cfg, c, e).outcomes[id].socket == e.s
    ensures id in c.sentOn && c.sentOn[id] == e.s
  {
    match e
    case MessageEvent(s, m) =>
      MessageSettlesOne(c, s, m);
      assert Transcripts(c.sockets)[s] == c.sockets[s].sent;
    case _ => OtherEventsAnswerNothing(cfg, c, e, id);
  }

  lemma OtherEventsAnswerNothing(cfg: Config, c: Client, e: Event, id: nat)
    requires Enabled(c, e) && !e.MessageEvent? && id !in c.outcomes
    ensures id in Step(cfg, c, e).outcomes ==> !Step(cfg, c, e).outcomes[id].Answered?
  {
    match e
    case UserConnect(net) => ConnectSettlesNothing(c, net);
    case UserDisconnect => DisconnectSettlesAll(c);
    case UserReconnect(net) => ReconnectSettlesAll(c, net);
    case CloseEvent(s, code, reason, jitter) =>
      if c.socket == Some(s) { LossSettlesAll(cfg, c, s, code, reason, jitter); }
    case TimeoutEvent(t) =>
      var timer := c.timers[t];
      if timer.waiter.Handshake? {
        FailureSettlesNothing(SettleRequest(c.(timers := c.timers - {t}), timer.id, Expired), timer.waiter.socket,
            TimedOut(timer.methodName));
      }
    case ReconnectEvent(t, net) => ConnectSettlesNothing(c.(timers := c.timers - {t}, reconnectTimer := None), net);
    case OnlineEvent(net) =>
      ConnectSettlesNothing(c.(snapshot := c.snapshot.(phase := Reconnecting, nextRetryMs := Some(0), error := None)),
          net);
    case _ =>
  }

  // ---------- superseded sockets ----------

  predicate SocketEvent(e: Event, s: nat) {
    match e
    case OpenEvent(i) => i == s
    case MessageEvent(i, _) => i == s
    case ErrorEvent(i) => i == s
    case CloseEvent(i, _, _, _) => i == s
    case _ => false
  }

  /** An event of a socket that is not current changes that socket's own record and, if it was still
      awaited, the stored connect promise; nothing else. */
  lemma SupersededSocketsAreInert(cfg: Config, c: Client, e: Event, s: nat)
    requires Enabled(c, e) && SocketEvent(e, s) && c.socket != Some(s)
    ensures var d := Step(cfg, c, e);
            && d.(sockets := c.sockets, connectPromise := c.connectPromise) == c
            && |d.sockets| == |c.sockets|
            && (forall i :: 0 <= i < |c.sockets| && i != s ==> d.sockets[i] == c.sockets[i])
            && d.sockets[s].sent == c.sockets[s].sent
            && (d.connectPromise != c.connectPromise ==> c.connectPromise == Some(s) && d.connectPromise.None?)
  {
  }

  // ---------- retries ----------

  /** There is never both a current socket and an armed reconnect timer. */
  lemma OneRetryLoop(cfg: Config, c: Client)
    requires Reached(cfg, c)
    ensures c.socket.None? || c.reconnectTimer.None?
    ensures c.snapshot.attempt <= cfg.reconnectMaxAttempts
    ensures c.manuallyClosed ==> c.socket.None? && c.reconnectTimer.None?
  {
    ReachedInv(cfg, c);
  }

  predicate AsksToConnect(e: Event) {
    e.UserConnect? || e.UserReconnect?
  }

  /** After `disconnect()` the client opens no socket, sends nothing and arms nothing until asked to connect. */
  lemma {:induction false} StaysDisconnected(cfg: Config, c: Client, events: seq<Event>)
    requires Inv(cfg, c) && c.manuallyClosed && IsRun(cfg, c, events)
    requires forall e :: e in events ==> !AsksToConnect(e)
    ensures var d := Run(cfg, c, events);
            && d.manuallyClosed && d.socket.None? && d.reconnectTimer.None?
            && Transcripts(d.sockets) == Transcripts(c.sockets) && d.sequence == c.sequence
            && d.heard == c.heard
    decreases |events|
  {
    if events != [] {
      var e := events[0];
      StaysDisconnectedStep(cfg, c, e);
      StepKeepsInv(cfg, c, e);
      StaysDisconnected(cfg, Step(cfg, c, e), events[1..]);
    }
  }

  lemma StaysSilentStep(cfg: Config, c: Client, e: Event)
    requires Inv(cfg, c) && c.manuallyClosed && Enabled(c, e) && !AsksToConnect(e)
    ensures Transcripts(Step(cfg, c, e).sockets) == Transcripts(c.sockets)
  {
  }

  lemma StaysDisconnectedStep(cfg: Config, c: Client, e: Event)
    requires Inv(cfg, c) && c.manuallyClosed && Enabled(c, e) && !AsksToConnect(e)
    ensures var d := Step(cfg, c, e);
            && d.manuallyClosed
            && Transcripts(d.sockets) == Transcripts(c.sockets) && d.sequence == c.sequence && d.heard == c.heard
  {
    StaysSilentStep(cfg, c, e);
  }

  /** How many more sockets the retry loop may open on its own. */
  function Budget(cfg: Config, c: Client): int {
    cfg.reconnectMaxAttempts - c.snapshot.attempt + if c.reconnectTimer.Some? then 1 else 0
  }

  predicate Automatic(cfg: Config, c: Client, e: Event)
    requires Enabled(c, e)
  {
    && !AsksToConnect(e) && !e.OnlineEvent?
    && (Step(cfg, c, e).snapshot.phase == Ready ==> c.snapshot.phase == Ready)
  }

  ghost predicate IsAutomaticRun(cfg: Config, c: Client, events: seq<Event>)
    decreases |events|
  {
    events == []
    || (Enabled(c, events[0]) && Automatic(cfg, c, events[0])
        && IsAutomaticRun(cfg, Step(cfg, c, events[0]), events[1..]))
  }

  function Retries(events: seq<Event>): nat {
    if events == [] then 0 else (if events[0].ReconnectEvent? then 1 else 0) + Retries(events[1..])
  }

  lemma AutomaticStep(cfg: Config, c: Client, e: Event)
    requires Inv(cfg, c) && Enabled(c, e) && Automatic(cfg, c, e)
    ensures var d := Step(cfg, c, e);
            && Budget(cfg, d) <= Budget(cfg, c) - (if e.ReconnectEvent? then 1 else 0)
            && |d.sockets| <= |c.sockets| + if e.ReconnectEvent? then 1 else 0
  {
    match e
    case OpenEvent(s) => OpenKeepsRetryState(c, s);
    case MessageEvent(s, m) =>
      if c.socket == Some(s) { MessageKeepsRetryState(c, s, m); }
    case CloseEvent(s, code, reason, jitter) =>
      if c.socket == Some(s) { LossRetriesOrGivesUp(cfg, c, s, code, reason, jitter); }
    case TimeoutEvent(t) =>
      var timer := c.timers[t];
      if timer.waiter.Handshake? {
        FailureKeepsRetryState(SettleRequest(c.(timers := c.timers - {t}), timer.id, Expired), timer.waiter.socket,
            TimedOut(timer.methodName));
      }
    case ReconnectEvent(t, net) =>
      assert c.reconnectTimer == Some(t);
      DialKeepsAttempt(c.(timers := c.timers - {t}, reconnectTimer := None), net);
    case _ =>
  }

  /** Attempt count, armed timer and number of sockets are as before. */
  ghost predicate SameRetryState(c: Client, d: Client) {
    d.snapshot.attempt == c.snapshot.attempt && d.reconnectTimer == c.reconnectTimer && |d.sockets| == |c.sockets|
  }

  lemma OpenKeepsRetryState(c: Client, s: nat)
    ensures SameRetryState(c, SocketOpened(c, s))
  {
  }

  lemma FailureKeepsRetryState(c: Client, s: nat, failure: Notice)
    ensures SameRetryState(c, HandshakeFailed(c, s, failure))
    ensures HandshakeFailed(c, s, failure).snapshot.phase == c.snapshot.phase
  {
  }

  lemma SuccessKeepsRetryState(c: Client, s: nat, server: string)
    requires HandshakeSucceeded(c, s, server).snapshot.phase == Ready ==>
        c.snapshot.phase == Ready && c.snapshot.attempt == 0
    ensures SameRetryState(c, HandshakeSucceeded(c, s, server))
  {
    FailureKeepsRetryState(c, s, Text("WebSocket 未连接"));
  }

  lemma MessageKeepsRetryState(c: Client, s: nat, m: Inbound)
    requires HandleMessage(c, s, m).snapshot.phase == Ready ==> c.snapshot.phase == Ready && c.snapshot.attempt == 0
    ensures SameRetryState(c, HandleMessage(c, s, m))
  {
    if IsResponse(m) && m.id.value.Num? && m.id.value.num in c.pending {
      var id: nat := m.id.value.num;
      var p := c.pending[id];
      var done := SettleRequest(c.(timers := Cleared(c.timers, p.timeout)), id, Answered(s, m.error.None?));
      if p.waiter.Handshake? {
        if m.error.Some? {
          FailureKeepsRetryState(done, p.waiter.socket, Text(m.error.value));
        } else {
          SuccessKeepsRetryState(done, p.waiter.socket, m.result.value);
        }
      }
    }
  }

  lemma DialKeepsAttempt(c: Client, net: Network)
    requires c.reconnectTimer.None?
    ensures var d := Connect(c, net);
            d.snapshot.attempt == c.snapshot.attempt && d.reconnectTimer.None? && |d.sockets| <= |c.sockets| + 1
  {
  }

  /** Every firing of the reconnect timer uses up budget that only a completed handshake, a user call or
      coming online restores; so without those the loop ends, having opened at most that many sockets. */
  lemma {:induction false} AutomaticRetriesAreBounded(cfg: Config, c: Client, events: seq<Event>)
    requires Inv(cfg, c) && IsAutomaticRun(cfg, c, events)
    ensures IsRun(cfg, c, events)
    ensures Retries(events) + Budget(cfg, Run(cfg, c, events)) <= Budget(cfg, c)
    ensures |Run(cfg, c, events).sockets| <= |c.sockets| + Retries(events)
    ensures 0 <= Budget(cfg, Run(cfg, c, events))
    ensures c.snapshot.phase == Ready ==> Retries(events) <= cfg.reconnectMaxAttempts
    decreases |events|
  {
    if events != [] {
      var e := events[0];
      var d := Step(cfg, c, e);
      AutomaticStep(cfg, c, e);
      StepKeepsInv(cfg, c, e);
      AutomaticRetriesAreBounded(cfg, d, events[1..]);
    }
  }

  /** The current socket closes without a manual close: either a retry is armed, or the attempts are used
      up and the client rests in phase `closed` with nothing armed. */
  lemma LossRetriesOrGivesUp(cfg: Config, c: Client, s: nat, code: int, reason: string, jitter: real)
    requires Inv(cfg, c) && c.socket == Some(s)
    ensures var d := SocketClosed(cfg, c, s, code, reason, jitter);
            && d.socket.None? && |d.sockets| == |c.sockets|
            && (d.reconnectTimer.Some? <==> c.snapshot.attempt < cfg.reconnectMaxAttempts)
            && (d.reconnectTimer.Some? ==>
                  d.snapshot.phase == Reconnecting && d.snapshot.attempt == c.snapshot.attempt + 1)
            && (d.reconnectTimer.None? ==>
                  d.snapshot.phase == Closed && d.snapshot.nextRetryMs.None? && Budget(cfg, d) == 0)
  {
  }

  // ---------- the handshake ----------

  lemma {:induction false} RunKeepsHandshaken(cfg: Config, c: Client, events: seq<Event>)
    requires Inv(cfg, c) && Handshaken(c, false) && IsRun(cfg, c, events)
    ensures Handshaken(Run(cfg, c, events), false)
    decreases |events|
  {
    if events != [] {
      StepKeepsHandshaken(cfg, c, events[0], false);
      StepKeepsInv(cfg, c, events[0]);
      RunKeepsHandshaken(cfg, Step(cfg, c, events[0]), events[1..]);
    }
  }

  /** The first frame on socket s is the `initialize` request of its own open handler, and a success of that
      request has been followed by `initialized`. */
  ghost predicate OpensWithInitialize(sent: seq<Frame>, s: nat, pending: map<nat, Pending>,
      outcomes: map<nat, Outcome>) {
    sent != [] ==>
      && IsHello(sent[0])
      && (sent[0].id in pending ==> pending[sent[0].id].waiter == Handshake(s))
      && (Completed(sent, s, outcomes) ==> WELCOME in sent)
  }

  lemma TranscriptOpens(sockets: seq<Socket>, pending: map<nat, Pending>, outcomes: map<nat, Outcome>, s: nat)
    requires GoodTranscripts(sockets, pending, outcomes, false) && s < |sockets|
    ensures OpensWithInitialize(sockets[s].sent, s, pending, outcomes)
  {
    assert GoodTranscript(sockets[s].sent, s, outcomes, false);
  }

  /** In every run, whatever the application sends, every socket opens with its own `initialize`, and phase
      `ready` means that the current socket has had its answer and sent `initialized`. */
  lemma EverySocketOpensWithInitialize(cfg: Config, events: seq<Event>)
    requires IsRun(cfg, INITIAL, events)
    ensures var c := Run(cfg, INITIAL, events);
            && (forall s: nat :: s < |c.sockets| ==> OpensWithInitialize(c.sockets[s].sent, s, c.pending, c.outcomes))
            && ReadyIsWelcomed(c.snapshot.phase, c.socket, c.sockets, c.outcomes)
  {
    assert Inv(cfg, INITIAL) && Handshaken(INITIAL, false);
    RunKeepsHandshaken(cfg, INITIAL, events);
    var c := Run(cfg, INITIAL, events);
    forall s: nat | s < |c.sockets| ensures OpensWithInitialize(c.sockets[s].sent, s, c.pending, c.outcomes) {
      TranscriptOpens(c.sockets, c.pending, c.outcomes, s);
    }
  }
}
