/** What every event of the RPC client keeps. */
module RpcInvariants {
  import opened Wrappers
  import opened RpcProtocol

  /** The live timers are exactly the armed reconnect timer and one per pending timed request. */
  ghost predicate TimersExact(timers: map<nat, Timer>, next: nat, armed: Option<nat>, pending: map<nat, Pending>) {
    && (forall t :: t in timers ==> t < next)
    && (forall t :: t in timers && timers[t].Reconnect? ==> armed == Some(t))
    && (armed.Some? ==> armed.value in timers && timers[armed.value].Reconnect?)
    && (forall id :: id in pending && pending[id].timeout.Some? ==>
          pending[id].timeout.value in timers
          && timers[pending[id].timeout.value] == Timeout(id, pending[id].methodName, pending[id].waiter))
    && (forall t :: t in timers && timers[t].Timeout? ==>
          timers[t].id in pending && pending[timers[t].id].timeout == Some(t))
  }

  /** The ids issued are 1..sequence, and each is either pending or has been settled once. */
  ghost predicate SettledOnce(sequence: nat, pending: map<nat, Pending>, settled: multiset<nat>,
      outcomes: map<nat, Outcome>) {
    && (forall id: nat :: 1 <= id <= sequence ==> (id in pending <==> settled[id] == 0))
    && (forall id: nat :: id in pending ==> 1 <= id <= sequence)
    && (forall id: nat :: id in settled ==> 1 <= id <= sequence)
    && (forall id: nat :: settled[id] <= 1)
    && (forall id: nat :: id in outcomes <==> id in settled)
  }

  /** Each issued id was sent as a request on exactly one socket, and a response that settled it came on that one. */
  ghost predicate Routed(sequence: nat, sent: seq<seq<Frame>>, sentOn: map<nat, nat>, pending: map<nat, Pending>,
      outcomes: map<nat, Outcome>) {
    && (forall id: nat :: id in sentOn <==> 1 <= id <= sequence)
    && (forall id :: id in sentOn ==> sentOn[id] < |sent|)
    && (forall s: nat, id: nat :: s < |sent| ==> (id in RequestIds(sent[s]) <==> id in sentOn && sentOn[id] == s))
    && (forall id :: id in outcomes && outcomes[id].Answered? ==> id in sentOn && sentOn[id] == outcomes[id].socket)
    && (forall id :: id in pending && pending[id].waiter.Handshake? ==>
        id in sentOn && sentOn[id] == pending[id].waiter.socket)
  }

  ghost predicate Core(c: Client) {
    && TimersExact(c.timers, c.nextTimer, c.reconnectTimer, c.pending)
    && SettledOnce(c.sequence, c.pending, c.settled, c.outcomes)
    && Routed(c.sequence, Transcripts(c.sockets), c.sentOn, c.pending, c.outcomes)
  }

  /** No other field matters. */
  ghost predicate SameIds(c: Client, d: Client) {
    && d.timers == c.timers && d.nextTimer == c.nextTimer && d.reconnectTimer == c.reconnectTimer
    && d.pending == c.pending && d.sequence == c.sequence && d.settled == c.settled && d.outcomes == c.outcomes
    && d.sentOn == c.sentOn && Transcripts(d.sockets) == Transcripts(c.sockets)
  }

  lemma SameCore(c: Client, d: Client)
    requires Core(c) && SameIds(c, d)
    ensures Core(d)
  {
  }

  lemma ClearKeepsCore(c: Client)
    requires Core(c)
    ensures Core(ClearReconnectTimer(c))
  {
  }

  lemma RejectKeepsCore(c: Client, why: Outcome)
    requires Core(c) && !why.Answered?
    ensures Core(RejectPending(c, why))
  {
    RejectClearsTimers(c.timers, c.nextTimer, c.reconnectTimer, c.pending);
    RejectSettles(c.sequence, c.pending, c.settled, c.outcomes, why);
    RejectRoutes(c.sequence, Transcripts(c.sockets), c.sentOn, c.pending, c.outcomes, why);
  }

  lemma RejectRoutes(sequence: nat, sent: seq<seq<Frame>>, sentOn: map<nat, nat>, pending: map<nat, Pending>,
      outcomes: map<nat, Outcome>, why: Outcome)
    requires Routed(sequence, sent, sentOn, pending, outcomes) && !why.Answered?
    ensures Routed(sequence, sent, sentOn, map[], outcomes + Rejections(pending, why))
  {
  }

  lemma RejectClearsTimers(timers: map<nat, Timer>, next: nat, armed: Option<nat>, pending: map<nat, Pending>)
    requires TimersExact(timers, next, armed, pending)
    ensures TimersExact(timers - PendingTimers(pending), next, armed, map[])
  {
    forall t | t in timers && timers[t].Timeout?
      ensures t in PendingTimers(pending)
    {
      assert pending[timers[t].id].timeout == Some(t);
    }
  }

  lemma RejectSettles(sequence: nat, pending: map<nat, Pending>, settled: multiset<nat>, outcomes: map<nat, Outcome>,
      why: Outcome)
    requires SettledOnce(sequence, pending, settled, outcomes)
    ensures SettledOnce(sequence, map[], settled + multiset(pending.Keys), outcomes + Rejections(pending, why))
  {
  }

  lemma IssueKeepsCore(c: Client, name: string, timed: bool, waiter: Waiter)
    requires Core(c) && (waiter.Handshake? ==> c.socket == Some(waiter.socket))
    ensures Core(Issue(c, name, timed, waiter))
  {
    if CanSend(c) {
      var id := c.sequence + 1;
      var d := Issue(c, name, timed, waiter);
      assert TimersExact(d.timers, d.nextTimer, d.reconnectTimer, d.pending) by {
        if timed {
          TimedIssueKeepsTimers(c.timers, c.nextTimer, c.reconnectTimer, c.pending, id, d.pending[id]);
        } else {
          UntimedIssueKeepsTimers(c.timers, c.nextTimer, c.reconnectTimer, c.pending, id, d.pending[id]);
        }
      }
      assert SettledOnce(d.sequence, d.pending, d.settled, d.outcomes) by {
        IssueSettles(c.sequence, c.pending, c.settled, c.outcomes, d.pending[id]);
      }
      IssueRoutes(c, name, timed, waiter);
    }
  }

  lemma IssueSettles(sequence: nat, pending: map<nat, Pending>, settled: multiset<nat>, outcomes: map<nat, Outcome>,
      p: Pending)
    requires SettledOnce(sequence, pending, settled, outcomes)
    ensures SettledOnce(sequence + 1, pending[sequence + 1 := p], settled, outcomes)
  {
  }

  lemma TimedIssueKeepsTimers(timers: map<nat, Timer>, next: nat, armed: Option<nat>, pending: map<nat, Pending>,
      id: nat, p: Pending)
    requires TimersExact(timers, next, armed, pending) && id !in pending && p.timeout == Some(next)
    ensures TimersExact(timers[next := Timeout(id, p.methodName, p.waiter)], next + 1, armed, pending[id := p])
  {
  }

  lemma UntimedIssueKeepsTimers(timers: map<nat, Timer>, next: nat, armed: Option<nat>, pending: map<nat, Pending>,
      id: nat, p: Pending)
    requires TimersExact(timers, next, armed, pending) && id !in pending && p.timeout.None?
    ensures TimersExact(timers, next, armed, pending[id := p])
  {
  }

  lemma IssueRoutes(c: Client, name: string, timed: bool, waiter: Waiter)
    requires Core(c) && CanSend(c) && (waiter.Handshake? ==> c.socket == Some(waiter.socket))
    ensures var d := Issue(c, name, timed, waiter);
            Routed(d.sequence, Transcripts(d.sockets), d.sentOn, d.pending, d.outcomes)
  {
    var s := c.socket.value;
    RequestIdsGrow(c.sockets[s].sent, Request(c.sequence + 1, name));
    assert Transcripts(c.sockets)[s] == c.sockets[s].sent;
  }

  lemma RequestIdsGrow(sent: seq<Frame>, frame: Frame)
    ensures RequestIds(sent + [frame]) == RequestIds(sent) + if frame.Request? then {frame.id} else {}
  {
  }

  lemma SendKeepsCore(c: Client, frame: Frame)
    requires Core(c) && !frame.Request?
    ensures Core(Send(c, frame))
  {
    if CanSend(c) {
      var s := c.socket.value;
      RequestIdsGrow(c.sockets[s].sent, frame);
      assert Transcripts(c.sockets)[s] == c.sockets[s].sent;
    }
  }

  lemma SettleRequestKeepsCore(c: Client, id: nat, outcome: Outcome)
    requires Core(c) && id in c.pending
    requires outcome.Answered? ==> outcome.socket < |c.sockets| && id in RequestIds(c.sockets[outcome.socket].sent)
    ensures Core(SettleRequest(c.(timers := Cleared(c.timers, c.pending[id].timeout)), id, outcome))
  {
    AnswerClearsTimer(c.timers, c.nextTimer, c.reconnectTimer, c.pending, id);
    AnswerSettles(c.sequence, c.pending, c.settled, c.outcomes, id, outcome);
    if outcome.Answered? {
      assert Transcripts(c.sockets)[outcome.socket] == c.sockets[outcome.socket].sent;
    }
    AnswerIsRouted(c.sequence, Transcripts(c.sockets), c.sentOn, c.pending, c.outcomes, id, outcome);
  }

  lemma AnswerSettles(sequence: nat, pending: map<nat, Pending>, settled: multiset<nat>, outcomes: map<nat, Outcome>,
                      id: nat, outcome: Outcome)
    requires SettledOnce(sequence, pending, settled, outcomes) && id in pending
    ensures SettledOnce(sequence, pending - {id}, settled + multiset{id}, outcomes[id := outcome])
  {
  }

  lemma AnswerIsRouted(sequence: nat, sent: seq<seq<Frame>>, sentOn: map<nat, nat>, pending: map<nat, Pending>,
                       outcomes: map<nat, Outcome>, id: nat, outcome: Outcome)
    requires Routed(sequence, sent, sentOn, pending, outcomes)
    requires outcome.Answered? ==> outcome.socket < |sent| && id in RequestIds(sent[outcome.socket])
    ensures Routed(sequence, sent, sentOn, pending - {id}, outcomes[id := outcome])
  {
  }

  lemma AnswerClearsTimer(timers: map<nat, Timer>, next: nat, armed: Option<nat>, pending: map<nat, Pending>, id: nat)
    requires TimersExact(timers, next, armed, pending) && id in pending
    ensures TimersExact(Cleared(timers, pending[id].timeout), next, armed, pending - {id})
  {
  }

  lemma ScheduleKeepsCore(cfg: Config, c: Client, reason: Notice, jitter: real)
    requires Core(c)
    ensures Core(ScheduleReconnect(cfg, c, reason, jitter))
  {
    ClearKeepsCore(c);
    var cleared := ClearReconnectTimer(c);
    ArmKeepsTimers(cleared.timers, c.nextTimer, c.pending);
  }

  lemma ArmKeepsTimers(timers: map<nat, Timer>, next: nat, pending: map<nat, Pending>)
    requires TimersExact(timers, next, None, pending)
    ensures TimersExact(timers[next := Reconnect], next + 1, Some(next), pending)
  {
  }

  /** Settling the promise of a connection and closing a socket touch no timer, id or frame. */
  lemma HandshakeFailedKeepsCore(c: Client, s: nat, failure: Notice)
    requires Core(c)
    ensures Core(HandshakeFailed(c, s, failure))
  {
  }

  lemma HandshakeSucceededKeepsCore(c: Client, s: nat, server: string)
    requires Core(c)
    ensures Core(HandshakeSucceeded(c, s, server))
  {
    if CanSend(c) {
      SendKeepsCore(c, Notification(INITIALIZED));
      SameCore(Send(c, Notification(INITIALIZED)), HandshakeSucceeded(c, s, server));
    } else {
      HandshakeFailedKeepsCore(c, s, Text("WebSocket 未连接"));
    }
  }

  lemma OpenSocketKeepsCore(c: Client, net: Network)
    requires Core(c)
    ensures Core(OpenSocket(c, net))
  {
    if net.Dialed? {
      assert Transcripts(OpenSocket(c, net).sockets) == Transcripts(c.sockets) + [[]];
      assert RequestIds([]) == {};
    }
  }

  lemma ConnectKeepsCore(c: Client, net: Network)
    requires Core(c)
    ensures Core(Connect(c, net))
  {
    ClearKeepsCore(c.(manuallyClosed := false));
    OpenSocketKeepsCore(ClearReconnectTimer(c.(manuallyClosed := false)), net);
  }

  lemma DisconnectKeepsCore(c: Client)
    requires Core(c)
    ensures Core(Disconnect(c))
  {
    var manual := c.(manuallyClosed := true);
    ClearKeepsCore(manual);
    RejectKeepsCore(ClearReconnectTimer(manual), ConnectionClosed);
  }

  lemma SupersededKeepsCore(c: Client)
    requires Core(c)
    ensures Core(Superseded(c))
  {
    var wanted := c.(manuallyClosed := false);
    ClearKeepsCore(wanted);
    var cleared := ClearReconnectTimer(wanted).(socket := None, connectPromise := None);
    RejectKeepsCore(cleared, ConnectionReplaced);
    SameCore(RejectPending(cleared, ConnectionReplaced), Superseded(c));
  }

  lemma ReconnectKeepsCore(c: Client, net: Network)
    requires Core(c)
    ensures Core(ReconnectNow(c, net))
  {
    SupersededKeepsCore(c);
    ConnectKeepsCore(Superseded(c), net);
    SameCore(Connect(Superseded(c), net), ReconnectNow(c, net));
  }

  lemma ResponseKeepsCore(c: Client, s: nat, id: nat, m: Inbound)
    requires Core(c) && m.Envelope? && (m.result.Some? || m.error.Some?) && id in c.pending
    requires s < |c.sockets| && id in RequestIds(c.sockets[s].sent)
    ensures Core(HandleResponse(c, s, id, m))
  {
    var p := c.pending[id];
    SettleRequestKeepsCore(c, id, Answered(s, m.error.None?));
    var done := SettleRequest(c.(timers := Cleared(c.timers, p.timeout)), id, Answered(s, m.error.None?));
    if p.waiter.Handshake? {
      if m.error.Some? {
        HandshakeFailedKeepsCore(done, p.waiter.socket, Text(m.error.value));
      } else {
        HandshakeSucceededKeepsCore(done, p.waiter.socket, m.result.value);
      }
    }
  }

  lemma MessageKeepsCore(c: Client, s: nat, m: Inbound)
    requires Core(c) && Enabled(c, MessageEvent(s, m))
    ensures Core(HandleMessage(c, s, m))
  {
    if IsResponse(m) && m.id.value.Num? && m.id.value.num in c.pending {
      ResponseKeepsCore(c, s, m.id.value.num, m);
    } else {
      HearingChangesNothing(c, s, m);
      SameCore(c, HandleMessage(c, s, m));
    }
  }

  lemma HearingChangesNothing(c: Client, s: nat, m: Inbound)
    requires !(IsResponse(m) && m.id.value.Num? && m.id.value.num in c.pending)
    ensures HandleMessage(c, s, m) == c.(heard := HandleMessage(c, s, m).heard)
  {
  }

  lemma CloseKeepsCore(cfg: Config, c: Client, s: nat, code: int, reason: string, jitter: real)
    requires Core(c)
    ensures Core(SocketClosed(cfg, c, s, code, reason, jitter))
  {
    if c.socket != Some(s) {
      SameCore(c, SocketClosed(cfg, c, s, code, reason, jitter));
    } else {
      var shut := c.(sockets := SetReadyState(c.sockets, s, Shut), socket := None);
      RejectKeepsCore(shut, ConnectionLost);
      var lost := Settle(RejectPending(shut, ConnectionLost), s);
      ScheduleKeepsCore(cfg, lost, CloseReason(c, code, reason), jitter);
    }
  }

  lemma TimeoutKeepsCore(c: Client, t: nat)
    requires Core(c) && t in c.timers && c.timers[t].Timeout?
    ensures Core(TimeoutFired(c, t, c.timers[t].id, c.timers[t].methodName, c.timers[t].waiter))
  {
    var timer := c.timers[t];
    SettleRequestKeepsCore(c, timer.id, Expired);
    var expired := SettleRequest(c.(timers := c.timers - {t}), timer.id, Expired);
    if timer.waiter.Handshake? {
      HandshakeFailedKeepsCore(expired, timer.waiter.socket, TimedOut(timer.methodName));
    }
  }

  lemma ReconnectTimerKeepsCore(c: Client, t: nat, net: Network)
    requires Core(c) && t in c.timers && c.timers[t].Reconnect?
    ensures Core(Connect(c.(timers := c.timers - {t}, reconnectTimer := None), net))
  {
    ClearKeepsCore(c);
    assert c.(timers := c.timers - {t}, reconnectTimer := None) == ClearReconnectTimer(c);
    ConnectKeepsCore(ClearReconnectTimer(c), net);
  }

  lemma StepKeepsCore(cfg: Config, c: Client, e: Event)
    requires Core(c) && Enabled(c, e)
    ensures Core(Step(cfg, c, e))
  {
    match e
    case UserConnect(net) => ConnectKeepsCore(c, net);
    case UserDisconnect => DisconnectKeepsCore(c);
    case UserReconnect(net) => ReconnectKeepsCore(c, net);
    case UserRequest(name, timed) => IssueKeepsCore(c, name, timed, Caller);
    case UserSend(frame) => SendKeepsCore(c, frame);
    case OpenEvent(s) =>
      if c.socket == Some(s) {
        var live := c.(sockets := SetReadyState(c.sockets, s, Open));
        IssueKeepsCore(live.(snapshot := c.snapshot.(phase := Initializing)), INITIALIZE, true, Handshake(s));
      }
    case MessageEvent(s, m) => MessageKeepsCore(c, s, m);
    case ErrorEvent(s) =>
    case CloseEvent(s, code, reason, jitter) => CloseKeepsCore(cfg, c, s, code, reason, jitter);
    case PeerClosing(s) =>
    case TimeoutEvent(t) => TimeoutKeepsCore(c, t);
    case ReconnectEvent(t, net) => ReconnectTimerKeepsCore(c, t, net);
    case OnlineEvent(net) =>
      ConnectKeepsCore(c.(snapshot := c.snapshot.(phase := Reconnecting, nextRetryMs := Some(0), error := None)), net);
    case OfflineEvent => ClearKeepsCore(c);
  }
}
