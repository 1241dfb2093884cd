/** The initialize / initialized handshake of every socket, over whole runs. */
module RpcHandshake {
  import opened Wrappers
  import opened RpcProtocol
  import opened RpcInvariants
  import opened RpcControl

  const WELCOME := Notification(INITIALIZED)

  predicate IsHello(f: Frame) {
    f.Request? && f.methodName == INITIALIZE
  }

  /** The first request on socket s was answered with success, on s. */
  predicate Completed(sent: seq<Frame>, s: nat, outcomes: map<nat, Outcome>) {
    sent != [] && sent[0].Request? && sent[0].id in outcomes && outcomes[sent[0].id] == Answered(s, true)
  }

  /** What may have been sent on socket s: nothing, or an `initialize` request first, and `initialized` once that
      request was answered with success. If the application is polite, there is one of each at most, and
      `initialized` is there only then. */
  ghost predicate GoodTranscript(sent: seq<Frame>, s: nat, outcomes: map<nat, Outcome>, polite: bool) {
    sent != [] ==>
      && IsHello(sent[0])
      && (Completed(sent, s, outcomes) ==> WELCOME in sent)
      && (polite ==>
            && (forall k :: 0 < k < |sent| ==> !IsHello(sent[k]))
            && (forall j, k :: 0 <= j < k < |sent| ==> sent[j] != WELCOME || sent[k] != WELCOME)
            && (WELCOME in sent ==> Completed(sent, s, outcomes)))
  }

  ghost predicate GoodTranscripts(
    sockets: seq<Socket>, pending: map<nat, Pending>, outcomes: map<nat, Outcome>, polite: bool)
  {
    && (forall s: nat :: s < |sockets| ==> GoodTranscript(sockets[s].sent, s, outcomes, polite))
    && (forall s: nat :: s < |sockets| && sockets[s].readyState == Opening ==> sockets[s].sent == [])
    && (forall s: nat :: s < |sockets| && sockets[s].readyState == Open ==> sockets[s].sent != [])
    && (forall id :: id in pending && pending[id].waiter.Handshake? ==>
          var w := pending[id].waiter.socket;
          w < |sockets| && sockets[w].sent != [] && sockets[w].sent[0] == Request(id, INITIALIZE))
    && (forall s: nat ::
          s < |sockets| && sockets[s].sent != [] && sockets[s].sent[0].Request? && sockets[s].sent[0].id in pending ==>
          pending[sockets[s].sent[0].id].waiter == Handshake(s))
  }

  /** Phase `ready` means the current socket has completed the handshake. */
  ghost predicate ReadyIsWelcomed(phase: Phase, socket: Option<nat>, sockets: seq<Socket>,
      outcomes: map<nat, Outcome>) {
    phase == Ready ==>
      && socket.Some? && socket.value < |sockets|
      && Completed(sockets[socket.value].sent, socket.value, outcomes)
      && WELCOME in sockets[socket.value].sent
  }

  ghost predicate Handshaken(c: Client, polite: bool) {
    && GoodTranscripts(c.sockets, c.pending, c.outcomes, polite)
    && ReadyIsWelcomed(c.snapshot.phase, c.socket, c.sockets, c.outcomes)
  }

  /** The application leaves the two handshake messages to the client. */
  predicate Polite(e: Event) {
    && (e.UserRequest? ==> e.methodName != INITIALIZE)
    && (e.UserSend? ==> e.frame != WELCOME)
  }

  /** The parts of the core invariants that the handshake rests on. */
  ghost predicate Bookkeeping(c: Client) {
    && (forall id :: id in c.pending ==> id !in c.outcomes)
    && (forall id :: id in c.pending || id in c.outcomes ==> id <= c.sequence)
    && (forall s: nat :: s < |c.sockets| && c.sockets[s].sent != [] && c.sockets[s].sent[0].Request? ==>
          c.sockets[s].sent[0].id <= c.sequence)
    && (forall s: nat, id: nat :: s < |c.sockets| && id in RequestIds(c.sockets[s].sent) ==>
          id in c.pending && c.pending[id].waiter.Handshake? ==> c.pending[id].waiter.socket == s)
    && (forall t :: t in c.timers && c.timers[t].Timeout? ==> c.timers[t].id in c.pending)
    && (c.socket.Some? ==> !c.manuallyClosed)
  }

  lemma InvGivesBookkeeping(cfg: Config, c: Client)
    requires Inv(cfg, c)
    ensures Bookkeeping(c)
  {
    forall s: nat | s < |c.sockets|
      ensures RequestIds(c.sockets[s].sent) == RequestIds(Transcripts(c.sockets)[s])
      ensures c.sockets[s].sent != [] && c.sockets[s].sent[0].Request? ==> c.sockets[s].sent[0].id <= c.sequence
    {
      assert Transcripts(c.sockets)[s] == c.sockets[s].sent;
      if c.sockets[s].sent != [] && c.sockets[s].sent[0].Request? {
        var f := c.sockets[s].sent[0];
        assert f in c.sockets[s].sent;
        assert f.id in RequestIds(Transcripts(c.sockets)[s]);
        assert f.id in c.sentOn;
      }
    }
  }

  // ---------- each operation ----------

  /** No frame is sent, and a socket can only stop being open. */
  ghost predicate Quieter(before: seq<Socket>, after: seq<Socket>) {
    && |after| == |before|
    && forall s: nat :: s < |before| ==>
         && after[s].sent == before[s].sent
         && (after[s].readyState in {Opening, Open} ==> after[s].readyState == before[s].readyState)
  }

  lemma ClosingIsQuiet(sockets: seq<Socket>, s: nat, state: ReadyState)
    requires state in {Closing, Shut}
    ensures Quieter(sockets, SetReadyState(sockets, s, state))
    ensures Quieter(sockets, CloseCall(sockets, s))
  {
  }

  lemma SettlingIsQuiet(sockets: seq<Socket>, s: nat, ss: set<nat>)
    ensures Quieter(sockets, MarkSettled(sockets, s))
    ensures Quieter(sockets, MarkAllSettled(sockets, ss))
  {
  }

  lemma QuieterChain(x: seq<Socket>, y: seq<Socket>, z: seq<Socket>)
    requires Quieter(x, y) && Quieter(y, z)
    ensures Quieter(x, z)
  {
  }

  lemma QuietKeepsHandshaken(c: Client, d: Client, polite: bool)
    requires Handshaken(c, polite)
    requires Quieter(c.sockets, d.sockets) && d.pending == c.pending && d.outcomes == c.outcomes
    requires d.snapshot.phase == Ready ==> c.snapshot.phase == Ready && d.socket == c.socket
    ensures Handshaken(d, polite)
  {
  }

  lemma RejectKeepsTranscripts(sockets: seq<Socket>, pending: map<nat, Pending>, outcomes: map<nat, Outcome>,
      why: Outcome, polite: bool)
    requires GoodTranscripts(sockets, pending, outcomes, polite) && !why.Answered?
    requires forall id :: id in pending ==> id !in outcomes
    ensures GoodTranscripts(sockets, map[], outcomes + Rejections(pending, why), polite)
  {
  }

  lemma AppendKeepsTranscripts(sockets: seq<Socket>, pending: map<nat, Pending>, outcomes: map<nat, Outcome>, s: nat,
      f: Frame, polite: bool)
    requires GoodTranscripts(sockets, pending, outcomes, polite)
    requires s < |sockets| && sockets[s].readyState == Open && (polite ==> !IsHello(f) && f != WELCOME)
    ensures GoodTranscripts(SendCall(sockets, s, f), pending, outcomes, polite)
  {
    var sent := sockets[s].sent;
    assert WELCOME in sent ==> WELCOME in sent + [f];
    assert f != WELCOME ==> (WELCOME in sent + [f] ==> WELCOME in sent);
    assert (sent + [f])[0] == sent[0];
  }

  lemma AddCallerKeepsTranscripts(sockets: seq<Socket>, pending: map<nat, Pending>, outcomes: map<nat, Outcome>,
      id: nat, p: Pending, polite: bool)
    requires GoodTranscripts(sockets, pending, outcomes, polite) && p.waiter == Caller
    requires forall s: nat :: s < |sockets| && sockets[s].sent != [] && sockets[s].sent[0].Request? ==>
        sockets[s].sent[0].id != id
    ensures GoodTranscripts(sockets, pending[id := p], outcomes, polite)
  {
  }

  lemma HelloKeepsTranscripts(sockets: seq<Socket>, pending: map<nat, Pending>, outcomes: map<nat, Outcome>, s: nat,
      id: nat, p: Pending, polite: bool)
    requires GoodTranscripts(sockets, pending, outcomes, polite) && p.waiter == Handshake(s)
    requires s < |sockets| && sockets[s].readyState == Opening && id !in pending && id !in outcomes
    requires forall i: nat :: i < |sockets| && sockets[i].sent != [] && sockets[i].sent[0].Request? ==>
        sockets[i].sent[0].id != id
    ensures GoodTranscripts(SendCall(SetReadyState(sockets, s, Open), s, Request(id, INITIALIZE)), pending[id := p],
        outcomes, polite)
  {
    assert [] + [Request(id, INITIALIZE)] == [Request(id, INITIALIZE)];
  }

  lemma SettleKeepsTranscripts(sockets: seq<Socket>, pending: map<nat, Pending>, outcomes: map<nat, Outcome>, id: nat,
      outcome: Outcome, polite: bool)
    requires GoodTranscripts(sockets, pending, outcomes, polite) && id in pending && id !in outcomes
    requires pending[id].waiter == Caller || !outcome.Answered? || !outcome.ok
    ensures GoodTranscripts(sockets, pending - {id}, outcomes[id := outcome], polite)
  {
  }

  lemma WelcomeKeepsTranscripts(sockets: seq<Socket>, pending: map<nat, Pending>, outcomes: map<nat, Outcome>, id: nat,
      s: nat, polite: bool)
    requires GoodTranscripts(sockets, pending, outcomes, polite) && id in pending && id !in outcomes
    requires pending[id].waiter == Handshake(s)
    ensures GoodTranscripts(SendCall(sockets, s, WELCOME), pending - {id}, outcomes[id := Answered(s, true)], polite)
  {
    var sent := sockets[s].sent;
    assert polite ==> WELCOME !in sent;
    assert (sent + [WELCOME])[0] == sent[0] && (sent + [WELCOME])[|sent|] == WELCOME;
  }

  // ---------- each event ----------

  lemma RejectKeepsHandshaken(c: Client, d: Client, why: Outcome, polite: bool)
    requires Bookkeeping(c) && Handshaken(c, polite) && !why.Answered?
    requires d.pending == map[] && d.outcomes == RejectPending(c, why).outcomes
    requires Quieter(c.sockets, d.sockets) && d.snapshot.phase != Ready
    ensures Handshaken(d, polite)
  {
    RejectKeepsTranscripts(c.sockets, c.pending, c.outcomes, why, polite);
    QuietKeepsHandshaken(d.(sockets := c.sockets), d, polite);
  }

  lemma ConnectKeepsHandshaken(c: Client, net: Network, polite: bool)
    requires Handshaken(c, polite)
    ensures Handshaken(Connect(c, net), polite)
  {
    var d := Connect(c, net);
    if c.snapshot.phase == Ready || c.connectPromise.Some? {
    } else if net.Dialed? {
      assert d.sockets == c.sockets + [Socket(Opening, false, [])] && d.snapshot.phase != Ready;
    } else {
      QuietKeepsHandshaken(c, d, polite);
    }
  }

  lemma IssueKeepsHandshaken(c: Client, name: string, timed: bool, polite: bool)
    requires Bookkeeping(c) && Handshaken(c, polite) && (polite ==> name != INITIALIZE)
    ensures Handshaken(Issue(c, name, timed, Caller), polite)
  {
    if CanSend(c) {
      var d := Issue(c, name, timed, Caller);
      AddCallerKeepsTranscripts(c.sockets, c.pending, c.outcomes, d.sequence, d.pending[d.sequence], polite);
      AppendKeepsTranscripts(c.sockets, d.pending, c.outcomes, c.socket.value, Request(d.sequence, name), polite);
    }
  }

  lemma SendKeepsHandshaken(c: Client, f: Frame, polite: bool)
    requires Handshaken(c, polite) && !f.Request? && (polite ==> f != WELCOME)
    ensures Handshaken(Send(c, f), polite)
  {
    if CanSend(c) {
      AppendKeepsTranscripts(c.sockets, c.pending, c.outcomes, c.socket.value, f, polite);
    }
  }

  lemma OpenKeepsHandshaken(c: Client, s: nat, polite: bool)
    requires Bookkeeping(c) && Handshaken(c, polite) && ReadyStateOf(c.sockets, s) == Opening
    ensures Handshaken(SocketOpened(c, s), polite)
  {
    if c.socket != Some(s) {
      SettlingIsQuiet(CloseCall(SetReadyState(c.sockets, s, Open), s), s, {});
      QuietKeepsHandshaken(c, SocketOpened(c, s), polite);
    } else {
      var d := SocketOpened(c, s);
      HelloKeepsTranscripts(c.sockets, c.pending, c.outcomes, s, d.sequence, d.pending[d.sequence], polite);
    }
  }

  lemma HandshakeFailedKeepsHandshaken(c: Client, s: nat, failure: Notice, polite: bool)
    requires Handshaken(c, polite)
    ensures Handshaken(HandshakeFailed(c, s, failure), polite)
  {
    var closed := if c.socket == Some(s) then CloseCall(c.sockets, s) else c.sockets;
    ClosingIsQuiet(c.sockets, s, Closing);
    SettlingIsQuiet(closed, s, {});
    QuieterChain(c.sockets, closed, MarkSettled(closed, s));
    QuietKeepsHandshaken(c, HandshakeFailed(c, s, failure), polite);
  }

  lemma ResponseKeepsHandshaken(c: Client, s: nat, id: nat, m: Inbound, polite: bool)
    requires Bookkeeping(c) && Handshaken(c, polite)
    requires m.Envelope? && (m.result.Some? || m.error.Some?) && id in c.pending
    requires c.socket == Some(s) && ReadyStateOf(c.sockets, s) == Open && id in RequestIds(c.sockets[s].sent)
    ensures Handshaken(HandleResponse(c, s, id, m), polite)
  {
    var p := c.pending[id];
    var done := SettleRequest(c.(timers := Cleared(c.timers, p.timeout)), id, Answered(s, m.error.None?));
    if p.waiter.Caller? || m.error.Some? {
      SettleKeepsTranscripts(c.sockets, c.pending, c.outcomes, id, Answered(s, m.error.None?), polite);
      if p.waiter.Handshake? {
        HandshakeFailedKeepsHandshaken(done, s, Text(m.error.value), polite);
      }
    } else {
      WelcomeKeepsTranscripts(c.sockets, c.pending, c.outcomes, id, s, polite);
      var sent := Send(done, WELCOME).(snapshot := Snapshot(Ready, 0, None, None, Some(m.result.value)));
      assert sent.sockets[s].sent[|c.sockets[s].sent|] == WELCOME;
      assert Handshaken(sent, polite);
      SettlingIsQuiet(sent.sockets, s, {});
      QuietKeepsHandshaken(sent, Settle(sent, s), polite);
    }
  }

  lemma CloseKeepsHandshaken(cfg: Config, c: Client, s: nat, code: int, reason: string, jitter: real, polite: bool)
    requires Bookkeeping(c) && Handshaken(c, polite)
    ensures Handshaken(SocketClosed(cfg, c, s, code, reason, jitter), polite)
  {
    if c.socket != Some(s) {
      ShutIsQuiet(c.sockets, s, {});
      QuietKeepsHandshaken(c, SocketClosed(cfg, c, s, code, reason, jitter), polite);
    } else {
      CurrentCloseKeepsHandshaken(cfg, c, s, CloseReason(c, code, reason), jitter, polite);
      assert !c.manuallyClosed;
    }
  }

  lemma CurrentCloseKeepsHandshaken(cfg: Config, c: Client, s: nat, why: Notice, jitter: real, polite: bool)
    requires Bookkeeping(c) && Handshaken(c, polite) && c.socket == Some(s)
    ensures Handshaken(SettleReplaced(ScheduleReconnect(cfg, LoseCurrent(c, s), why, jitter), Handshaking(c.pending)),
        polite)
  {
    var lost := LoseCurrent(c, s);
    var retrying := ScheduleReconnect(cfg, lost, why, jitter);
    ShutIsQuiet(c.sockets, s, {});
    LossKeepsHandshaken(cfg, c, lost, why, jitter, polite);
    SettlingIsQuiet(retrying.sockets, 0, Handshaking(c.pending));
    QuietKeepsHandshaken(retrying, SettleReplaced(retrying, Handshaking(c.pending)), polite);
  }

  lemma LossKeepsHandshaken(cfg: Config, c: Client, lost: Client, reason: Notice, jitter: real, polite: bool)
    requires Bookkeeping(c) && Handshaken(c, polite) && Quieter(c.sockets, lost.sockets)
    requires lost.pending == map[] && lost.outcomes == RejectPending(c, ConnectionLost).outcomes
    ensures Handshaken(ScheduleReconnect(cfg, lost, reason, jitter), polite)
  {
    RejectKeepsHandshaken(c, ScheduleReconnect(cfg, lost, reason, jitter), ConnectionLost, polite);
  }

  lemma ShutIsQuiet(sockets: seq<Socket>, s: nat, ss: set<nat>)
    ensures Quieter(sockets, MarkSettled(SetReadyState(sockets, s, Shut), s))
    ensures Quieter(sockets, MarkAllSettled(MarkSettled(SetReadyState(sockets, s, Shut), s), ss))
  {
  }

  lemma TimeoutKeepsHandshaken(c: Client, t: nat, polite: bool)
    requires Bookkeeping(c) && Handshaken(c, polite) && t in c.timers && c.timers[t].Timeout?
    ensures Handshaken(TimeoutFired(c, t, c.timers[t].id, c.timers[t].methodName, c.timers[t].waiter), polite)
  {
    var timer := c.timers[t];
    var expired := SettleRequest(c.(timers := c.timers - {t}), timer.id, Expired);
    SettleKeepsTranscripts(c.sockets, c.pending, c.outcomes, timer.id, Expired, polite);
    if timer.waiter.Handshake? {
      HandshakeFailedKeepsHandshaken(expired, timer.waiter.socket, TimedOut(timer.methodName), polite);
    }
  }

  lemma ReconnectKeepsHandshaken(c: Client, net: Network, polite: bool)
    requires Bookkeeping(c) && Handshaken(c, polite)
    ensures Handshaken(ReconnectNow(c, net), polite)
  {
    var replaced := Superseded(c);
    if c.socket.Some? { ClosingIsQuiet(c.sockets, c.socket.value, Closing); }
    RejectKeepsHandshaken(c, replaced, ConnectionReplaced, polite);
    ConnectKeepsHandshaken(replaced, net, polite);
    SettlingIsQuiet(Connect(replaced, net).sockets, 0, Handshaking(c.pending));
    QuietKeepsHandshaken(Connect(replaced, net), ReconnectNow(c, net), polite);
  }

  lemma DisconnectKeepsHandshaken(c: Client, polite: bool)
    requires Bookkeeping(c) && Handshaken(c, polite)
    ensures Handshaken(Disconnect(c), polite)
  {
    var closed := if c.socket.Some? then CloseCall(c.sockets, c.socket.value) else c.sockets;
    if c.socket.Some? { ClosingIsQuiet(c.sockets, c.socket.value, Closing); }
    SettlingIsQuiet(closed, 0, Handshaking(c.pending));
    QuieterChain(c.sockets, closed, MarkAllSettled(closed, Handshaking(c.pending)));
    RejectKeepsHandshaken(c, Disconnect(c), ConnectionClosed, polite);
  }

  lemma StepKeepsHandshaken(cfg: Config, c: Client, e: Event, polite: bool)
    requires Inv(cfg, c) && Handshaken(c, polite) && Enabled(c, e) && (polite ==> Polite(e))
    ensures Handshaken(Step(cfg, c, e), polite)
  {
    InvGivesBookkeeping(cfg, c);
    StepKeepsHandshakenGiven(cfg, c, e, polite);
  }

  lemma StepKeepsHandshakenGiven(cfg: Config, c: Client, e: Event, polite: bool)
    requires Bookkeeping(c) && Handshaken(c, polite) && Enabled(c, e) && (polite ==> Polite(e))
    ensures Handshaken(Step(cfg, c, e), polite)
  {
    match e
    case OpenEvent(s) => OpenKeepsHandshaken(c, s, polite);
    case MessageEvent(s, m) => MessageKeepsHandshaken(cfg, c, s, m, polite);
    case CloseEvent(s, code, reason, jitter) => CloseKeepsHandshaken(cfg, c, s, code, reason, jitter, polite);
    case TimeoutEvent(t) => TimeoutKeepsHandshaken(c, t, polite);
    case ErrorEvent(_) => NoticeKeepsHandshaken(cfg, c, e, polite);
    case PeerClosing(_) => NoticeKeepsHandshaken(cfg, c, e, polite);
    case _ => CallKeepsHandshaken(cfg, c, e, polite);
  }

  lemma NoticeKeepsHandshaken(cfg: Config, c: Client, e: Event, polite: bool)
    requires Handshaken(c, polite) && Enabled(c, e) && (e.ErrorEvent? || e.PeerClosing?)
    ensures Handshaken(Step(cfg, c, e), polite)
  {
    ClosingIsQuiet(c.sockets, e.s, Closing);
    QuietKeepsHandshaken(c, Step(cfg, c, e), polite);
  }

  lemma MessageKeepsHandshaken(cfg: Config, c: Client, s: nat, m: Inbound, polite: bool)
    requires Bookkeeping(c) && Handshaken(c, polite) && Enabled(c, MessageEvent(s, m))
    ensures Handshaken(Step(cfg, c, MessageEvent(s, m)), polite)
  {
    if c.socket != Some(s) {
    } else if IsResponse(m) && m.id.value.Num? && m.id.value.num in c.pending {
      ResponseKeepsHandshaken(c, s, m.id.value.num, m, polite);
    } else {
      HearingChangesNothing(c, s, m);
    }
  }

  /** Calls from the application, the reconnect timer and the network status. */
  lemma CallKeepsHandshaken(cfg: Config, c: Client, e: Event, polite: bool)
    requires Bookkeeping(c) && Handshaken(c, polite) && Enabled(c, e) && (polite ==> Polite(e))
    requires e.UserConnect? || e.UserDisconnect? || e.UserReconnect? || e.UserRequest? || e.UserSend?
          || e.ReconnectEvent? || e.OnlineEvent? || e.OfflineEvent?
    ensures Handshaken(Step(cfg, c, e), polite)
  {
    match e
    case UserConnect(net) => ConnectKeepsHandshaken(c, net, polite);
    case UserDisconnect => DisconnectKeepsHandshaken(c, polite);
    case UserReconnect(net) => ReconnectKeepsHandshaken(c, net, polite);
    case UserRequest(name, timed) => IssueKeepsHandshaken(c, name, timed, polite);
    case UserSend(frame) => SendKeepsHandshaken(c, frame, polite);
    case ReconnectEvent(t, net) =>
      QuietKeepsHandshaken(c, c.(timers := c.timers - {t}, reconnectTimer := None), polite);
      ConnectKeepsHandshaken(c.(timers := c.timers - {t}, reconnectTimer := None), net, polite);
    case OnlineEvent(net) =>
      if !c.manuallyClosed && c.snapshot.phase != Ready {
        var retrying := c.(snapshot := c.snapshot.(phase := Reconnecting, nextRetryMs := Some(0), error := None));
        QuietKeepsHandshaken(c, retrying, polite);
        ConnectKeepsHandshaken(retrying, net, polite);
      }
    case OfflineEvent => QuietKeepsHandshaken(c, WentOffline(c), polite);
  }
}
