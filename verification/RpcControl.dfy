/** The connection side of the RPC client: which socket is current, when a retry is armed, and how
    superseded sockets are kept from interfering. */
module RpcControl {
  import opened Wrappers
  import opened RpcProtocol
  import opened RpcInvariants

  /** Current socket, reconnect timer, manual close and phase agree with one another. */
  ghost predicate Controlled(cfg: Config, c: Client) {
    && Linked(c.socket, c.sockets, c.reconnectTimer, c.manuallyClosed, c.connectPromise)
    && c.snapshot.attempt <= cfg.reconnectMaxAttempts
    && (c.snapshot.phase == Ready ==> c.snapshot.attempt == 0 && c.socket.Some?)
  }

  ghost predicate Linked(socket: Option<nat>, sockets: seq<Socket>, timer: Option<nat>, manuallyClosed: bool,
      promise: Option<nat>) {
    && (socket.Some? ==> ReadyStateOf(sockets, socket.value) != Shut)
    && (timer.Some? ==> socket.None?)
    && (manuallyClosed ==> socket.None? && timer.None?)
    && (promise.Some? ==>
          && promise.value < |sockets|
          && !sockets[promise.value].settled
          && (socket.None? || socket == promise))
  }

  lemma ConnectKeepsControlled(cfg: Config, c: Client, net: Network)
    requires Controlled(cfg, c)
    ensures Controlled(cfg, Connect(c, net))
  {
  }

  lemma SettleKeepsControlled(cfg: Config, c: Client, s: nat)
    requires Controlled(cfg, c)
    ensures Controlled(cfg, Settle(c, s))
  {
  }

  lemma SettleReplacedKeepsControlled(cfg: Config, c: Client, ss: set<nat>)
    requires Controlled(cfg, c)
    ensures Controlled(cfg, SettleReplaced(c, ss))
  {
  }

  lemma CloseCallKeepsControlled(cfg: Config, c: Client, s: nat)
    requires Controlled(cfg, c)
    ensures Controlled(cfg, c.(sockets := CloseCall(c.sockets, s)))
  {
  }

  lemma HandshakeFailedKeepsControlled(cfg: Config, c: Client, s: nat, failure: Notice)
    requires Controlled(cfg, c)
    ensures Controlled(cfg, HandshakeFailed(c, s, failure))
  {
    if c.socket != Some(s) {
      SettleKeepsControlled(cfg, c, s);
    } else {
      var d := c.(snapshot := c.snapshot.(error := Some(failure)));
      CloseCallKeepsControlled(cfg, d, s);
      SettleKeepsControlled(cfg, d.(sockets := CloseCall(c.sockets, s)), s);
    }
  }

  lemma SendKeepsControlled(cfg: Config, c: Client, frame: Frame)
    requires Controlled(cfg, c)
    ensures Controlled(cfg, Send(c, frame))
  {
  }

  lemma IssueKeepsControlled(cfg: Config, c: Client, name: string, timed: bool, waiter: Waiter)
    requires Controlled(cfg, c)
    ensures Controlled(cfg, Issue(c, name, timed, waiter))
  {
  }

  lemma HandshakeSucceededKeepsControlled(cfg: Config, c: Client, s: nat, server: string)
    requires Controlled(cfg, c)
    ensures Controlled(cfg, HandshakeSucceeded(c, s, server))
  {
    if CanSend(c) {
      SendKeepsControlled(cfg, c, Notification(INITIALIZED));
      var d := Send(c, Notification(INITIALIZED)).(snapshot := Snapshot(Ready, 0, None, None, Some(server)));
      SettleKeepsControlled(cfg, d, s);
    } else {
      HandshakeFailedKeepsControlled(cfg, c, s, Text("WebSocket 未连接"));
    }
  }

  lemma ResponseKeepsControlled(cfg: Config, c: Client, s: nat, id: nat, m: Inbound)
    requires Controlled(cfg, c) && m.Envelope? && (m.result.Some? || m.error.Some?) && id in c.pending
    ensures Controlled(cfg, HandleResponse(c, s, id, m))
  {
    var p := c.pending[id];
    var done := SettleRequest(c.(timers := Cleared(c.timers, p.timeout)), id, Answered(s, m.error.None?));
    assert Controlled(cfg, done);
    if p.waiter.Handshake? {
      if m.error.Some? {
        HandshakeFailedKeepsControlled(cfg, done, p.waiter.socket, Text(m.error.value));
      } else {
        HandshakeSucceededKeepsControlled(cfg, done, p.waiter.socket, m.result.value);
      }
    }
  }

  lemma MessageKeepsControlled(cfg: Config, c: Client, s: nat, m: Inbound)
    requires Controlled(cfg, c)
    ensures Controlled(cfg, HandleMessage(c, s, m))
  {
    if IsResponse(m) && m.id.value.Num? && m.id.value.num in c.pending {
      ResponseKeepsControlled(cfg, c, s, m.id.value.num, m);
    }
  }

  lemma ShutKeepsControlled(cfg: Config, c: Client, s: nat)
    requires Controlled(cfg, c) && c.socket != Some(s)
    ensures Controlled(cfg, c.(sockets := SetReadyState(c.sockets, s, Shut)))
  {
  }

  /** A current socket closes: until the retry is scheduled the phase is still the old one. */
  lemma LossKeepsControlled(cfg: Config, c: Client, s: nat, reason: Notice, jitter: real)
    requires Controlled(cfg, c) && c.socket == Some(s)
    ensures Controlled(cfg, ScheduleReconnect(cfg, LoseCurrent(c, s), reason, jitter))
  {
    var lost := LoseCurrent(c, s);
    assert lost.snapshot == c.snapshot && !lost.manuallyClosed && lost.socket.None?;
    assert lost.connectPromise.None?;
  }

  lemma CloseKeepsControlled(cfg: Config, c: Client, s: nat, code: int, reason: string, jitter: real)
    requires Controlled(cfg, c)
    ensures Controlled(cfg, SocketClosed(cfg, c, s, code, reason, jitter))
  {
    if c.socket != Some(s) {
      ShutKeepsControlled(cfg, c, s);
      SettleKeepsControlled(cfg, c.(sockets := SetReadyState(c.sockets, s, Shut)), s);
    } else {
      LossKeepsControlled(cfg, c, s, CloseReason(c, code, reason), jitter);
      var lost := LoseCurrent(c, s);
      SettleReplacedKeepsControlled(cfg, ScheduleReconnect(cfg, lost, CloseReason(c, code, reason), jitter),
          Handshaking(c.pending));
    }
  }

  lemma DisconnectKeepsControlled(cfg: Config, c: Client)
    requires Controlled(cfg, c)
    ensures Controlled(cfg, Disconnect(c))
  {
    var d := c.(socket := None, reconnectTimer := None, manuallyClosed := true,
        snapshot := c.snapshot.(phase := Closed, nextRetryMs := None));
    if c.socket.Some? { CloseCallKeepsControlled(cfg, d, c.socket.value); }
    var closed := if c.socket.Some? then CloseCall(c.sockets, c.socket.value) else c.sockets;
    var open := Disconnect(c).(sockets := closed, connectPromise := c.connectPromise);
    SettleReplacedKeepsControlled(cfg, open, Handshaking(c.pending));
  }

  lemma ReconnectKeepsControlled(cfg: Config, c: Client, net: Network)
    requires Controlled(cfg, c)
    ensures Controlled(cfg, ReconnectNow(c, net))
  {
    var replaced := Superseded(c);
    ConnectKeepsControlled(cfg, replaced, net);
    SettleReplacedKeepsControlled(cfg, Connect(replaced, net), Handshaking(c.pending));
  }

  lemma OpenKeepsControlled(cfg: Config, c: Client, s: nat)
    requires Controlled(cfg, c)
    ensures Controlled(cfg, SocketOpened(c, s))
  {
    var live := c.(sockets := SetReadyState(c.sockets, s, Open));
    assert Controlled(cfg, live);
    if c.socket != Some(s) {
      CloseCallKeepsControlled(cfg, live, s);
      SettleKeepsControlled(cfg, live.(sockets := CloseCall(live.sockets, s)), s);
    } else {
      IssueKeepsControlled(cfg, live.(snapshot := c.snapshot.(phase := Initializing)), INITIALIZE, true, Handshake(s));
    }
  }

  lemma TimeoutKeepsControlled(cfg: Config, c: Client, t: nat, id: nat, name: string, waiter: Waiter)
    requires Controlled(cfg, c)
    ensures Controlled(cfg, TimeoutFired(c, t, id, name, waiter))
  {
    if waiter.Handshake? {
      HandshakeFailedKeepsControlled(cfg, SettleRequest(c.(timers := c.timers - {t}), id, Expired), waiter.socket,
          TimedOut(name));
    }
  }

  lemma StepKeepsControlled(cfg: Config, c: Client, e: Event)
    requires Controlled(cfg, c) && Enabled(c, e)
    requires e.ReconnectEvent? ==> c.reconnectTimer == Some(e.t)
    ensures Controlled(cfg, Step(cfg, c, e))
  {
    match e
    case UserConnect(net) => ConnectKeepsControlled(cfg, c, net);
    case UserDisconnect => DisconnectKeepsControlled(cfg, c);
    case UserReconnect(net) => ReconnectKeepsControlled(cfg, c, net);
    case UserRequest(name, timed) => IssueKeepsControlled(cfg, c, name, timed, Caller);
    case UserSend(frame) => SendKeepsControlled(cfg, c, frame);
    case OpenEvent(s) => OpenKeepsControlled(cfg, c, s);
    case MessageEvent(s, m) =>
      if c.socket == Some(s) { MessageKeepsControlled(cfg, c, s, m); }
    case ErrorEvent(s) =>
    case CloseEvent(s, code, reason, jitter) => CloseKeepsControlled(cfg, c, s, code, reason, jitter);
    case PeerClosing(s) =>
    case TimeoutEvent(t) => TimeoutKeepsControlled(cfg, c, t, c.timers[t].id, c.timers[t].methodName,
        c.timers[t].waiter);
    case ReconnectEvent(t, net) => ConnectKeepsControlled(cfg, c.(timers := c.timers - {t}, reconnectTimer := None),
        net);
    case OnlineEvent(net) =>
      if !c.manuallyClosed && c.snapshot.phase != Ready {
        ConnectKeepsControlled(cfg,
            c.(snapshot := c.snapshot.(phase := Reconnecting, nextRetryMs := Some(0), error := None)), net);
      }
    case OfflineEvent =>
  }

  ghost predicate Inv(cfg: Config, c: Client) {
    Core(c) && Controlled(cfg, c)
  }

  lemma StepKeepsInv(cfg: Config, c: Client, e: Event)
    requires Inv(cfg, c) && Enabled(c, e)
    ensures Inv(cfg, Step(cfg, c, e))
  {
    StepKeepsCore(cfg, c, e);
    StepKeepsControlled(cfg, c, e);
  }
}
