/** Whether something will still happen: when the client waits for nothing, and when it does not listen. */
module RpcLiveness {
  import opened Wrappers
  import opened RpcProtocol
  import opened RpcInvariants
  import opened RpcControl
  import opened RpcHandshake
  import opened RpcRuns
  import opened RpcRouting

  /** Without a current socket nothing is pending and, unless the application has disconnected, no promise. */
  ghost predicate Rested(c: Client) {
    && (c.socket.None? ==> c.pending == map[] && (c.connectPromise.Some? ==> c.manuallyClosed))
    && (c.manuallyClosed ==> c.snapshot.phase in {Closed, Offline})
  }

  ghost predicate Settled(cfg: Config, c: Client) {
    Inv(cfg, c) && Rested(c)
  }

  lemma ConnectKeepsRested(c: Client, net: Network)
    requires Rested(c)
    ensures Rested(Connect(c, net))
  {
  }

  lemma FailureKeepsRested(c: Client, s: nat, failure: Notice)
    requires Rested(c)
    ensures Rested(HandshakeFailed(c, s, failure))
  {
  }

  lemma SuccessKeepsRested(c: Client, s: nat, server: string)
    requires Rested(c) && (c.manuallyClosed ==> c.socket.None?)
    ensures Rested(HandshakeSucceeded(c, s, server))
  {
    if !CanSend(c) { FailureKeepsRested(c, s, Text("WebSocket 未连接")); }
  }

  lemma MessageKeepsRested(c: Client, s: nat, m: Inbound)
    requires Rested(c) && c.socket == Some(s) && !c.manuallyClosed
    ensures Rested(HandleMessage(c, s, m))
  {
    if IsResponse(m) && m.id.value.Num? && m.id.value.num in c.pending {
      var id: nat := m.id.value.num;
      var p := c.pending[id];
      var done := SettleRequest(c.(timers := Cleared(c.timers, p.timeout)), id, Answered(s, m.error.None?));
      if p.waiter.Handshake? {
        if m.error.Some? {
          FailureKeepsRested(done, p.waiter.socket, Text(m.error.value));
        } else {
          SuccessKeepsRested(done, p.waiter.socket, m.result.value);
        }
      }
    }
  }

  lemma CloseKeepsRested(cfg: Config, c: Client, s: nat, code: int, reason: string, jitter: real)
    requires Controlled(cfg, c) && Rested(c)
    ensures Rested(SocketClosed(cfg, c, s, code, reason, jitter))
  {
    if c.socket == Some(s) {
      LossSettlesAll(cfg, c, s, code, reason, jitter);
      assert LoseCurrent(c, s).connectPromise.None?;
    }
  }

  lemma TimeoutKeepsRested(c: Client, t: nat, id: nat, name: string, waiter: Waiter)
    requires Rested(c)
    ensures Rested(TimeoutFired(c, t, id, name, waiter))
  {
    var expired := SettleRequest(c.(timers := c.timers - {t}), id, Expired);
    if waiter.Handshake? { FailureKeepsRested(expired, waiter.socket, TimedOut(name)); }
  }

  lemma ReconnectKeepsRested(c: Client, net: Network)
    ensures Rested(ReconnectNow(c, net))
  {
    ConnectKeepsRested(Superseded(c), net);
  }

  lemma StepKeepsRested(cfg: Config, c: Client, e: Event)
    requires Controlled(cfg, c) && Rested(c) && Enabled(c, e)
    ensures Rested(Step(cfg, c, e))
  {
    match e
    case UserConnect(net) => ConnectKeepsRested(c, net);
    case UserReconnect(net) => ReconnectKeepsRested(c, net);
    case MessageEvent(s, m) =>
      if c.socket == Some(s) { MessageKeepsRested(c, s, m); }
    case CloseEvent(s, code, reason, jitter) => CloseKeepsRested(cfg, c, s, code, reason, jitter);
    case TimeoutEvent(t) => TimeoutKeepsRested(c, t, c.timers[t].id, c.timers[t].methodName, c.timers[t].waiter);
    case ReconnectEvent(t, net) => ConnectKeepsRested(c.(timers := c.timers - {t}, reconnectTimer := None), net);
    case OnlineEvent(net) =>
      if !c.manuallyClosed && c.snapshot.phase != Ready {
        ConnectKeepsRested(c.(snapshot := c.snapshot.(phase := Reconnecting, nextRetryMs := Some(0), error := None)),
            net);
      }
    case _ =>
  }

  lemma StepKeepsSettled(cfg: Config, c: Client, e: Event)
    requires Settled(cfg, c) && Enabled(c, e)
    ensures Settled(cfg, Step(cfg, c, e))
  {
    StepKeepsInv(cfg, c, e);
    StepKeepsRested(cfg, c, e);
  }

  // ---------- the client waits for nothing ----------

  /** The snapshot says that a connection is on its way, and there is neither a socket nor a retry. */
  predicate Stalled(c: Client) {
    c.snapshot.phase in {Connecting, Initializing, Reconnecting} && c.socket.None? && c.reconnectTimer.None?
  }

  /** The event is one the connection itself can still deliver. */
  predicate Awaited(c: Client, e: Event) {
    e.TimeoutEvent? || e.ReconnectEvent? || (c.socket.Some? && SocketEvent(e, c.socket.value))
  }

  /** In a phase that promises a connection, nothing can arrive any more exactly when the client is stalled. */
  lemma StalledExactlyWhenNothingIsAwaited(cfg: Config, c: Client)
    requires Settled(cfg, c) && c.snapshot.phase in {Connecting, Initializing, Reconnecting}
    ensures Stalled(c) <==> !exists e :: Enabled(c, e) && Awaited(c, e)
  {
    if c.socket.Some? {
      var e := CloseEvent(c.socket.value, 1006, "", 0.0);
      assert Enabled(c, e) && Awaited(c, e);
    } else if c.reconnectTimer.Some? {
      var e := ReconnectEvent(c.reconnectTimer.value, Dialed);
      assert Enabled(c, e) && Awaited(c, e);
    }
  }

  predicate Throws(e: Event) {
    Dials(e) && e.net.FactoryThrows?
  }

  /** The step constructs a socket while it has none, and the constructor throws. */
  predicate DialThrows(c: Client, e: Event) {
    && Throws(e)
    && match e
       case UserConnect(_) => c.snapshot.phase != Ready && c.connectPromise.None? && c.socket.None?
       case OnlineEvent(_) =>
         !c.manuallyClosed && c.snapshot.phase != Ready && c.connectPromise.None? && c.socket.None?
       case _ => true
  }

  /** What helps a stalled client: a call, or a change of the network status, that does not throw again. */
  predicate Frees(e: Event) {
    e.UserDisconnect? || e.OfflineEvent? || (Dials(e) && !Throws(e))
  }

  lemma StallsExactlyWhen(cfg: Config, c: Client, e: Event)
    requires Settled(cfg, c) && Enabled(c, e)
    ensures Stalled(Step(cfg, c, e)) <==> if Stalled(c) then !Frees(e) else DialThrows(c, e)
  {
    if Dials(e) {
      if e.ReconnectEvent? { RetryStallsExactlyWhen(cfg, c, e.t, e.net); }
      DialStallsExactlyWhen(cfg, c, e);
    } else if e.MessageEvent? || e.CloseEvent? || e.TimeoutEvent? {
      TrafficDoesNotStall(cfg, c, e);
    } else {
      OthersDoNotStall(cfg, c, e);
    }
  }

  lemma DialStallsExactlyWhen(cfg: Config, c: Client, e: Event)
    requires Rested(c) && Enabled(c, e) && Dials(e)
    requires e.ReconnectEvent? ==>
               !Stalled(c) && (Stalled(Step(cfg, c, e)) <==> e.net.FactoryThrows?)
    ensures Stalled(Step(cfg, c, e)) <==> if Stalled(c) then !Frees(e) else DialThrows(c, e)
  {
    match e
    case UserConnect(net) => ConnectStallsExactlyWhen(c, net);
    case UserReconnect(net) => ReconnectStallsExactlyWhen(c, net);
    case OnlineEvent(net) => OnlineStallsExactlyWhen(c, net);
    case ReconnectEvent(_, _) =>
  }

  lemma TrafficDoesNotStall(cfg: Config, c: Client, e: Event)
    requires Settled(cfg, c) && Enabled(c, e) && (e.MessageEvent? || e.CloseEvent? || e.TimeoutEvent?)
    ensures Stalled(Step(cfg, c, e)) <==> Stalled(c)
  {
    match e
    case MessageEvent(s, m) =>
      if c.socket == Some(s) { MessageKeepsLink(c, s, m); }
    case CloseEvent(s, code, reason, jitter) => CloseDoesNotStall(cfg, c, s, code, reason, jitter);
    case TimeoutEvent(t) => TimeoutMeansASocket(cfg, c, t);
  }

  lemma CloseDoesNotStall(cfg: Config, c: Client, s: nat, code: int, reason: string, jitter: real)
    requires Inv(cfg, c)
    ensures Stalled(SocketClosed(cfg, c, s, code, reason, jitter)) <==> Stalled(c)
  {
    if c.socket == Some(s) {
      LossRetriesOrGivesUp(cfg, c, s, code, reason, jitter);
    } else {
      SupersededCloseKeepsControl(cfg, c, s, code, reason, jitter);
    }
  }

  lemma SupersededCloseKeepsControl(cfg: Config, c: Client, s: nat, code: int, reason: string, jitter: real)
    requires c.socket != Some(s)
    ensures var d := SocketClosed(cfg, c, s, code, reason, jitter);
            d.socket == c.socket && d.reconnectTimer == c.reconnectTimer && d.snapshot == c.snapshot
  {
  }

  lemma OthersDoNotStall(cfg: Config, c: Client, e: Event)
    requires Enabled(c, e) && !Dials(e) && !e.MessageEvent? && !e.CloseEvent? && !e.TimeoutEvent?
    ensures Stalled(Step(cfg, c, e)) <==> Stalled(c) && !e.UserDisconnect? && !e.OfflineEvent?
  {
  }

  lemma ConnectStallsExactlyWhen(c: Client, net: Network)
    requires Rested(c)
    ensures Stalled(Connect(c, net)) <==>
            if Stalled(c) then net.FactoryThrows? else DialThrows(c, UserConnect(net))
  {
  }

  lemma OnlineStallsExactlyWhen(c: Client, net: Network)
    requires Rested(c)
    ensures Stalled(WentOnline(c, net)) <==>
            if Stalled(c) then net.FactoryThrows? else DialThrows(c, OnlineEvent(net))
  {
  }

  lemma ReconnectStallsExactlyWhen(c: Client, net: Network)
    ensures Stalled(ReconnectNow(c, net)) <==> net.FactoryThrows?
  {
    var replaced := Superseded(c);
    assert replaced.socket.None? && replaced.reconnectTimer.None? && replaced.snapshot.phase == Reconnecting;
  }

  lemma RetryStallsExactlyWhen(cfg: Config, c: Client, t: nat, net: Network)
    requires Settled(cfg, c) && Enabled(c, ReconnectEvent(t, net))
    ensures c.reconnectTimer == Some(t)
    ensures Stalled(Step(cfg, c, ReconnectEvent(t, net))) <==> net.FactoryThrows?
  {
  }

  /** The current socket is as before, and the stored promise too unless it is gone. */
  ghost predicate SameLink(c: Client, d: Client) {
    d.socket == c.socket && d.connectPromise in {c.connectPromise, None}
  }

  lemma FailureKeepsLink(c: Client, s: nat, failure: Notice)
    ensures SameLink(c, HandshakeFailed(c, s, failure))
  {
  }

  lemma SuccessKeepsLink(c: Client, s: nat, server: string)
    ensures SameLink(c, HandshakeSucceeded(c, s, server))
  {
    FailureKeepsLink(c, s, Text("WebSocket 未连接"));
  }

  lemma MessageKeepsLink(c: Client, s: nat, m: Inbound)
    ensures SameLink(c, HandleMessage(c, s, m))
  {
    if IsResponse(m) && m.id.value.Num? && m.id.value.num in c.pending {
      var id: nat := m.id.value.num;
      var p := c.pending[id];
      var done := SettleRequest(c.(timers := Cleared(c.timers, p.timeout)), id, Answered(s, m.error.None?));
      if p.waiter.Handshake? {
        if m.error.Some? {
          FailureKeepsLink(done, p.waiter.socket, Text(m.error.value));
        } else {
          SuccessKeepsLink(done, p.waiter.socket, m.result.value);
        }
      }
    }
  }

  lemma TimeoutMeansASocket(cfg: Config, c: Client, t: nat)
    requires Settled(cfg, c) && t in c.timers && c.timers[t].Timeout?
    ensures c.socket.Some?
    ensures TimeoutFired(c, t, c.timers[t].id, c.timers[t].methodName, c.timers[t].waiter).socket == c.socket
  {
    assert c.timers[t].id in c.pending;
  }

  /** At no moment of the run is the client stalled. */
  ghost predicate StallFree(cfg: Config, c: Client, events: seq<Event>)
    requires IsRun(cfg, c, events)
    decreases |events|
  {
    !Stalled(c) && (events == [] || StallFree(cfg, Step(cfg, c, events[0]), events[1..]))
  }

  ghost predicate NoDialThrows(cfg: Config, c: Client, events: seq<Event>)
    requires IsRun(cfg, c, events)
    decreases |events|
  {
    events == [] || (!DialThrows(c, events[0]) && NoDialThrows(cfg, Step(cfg, c, events[0]), events[1..]))
  }

  lemma {:induction false} StallFreeGiven(cfg: Config, c: Client, events: seq<Event>)
    requires Settled(cfg, c) && !Stalled(c) && IsRun(cfg, c, events)
    ensures StallFree(cfg, c, events) <==> NoDialThrows(cfg, c, events)
    decreases |events|
  {
    if events != [] {
      var d := Step(cfg, c, events[0]);
      StallsExactlyWhen(cfg, c, events[0]);
      StepKeepsSettled(cfg, c, events[0]);
      if !Stalled(d) {
        StallFreeGiven(cfg, d, events[1..]);
      }
    }
  }

  /** Over a run from the start the client always has a socket or an armed retry while it says that it is
      connecting, exactly when no dial without a current socket throws. */
  lemma StallFreeExactlyWhen(cfg: Config, events: seq<Event>)
    requires IsRun(cfg, INITIAL, events)
    ensures StallFree(cfg, INITIAL, events) <==> NoDialThrows(cfg, INITIAL, events)
  {
    assert Settled(cfg, INITIAL);
    StallFreeGiven(cfg, INITIAL, events);
  }

  /** No timer and no server gets a stalled client going again. */
  lemma {:induction false} StaysStalledUntilFreed(cfg: Config, c: Client, events: seq<Event>)
    requires Settled(cfg, c) && Stalled(c) && IsRun(cfg, c, events)
    requires forall e :: e in events ==> !Frees(e)
    ensures Stalled(Run(cfg, c, events))
    decreases |events|
  {
    if events != [] {
      StallsExactlyWhen(cfg, c, events[0]);
      StepKeepsSettled(cfg, c, events[0]);
      StaysStalledUntilFreed(cfg, Step(cfg, c, events[0]), events[1..]);
    }
  }

  lemma AThrowingDialStalls(cfg: Config)
    ensures IsRun(cfg, INITIAL, [UserConnect(FactoryThrows)])
    ensures Stalled(Run(cfg, INITIAL, [UserConnect(FactoryThrows)]))
  {
    RunOneMore(cfg, INITIAL, UserConnect(FactoryThrows), []);
    assert [UserConnect(FactoryThrows)] + [] == [UserConnect(FactoryThrows)];
  }

  // ---------- the client does not listen ----------

  /** The application has disconnected, and the promise of the dropped socket p is still the one `connect` returns. */
  predicate Deaf(c: Client, p: nat) {
    c.manuallyClosed && c.connectPromise == Some(p)
  }

  /** What ends that: `reconnectNow`, or the dropped socket reporting that it has opened or closed. */
  predicate Wakes(e: Event, p: nat) {
    || e.UserReconnect?
    || ((e.OpenEvent? || e.CloseEvent?) && e.s == p)
  }

  /** `disconnect` and then `connect`, on whatever network: the second call does nothing exactly when a promise is
      stored whose socket has no `initialize` pending, as between the dial and the open event. */
  lemma ConnectIsLostExactlyWhen(cfg: Config, c: Client, net: Network)
    requires Settled(cfg, c)
    ensures Connect(Disconnect(c), net) == Disconnect(c) <==>
            c.connectPromise.Some? && c.connectPromise.value !in Handshaking(c.pending)
  {
  }

  lemma WakesExactlyWhen(cfg: Config, c: Client, e: Event, p: nat)
    requires Settled(cfg, c) && Deaf(c, p) && Enabled(c, e)
    ensures Deaf(Step(cfg, c, e), p) <==> !Wakes(e, p)
    ensures Wakes(e, p) ==> Step(cfg, c, e).connectPromise != Some(p)
  {
    match e
    case TimeoutEvent(t) => TimeoutMeansASocket(cfg, c, t);
    case UserReconnect(net) => ReconnectForgets(c, net, p);
    case _ =>
  }

  lemma ReconnectForgets(c: Client, net: Network, p: nat)
    requires p < |c.sockets|
    ensures ReconnectNow(c, net).connectPromise != Some(p)
  {
    assert |Superseded(c).sockets| == |c.sockets|;
  }

  /** A promise that is not the stored one never becomes it again. */
  lemma ForgottenStaysForgotten(cfg: Config, c: Client, e: Event, p: nat)
    requires p < |c.sockets| && c.connectPromise != Some(p) && Enabled(c, e)
    ensures p < |Step(cfg, c, e).sockets| && Step(cfg, c, e).connectPromise != Some(p)
  {
    StepExtends(cfg, c, e);
    assert |Transcripts(c.sockets)| == |c.sockets|;
    assert |Transcripts(Step(cfg, c, e).sockets)| == |Step(cfg, c, e).sockets|;
    match e
    case UserReconnect(net) => ReconnectForgets(c, net, p);
    case MessageEvent(s, m) => MessageKeepsLink(c, s, m);
    case CloseEvent(s, code, reason, jitter) => CloseForgets(cfg, c, s, code, reason, jitter, p);
    case _ =>
  }

  lemma CloseForgets(cfg: Config, c: Client, s: nat, code: int, reason: string, jitter: real, p: nat)
    requires c.connectPromise != Some(p)
    ensures SocketClosed(cfg, c, s, code, reason, jitter).connectPromise != Some(p)
  {
  }

  lemma {:induction false} RunForgets(cfg: Config, c: Client, events: seq<Event>, p: nat)
    requires p < |c.sockets| && c.connectPromise != Some(p) && IsRun(cfg, c, events)
    ensures Run(cfg, c, events).connectPromise != Some(p)
    decreases |events|
  {
    if events != [] {
      ForgottenStaysForgotten(cfg, c, events[0], p);
      RunForgets(cfg, Step(cfg, c, events[0]), events[1..], p);
    }
  }

  /** From a lost promise on, the client stays closed and ignores every `connect` for as long as neither
      `reconnectNow` is called nor the dropped socket reports, and no longer. */
  lemma {:induction false} DeafExactlyWhen(cfg: Config, c: Client, events: seq<Event>, p: nat)
    requires Settled(cfg, c) && Deaf(c, p) && IsRun(cfg, c, events)
    ensures Deaf(Run(cfg, c, events), p) <==> forall e :: e in events ==> !Wakes(e, p)
    decreases |events|
  {
    if events != [] {
      var e, rest := events[0], events[1..];
      var d := Step(cfg, c, e);
      assert events == [e] + rest;
      WakesExactlyWhen(cfg, c, e, p);
      StepKeepsSettled(cfg, c, e);
      if Wakes(e, p) {
        KeepsCount(cfg, c, e);
        RunForgets(cfg, d, rest, p);
      } else {
        DeafExactlyWhen(cfg, d, rest, p);
      }
    }
  }

  lemma KeepsCount(cfg: Config, c: Client, e: Event)
    requires Enabled(c, e)
    ensures |c.sockets| <= |Step(cfg, c, e).sockets|
  {
    StepExtends(cfg, c, e);
    assert |Transcripts(c.sockets)| == |c.sockets|;
    assert |Transcripts(Step(cfg, c, e).sockets)| == |Step(cfg, c, e).sockets|;
  }

  /** `connect`, `disconnect`, `connect` leaves the client closed. */
  lemma ConnectCanBeLost(cfg: Config)
    ensures var events := [UserConnect(Dialed)] + ([UserDisconnect] + [UserConnect(Dialed)]);
            && IsRun(cfg, INITIAL, events)
            && Deaf(Run(cfg, INITIAL, events), 0) && Run(cfg, INITIAL, events).snapshot.phase == Closed
  {
    var d := FirstDial(cfg);
    var closed := Step(cfg, d, UserDisconnect);
    RunOneMore(cfg, closed, UserConnect(Dialed), []);
    assert [UserConnect(Dialed)] + [] == [UserConnect(Dialed)];
    RunOneMore(cfg, d, UserDisconnect, [UserConnect(Dialed)]);
    RunOneMore(cfg, INITIAL, UserConnect(Dialed), [UserDisconnect] + [UserConnect(Dialed)]);
  }
}
