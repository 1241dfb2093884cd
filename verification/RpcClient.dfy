/** The client object itself. Each public method and event handler is one `Step` of the protocol, so
    any run of them keeps the protocol's invariant. */
module RpcClient {
  import opened Wrappers
  import opened RpcProtocol
  import P = RpcProtocol
  import opened RpcInvariants
  import opened RpcControl

  function Registered(c: Client, methodName: string, timed: bool, waiter: Waiter): Client
    requires c.socket.Some?
  {
    var id, timeout := c.sequence + 1, if timed then Some(c.nextTimer) else None;
    c.(sequence := id,
       timers := if timed then c.timers[c.nextTimer := Timeout(id, methodName, waiter)] else c.timers,
       nextTimer := if timed then c.nextTimer + 1 else c.nextTimer,
       pending := c.pending[id := Pending(methodName, timeout, waiter)],
       sentOn := c.sentOn[id := c.socket.value])
  }

  lemma RegisterThenSend(c: Client, methodName: string, timed: bool, waiter: Waiter)
    requires CanSend(c)
    ensures Issue(c, methodName, timed, waiter) ==
            Send(Registered(c, methodName, timed, waiter), Request(c.sequence + 1, methodName))
  {
  }

  class JsonRpcClient {
    const config: Config
    var socket: Option<nat>
    var pending: map<nat, Pending>
    var sequence: nat
    var reconnectTimer: Option<nat>
    var manuallyClosed: bool
    var connectPromise: Option<nat>
    var snapshot: Snapshot
    // the browser's side
    var sockets: seq<Socket>
    var timers: map<nat, Timer>
    var nextTimer: nat
    // history
    ghost var sentOn: map<nat, nat>
    ghost var settled: multiset<nat>
    ghost var outcomes: map<nat, Outcome>
    ghost var heard: seq<Heard>

    ghost function State(): Client
      reads this
    {
      Client(socket, pending, sequence, reconnectTimer, manuallyClosed, connectPromise, snapshot,
             sockets, timers, nextTimer, sentOn, settled, outcomes, heard)
    }

    constructor (config: Config)
      ensures this.config == config && State() == INITIAL
    {
      this.config := config;
      socket, pending, sequence, reconnectTimer := None, map[], 0, None;
      manuallyClosed, connectPromise := false, None;
      snapshot := Snapshot(Idle, 0, None, None, None);
      sockets, timers, nextTimer := [], map[], 0;
      sentOn, settled, outcomes, heard := map[], multiset{}, map[], [];
    }

    // ---------- private methods ----------

    method ClearReconnectTimer()
      modifies this
      ensures State() == P.ClearReconnectTimer(old(State()))
    {
      timers := Cleared(timers, reconnectTimer);
      reconnectTimer := None;
    }

    /** Rejects every pending request; the catch branches of the rejected handshakes run afterwards. */
    method RejectPending(ghost why: Outcome) returns (released: set<nat>)
      modifies this
      ensures State() == P.RejectPending(old(State()), why)
      ensures released == Handshaking(old(pending))
    {
      var live;
      ghost var rejected;
      live, released, rejected := RejectEach(pending, timers);
      Forget(live, settled + multiset(pending.Keys), outcomes + Rejections(pending, why));
    }

    /** `pending.clear()`, with what was settled on the way. */
    method Forget(live: map<nat, Timer>, ghost allSettled: multiset<nat>, ghost allOutcomes: map<nat, Outcome>)
      modifies this
      ensures State() == old(State()).(pending := map[], timers := live, settled := allSettled, outcomes := allOutcomes)
    {
      timers := live;
      settled := allSettled;
      outcomes := allOutcomes;
      pending := map[];
    }

    /** Each request is rejected once and its timer cleared. */
    static method RejectEach(requests: map<nat, Pending>, timers: map<nat, Timer>)
      returns (live: map<nat, Timer>, released: set<nat>, ghost rejected: set<nat>)
      ensures live == timers - PendingTimers(requests) && released == Handshaking(requests)
      ensures rejected == requests.Keys
    {
      live, released, rejected := timers, {}, {};
      var todo := requests.Keys;
      NoneRejected(requests);
      while todo != {}
        invariant todo <= requests.Keys && rejected == requests.Keys - todo
        invariant live == timers - PendingTimers(requests - todo) && released == Handshaking(requests - todo)
        decreases todo
      {
        var id :| id in todo;
        OneMore(timers, requests, todo, id);
        live := Cleared(live, requests[id].timeout);
        assert id !in rejected;
        rejected := rejected + {id};
        if requests[id].waiter.Handshake? {
          released := released + {requests[id].waiter.socket};
        }
        todo := todo - {id};
      }
      assert requests - {} == requests;
    }

    /** `rejectIfUnsettled` and the clearing of `connectPromise` that follows it. */
    method SettleConnection(s: nat)
      modifies this
      ensures State() == Settle(old(State()), s)
    {
      sockets := MarkSettled(sockets, s);
      if connectPromise == Some(s) {
        connectPromise := None;
      }
    }

    /** The catch branch of a socket's open handler. */
    method HandshakeRejected(s: nat, failure: Notice)
      modifies this
      ensures State() == HandshakeFailed(old(State()), s, failure)
    {
      if socket != Some(s) {
        SettleConnection(s);
      } else {
        snapshot := snapshot.(error := Some(failure));
        sockets := CloseCall(sockets, s);
        SettleConnection(s);
      }
    }

    /** The microtasks of rejected handshakes: none of their sockets is current any more. */
    method DrainRejections(released: set<nat>, failure: Notice)
      requires socket.Some? ==> socket.value !in released
      modifies this
      ensures State() == SettleReplaced(old(State()), released)
    {
      var todo := released;
      MarkOneMore(sockets, {}, 0);
      while todo != {}
        invariant todo <= released
        invariant State() == SettleReplaced(old(State()), released - todo)
        decreases todo
      {
        var s :| s in todo;
        MarkOneMore(old(sockets), released - todo, s);
        HandshakeRejected(s, failure);
        assert released - (todo - {s}) == (released - todo) + {s};
        todo := todo - {s};
      }
      assert released - {} == released;
    }

    method OpenSocket(net: Network)
      modifies this
      ensures State() == P.OpenSocket(old(State()), net)
    {
      if net.Unreachable? {
        snapshot := snapshot.(phase := Offline, nextRetryMs := None);
        return;
      }
      var isRetry := snapshot.attempt > 0 || snapshot.phase == Reconnecting;
      snapshot := snapshot.(phase := if isRetry then Reconnecting else Connecting, nextRetryMs := None, error := None);
      if net.Dialed? {
        socket := Some(|sockets|);
        sockets := sockets + [Socket(Opening, false, [])];
      }
    }

    method OpenConnection(net: Network)
      modifies this
      ensures State() == P.Connect(old(State()), net)
    {
      if snapshot.phase == Ready { return; }
      if connectPromise.Some? { return; }
      manuallyClosed := false;
      ClearReconnectTimer();
      OpenSocket(net);
      connectPromise := if net.Dialed? then socket else None;
    }

    /** The request's id, timer and pending entry. */
    method Register(methodName: string, timed: bool, waiter: Waiter)
      requires socket.Some?
      modifies this
      ensures State() == Registered(old(State()), methodName, timed, waiter)
    {
      sequence := sequence + 1;
      var timeout := None;
      if timed {
        timeout := Some(nextTimer);
        timers := timers[nextTimer := Timeout(sequence, methodName, waiter)];
        nextTimer := nextTimer + 1;
      }
      pending := pending[sequence := Pending(methodName, timeout, waiter)];
      sentOn := sentOn[sequence := socket.value];
    }

    method IssueRequest(methodName: string, timed: bool, waiter: Waiter)
      modifies this
      ensures State() == Issue(old(State()), methodName, timed, waiter)
    {
      if socket.None? || ReadyStateOf(sockets, socket.value) != Open { return; }
      RegisterThenSend(State(), methodName, timed, waiter);
      Register(methodName, timed, waiter);
      SendFrame(Request(sequence, methodName));
    }

    method SendFrame(frame: Frame)
      modifies this
      ensures State() == Send(old(State()), frame)
    {
      if socket.None? || ReadyStateOf(sockets, socket.value) != Open { return; }
      sockets := SendCall(sockets, socket.value, frame);
    }

    method ScheduleReconnect(reason: Notice, jitter: real)
      modifies this
      ensures State() == P.ScheduleReconnect(config, old(State()), reason, jitter)
    {
      ClearReconnectTimer();
      var attempt := snapshot.attempt + 1;
      if attempt > config.reconnectMaxAttempts {
        snapshot := snapshot.(phase := Closed, attempt := config.reconnectMaxAttempts, nextRetryMs := None,
            error := Some(Paused(reason)));
        return;
      }
      var delay := P.Backoff.Delay(config.reconnectBaseMs, config.reconnectMaxMs, attempt, jitter);
      snapshot := snapshot.(phase := Reconnecting, attempt := attempt, nextRetryMs := Some(delay),
          error := Some(reason));
      reconnectTimer := Some(nextTimer);
      timers := timers[nextTimer := Reconnect];
      nextTimer := nextTimer + 1;
    }

    /** The rest of `initialize`, and the open handler's then branch. */
    method HandshakeAnswered(s: nat, server: string)
      modifies this
      ensures State() == HandshakeSucceeded(old(State()), s, server)
    {
      if socket.None? || ReadyStateOf(sockets, socket.value) != Open {
        HandshakeRejected(s, Text("WebSocket 未连接"));
        return;
      }
      SendFrame(Notification(INITIALIZED));
      snapshot := Snapshot(Ready, 0, None, None, Some(server));
      SettleConnection(s);
    }

    /** `pending.delete(id)` and the resolve or reject of its promise. */
    method SettleRequest(id: nat, ghost outcome: Outcome)
      modifies this
      ensures State() == P.SettleRequest(old(State()), id, outcome)
    {
      pending := pending - {id};
      settled := settled + multiset{id};
      outcomes := outcomes[id := outcome];
    }

    method Dispatch(s: nat, m: Inbound)
      modifies this
      ensures State() == HandleMessage(old(State()), s, m)
    {
      if IsResponse(m) {
        if !m.id.value.Num? || m.id.value.num !in pending {
          heard := heard + [UnhandledHeard];
          return;
        }
        var id: nat := m.id.value.num;
        var request := pending[id];
        timers := Cleared(timers, request.timeout);
        SettleRequest(id, Answered(s, m.error.None?));
        if request.waiter.Handshake? {
          if m.error.Some? {
            HandshakeRejected(request.waiter.socket, Text(m.error.value));
          } else {
            HandshakeAnswered(request.waiter.socket, m.result.value);
          }
        }
      } else if m.Envelope? && m.id.Some? && m.methodName.Some? {
        heard := heard + [RequestHeard];
      } else if m.Envelope? && m.id.None? && m.methodName.Some? {
        heard := heard + [NotificationHeard];
      } else {
        heard := heard + [UnhandledHeard];
      }
    }

    // ---------- public methods ----------

    method Connect(net: Network)
      modifies this
      ensures State() == P.Connect(old(State()), net)
    {
      OpenConnection(net);
    }

    method Disconnect()
      modifies this
      ensures State() == P.Disconnect(old(State()))
    {
      var released := Withdraw(true, ConnectionClosed);
      CloseCurrent();
      snapshot := snapshot.(phase := Closed, nextRetryMs := None);
      DrainRejections(released, Text("连接已关闭"));
    }

    method ReconnectNow(net: Network)
      requires forall s :: s in Handshaking(pending) ==> s < |sockets|
      modifies this
      ensures State() == P.ReconnectNow(old(State()), net)
    {
      var released := Supersede();
      OpenConnection(net);
      DrainRejections(released, Text("连接已替换"));
    }

    /** `reconnectNow` up to its call of `connect`. */
    method Supersede() returns (released: set<nat>)
      modifies this
      ensures State() == Superseded(old(State())) && released == Handshaking(old(pending))
    {
      released := Withdraw(false, ConnectionReplaced);
      CloseCurrent();
      connectPromise := None;
      snapshot := snapshot.(phase := Reconnecting, attempt := 0, nextRetryMs := Some(0), error := None);
    }

    /** The steps `disconnect` and `reconnectNow` share. */
    method Withdraw(manually: bool, ghost why: Outcome) returns (released: set<nat>)
      modifies this
      ensures State() == Withdrawn(old(State()), manually, why) && released == Handshaking(old(pending))
    {
      manuallyClosed := manually;
      ClearReconnectTimer();
      released := RejectPending(why);
    }

    /** `socket?.close(...)` and `socket = null` */
    method CloseCurrent()
      modifies this
      ensures State() == Detached(old(State()))
    {
      if socket.Some? {
        sockets := CloseCall(sockets, socket.value);
      }
      socket := None;
    }

    method Call(methodName: string, timed: bool)
      modifies this
      ensures State() == Issue(old(State()), methodName, timed, Caller)
    {
      IssueRequest(methodName, timed, Caller);
    }

    /** `notify`, `respond` and `respondError` */
    method Notify(frame: Frame)
      requires !frame.Request?
      modifies this
      ensures State() == Send(old(State()), frame)
    {
      SendFrame(frame);
    }

    // ---------- event handlers ----------

    method OnOpen(s: nat)
      modifies this
      ensures State() == SocketOpened(old(State()), s)
    {
      sockets := SetReadyState(sockets, s, Open);
      if socket != Some(s) {
        sockets := CloseCall(sockets, s);
        SettleConnection(s);
        return;
      }
      snapshot := snapshot.(phase := Initializing);
      IssueRequest(INITIALIZE, true, Handshake(s));
    }

    method OnMessage(s: nat, m: Inbound)
      modifies this
      ensures State() == (if old(socket) == Some(s) then HandleMessage(old(State()), s, m) else old(State()))
    {
      if socket == Some(s) {
        Dispatch(s, m);
      }
    }

    method OnError(s: nat)
      modifies this
      ensures State() == (if old(socket) == Some(s)
          then old(State()).(snapshot := old(snapshot).(error := Some(SocketFailed))) else old(State()))
    {
      if socket == Some(s) {
        snapshot := snapshot.(error := Some(SocketFailed));
      }
    }

    method OnClose(s: nat, code: int, reason: string, jitter: real)
      modifies this
      ensures State() == SocketClosed(config, old(State()), s, code, reason, jitter)
    {
      sockets := SetReadyState(sockets, s, Shut);
      if socket != Some(s) {
        SettleConnection(s);
        return;
      }
      var why := if reason != "" then Text(reason)
                 else if snapshot.error.Some? && Truthy(snapshot.error.value) then snapshot.error.value
                 else Interrupted(code);
      socket := None;
      var released := RejectPending(ConnectionLost);
      SettleConnection(s);
      if !manuallyClosed {
        ScheduleReconnect(why, jitter);
      }
      DrainRejections(released, Interrupted(code));
    }

    method OnTimeout(t: nat)
      requires t in timers && timers[t].Timeout?
      modifies this
      ensures State() == TimeoutFired(old(State()), t, old(timers)[t].id, old(timers)[t].methodName,
          old(timers)[t].waiter)
    {
      var timer := timers[t];
      timers := timers - {t};
      SettleRequest(timer.id, Expired);
      if timer.waiter.Handshake? {
        HandshakeRejected(timer.waiter.socket, TimedOut(timer.methodName));
      }
    }

    method OnReconnectTimer(t: nat, net: Network)
      modifies this
      ensures State() == P.Connect(old(State()).(timers := old(timers) - {t}, reconnectTimer := None), net)
    {
      timers := timers - {t};
      reconnectTimer := None;
      OpenConnection(net);
    }

    method OnOnline(net: Network)
      modifies this
      ensures State() == WentOnline(old(State()), net)
    {
      if manuallyClosed || snapshot.phase == Ready { return; }
      snapshot := snapshot.(phase := Reconnecting, nextRetryMs := Some(0), error := None);
      OpenConnection(net);
    }

    method OnOffline()
      modifies this
      ensures State() == WentOffline(old(State()))
    {
      ClearReconnectTimer();
      snapshot := snapshot.(phase := Offline, nextRetryMs := None, error := Some(DeviceOffline));
    }
  }

  /** The event loop: any run of events takes the object where the protocol says, through valid states only. */
  method Serve(client: JsonRpcClient, events: seq<Event>)
    requires Inv(client.config, client.State()) && IsRun(client.config, client.State(), events)
    modifies client
    ensures client.State() == Run(client.config, old(client.State()), events)
    ensures Inv(client.config, client.State())
  {
    var i := 0;
    while i < |events|
      invariant i <= |events|
      invariant Inv(client.config, client.State()) && IsRun(client.config, client.State(), events[i..])
      invariant Run(client.config, client.State(), events[i..]) == Run(client.config, old(client.State()), events)
    {
      assert events[i..][0] == events[i] && events[i..][1..] == events[i + 1..];
      Handle(client, events[i]);
      i := i + 1;
    }
  }

  method Handle(client: JsonRpcClient, e: Event)
    requires Inv(client.config, client.State()) && Enabled(client.State(), e)
    modifies client
    ensures client.State() == Step(client.config, old(client.State()), e)
    ensures Inv(client.config, client.State())
  {
    StepKeepsInv(client.config, client.State(), e);
    HandshakingInRange(client.State());
    Deliver(client, e);
  }

  method Deliver(client: JsonRpcClient, e: Event)
    requires Enabled(client.State(), e)
    requires forall s :: s in Handshaking(client.pending) ==> s < |client.sockets|
    modifies client
    ensures client.State() == Step(client.config, old(client.State()), e)
  {
    match e
    case UserConnect(net) => client.Connect(net);
    case UserDisconnect => client.Disconnect();
    case UserReconnect(net) => client.ReconnectNow(net);
    case UserRequest(methodName, timed) => client.Call(methodName, timed);
    case UserSend(frame) => client.Notify(frame);
    case OpenEvent(s) => client.OnOpen(s);
    case MessageEvent(s, m) => client.OnMessage(s, m);
    case ErrorEvent(s) => client.OnError(s);
    case CloseEvent(s, code, reason, jitter) => client.OnClose(s, code, reason, jitter);
    case PeerClosing(s) => client.sockets := SetReadyState(client.sockets, s, Closing);
    case TimeoutEvent(t) => client.OnTimeout(t);
    case ReconnectEvent(t, net) => client.OnReconnectTimer(t, net);
    case OnlineEvent(net) => client.OnOnline(net);
    case OfflineEvent => client.OnOffline();
  }

  lemma NoneRejected(requests: map<nat, Pending>)
    ensures PendingTimers(requests - requests.Keys) == {} && Handshaking(requests - requests.Keys) == {}
  {
    assert requests - requests.Keys == map[];
  }

  lemma OneMore(timers: map<nat, Timer>, requests: map<nat, Pending>, todo: set<nat>, id: nat)
    requires id in todo && id in requests
    ensures var done, more, p := requests - todo, requests - (todo - {id}), requests[id];
            && timers - PendingTimers(more) == Cleared(timers - PendingTimers(done), p.timeout)
            && Handshaking(more) == Handshaking(done) + (if p.waiter.Handshake? then {p.waiter.socket} else {})
  {
    assert (requests - todo)[id := requests[id]] == requests - (todo - {id});
    Insert(requests - todo, id, requests[id]);
  }

  lemma MarkOneMore(sockets: seq<Socket>, done: set<nat>, s: nat)
    ensures MarkSettled(MarkAllSettled(sockets, done), s) == MarkAllSettled(sockets, done + {s})
    ensures MarkAllSettled(sockets, {}) == sockets
  {
  }

  lemma Insert(pending: map<nat, Pending>, id: nat, p: Pending)
    requires id !in pending
    ensures PendingTimers(pending[id := p]) ==
            PendingTimers(pending) + if p.timeout.Some? then {p.timeout.value} else {}
    ensures Handshaking(pending[id := p]) ==
            Handshaking(pending) + if p.waiter.Handshake? then {p.waiter.socket} else {}
  {
    var more := pending[id := p];
    assert more[id] == p && forall i :: i in pending ==> more[i] == pending[i];
    forall i | i in pending && pending[i].timeout.Some? ensures pending[i].timeout.value in PendingTimers(more) {
      assert i in more && more[i].timeout.Some?;
    }
    forall i | i in pending && pending[i].waiter.Handshake? ensures pending[i].waiter.socket in Handshaking(more) {
      assert i in more && more[i].waiter.Handshake?;
    }
    assert id in more;
  }

  lemma HandshakingInRange(c: Client)
    requires Core(c)
    ensures forall s :: s in Handshaking(c.pending) ==> s < |c.sockets|
  {
    assert |Transcripts(c.sockets)| == |c.sockets|;
  }
}
