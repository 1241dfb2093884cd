/** Two properties the client keeps only under a condition its caller can check, with the exact condition, and
    who sends the first frame of a connection. */
module RpcRouting {
  import opened Wrappers
  import opened RpcProtocol
  import opened RpcInvariants
  import opened RpcControl
  import opened RpcHandshake
  import opened RpcRuns

  // ---------- every pending request went out on the current socket ----------

  ghost predicate PendingIsCurrent(socket: Option<nat>, pending: map<nat, Pending>, sentOn: map<nat, nat>) {
    forall id :: id in pending ==> id in sentOn && socket == Some(sentOn[id])
  }

  ghost predicate AllPendingOnCurrent(c: Client) {
    PendingIsCurrent(c.socket, c.pending, c.sentOn)
  }

  /** The step dials although a socket is still current: `connect` before the close that a failed handshake
      asked for has arrived, or coming online after going offline. */
  predicate DialsOverLiveSocket(c: Client, e: Event) {
    && c.socket.Some? && c.connectPromise.None? && c.snapshot.phase != Ready
    && (e.UserConnect? || (e.OnlineEvent? && !c.manuallyClosed))
    && e.net.Dialed?
  }

  lemma PendingStaysOnCurrentExactlyWhen(cfg: Config, c: Client, e: Event)
    requires Inv(cfg, c) && AllPendingOnCurrent(c) && Enabled(c, e)
    ensures AllPendingOnCurrent(Step(cfg, c, e)) <==> !DialsOverLiveSocket(c, e) || c.pending == map[]
  {
    assert |Transcripts(c.sockets)| == |c.sockets|;
    PendingStaysOnCurrentGiven(cfg, c, e);
  }

  lemma PendingStaysOnCurrentGiven(cfg: Config, c: Client, e: Event)
    requires SentInRange(c) && AllPendingOnCurrent(c) && Enabled(c, e)
    requires e.ReconnectEvent? ==> c.socket.None?
    ensures AllPendingOnCurrent(Step(cfg, c, e)) <==> !DialsOverLiveSocket(c, e) || c.pending == map[]
  {
    match e
    case OpenEvent(s) => OpenKeepsCurrent(c, s);
    case MessageEvent(s, m) =>
      if c.socket == Some(s) { MessageKeepsCurrent(c, s, m); }
    case CloseEvent(s, code, reason, jitter) => CloseEmptiesPending(cfg, c, s, code, reason, jitter);
    case TimeoutEvent(t) => TimeoutKeepsCurrent(c, t);
    case UserConnect(net) => ConnectMovesCurrent(c, net);
    case OnlineEvent(net) => OnlineMovesCurrent(c, net);
    case ReconnectEvent(t, net) => ConnectMovesCurrent(c.(timers := c.timers - {t}, reconnectTimer := None), net);
    case UserDisconnect => DisconnectSettlesAll(c);
    case UserReconnect(net) => ReconnectSettlesAll(c, net);
    case _ =>
  }

  /** Pending requests and where they went are as before, or fewer. */
  ghost predicate FewerPending(c: Client, d: Client) {
    d.socket == c.socket && d.pending.Keys <= c.pending.Keys && d.sentOn == c.sentOn
  }

  ghost predicate SentInRange(c: Client) {
    forall id :: id in c.sentOn ==> c.sentOn[id] < |c.sockets|
  }

  lemma ConnectMovesCurrent(c: Client, net: Network)
    requires SentInRange(c) && AllPendingOnCurrent(c)
    ensures AllPendingOnCurrent(Connect(c, net)) <==>
            !(net.Dialed? && c.snapshot.phase != Ready && c.connectPromise.None?) || c.pending == map[]
    ensures c.socket.None? ==> c.pending == map[]
  {
    if c.socket.None? {
      assert forall id :: id !in c.pending;
    }
    if net.Dialed? && c.snapshot.phase != Ready && c.connectPromise.None? && c.pending != map[] {
      var id :| id in c.pending;
      assert Connect(c, net).socket == Some(|c.sockets|);
      assert Connect(c, net).pending == c.pending && Connect(c, net).sentOn == c.sentOn;
    }
  }

  lemma OnlineMovesCurrent(c: Client, net: Network)
    requires SentInRange(c) && AllPendingOnCurrent(c)
    ensures AllPendingOnCurrent(WentOnline(c, net)) <==> !DialsOverLiveSocket(c, OnlineEvent(net)) || c.pending == map[]
  {
    if c.manuallyClosed || c.snapshot.phase == Ready {
    } else {
      var retrying := c.(snapshot := c.snapshot.(phase := Reconnecting, nextRetryMs := Some(0), error := None));
      ConnectMovesCurrent(retrying, net);
    }
  }

  lemma OpenKeepsCurrent(c: Client, s: nat)
    requires AllPendingOnCurrent(c)
    ensures AllPendingOnCurrent(SocketOpened(c, s))
  {
  }

  lemma FailureKeepsPending(c: Client, s: nat, failure: Notice)
    ensures FewerPending(c, HandshakeFailed(c, s, failure))
  {
  }

  lemma SuccessKeepsPending(c: Client, s: nat, server: string)
    ensures FewerPending(c, HandshakeSucceeded(c, s, server))
  {
    FailureKeepsPending(c, s, Text("WebSocket 未连接"));
  }

  lemma MessageKeepsCurrent(c: Client, s: nat, m: Inbound)
    requires AllPendingOnCurrent(c)
    ensures AllPendingOnCurrent(HandleMessage(c, s, m))
  {
    if IsResponse(m) && m.id.value.Num? && m.id.value.num in c.pending {
      var id: nat := m.id.value.num;
      var p := c.pending[id];
      var done := SettleRequest(c.(timers := Cleared(c.timers, p.timeout)), id, Answered(s, m.error.None?));
      assert FewerPending(c, done);
      if p.waiter.Handshake? {
        if m.error.Some? {
          FailureKeepsPending(done, p.waiter.socket, Text(m.error.value));
        } else {
          SuccessKeepsPending(done, p.waiter.socket, m.result.value);
        }
      }
    }
  }

  lemma OtherCloseKeepsPending(cfg: Config, c: Client, s: nat, code: int, reason: string, jitter: real)
    requires c.socket != Some(s)
    ensures FewerPending(c, SocketClosed(cfg, c, s, code, reason, jitter))
    ensures SocketClosed(cfg, c, s, code, reason, jitter).pending == c.pending
  {
  }

  lemma CloseEmptiesPending(cfg: Config, c: Client, s: nat, code: int, reason: string, jitter: real)
    requires AllPendingOnCurrent(c)
    ensures AllPendingOnCurrent(SocketClosed(cfg, c, s, code, reason, jitter))
  {
    if c.socket == Some(s) {
      LossSettlesAll(cfg, c, s, code, reason, jitter);
    } else {
      OtherCloseKeepsPending(cfg, c, s, code, reason, jitter);
    }
  }

  lemma TimeoutKeepsCurrent(c: Client, t: nat)
    requires AllPendingOnCurrent(c) && t in c.timers && c.timers[t].Timeout?
    ensures AllPendingOnCurrent(TimeoutFired(c, t, c.timers[t].id, c.timers[t].methodName, c.timers[t].waiter))
  {
    var timer := c.timers[t];
    if timer.waiter.Handshake? {
      FailureKeepsPending(SettleRequest(c.(timers := c.timers - {t}), timer.id, Expired), timer.waiter.socket,
          TimedOut(timer.methodName));
    }
  }

  /** Pending requests are on the current socket at every moment of the run. */
  ghost predicate RoutedThroughout(cfg: Config, c: Client, events: seq<Event>)
    requires IsRun(cfg, c, events)
    decreases |events|
  {
    AllPendingOnCurrent(c) && (events == [] || RoutedThroughout(cfg, Step(cfg, c, events[0]), events[1..]))
  }

  /** The run never dials over a live socket while a request is pending. */
  ghost predicate NeverStrands(cfg: Config, c: Client, events: seq<Event>)
    requires IsRun(cfg, c, events)
    decreases |events|
  {
    events == []
    || ((!DialsOverLiveSocket(c, events[0]) || c.pending == map[])
        && NeverStrands(cfg, Step(cfg, c, events[0]), events[1..]))
  }

  lemma {:induction false} RoutedThroughoutGiven(cfg: Config, c: Client, events: seq<Event>)
    requires Inv(cfg, c) && AllPendingOnCurrent(c) && IsRun(cfg, c, events)
    ensures RoutedThroughout(cfg, c, events) <==> NeverStrands(cfg, c, events)
    decreases |events|
  {
    if events != [] {
      var d := Step(cfg, c, events[0]);
      PendingStaysOnCurrentExactlyWhen(cfg, c, events[0]);
      StepKeepsInv(cfg, c, events[0]);
      if AllPendingOnCurrent(d) {
        RoutedThroughoutGiven(cfg, d, events[1..]);
      }
    }
  }

  /** Every pending request was sent on the current socket, at every moment of a run, exactly when the run never
      dials over a live socket while a request is pending. */
  lemma RoutedThroughoutExactlyWhen(cfg: Config, events: seq<Event>)
    requires IsRun(cfg, INITIAL, events)
    ensures RoutedThroughout(cfg, INITIAL, events) <==> NeverStrands(cfg, INITIAL, events)
  {
    assert Inv(cfg, INITIAL);
    RoutedThroughoutGiven(cfg, INITIAL, events);
  }

  lemma RunOneMore(cfg: Config, c: Client, e: Event, rest: seq<Event>)
    requires Enabled(c, e) && IsRun(cfg, Step(cfg, c, e), rest)
    ensures IsRun(cfg, c, [e] + rest) && Run(cfg, c, [e] + rest) == Run(cfg, Step(cfg, c, e), rest)
  {
    assert ([e] + rest)[1..] == rest;
  }

  /** `connect`, the open event of its socket, and then these. */
  function AfterOpening(rest: seq<Event>): seq<Event> {
    [UserConnect(Dialed)] + ([OpenEvent(0)] + rest)
  }

  lemma FirstDial(cfg: Config) returns (d: Client)
    ensures Enabled(INITIAL, UserConnect(Dialed)) && d == Step(cfg, INITIAL, UserConnect(Dialed))
    ensures d.sockets == [Socket(Opening, false, [])] && d.socket == Some(0) && d.connectPromise == Some(0)
    ensures d.pending == map[] && d.sequence == 0 && d.sentOn == map[] && d.timers == map[] && d.nextTimer == 0
    ensures !d.manuallyClosed
  {
    d := Step(cfg, INITIAL, UserConnect(Dialed));
  }

  lemma FirstOpen(cfg: Config, d: Client) returns (c: Client)
    requires d.sockets == [Socket(Opening, false, [])] && d.socket == Some(0) && d.connectPromise == Some(0)
    requires d.pending == map[] && d.sequence == 0 && d.sentOn == map[] && d.timers == map[] && d.nextTimer == 0
    requires !d.manuallyClosed
    ensures Enabled(d, OpenEvent(0)) && c == Step(cfg, d, OpenEvent(0)) && Beginning(c)
  {
    c := Step(cfg, d, OpenEvent(0));
    assert [] + [Request(1, INITIALIZE)] == [Request(1, INITIALIZE)];
    assert c.sockets == [Socket(Open, false, [Request(1, INITIALIZE)])];
  }

  lemma OpensThen(cfg: Config, d: Client, c: Client, rest: seq<Event>)
    requires d == Step(cfg, INITIAL, UserConnect(Dialed))
    requires Enabled(d, OpenEvent(0)) && c == Step(cfg, d, OpenEvent(0)) && IsRun(cfg, c, rest)
    ensures IsRun(cfg, INITIAL, AfterOpening(rest)) && Run(cfg, INITIAL, AfterOpening(rest)) == Run(cfg, c, rest)
  {
    RunOneMore(cfg, d, OpenEvent(0), rest);
    RunOneMore(cfg, INITIAL, UserConnect(Dialed), [OpenEvent(0)] + rest);
  }

  const REFUSED := Envelope(Some(Num(1)), None, Some("no"), None)

  /** The client after its first handshake has begun. */
  predicate Beginning(c: Client) {
    && c.sockets == [Socket(Open, false, [Request(1, INITIALIZE)])] && c.socket == Some(0)
    && c.connectPromise == Some(0)
    && c.pending == map[1 := Pending(INITIALIZE, Some(0), Handshake(0))] && c.sequence == 1 && c.sentOn == map[1 := 0]
    && c.snapshot.phase == Initializing && !c.manuallyClosed
  }

  const EAGER := UserRequest("model/list", false)

  lemma EagerRequest(cfg: Config, c: Client) returns (d: Client)
    requires Beginning(c)
    ensures Enabled(c, EAGER) && d == Step(cfg, c, EAGER)
    ensures d.sockets == [Socket(Open, false, [Request(1, INITIALIZE), Request(2, "model/list")])]
    ensures d.pending == c.pending[2 := Pending("model/list", None, Caller)] && d.sentOn == map[1 := 0, 2 := 0]
    ensures d.socket == Some(0) && d.connectPromise == Some(0) && d.snapshot.phase == Initializing
  {
    d := Step(cfg, c, EAGER);
    assert c.sockets[0].sent + [Request(2, "model/list")] == [Request(1, INITIALIZE), Request(2, "model/list")];
  }

  lemma Redials(cfg: Config, c: Client) returns (d: Client)
    requires |c.sockets| == 1 && c.socket == Some(0) && c.connectPromise.None? && c.snapshot.phase == Initializing
    requires 2 in c.pending && 2 in c.sentOn && c.sentOn[2] == 0
    ensures IsRun(cfg, c, [UserConnect(Dialed)]) && d == Run(cfg, c, [UserConnect(Dialed)]) && !AllPendingOnCurrent(d)
  {
    d := Step(cfg, c, UserConnect(Dialed));
    assert 2 in d.pending && d.sentOn[2] == 0 && d.socket == Some(1);
    RunOneMore(cfg, c, UserConnect(Dialed), []);
  }

  lemma StrandsARequest(cfg: Config, c: Client) returns (events: seq<Event>)
    requires Beginning(c)
    ensures IsRun(cfg, c, events) && !AllPendingOnCurrent(Run(cfg, c, events))
  {
    var c1 := EagerRequest(cfg, c);
    assert c1.sockets[0].sent[0] == Request(1, INITIALIZE);
    var c2 := Refused(cfg, c1);
    var c3 := Redials(cfg, c2);
    var rest := [MessageEvent(0, REFUSED)] + [UserConnect(Dialed)];
    RunOneMore(cfg, c1, MessageEvent(0, REFUSED), [UserConnect(Dialed)]);
    RunOneMore(cfg, c, EAGER, rest);
    events := [EAGER] + rest;
  }

  /** A request sent while initializing outlives a failed handshake when `connect` is called before the old
      socket has closed. */
  lemma PendingCanOutliveItsSocket(cfg: Config)
    ensures exists events :: IsRun(cfg, INITIAL, events) && !AllPendingOnCurrent(Run(cfg, INITIAL, events))
  {
    var d := FirstDial(cfg);
    var c := FirstOpen(cfg, d);
    var rest := StrandsARequest(cfg, c);
    OpensThen(cfg, d, c, rest);
  }

  predicate AllPolite(events: seq<Event>) {
    forall e :: e in events ==> Polite(e)
  }

  /** The same request precedes `initialized` on its connection. */
  lemma RequestsCanOvertakeTheHandshake(cfg: Config)
    ensures exists events ::
              IsRun(cfg, INITIAL, events) && AllPolite(events) && !InOrder(Run(cfg, INITIAL, events).sockets)
  {
    var d := FirstDial(cfg);
    var c := FirstOpen(cfg, d);
    var c1 := EagerRequest(cfg, c);
    assert c1.sockets[0].sent[1] != WELCOME;
    RunOneMore(cfg, c, EAGER, []);
    OpensThen(cfg, d, c, [EAGER] + []);
    assert INITIALIZE[0] == 'i';
    assert AllPolite(AfterOpening([EAGER] + []));
  }

  /** A refused handshake: its socket is asked to close but stays current, and `connect` may dial again. */
  lemma Refused(cfg: Config, c: Client) returns (d: Client)
    requires |c.sockets| == 1 && c.sockets[0].readyState == Open && Request(1, INITIALIZE) in c.sockets[0].sent
    requires c.socket == Some(0) && c.connectPromise == Some(0) && c.snapshot.phase == Initializing
    requires 1 in c.pending && c.pending[1].waiter == Handshake(0)
    ensures Enabled(c, MessageEvent(0, REFUSED)) && d == Step(cfg, c, MessageEvent(0, REFUSED))
    ensures d.pending == c.pending - {1} && d.sentOn == c.sentOn && |d.sockets| == 1
    ensures d.socket == Some(0) && d.connectPromise.None? && d.snapshot.phase == Initializing
  {
    d := Step(cfg, c, MessageEvent(0, REFUSED));
    assert d == HandleResponse(c, 0, 1, REFUSED);
  }

  // ---------- nothing overtakes the handshake ----------

  /** `initialized` is the second frame of a socket, right behind `initialize`. */
  ghost predicate InOrder(sockets: seq<Socket>) {
    forall s: nat :: s < |sockets| && |sockets[s].sent| >= 2 ==> sockets[s].sent[1] == WELCOME
  }

  /** The application sends something else while the current socket has only its `initialize` request behind it. */
  predicate OvertakesHandshake(c: Client, e: Event) {
    && (e.UserRequest? || (e.UserSend? && e.frame != WELCOME))
    && CanSend(c) && |c.sockets[c.socket.value].sent| == 1
  }

  lemma OrderKeptExactlyWhen(cfg: Config, c: Client, e: Event)
    requires Inv(cfg, c) && Handshaken(c, false) && InOrder(c.sockets) && Enabled(c, e)
    ensures InOrder(Step(cfg, c, e).sockets) <==> !OvertakesHandshake(c, e)
  {
    InvGivesBookkeeping(cfg, c);
    OrderKeptGiven(cfg, c, e);
  }

  lemma OrderKeptGiven(cfg: Config, c: Client, e: Event)
    requires Bookkeeping(c) && Handshaken(c, false) && InOrder(c.sockets) && Enabled(c, e)
    ensures InOrder(Step(cfg, c, e).sockets) <==> !OvertakesHandshake(c, e)
  {
    match e
    case UserRequest(name, timed) => AppendOrder(c, Request(c.sequence + 1, name));
    case UserSend(frame) => AppendOrder(c, frame);
    case UserConnect(_) => DialOrder(cfg, c, e);
    case UserReconnect(_) => DialOrder(cfg, c, e);
    case ReconnectEvent(_, _) => DialOrder(cfg, c, e);
    case OnlineEvent(_) => DialOrder(cfg, c, e);
    case _ => SocketEventOrder(cfg, c, e);
  }

  lemma DialOrder(cfg: Config, c: Client, e: Event)
    requires Enabled(c, e) && InOrder(c.sockets)
    requires e.UserConnect? || e.UserReconnect? || e.ReconnectEvent? || e.OnlineEvent?
    ensures InOrder(Step(cfg, c, e).sockets)
  {
    match e
    case UserConnect(net) => ConnectOrder(c, net);
    case UserReconnect(net) => ReconnectOrder(c, net);
    case ReconnectEvent(t, net) => ConnectOrder(c.(timers := c.timers - {t}, reconnectTimer := None), net);
    case OnlineEvent(net) =>
      ConnectOrder(c.(snapshot := c.snapshot.(phase := Reconnecting, nextRetryMs := Some(0), error := None)), net);
  }

  lemma SocketEventOrder(cfg: Config, c: Client, e: Event)
    requires Bookkeeping(c) && Handshaken(c, false) && InOrder(c.sockets) && Enabled(c, e)
    requires !e.UserRequest? && !e.UserSend?
    requires !e.UserConnect? && !e.UserReconnect? && !e.ReconnectEvent? && !e.OnlineEvent?
    ensures InOrder(Step(cfg, c, e).sockets)
  {
    match e
    case OpenEvent(s) => OpenOrder(c, s);
    case MessageEvent(s, m) =>
      if c.socket == Some(s) && IsResponse(m) && m.id.value.Num? && m.id.value.num in c.pending {
        ResponseOrder(c, s, m.id.value.num, m);
      }
    case CloseEvent(s, code, reason, jitter) => CloseOrder(cfg, c, s, code, reason, jitter);
    case TimeoutEvent(t) =>
      var timer := c.timers[t];
      if timer.waiter.Handshake? {
        var expired := SettleRequest(c.(timers := c.timers - {t}), timer.id, Expired);
        FailureOrder(expired, timer.waiter.socket, TimedOut(timer.methodName));
      }
    case UserDisconnect => DisconnectOrder(c);
    case PeerClosing(s) => ClosingIsQuiet(c.sockets, s, Closing);
    case _ =>
  }

  lemma ConnectOrder(c: Client, net: Network)
    requires InOrder(c.sockets)
    ensures InOrder(Connect(c, net).sockets)
  {
  }

  lemma QuietOrder(before: seq<Socket>, after: seq<Socket>)
    requires InOrder(before) && Quieter(before, after)
    ensures InOrder(after)
  {
  }

  lemma DisconnectOrder(c: Client)
    requires InOrder(c.sockets)
    ensures InOrder(Disconnect(c).sockets)
  {
    var closed := if c.socket.Some? then CloseCall(c.sockets, c.socket.value) else c.sockets;
    if c.socket.Some? { ClosingIsQuiet(c.sockets, c.socket.value, Closing); }
    QuietOrder(c.sockets, closed);
    SettlingIsQuiet(closed, 0, Handshaking(c.pending));
    QuietOrder(closed, MarkAllSettled(closed, Handshaking(c.pending)));
  }

  lemma AppendOrder(c: Client, f: Frame)
    requires Handshaken(c, false) && InOrder(c.sockets)
    ensures CanSend(c) ==>
              (InOrder(SendCall(c.sockets, c.socket.value, f)) <==>
               |c.sockets[c.socket.value].sent| != 1 || f == WELCOME)
  {
    if CanSend(c) {
      var s := c.socket.value;
      assert SendCall(c.sockets, s, f)[s].sent == c.sockets[s].sent + [f];
    }
  }

  lemma ReconnectOrder(c: Client, net: Network)
    requires InOrder(c.sockets)
    ensures InOrder(ReconnectNow(c, net).sockets)
  {
    var closed := if c.socket.Some? then CloseCall(c.sockets, c.socket.value) else c.sockets;
    if c.socket.Some? { ClosingIsQuiet(c.sockets, c.socket.value, Closing); }
    var replaced := Superseded(c);
    QuietOrder(c.sockets, closed);
    ConnectOrder(replaced, net);
    SettlingIsQuiet(Connect(replaced, net).sockets, 0, Handshaking(c.pending));
  }

  lemma OpenOrder(c: Client, s: nat)
    requires Handshaken(c, false) && InOrder(c.sockets) && ReadyStateOf(c.sockets, s) == Opening
    ensures InOrder(SocketOpened(c, s).sockets)
  {
    if c.socket == Some(s) {
      assert |SocketOpened(c, s).sockets[s].sent| == 1;
    }
  }

  lemma FailureOrder(c: Client, s: nat, failure: Notice)
    requires InOrder(c.sockets)
    ensures InOrder(HandshakeFailed(c, s, failure).sockets)
  {
    var closed := if c.socket == Some(s) then CloseCall(c.sockets, s) else c.sockets;
    ClosingIsQuiet(c.sockets, s, Closing);
    SettlingIsQuiet(closed, s, {});
    QuietOrder(c.sockets, closed);
    QuietOrder(closed, MarkSettled(closed, s));
  }

  lemma ResponseOrder(c: Client, s: nat, id: nat, m: Inbound)
    requires Bookkeeping(c) && Handshaken(c, false) && InOrder(c.sockets)
    requires m.Envelope? && (m.result.Some? || m.error.Some?) && id in c.pending
    requires c.socket == Some(s) && ReadyStateOf(c.sockets, s) == Open && id in RequestIds(c.sockets[s].sent)
    ensures InOrder(HandleResponse(c, s, id, m).sockets)
  {
    var p := c.pending[id];
    var done := SettleRequest(c.(timers := Cleared(c.timers, p.timeout)), id, Answered(s, m.error.None?));
    if p.waiter.Handshake? {
      if m.error.Some? {
        FailureOrder(done, s, Text(m.error.value));
      } else {
        AppendOrder(c, WELCOME);
        assert HandleResponse(c, s, id, m).sockets == MarkSettled(SendCall(c.sockets, s, WELCOME), s);
      }
    }
  }

  lemma CloseOrder(cfg: Config, c: Client, s: nat, code: int, reason: string, jitter: real)
    requires InOrder(c.sockets)
    ensures InOrder(SocketClosed(cfg, c, s, code, reason, jitter).sockets)
  {
    ShutIsQuiet(c.sockets, s, Handshaking(c.pending));
    QuietOrder(c.sockets, SocketClosed(cfg, c, s, code, reason, jitter).sockets);
  }

  /** In phase `ready` the application can send freely. */
  lemma ReadyNeverOvertakes(c: Client, e: Event)
    requires Handshaken(c, false) && c.snapshot.phase == Ready
    ensures !OvertakesHandshake(c, e)
  {
  }

  // ---------- transcripts only grow ----------

  ghost predicate Extends(before: seq<seq<Frame>>, after: seq<seq<Frame>>) {
    |before| <= |after| && forall s :: 0 <= s < |before| ==> before[s] <= after[s]
  }

  lemma DialExtends(c: Client, net: Network)
    ensures Extends(Transcripts(c.sockets), Transcripts(Connect(c, net).sockets))
  {
  }

  lemma SendExtends(c: Client, f: Frame)
    ensures Extends(Transcripts(c.sockets), Transcripts(Send(c, f).sockets))
  {
  }

  lemma ResponseExtends(c: Client, s: nat, id: nat, m: Inbound)
    requires m.Envelope? && (m.result.Some? || m.error.Some?) && id in c.pending
    ensures Extends(Transcripts(c.sockets), Transcripts(HandleResponse(c, s, id, m).sockets))
  {
    var p := c.pending[id];
    var done := SettleRequest(c.(timers := Cleared(c.timers, p.timeout)), id, Answered(s, m.error.None?));
    SendExtends(done, WELCOME);
  }

  predicate Dials(e: Event) {
    e.UserConnect? || e.UserReconnect? || e.ReconnectEvent? || e.OnlineEvent?
  }

  /** The client that dials, and the network it dials on. */
  function Dialing(c: Client, e: Event): (Client, Network)
    requires Dials(e)
  {
    match e
    case UserConnect(net) => (c, net)
    case UserReconnect(net) => (Superseded(c), net)
    case ReconnectEvent(t, net) => (c.(timers := c.timers - {t}, reconnectTimer := None), net)
    case OnlineEvent(net) =>
      (c.(snapshot := c.snapshot.(phase := Reconnecting, nextRetryMs := Some(0), error := None)), net)
  }

  lemma DialingSendsAs(cfg: Config, c: Client, e: Event)
    requires Dials(e) && Enabled(c, e)
    ensures Transcripts(Dialing(c, e).0.sockets) == Transcripts(c.sockets)
    ensures var (d, net) := Dialing(c, e);
            Transcripts(Step(cfg, c, e).sockets) in {Transcripts(c.sockets), Transcripts(Connect(d, net).sockets)}
  {
  }

  predicate Silent(e: Event) {
    e.UserDisconnect? || e.ErrorEvent? || e.CloseEvent? || e.PeerClosing? || e.TimeoutEvent? || e.OfflineEvent?
  }

  lemma SilentSendsNothing(cfg: Config, c: Client, e: Event)
    requires Silent(e) && Enabled(c, e)
    ensures Transcripts(Step(cfg, c, e).sockets) == Transcripts(c.sockets)
  {
    match e
    case CloseEvent(s, code, reason, jitter) => CloseSendsNothing(cfg, c, s, code, reason, jitter);
    case TimeoutEvent(t) =>
      if c.timers[t].waiter.Handshake? {
        FailureSendsNothing(c, c.timers[t].waiter.socket, TimedOut(c.timers[t].methodName));
      }
    case _ =>
  }

  lemma FailureSendsNothing(c: Client, s: nat, failure: Notice)
    ensures Transcripts(HandshakeFailed(c, s, failure).sockets) == Transcripts(c.sockets)
  {
  }

  lemma CloseSendsNothing(cfg: Config, c: Client, s: nat, code: int, reason: string, jitter: real)
    ensures Transcripts(SocketClosed(cfg, c, s, code, reason, jitter).sockets) == Transcripts(c.sockets)
  {
  }

  /** No step takes back a frame. */
  lemma StepExtends(cfg: Config, c: Client, e: Event)
    requires Enabled(c, e)
    ensures Extends(Transcripts(c.sockets), Transcripts(Step(cfg, c, e).sockets))
  {
    if Dials(e) {
      DialingSendsAs(cfg, c, e);
      DialExtends(Dialing(c, e).0, Dialing(c, e).1);
    } else if Silent(e) {
      SilentSendsNothing(cfg, c, e);
    } else if e.MessageEvent? {
      if c.socket == Some(e.s) && IsResponse(e.message) && e.message.id.value.Num?
          && e.message.id.value.num in c.pending
      {
        ResponseExtends(c, e.s, e.message.id.value.num, e.message);
      }
    } else {
      SendingExtends(cfg, c, e);
    }
  }

  lemma SendingExtends(cfg: Config, c: Client, e: Event)
    requires Enabled(c, e) && (e.UserRequest? || e.UserSend? || e.OpenEvent?)
    ensures Extends(Transcripts(c.sockets), Transcripts(Step(cfg, c, e).sockets))
  {
    match e
    case UserRequest(name, timed) => IssueExtends(c, name, timed, Caller);
    case UserSend(frame) => SendExtends(c, frame);
    case OpenEvent(s) =>
      var live := c.(sockets := SetReadyState(c.sockets, s, Open), snapshot := c.snapshot.(phase := Initializing));
      IssueExtends(live, INITIALIZE, true, Handshake(s));
  }

  lemma IssueExtends(c: Client, name: string, timed: bool, waiter: Waiter)
    ensures Extends(Transcripts(c.sockets), Transcripts(Issue(c, name, timed, waiter).sockets))
  {
    SendExtends(c, Request(c.sequence + 1, name));
  }

  lemma ExtendsKeepsDisorder(before: seq<Socket>, after: seq<Socket>)
    requires Extends(Transcripts(before), Transcripts(after)) && !InOrder(before)
    ensures !InOrder(after)
  {
    var s: nat :| s < |before| && |before[s].sent| >= 2 && before[s].sent[1] != WELCOME;
    assert Transcripts(before)[s] == before[s].sent && Transcripts(after)[s] == after[s].sent;
    assert after[s].sent[1] == before[s].sent[1];
  }

  lemma {:induction false} DisorderStays(cfg: Config, c: Client, events: seq<Event>)
    requires IsRun(cfg, c, events) && !InOrder(c.sockets)
    ensures !InOrder(Run(cfg, c, events).sockets)
    decreases |events|
  {
    if events != [] {
      var d := Step(cfg, c, events[0]);
      StepExtends(cfg, c, events[0]);
      ExtendsKeepsDisorder(c.sockets, d.sockets);
      DisorderStays(cfg, d, events[1..]);
    }
  }

  /** The application never sends ahead of `initialized`. */
  ghost predicate NeverOvertakes(cfg: Config, c: Client, events: seq<Event>)
    requires IsRun(cfg, c, events)
    decreases |events|
  {
    events == []
    || (!OvertakesHandshake(c, events[0]) && NeverOvertakes(cfg, Step(cfg, c, events[0]), events[1..]))
  }

  lemma {:induction false} InOrderGiven(cfg: Config, c: Client, events: seq<Event>)
    requires Inv(cfg, c) && Handshaken(c, false) && InOrder(c.sockets) && IsRun(cfg, c, events)
    ensures InOrder(Run(cfg, c, events).sockets) <==> NeverOvertakes(cfg, c, events)
    decreases |events|
  {
    if events != [] {
      var d := Step(cfg, c, events[0]);
      StepKeepsInv(cfg, c, events[0]);
      StepKeepsHandshaken(cfg, c, events[0], false);
      OrderKeptExactlyWhen(cfg, c, events[0]);
      if InOrder(d.sockets) {
        InOrderGiven(cfg, d, events[1..]);
      } else {
        DisorderStays(cfg, d, events[1..]);
      }
    }
  }

  /** After a run every connection shows the documented order exactly when the application never sent anything
      else while `initialize` was unanswered: a broken order is never mended. */
  lemma EveryConnectionIsInOrderExactlyWhen(cfg: Config, events: seq<Event>)
    requires IsRun(cfg, INITIAL, events)
    ensures InOrder(Run(cfg, INITIAL, events).sockets) <==> NeverOvertakes(cfg, INITIAL, events)
  {
    assert Inv(cfg, INITIAL) && Handshaken(INITIAL, false);
    InOrderGiven(cfg, INITIAL, events);
  }

  // ---------- the first frame ----------

  /** Nothing has been sent on socket s, which may not exist yet. */
  predicate Fresh(c: Client, s: nat) {
    s < |c.sockets| ==> c.sockets[s].sent == []
  }

  /** The first frame of a socket is sent by its own open handler, which waits for the answer. */
  lemma FirstFrameIsTheOpenHandlers(cfg: Config, c: Client, e: Event, s: nat)
    requires Handshaken(c, false) && Enabled(c, e) && Fresh(c, s) && !Fresh(Step(cfg, c, e), s)
    ensures e == OpenEvent(s) && c.socket == Some(s)
    ensures var d := Step(cfg, c, e);
            && d.sockets[s].sent == [Request(d.sequence, INITIALIZE)]
            && d.sequence in d.pending && d.pending[d.sequence].waiter == Handshake(s)
  {
    var d := Step(cfg, c, e);
    assert Transcripts(d.sockets)[s] == d.sockets[s].sent;
    if e.OpenEvent? {
      OpenStarts(c, e.s, s);
    } else {
      OthersDoNotStart(cfg, c, e, s);
    }
  }

  lemma OpenStarts(c: Client, opening: nat, s: nat)
    requires ReadyStateOf(c.sockets, opening) == Opening && Fresh(c, s) && !Fresh(SocketOpened(c, opening), s)
    ensures opening == s && c.socket == Some(s)
    ensures var d := SocketOpened(c, s);
            && d.sockets[s].sent == [Request(d.sequence, INITIALIZE)]
            && d.sequence in d.pending && d.pending[d.sequence].waiter == Handshake(s)
  {
    if c.socket == Some(opening) {
      assert [] + [Request(c.sequence + 1, INITIALIZE)] == [Request(c.sequence + 1, INITIALIZE)];
    } else {
      SupersededOpenSendsNothing(c, opening);
      SameTranscriptsSameFresh(c.sockets, SocketOpened(c, opening).sockets, s);
    }
  }

  lemma SupersededOpenSendsNothing(c: Client, opening: nat)
    requires c.socket != Some(opening)
    ensures Transcripts(SocketOpened(c, opening).sockets) == Transcripts(c.sockets)
  {
  }

  lemma OthersDoNotStart(cfg: Config, c: Client, e: Event, s: nat)
    requires Handshaken(c, false) && Enabled(c, e) && Fresh(c, s) && !e.OpenEvent?
    ensures Fresh(Step(cfg, c, e), s)
  {
    if Dials(e) {
      var (d, net) := Dialing(c, e);
      DialingSendsAs(cfg, c, e);
      SameTranscriptsSameFresh(c.sockets, d.sockets, s);
      DialStartsNothing(d, net, s);
      SameTranscriptsSameFresh(Connect(d, net).sockets, Step(cfg, c, e).sockets, s);
      SameTranscriptsSameFresh(c.sockets, Step(cfg, c, e).sockets, s);
    } else if Silent(e) {
      SilentSendsNothing(cfg, c, e);
      SameTranscriptsSameFresh(c.sockets, Step(cfg, c, e).sockets, s);
    } else {
      SendingStartsNothing(cfg, c, e, s);
    }
  }

  lemma SendingStartsNothing(cfg: Config, c: Client, e: Event, s: nat)
    requires Handshaken(c, false) && Enabled(c, e) && Fresh(c, s)
    requires e.UserRequest? || e.UserSend? || e.MessageEvent?
    ensures Fresh(Step(cfg, c, e), s)
  {
    if e.MessageEvent? && c.socket == Some(e.s) && IsResponse(e.message) && e.message.id.value.Num?
        && e.message.id.value.num in c.pending
    {
      ResponseStartsNothing(c, e.s, e.message.id.value.num, e.message, s);
    }
  }

  lemma SameTranscriptsSameFresh(before: seq<Socket>, after: seq<Socket>, s: nat)
    ensures Transcripts(before) == Transcripts(after) && (s < |before| ==> before[s].sent == []) ==>
              (s < |after| ==> after[s].sent == [])
  {
    if Transcripts(before) == Transcripts(after) && s < |after| {
      assert Transcripts(before)[s] == Transcripts(after)[s];
    }
  }

  lemma DialStartsNothing(c: Client, net: Network, s: nat)
    requires Fresh(c, s)
    ensures Fresh(Connect(c, net), s)
  {
  }

  lemma ResponseStartsNothing(c: Client, current: nat, id: nat, m: Inbound, s: nat)
    requires Handshaken(c, false) && Fresh(c, s)
    requires m.Envelope? && (m.result.Some? || m.error.Some?) && id in c.pending
    ensures Fresh(HandleResponse(c, current, id, m), s)
  {
    var p := c.pending[id];
    var done := SettleRequest(c.(timers := Cleared(c.timers, p.timeout)), id, Answered(current, m.error.None?));
    if p.waiter.Handshake? && m.error.Some? {
      FailureSendsNothing(done, p.waiter.socket, Text(m.error.value));
      SameTranscriptsSameFresh(c.sockets, HandleResponse(c, current, id, m).sockets, s);
    } else if p.waiter.Handshake? {
      SuccessStartsNothing(done, p.waiter.socket, m.result.value, s);
    }
  }

  lemma SuccessStartsNothing(c: Client, w: nat, server: string, s: nat)
    requires Fresh(c, s) && forall i: nat :: ReadyStateOf(c.sockets, i) == Open ==> c.sockets[i].sent != []
    ensures Fresh(HandshakeSucceeded(c, w, server), s)
  {
    if !CanSend(c) {
      FailureSendsNothing(c, w, Text("WebSocket 未连接"));
      SameTranscriptsSameFresh(c.sockets, HandshakeSucceeded(c, w, server).sockets, s);
    }
  }
}
