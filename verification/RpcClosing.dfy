/** Which connections stay open: the sockets that the client drops are closed, and when one is left open. */
module RpcClosing {
  import opened Wrappers
  import opened RpcProtocol
  import opened RpcInvariants
  import opened RpcControl
  import opened RpcHandshake
  import opened RpcRuns
  import opened RpcRouting

  predicate Ended(state: ReadyState) {
    state == Closing || state == Shut
  }

  /** Of the sockets there were, only s can have changed its state. */
  ghost predicate OthersAsBefore(before: seq<Socket>, after: seq<Socket>, s: nat) {
    && |before| <= |after|
    && forall i :: 0 <= i < |before| && i != s ==> after[i].readyState == before[i].readyState
  }

  /** `disconnect` closes the current socket and no other. */
  lemma DisconnectCloses(c: Client, s: nat)
    requires c.socket == Some(s) && s < |c.sockets|
    ensures var d := Disconnect(c);
            && |d.sockets| == |c.sockets| && OthersAsBefore(c.sockets, d.sockets, s)
            && d.sockets[s].readyState == if c.sockets[s].readyState == Shut then Shut else Closing
  {
  }

  /** So does `reconnectNow`, before it dials. */
  lemma ReconnectCloses(c: Client, net: Network, s: nat)
    requires c.socket == Some(s) && s < |c.sockets|
    ensures var d := ReconnectNow(c, net);
            && |d.sockets| == |c.sockets| + (if net.Dialed? then 1 else 0) && OthersAsBefore(c.sockets, d.sockets, s)
            && d.sockets[s].readyState == if c.sockets[s].readyState == Shut then Shut else Closing
  {
    var replaced := Superseded(c);
    assert |replaced.sockets| == |c.sockets| && replaced.connectPromise.None?;
    assert OthersAsBefore(c.sockets, replaced.sockets, s);
    DialAdds(replaced, net);
    SettlingKeepsStates(Connect(replaced, net).sockets, Handshaking(c.pending));
  }

  lemma DialAdds(c: Client, net: Network)
    ensures var d := Connect(c, net);
            if net.Dialed? && c.snapshot.phase != Ready && c.connectPromise.None?
            then d.sockets == c.sockets + [Socket(Opening, false, [])] && d.socket == Some(|c.sockets|)
            else d.sockets == c.sockets && d.socket == c.socket
  {
  }

  lemma SettlingKeepsStates(sockets: seq<Socket>, ss: set<nat>)
    ensures forall i :: 0 <= i < |sockets| ==> MarkAllSettled(sockets, ss)[i].readyState == sockets[i].readyState
  {
  }

  lemma FailureCloses(c: Client, s: nat, failure: Notice)
    requires ReadyStateOf(c.sockets, s) == Open && c.socket == Some(s)
    ensures var d := HandshakeFailed(c, s, failure);
            && |d.sockets| == |c.sockets| && OthersAsBefore(c.sockets, d.sockets, s)
            && d.sockets[s].readyState == Closing && d.socket == Some(s)
  {
  }

  /** A refused `initialize` closes the socket it was sent on, which stays current until it has closed. */
  lemma RefusalCloses(cfg: Config, c: Client, s: nat, id: nat, text: string)
    requires c.socket == Some(s) && id in c.pending && c.pending[id].waiter == Handshake(s)
    requires Enabled(c, MessageEvent(s, Envelope(Some(Num(id)), None, Some(text), None)))
    ensures var d := Step(cfg, c, MessageEvent(s, Envelope(Some(Num(id)), None, Some(text), None)));
            && |d.sockets| == |c.sockets| && OthersAsBefore(c.sockets, d.sockets, s)
            && d.sockets[s].readyState == Closing && d.socket == Some(s)
            && d.snapshot.error == Some(Text(text))
  {
    var m := Envelope(Some(Num(id)), None, Some(text), None);
    assert Step(cfg, c, MessageEvent(s, m)) == HandleResponse(c, s, id, m);
    var done := SettleRequest(c.(timers := Cleared(c.timers, c.pending[id].timeout)), id, Answered(s, false));
    FailureCloses(done, s, Text(text));
  }

  /** So does an `initialize` that times out. */
  lemma ExpiryCloses(cfg: Config, c: Client, s: nat, t: nat)
    requires c.socket == Some(s) && ReadyStateOf(c.sockets, s) == Open
    requires Enabled(c, TimeoutEvent(t)) && c.timers[t].waiter == Handshake(s)
    ensures var d := Step(cfg, c, TimeoutEvent(t));
            && |d.sockets| == |c.sockets| && OthersAsBefore(c.sockets, d.sockets, s)
            && d.sockets[s].readyState == Closing && d.socket == Some(s)
            && d.snapshot.error == Some(TimedOut(c.timers[t].methodName))
  {
    var timer := c.timers[t];
    FailureCloses(SettleRequest(c.(timers := c.timers - {t}), timer.id, Expired), s, TimedOut(timer.methodName));
  }

  /** A superseded socket that opens after all is closed at once. */
  lemma SupersededOpenCloses(cfg: Config, c: Client, s: nat)
    requires Enabled(c, OpenEvent(s)) && c.socket != Some(s)
    ensures var d := Step(cfg, c, OpenEvent(s));
            && |d.sockets| == |c.sockets| && OthersAsBefore(c.sockets, d.sockets, s)
            && d.sockets[s].readyState == Closing
  {
  }

  // ---------- closed is closed ----------

  /** Sockets can only stop being open. */
  ghost predicate Calmer(before: seq<Socket>, after: seq<Socket>) {
    && |after| == |before|
    && forall i :: 0 <= i < |before| && !Ended(after[i].readyState) ==> after[i].readyState == before[i].readyState
  }

  lemma QuietIsCalm(before: seq<Socket>, after: seq<Socket>)
    requires Quieter(before, after)
    ensures Calmer(before, after)
  {
  }

  lemma FailureCalms(c: Client, s: nat, failure: Notice)
    ensures Calmer(c.sockets, HandshakeFailed(c, s, failure).sockets)
    ensures HandshakeFailed(c, s, failure).socket == c.socket
  {
    var closed := if c.socket == Some(s) then CloseCall(c.sockets, s) else c.sockets;
    ClosingIsQuiet(c.sockets, s, Closing);
    SettlingIsQuiet(closed, s, {});
    QuieterChain(c.sockets, closed, MarkSettled(closed, s));
    QuietIsCalm(c.sockets, HandshakeFailed(c, s, failure).sockets);
  }

  lemma SuccessCalms(c: Client, s: nat, server: string)
    ensures Calmer(c.sockets, HandshakeSucceeded(c, s, server).sockets)
    ensures HandshakeSucceeded(c, s, server).socket == c.socket
  {
    FailureCalms(c, s, Text("WebSocket 未连接"));
  }

  lemma MessageCalms(c: Client, s: nat, m: Inbound)
    ensures Calmer(c.sockets, HandleMessage(c, s, m).sockets) && HandleMessage(c, s, m).socket == c.socket
  {
    if IsResponse(m) && m.id.value.Num? && m.id.value.num in c.pending {
      var id: nat := m.id.value.num;
      var p := c.pending[id];
      var done := SettleRequest(c.(timers := Cleared(c.timers, p.timeout)), id, Answered(s, m.error.None?));
      if p.waiter.Handshake? {
        if m.error.Some? {
          FailureCalms(done, p.waiter.socket, Text(m.error.value));
        } else {
          SuccessCalms(done, p.waiter.socket, m.result.value);
        }
      }
    }
  }

  lemma TimeoutCalms(c: Client, t: nat, id: nat, name: string, waiter: Waiter)
    ensures Calmer(c.sockets, TimeoutFired(c, t, id, name, waiter).sockets)
    ensures TimeoutFired(c, t, id, name, waiter).socket == c.socket
  {
    if waiter.Handshake? {
      FailureCalms(SettleRequest(c.(timers := c.timers - {t}), id, Expired), waiter.socket, TimedOut(name));
    }
  }

  lemma CloseCalms(cfg: Config, c: Client, s: nat, code: int, reason: string, jitter: real)
    ensures Calmer(c.sockets, SocketClosed(cfg, c, s, code, reason, jitter).sockets)
  {
    ShutIsQuiet(c.sockets, s, Handshaking(c.pending));
    QuietIsCalm(c.sockets, SocketClosed(cfg, c, s, code, reason, jitter).sockets);
  }

  lemma ShutIsShut(sockets: seq<Socket>, s: nat, ss: set<nat>)
    requires s < |sockets|
    ensures MarkSettled(SetReadyState(sockets, s, Shut), s)[s].readyState == Shut
    ensures MarkAllSettled(MarkSettled(SetReadyState(sockets, s, Shut), s), ss)[s].readyState == Shut
  {
  }

  lemma CloseShuts(cfg: Config, c: Client, s: nat, code: int, reason: string, jitter: real)
    requires s < |c.sockets|
    ensures var d := SocketClosed(cfg, c, s, code, reason, jitter);
            && s < |d.sockets| && d.sockets[s].readyState == Shut
            && d.socket == if c.socket == Some(s) then None else c.socket
  {
    CloseCalms(cfg, c, s, code, reason, jitter);
    ShutIsShut(c.sockets, s, Handshaking(c.pending));
  }

  lemma DisconnectCalms(c: Client)
    ensures Calmer(c.sockets, Disconnect(c).sockets) && Disconnect(c).socket.None?
  {
  }

  /** Everything but dialing and opening calms. */
  lemma StepCalms(cfg: Config, c: Client, e: Event)
    requires Enabled(c, e) && !Dials(e) && !e.OpenEvent?
    ensures Calmer(c.sockets, Step(cfg, c, e).sockets)
  {
    match e
    case UserDisconnect => DisconnectCalms(c);
    case MessageEvent(s, m) => MessageCalms(c, s, m);
    case CloseEvent(s, code, reason, jitter) => CloseCalms(cfg, c, s, code, reason, jitter);
    case TimeoutEvent(t) => TimeoutCalms(c, t, c.timers[t].id, c.timers[t].methodName, c.timers[t].waiter);
    case _ =>
  }

  lemma DialKeepsEnded(cfg: Config, c: Client, e: Event, s: nat)
    requires Enabled(c, e) && Dials(e) && s < |c.sockets| && Ended(c.sockets[s].readyState)
    ensures s < |Step(cfg, c, e).sockets| && Ended(Step(cfg, c, e).sockets[s].readyState)
  {
    if e.UserReconnect? {
      ReconnectKeepsEnded(c, e.net, s);
    } else {
      DialAdds(Dialing(c, e).0, Dialing(c, e).1);
    }
  }

  lemma ReconnectKeepsEnded(c: Client, net: Network, s: nat)
    requires s < |c.sockets| && Ended(c.sockets[s].readyState)
    ensures s < |ReconnectNow(c, net).sockets| && Ended(ReconnectNow(c, net).sockets[s].readyState)
  {
    var replaced := Superseded(c);
    if c.socket.Some? { ClosingIsQuiet(c.sockets, c.socket.value, Closing); }
    assert Quieter(c.sockets, replaced.sockets);
    DialAdds(replaced, net);
    SettlingKeepsStates(Connect(replaced, net).sockets, Handshaking(c.pending));
  }

  lemma OpenKeepsOthers(c: Client, opening: nat, s: nat)
    requires opening != s && s < |c.sockets|
    ensures var d := SocketOpened(c, opening);
            s < |d.sockets| && d.sockets[s].readyState == c.sockets[s].readyState
  {
  }

  lemma EndedStays(cfg: Config, c: Client, e: Event, s: nat)
    requires Enabled(c, e) && s < |c.sockets| && Ended(c.sockets[s].readyState)
    ensures s < |Step(cfg, c, e).sockets| && Ended(Step(cfg, c, e).sockets[s].readyState)
  {
    if Dials(e) {
      DialKeepsEnded(cfg, c, e, s);
    } else if e.OpenEvent? {
      OpenKeepsOthers(c, e.s, s);
    } else {
      StepCalms(cfg, c, e);
    }
  }

  lemma {:induction false} RunKeepsEnded(cfg: Config, c: Client, events: seq<Event>, s: nat)
    requires IsRun(cfg, c, events) && s < |c.sockets| && Ended(c.sockets[s].readyState)
    ensures s < |Run(cfg, c, events).sockets| && Ended(Run(cfg, c, events).sockets[s].readyState)
    decreases |events|
  {
    if events != [] {
      EndedStays(cfg, c, events[0], s);
      RunKeepsEnded(cfg, Step(cfg, c, events[0]), events[1..], s);
    }
  }

  /** A socket that was current when `disconnect` or `reconnectNow` was called is closing or closed from then on,
      in every continuation of every run. */
  lemma DroppedSocketsStayClosed(cfg: Config, c: Client, e: Event, after: seq<Event>, s: nat)
    requires Reached(cfg, c) && c.socket == Some(s) && (e.UserDisconnect? || e.UserReconnect?)
    requires IsRun(cfg, Step(cfg, c, e), after)
    ensures s < |Run(cfg, Step(cfg, c, e), after).sockets|
    ensures Ended(Run(cfg, Step(cfg, c, e), after).sockets[s].readyState)
  {
    ReachedInv(cfg, c);
    if e.UserDisconnect? {
      DisconnectCloses(c, s);
    } else {
      ReconnectCloses(c, e.net, s);
    }
    RunKeepsEnded(cfg, Step(cfg, c, e), after, s);
  }

  // ---------- only the current socket is open ----------

  ghost predicate OnlyCurrentIsOpen(c: Client) {
    forall i: nat :: i < |c.sockets| && c.sockets[i].readyState == Open ==> c.socket == Some(i)
  }

  /** The step dials while the current socket is open, and so forgets an open connection. */
  predicate LeavesOpen(c: Client, e: Event) {
    DialsOverLiveSocket(c, e) && CanSend(c)
  }

  lemma OnlyCurrentIsOpenExactlyWhen(cfg: Config, c: Client, e: Event)
    requires Inv(cfg, c) && OnlyCurrentIsOpen(c) && Enabled(c, e)
    ensures OnlyCurrentIsOpen(Step(cfg, c, e)) <==> !LeavesOpen(c, e)
  {
    if Dials(e) {
      if e.UserReconnect? {
        ReconnectForgetsNothing(c, e.net);
      } else {
        assert e.ReconnectEvent? ==> c.socket.None?;
        DialForgetsExactlyWhen(cfg, c, e);
      }
    } else if e.OpenEvent? {
      if c.socket != Some(e.s) { SupersededOpenCloses(cfg, c, e.s); } else { CurrentOpens(cfg, c, e.s); }
    } else {
      CalmKeepsOnlyCurrent(cfg, c, e);
    }
  }

  lemma CurrentOpens(cfg: Config, c: Client, s: nat)
    requires Enabled(c, OpenEvent(s)) && c.socket == Some(s)
    ensures var d := Step(cfg, c, OpenEvent(s));
            d.socket == c.socket && |d.sockets| == |c.sockets| && OthersAsBefore(c.sockets, d.sockets, s)
  {
  }

  lemma CalmKeepsOnlyCurrent(cfg: Config, c: Client, e: Event)
    requires OnlyCurrentIsOpen(c) && Enabled(c, e) && !Dials(e) && !e.OpenEvent?
    ensures OnlyCurrentIsOpen(Step(cfg, c, e))
  {
    var d := Step(cfg, c, e);
    StepCalms(cfg, c, e);
    if e.UserDisconnect? {
      if c.socket.Some? && c.socket.value < |c.sockets| { DisconnectCloses(c, c.socket.value); }
    } else if e.CloseEvent? {
      CloseShuts(cfg, c, e.s, e.code, e.reason, e.jitter);
    } else {
      OthersKeepCurrent(cfg, c, e);
    }
    CalmKeepsOnlyOpen(c, d);
  }

  lemma CalmKeepsOnlyOpen(c: Client, d: Client)
    requires OnlyCurrentIsOpen(c) && Calmer(c.sockets, d.sockets)
    requires || d.socket == c.socket
             || (c.socket.Some? && (c.socket.value < |d.sockets| ==> d.sockets[c.socket.value].readyState != Open))
             || c.socket.None?
    ensures OnlyCurrentIsOpen(d)
  {
  }

  lemma OthersKeepCurrent(cfg: Config, c: Client, e: Event)
    requires Enabled(c, e) && !Dials(e) && !e.OpenEvent? && !e.UserDisconnect? && !e.CloseEvent?
    ensures Step(cfg, c, e).socket == c.socket
  {
    match e
    case MessageEvent(s, m) => MessageCalms(c, s, m);
    case TimeoutEvent(t) => TimeoutCalms(c, t, c.timers[t].id, c.timers[t].methodName, c.timers[t].waiter);
    case _ =>
  }

  lemma ReconnectForgetsNothing(c: Client, net: Network)
    requires OnlyCurrentIsOpen(c) && (c.socket.Some? ==> c.socket.value < |c.sockets|)
    ensures OnlyCurrentIsOpen(ReconnectNow(c, net))
  {
    var replaced := Superseded(c);
    assert forall i: nat :: i < |replaced.sockets| ==> replaced.sockets[i].readyState != Open;
    DialAdds(replaced, net);
    SettlingKeepsStates(Connect(replaced, net).sockets, Handshaking(c.pending));
  }

  lemma DialForgetsExactlyWhen(cfg: Config, c: Client, e: Event)
    requires OnlyCurrentIsOpen(c) && Enabled(c, e) && (e.UserConnect? || e.OnlineEvent? || e.ReconnectEvent?)
    requires e.ReconnectEvent? ==> c.socket.None?
    requires c.socket.Some? ==> c.socket.value < |c.sockets|
    ensures OnlyCurrentIsOpen(Step(cfg, c, e)) <==> !LeavesOpen(c, e)
  {
    var (d, net) := Dialing(c, e);
    DialAdds(d, net);
    var after := Step(cfg, c, e);
    if LeavesOpen(c, e) {
      assert after.sockets[c.socket.value].readyState == Open && after.socket == Some(|c.sockets|);
    }
  }

  ghost predicate OneOpenThroughout(cfg: Config, c: Client, events: seq<Event>)
    requires IsRun(cfg, c, events)
    decreases |events|
  {
    OnlyCurrentIsOpen(c) && (events == [] || OneOpenThroughout(cfg, Step(cfg, c, events[0]), events[1..]))
  }

  ghost predicate NeverLeavesOpen(cfg: Config, c: Client, events: seq<Event>)
    requires IsRun(cfg, c, events)
    decreases |events|
  {
    events == [] || (!LeavesOpen(c, events[0]) && NeverLeavesOpen(cfg, Step(cfg, c, events[0]), events[1..]))
  }

  lemma {:induction false} OneOpenGiven(cfg: Config, c: Client, events: seq<Event>)
    requires Inv(cfg, c) && OnlyCurrentIsOpen(c) && IsRun(cfg, c, events)
    ensures OneOpenThroughout(cfg, c, events) <==> NeverLeavesOpen(cfg, c, events)
    decreases |events|
  {
    if events != [] {
      var d := Step(cfg, c, events[0]);
      OnlyCurrentIsOpenExactlyWhen(cfg, c, events[0]);
      StepKeepsInv(cfg, c, events[0]);
      if OnlyCurrentIsOpen(d) {
        OneOpenGiven(cfg, d, events[1..]);
      }
    }
  }

  /** At every moment of a run no socket but the current one is open, exactly when the run never dials while the
      current socket is open. */
  lemma OneOpenThroughoutExactlyWhen(cfg: Config, events: seq<Event>)
    requires IsRun(cfg, INITIAL, events)
    ensures OneOpenThroughout(cfg, INITIAL, events) <==> NeverLeavesOpen(cfg, INITIAL, events)
  {
    assert Inv(cfg, INITIAL);
    OneOpenGiven(cfg, INITIAL, events);
  }

  const ACCEPTED := Envelope(Some(Num(1)), Some("server"), None, None)

  lemma Accepted(cfg: Config, c: Client) returns (d: Client)
    requires Beginning(c)
    ensures Enabled(c, MessageEvent(0, ACCEPTED)) && d == Step(cfg, c, MessageEvent(0, ACCEPTED))
    ensures |d.sockets| == 1 && d.sockets[0].readyState == Open && d.socket == Some(0)
    ensures d.connectPromise.None? && !d.manuallyClosed
  {
    assert c.sockets[0].sent[0] == Request(1, INITIALIZE);
    d := Step(cfg, c, MessageEvent(0, ACCEPTED));
    assert d == HandleResponse(c, 0, 1, ACCEPTED);
  }

  lemma OfflineThenOnline(cfg: Config, c: Client)
    requires |c.sockets| == 1 && c.sockets[0].readyState == Open && c.socket == Some(0)
    requires c.connectPromise.None? && !c.manuallyClosed
    ensures IsRun(cfg, c, [OfflineEvent] + [OnlineEvent(Dialed)])
    ensures !OnlyCurrentIsOpen(Run(cfg, c, [OfflineEvent] + [OnlineEvent(Dialed)]))
  {
    var d := Step(cfg, c, OfflineEvent);
    var e := Step(cfg, d, OnlineEvent(Dialed));
    assert e.sockets[0].readyState == Open && e.socket == Some(1);
    RunOneMore(cfg, d, OnlineEvent(Dialed), []);
    RunOneMore(cfg, c, OfflineEvent, [OnlineEvent(Dialed)]);
    assert [OnlineEvent(Dialed)] + [] == [OnlineEvent(Dialed)];
  }

  /** Going offline and online again with a connection that survives leaves the old one open beside the new one. */
  lemma AConnectionCanBeForgotten(cfg: Config)
    ensures exists events :: IsRun(cfg, INITIAL, events) && !OnlyCurrentIsOpen(Run(cfg, INITIAL, events))
  {
    var d := FirstDial(cfg);
    var c := FirstOpen(cfg, d);
    var c1 := Accepted(cfg, c);
    var rest := [OfflineEvent] + [OnlineEvent(Dialed)];
    OfflineThenOnline(cfg, c1);
    RunOneMore(cfg, c, MessageEvent(0, ACCEPTED), rest);
    OpensThen(cfg, d, c, [MessageEvent(0, ACCEPTED)] + rest);
  }
}
