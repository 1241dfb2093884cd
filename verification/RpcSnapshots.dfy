/** What the snapshot shows, what the application's calls send, and what the listeners hear. */
module RpcSnapshots {
  import opened Wrappers
  import opened RpcProtocol
  import opened RpcInvariants
  import opened RpcControl
  import opened RpcRuns
  import opened RpcRouting
  import opened RpcLiveness
  import Backoff

  // ---------- the snapshot over whole runs ----------

  /** What each phase promises, and when a retry is shown. */
  ghost predicate Truthful(c: Client) {
    var (phase, attempt) := (c.snapshot.phase, c.snapshot.attempt);
    && (phase == Idle ==> c.sockets == [] && c.sequence == 0 && attempt == 0)
    && (phase == Connecting ==> attempt == 0)
    && (phase == Initializing ==> c.socket.Some?)
    && (phase == Ready ==> c.socket.Some? && c.snapshot.server.Some? && attempt == 0)
    && (phase in {Idle, Closed} ==> c.socket.None? && c.reconnectTimer.None?)
    && (c.reconnectTimer.Some? ==>
          phase == Reconnecting && attempt > 0 && c.snapshot.nextRetryMs.Some? && c.snapshot.error.Some?)
    && (c.snapshot.nextRetryMs.Some? ==> phase in {Reconnecting, Initializing})
  }

  lemma ConnectKeepsTruthful(c: Client, net: Network)
    requires Truthful(c)
    ensures Truthful(Connect(c, net))
  {
  }

  lemma FailureKeepsTruthful(c: Client, s: nat, failure: Notice)
    requires Truthful(c)
    ensures Truthful(HandshakeFailed(c, s, failure))
  {
  }

  lemma SuccessKeepsTruthful(c: Client, s: nat, server: string)
    requires Truthful(c) && (c.reconnectTimer.Some? ==> c.socket.None?)
    ensures Truthful(HandshakeSucceeded(c, s, server))
  {
    if !CanSend(c) { FailureKeepsTruthful(c, s, Text("WebSocket 未连接")); }
  }

  lemma MessageKeepsTruthful(c: Client, s: nat, m: Inbound)
    requires Truthful(c) && (c.reconnectTimer.Some? ==> c.socket.None?)
    ensures Truthful(HandleMessage(c, s, m))
  {
    if IsResponse(m) && m.id.value.Num? && m.id.value.num in c.pending {
      ResponseKeepsTruthful(c, s, m.id.value.num, m);
    } else {
      HearingChangesNothing(c, s, m);
    }
  }

  lemma ResponseKeepsTruthful(c: Client, s: nat, id: nat, m: Inbound)
    requires Truthful(c) && (c.reconnectTimer.Some? ==> c.socket.None?)
    requires m.Envelope? && (m.result.Some? || m.error.Some?) && id in c.pending
    ensures Truthful(HandleResponse(c, s, id, m))
  {
    var p := c.pending[id];
    var done := SettleRequest(c.(timers := Cleared(c.timers, p.timeout)), id, Answered(s, m.error.None?));
    assert Truthful(done);
    if p.waiter.Handshake? {
      if m.error.Some? {
        FailureKeepsTruthful(done, p.waiter.socket, Text(m.error.value));
      } else {
        SuccessKeepsTruthful(done, p.waiter.socket, m.result.value);
      }
    }
  }

  lemma CloseKeepsTruthful(cfg: Config, c: Client, s: nat, code: int, reason: string, jitter: real)
    requires Controlled(cfg, c) && Truthful(c)
    ensures Truthful(SocketClosed(cfg, c, s, code, reason, jitter))
  {
    if c.socket == Some(s) {
      LossShowsARetry(cfg, LoseCurrent(c, s), CloseReason(c, code, reason), jitter);
    } else {
      SupersededCloseKeepsControl(cfg, c, s, code, reason, jitter);
    }
  }

  lemma LossShowsARetry(cfg: Config, lost: Client, why: Notice, jitter: real)
    requires lost.socket.None?
    ensures Truthful(ScheduleReconnect(cfg, lost, why, jitter))
  {
  }

  lemma DisconnectKeepsTruthful(c: Client)
    requires Truthful(c)
    ensures Truthful(Disconnect(c))
  {
  }

  lemma ReconnectKeepsTruthful(c: Client, net: Network)
    ensures Truthful(ReconnectNow(c, net))
  {
    ConnectKeepsTruthful(Superseded(c), net);
  }

  lemma IssueKeepsTruthful(c: Client, name: string, timed: bool, waiter: Waiter)
    requires Truthful(c)
    ensures Truthful(Issue(c, name, timed, waiter))
  {
  }

  lemma StepKeepsTruthful(cfg: Config, c: Client, e: Event)
    requires Settled(cfg, c) && Truthful(c) && Enabled(c, e)
    ensures Truthful(Step(cfg, c, e))
  {
    if Dials(e) {
      DialKeepsTruthful(cfg, c, e);
    } else if e.MessageEvent? || e.CloseEvent? || e.TimeoutEvent? {
      TrafficKeepsTruthful(cfg, c, e);
    } else {
      match e
      case UserDisconnect => DisconnectKeepsTruthful(c);
      case UserRequest(name, timed) => IssueKeepsTruthful(c, name, timed, Caller);
      case OpenEvent(s) =>
        if c.socket == Some(s) {
          var live := c.(sockets := SetReadyState(c.sockets, s, Open), snapshot := c.snapshot.(phase := Initializing));
          IssueKeepsTruthful(live, INITIALIZE, true, Handshake(s));
        }
      case _ =>
    }
  }

  lemma DialKeepsTruthful(cfg: Config, c: Client, e: Event)
    requires Settled(cfg, c) && Truthful(c) && Enabled(c, e) && Dials(e)
    ensures Truthful(Step(cfg, c, e))
  {
    match e
    case UserConnect(net) => ConnectKeepsTruthful(c, net);
    case UserReconnect(net) => ReconnectKeepsTruthful(c, net);
    case ReconnectEvent(t, net) => ConnectKeepsTruthful(c.(timers := c.timers - {t}, reconnectTimer := None), net);
    case OnlineEvent(net) => OnlineKeepsTruthful(c, net);
  }

  lemma OnlineKeepsTruthful(c: Client, net: Network)
    requires Truthful(c) && (c.reconnectTimer.Some? ==> c.connectPromise.None?)
    ensures Truthful(WentOnline(c, net))
  {
  }

  lemma TrafficKeepsTruthful(cfg: Config, c: Client, e: Event)
    requires Settled(cfg, c) && Truthful(c) && Enabled(c, e) && (e.MessageEvent? || e.CloseEvent? || e.TimeoutEvent?)
    ensures Truthful(Step(cfg, c, e))
  {
    match e
    case MessageEvent(s, m) => MessageKeepsTruthful(c, s, m);
    case CloseEvent(s, code, reason, jitter) => CloseKeepsTruthful(cfg, c, s, code, reason, jitter);
    case TimeoutEvent(t) =>
      var timer := c.timers[t];
      var expired := SettleRequest(c.(timers := c.timers - {t}), timer.id, Expired);
      if timer.waiter.Handshake? { FailureKeepsTruthful(expired, timer.waiter.socket, TimedOut(timer.methodName)); }
  }

  lemma {:induction false} RunKeepsTruthful(cfg: Config, c: Client, events: seq<Event>)
    requires Settled(cfg, c) && Truthful(c) && IsRun(cfg, c, events)
    ensures Truthful(Run(cfg, c, events))
    decreases |events|
  {
    if events != [] {
      StepKeepsTruthful(cfg, c, events[0]);
      StepKeepsSettled(cfg, c, events[0]);
      RunKeepsTruthful(cfg, Step(cfg, c, events[0]), events[1..]);
    }
  }

  /** After every run: `idle` is only shown before the first call, `connecting` only for a first attempt,
      `initializing` and `ready` only with a current socket, `closed` only with nothing under way, and an armed retry
      only as `reconnecting` with its delay and the reason. */
  lemma SnapshotsAreTruthful(cfg: Config, events: seq<Event>)
    requires IsRun(cfg, INITIAL, events)
    ensures Truthful(Run(cfg, INITIAL, events))
  {
    assert Settled(cfg, INITIAL);
    RunKeepsTruthful(cfg, INITIAL, events);
  }

  // ---------- attempts ----------

  /** The losses of a current socket since the last reset, a completed handshake or `reconnectNow`, after a step. */
  function Counted(c: Client, e: Event, d: Client, losses: nat): nat {
    if e.UserReconnect? || (d.snapshot.phase == Ready && c.snapshot.phase != Ready) then 0
    else if e.CloseEvent? && c.socket == Some(e.s) then losses + 1
    else losses
  }

  function Losses(cfg: Config, c: Client, events: seq<Event>, before: nat): nat
    requires IsRun(cfg, c, events)
    decreases |events|
  {
    if events == [] then before
    else
      var d := Step(cfg, c, events[0]);
      Losses(cfg, d, events[1..], Counted(c, events[0], d, before))
  }

  function AtMost(max: nat, n: nat): nat {
    if n < max then n else max
  }

  lemma SuccessOrSame(c: Client, s: nat, m: Inbound)
    requires c.snapshot.phase == Ready ==> c.snapshot.attempt == 0
    ensures var d := HandleMessage(c, s, m);
            && d.snapshot.attempt == (if d.snapshot.phase == Ready && c.snapshot.phase != Ready then 0
                                      else c.snapshot.attempt)
  {
    if HandleMessage(c, s, m).snapshot.phase == Ready {
      ReadyMeansReset(c, s, m);
    } else {
      MessageKeepsRetryState(c, s, m);
    }
  }

  lemma ReadyMeansReset(c: Client, s: nat, m: Inbound)
    requires HandleMessage(c, s, m).snapshot.phase == Ready && (c.snapshot.phase == Ready ==> c.snapshot.attempt == 0)
    ensures HandleMessage(c, s, m).snapshot.attempt == 0
  {
    if IsResponse(m) && m.id.value.Num? && m.id.value.num in c.pending {
      var id: nat := m.id.value.num;
      var p := c.pending[id];
      var done := SettleRequest(c.(timers := Cleared(c.timers, p.timeout)), id, Answered(s, m.error.None?));
      if p.waiter.Handshake? {
        if m.error.Some? {
          FailureKeepsRetryState(done, p.waiter.socket, Text(m.error.value));
        } else if !CanSend(done) {
          FailureKeepsRetryState(done, p.waiter.socket, Text("WebSocket 未连接"));
        }
      }
    }
  }

  lemma AttemptAfter(cfg: Config, c: Client, e: Event)
    requires Settled(cfg, c) && Truthful(c) && Enabled(c, e)
    ensures var d := Step(cfg, c, e);
            d.snapshot.attempt ==
            if e.UserReconnect? || (d.snapshot.phase == Ready && c.snapshot.phase != Ready) then 0
            else if e.CloseEvent? && c.socket == Some(e.s) then AtMost(cfg.reconnectMaxAttempts, c.snapshot.attempt + 1)
            else c.snapshot.attempt
  {
    if e.MessageEvent? {
      SuccessOrSame(c, e.s, e.message);
    } else if e.CloseEvent? {
      CloseCounts(cfg, c, e.s, e.code, e.reason, e.jitter);
    } else if e.TimeoutEvent? {
      var timer := c.timers[e.t];
      var expired := SettleRequest(c.(timers := c.timers - {e.t}), timer.id, Expired);
      FailureKeepsRetryState(expired, if timer.waiter.Handshake? then timer.waiter.socket else 0,
          TimedOut(timer.methodName));
    } else {
      OthersKeepAttempt(cfg, c, e);
    }
  }

  lemma CloseCounts(cfg: Config, c: Client, s: nat, code: int, reason: string, jitter: real)
    requires Inv(cfg, c)
    ensures var d := SocketClosed(cfg, c, s, code, reason, jitter);
            && d.snapshot.attempt == (if c.socket == Some(s)
                                      then AtMost(cfg.reconnectMaxAttempts, c.snapshot.attempt + 1)
                                      else c.snapshot.attempt)
            && (d.snapshot.phase == Ready ==> c.snapshot.phase == Ready)
  {
    if c.socket == Some(s) {
      LossRetriesOrGivesUp(cfg, c, s, code, reason, jitter);
    } else {
      SupersededCloseKeepsControl(cfg, c, s, code, reason, jitter);
    }
  }

  lemma OthersKeepAttempt(cfg: Config, c: Client, e: Event)
    requires Enabled(c, e) && !e.MessageEvent? && !e.CloseEvent? && !e.TimeoutEvent?
    ensures var d := Step(cfg, c, e);
            && d.snapshot.attempt == (if e.UserReconnect? then 0 else c.snapshot.attempt)
            && (d.snapshot.phase == Ready ==> c.snapshot.phase == Ready)
  {
    if e.UserReconnect? {
      ReconnectShows(c, e.net);
    } else if Dials(e) {
      DialKeepsCount(Dialing(c, e).0, Dialing(c, e).1);
    }
  }

  lemma DialKeepsCount(c: Client, net: Network)
    ensures Connect(c, net).snapshot.attempt == c.snapshot.attempt
    ensures Connect(c, net).snapshot.phase == Ready ==> c.snapshot.phase == Ready
  {
  }

  /** `reconnectNow` starts afresh: no attempts and no error, and the phase is `reconnecting` unless the device is
      offline. */
  lemma ReconnectShows(c: Client, net: Network)
    ensures var d := ReconnectNow(c, net);
            && d.snapshot.attempt == 0 && d.snapshot.error.None? && d.snapshot.nextRetryMs.None?
            && d.snapshot.phase == (if net.Unreachable? then Offline else Reconnecting)
            && !d.manuallyClosed && d.reconnectTimer.None?
  {
    var replaced := Superseded(c);
    assert replaced.connectPromise.None? && replaced.snapshot.phase == Reconnecting;
  }

  lemma AttemptIsCounted(cfg: Config, c: Client, e: Event, losses: nat)
    requires Settled(cfg, c) && Truthful(c) && Enabled(c, e)
    requires c.snapshot.attempt == AtMost(cfg.reconnectMaxAttempts, losses)
    ensures Step(cfg, c, e).snapshot.attempt ==
            AtMost(cfg.reconnectMaxAttempts, Counted(c, e, Step(cfg, c, e), losses))
  {
    AttemptAfter(cfg, c, e);
  }

  lemma ConnectShows(c: Client, net: Network)
    requires c.snapshot.phase != Ready && c.connectPromise.None?
    ensures var d := Connect(c, net);
            && d.snapshot.nextRetryMs.None? && d.reconnectTimer.None? && !d.manuallyClosed
            && (net.Unreachable? ==> d.snapshot.phase == Offline)
            && (!net.Unreachable? ==>
                  d.snapshot.error.None? && d.snapshot.phase in {Connecting, Reconnecting}
                  && (d.snapshot.phase == Connecting <==>
                      c.snapshot.attempt == 0 && c.snapshot.phase != Reconnecting))
  {
  }

  /** A dial clears the error and the countdown. It shows as a retry when the reconnect timer or coming online made it,
      after a loss, or in place of a retry; otherwise it shows as connecting. Offline it shows that. */
  lemma DialShows(cfg: Config, c: Client, e: Event)
    requires Settled(cfg, c) && Truthful(c) && Enabled(c, e) && (e.UserConnect? || e.ReconnectEvent? || e.OnlineEvent?)
    requires c.snapshot.phase != Ready && c.connectPromise.None? && (e.OnlineEvent? ==> !c.manuallyClosed)
    ensures var d := Step(cfg, c, e);
            && d.snapshot.nextRetryMs.None? && d.reconnectTimer.None? && !d.manuallyClosed
            && (e.net.Unreachable? ==> d.snapshot.phase == Offline)
            && (!e.net.Unreachable? ==>
                  && d.snapshot.error.None? && d.snapshot.phase in {Connecting, Reconnecting}
                  && (d.snapshot.phase == Connecting <==>
                      e.UserConnect? && c.snapshot.attempt == 0 && c.snapshot.phase != Reconnecting))
  {
    var (d, net) := Dialing(c, e);
    assert e.ReconnectEvent? ==> c.reconnectTimer == Some(e.t);
    ConnectShows(d, net);
  }

  lemma {:induction false} AttemptsGiven(cfg: Config, c: Client, events: seq<Event>, before: nat)
    requires Settled(cfg, c) && Truthful(c) && IsRun(cfg, c, events)
    requires c.snapshot.attempt == AtMost(cfg.reconnectMaxAttempts, before)
    ensures Run(cfg, c, events).snapshot.attempt ==
            AtMost(cfg.reconnectMaxAttempts, Losses(cfg, c, events, before))
    decreases |events|
  {
    if events != [] {
      var d := Step(cfg, c, events[0]);
      AttemptIsCounted(cfg, c, events[0], before);
      StepKeepsTruthful(cfg, c, events[0]);
      StepKeepsSettled(cfg, c, events[0]);
      AttemptsGiven(cfg, d, events[1..], Counted(c, events[0], d, before));
    }
  }

  /** After every run the attempt that is shown is the number of losses of a current socket since the last completed
      handshake or `reconnectNow`, up to the maximum. */
  lemma AttemptsCountTheLosses(cfg: Config, events: seq<Event>)
    requires IsRun(cfg, INITIAL, events)
    ensures Run(cfg, INITIAL, events).snapshot.attempt ==
            AtMost(cfg.reconnectMaxAttempts, Losses(cfg, INITIAL, events, 0))
  {
    assert Settled(cfg, INITIAL) && Truthful(INITIAL);
    AttemptsGiven(cfg, INITIAL, events, 0);
  }

  // ---------- why and when it retries ----------

  /** The reason that a loss shows: what the close event says, else the error that is shown already unless that is an
      empty text, else its code. */
  ghost predicate Explains(reason: string, code: int, shown: Option<Notice>, why: Notice) {
    && (reason != "" ==> why == Text(reason))
    && (reason == "" && shown.Some? && shown != Some(Text("")) ==> Some(why) == shown)
    && (reason == "" && (shown.None? || shown == Some(Text(""))) ==> why == Interrupted(code))
  }

  lemma ReasonExplains(c: Client, code: int, reason: string)
    ensures Explains(reason, code, c.snapshot.error, CloseReason(c, code, reason))
  {
  }

  /** A retry for this reason is armed, with a delay within the cap and the band of its attempt, or given up. */
  ghost predicate ShowsTheRetry(cfg: Config, d: Client, why: Notice) {
    if d.reconnectTimer.Some? then
      && d.snapshot.nextRetryMs.Some? && d.snapshot.attempt >= 1 && d.snapshot.error == Some(why)
      && d.reconnectTimer.value in d.timers && d.timers[d.reconnectTimer.value] == Reconnect
      && var (ms, e) := (d.snapshot.nextRetryMs.value,
                         Backoff.Exponential(cfg.reconnectBaseMs, d.snapshot.attempt) as real);
      && 0 <= ms <= cfg.reconnectMaxMs
      && ms as real <= 1.25 * e + 0.5 && (ms == cfg.reconnectMaxMs || 0.75 * e - 0.5 < ms as real)
    else d.snapshot.error == Some(Paused(why))
  }

  lemma ScheduleShows(cfg: Config, lost: Client, why: Notice, jitter: real)
    requires Backoff.Draw(jitter)
    ensures ShowsTheRetry(cfg, ScheduleReconnect(cfg, lost, why, jitter), why)
  {
    if lost.snapshot.attempt < cfg.reconnectMaxAttempts {
      Backoff.DelayBand(cfg.reconnectBaseMs, cfg.reconnectMaxMs, lost.snapshot.attempt + 1, jitter);
    }
  }

  /** The loss of the current socket shows its reason and, while attempts are left, arms a retry with a delay within
      the band. */
  lemma LossShowsDelayAndReason(cfg: Config, c: Client, s: nat, code: int, reason: string, jitter: real)
    requires Inv(cfg, c) && c.socket == Some(s) && Backoff.Draw(jitter)
    ensures var d := SocketClosed(cfg, c, s, code, reason, jitter);
            && (d.reconnectTimer.Some? <==> c.snapshot.attempt < cfg.reconnectMaxAttempts)
            && exists why :: Explains(reason, code, c.snapshot.error, why) && ShowsTheRetry(cfg, d, why)
  {
    var why := CloseReason(c, code, reason);
    ReasonExplains(c, code, reason);
    LossRetriesOrGivesUp(cfg, c, s, code, reason, jitter);
    ScheduleShows(cfg, LoseCurrent(c, s), why, jitter);
    SettlingShowsTheSame(cfg, c, s, why, jitter);
  }

  lemma SettlingShowsTheSame(cfg: Config, c: Client, s: nat, why: Notice, jitter: real)
    requires ShowsTheRetry(cfg, ScheduleReconnect(cfg, LoseCurrent(c, s), why, jitter), why)
    ensures ShowsTheRetry(cfg,
        SettleReplaced(ScheduleReconnect(cfg, LoseCurrent(c, s), why, jitter), Handshaking(c.pending)), why)
  {
  }

  /** A socket error shows, and is the reason of the retry if the socket then closes without one. */
  lemma ErrorThenClose(cfg: Config, c: Client, s: nat, code: int, jitter: real)
    requires Inv(cfg, c) && c.socket == Some(s)
    ensures Enabled(c, ErrorEvent(s))
    ensures var d := Step(cfg, c, ErrorEvent(s));
            && d.snapshot.error == Some(SocketFailed)
            && Enabled(d, CloseEvent(s, code, "", jitter))
            && Step(cfg, d, CloseEvent(s, code, "", jitter)).snapshot.error
               in {Some(SocketFailed), Some(Paused(SocketFailed))}
  {
    CloseSaysWhy(cfg, Step(cfg, c, ErrorEvent(s)), s, code, jitter);
  }

  lemma CloseSaysWhy(cfg: Config, c: Client, s: nat, code: int, jitter: real)
    requires c.socket == Some(s) && !c.manuallyClosed && c.snapshot.error == Some(SocketFailed)
    ensures SocketClosed(cfg, c, s, code, "", jitter).snapshot.error in {Some(SocketFailed), Some(Paused(SocketFailed))}
  {
    LossSaysWhy(cfg, LoseCurrent(c, s), SocketFailed, jitter);
  }

  lemma LossSaysWhy(cfg: Config, lost: Client, why: Notice, jitter: real)
    ensures ScheduleReconnect(cfg, lost, why, jitter).snapshot.error in {Some(why), Some(Paused(why))}
  {
  }

  /** Going offline shows, and disarms the retry; the connection is left alone. */
  lemma OfflineShows(cfg: Config, c: Client)
    ensures var d := Step(cfg, c, OfflineEvent);
            && d.snapshot.phase == Offline && d.snapshot.error == Some(DeviceOffline) && d.snapshot.nextRetryMs.None?
            && d.reconnectTimer.None? && d.socket == c.socket && d.sockets == c.sockets && d.pending == c.pending
            && d.snapshot.attempt == c.snapshot.attempt
  {
  }

  // ---------- completing the handshake ----------

  /** A successful answer to the pending `initialize` of the current, open socket makes the client ready, with the
      server it names, and nothing left of earlier failures. */
  lemma HandshakeCompletes(cfg: Config, c: Client, s: nat, id: nat, server: string)
    requires c.socket == Some(s) && id in c.pending && c.pending[id].waiter == Handshake(s)
    requires Enabled(c, MessageEvent(s, Envelope(Some(Num(id)), Some(server), None, None)))
    ensures var d := Step(cfg, c, MessageEvent(s, Envelope(Some(Num(id)), Some(server), None, None)));
            && d.snapshot == Snapshot(Ready, 0, None, None, Some(server))
            && d.connectPromise == (if c.connectPromise == Some(s) then None else c.connectPromise)
  {
    assert Step(cfg, c, MessageEvent(s, Envelope(Some(Num(id)), Some(server), None, None)))
        == HandleResponse(c, s, id, Envelope(Some(Num(id)), Some(server), None, None));
  }

  // ---------- what goes out and what comes in ----------

  /** What the application sends goes out as it is, last on the current socket; on a socket that is not open nothing
      happens at all. A request is pending for its caller, with a timer exactly when it has a timeout. */
  lemma CallsGoOutVerbatim(cfg: Config, c: Client, e: Event)
    requires Enabled(c, e) && (e.UserRequest? || e.UserSend?)
    ensures var d := Step(cfg, c, e);
            if c.socket.None? || ReadyStateOf(c.sockets, c.socket.value) != Open then d == c
            else
              var frame := if e.UserSend? then e.frame else Request(d.sequence, e.methodName);
              && Transcripts(d.sockets) == Transcripts(c.sockets)[
                   c.socket.value := c.sockets[c.socket.value].sent + [frame]]
              && d.snapshot == c.snapshot && d.socket == c.socket
              && (e.UserSend? ==> d.pending == c.pending && d.timers == c.timers && d.sequence == c.sequence)
              && (e.UserRequest? ==>
                    && d.sequence == c.sequence + 1 && d.sequence in d.pending
                    && d.pending - {d.sequence} == c.pending - {d.sequence}
                    && d.pending[d.sequence].methodName == e.methodName && d.pending[d.sequence].waiter == Caller
                    && (d.pending[d.sequence].timeout.Some? <==> e.timed)
                    && (e.timed ==> d.timers == c.timers[
                          d.pending[d.sequence].timeout.value := Timeout(d.sequence, e.methodName, Caller)])
                    && (!e.timed ==> d.timers == c.timers))
  {
  }

  /** Which listeners a frame on the current socket reaches: requests have a method and an id, notifications a method
      alone, and a response counts only if its request is pending; everything else is unhandled. */
  lemma FramesReachTheirListeners(cfg: Config, c: Client, s: nat, m: Inbound)
    requires c.socket == Some(s) && Enabled(c, MessageEvent(s, m))
    ensures var heard := Step(cfg, c, MessageEvent(s, m)).heard;
            match m
            case Envelope(Some(id), result, error, methodName) =>
              if result.Some? || error.Some? then
                heard == c.heard + if id.Num? && id.num in c.pending then [] else [UnhandledHeard]
              else heard == c.heard + [if methodName.Some? then RequestHeard else UnhandledHeard]
            case Envelope(None, _, _, methodName) =>
              heard == c.heard + [if methodName.Some? then NotificationHeard else UnhandledHeard]
            case _ => heard == c.heard + [UnhandledHeard]
  {
    if IsResponse(m) && m.id.value.Num? && m.id.value.num in c.pending {
      ResponseIsNotHeard(c, s, m.id.value.num, m);
      assert c.heard + [] == c.heard;
    }
  }

  lemma ResponseIsNotHeard(c: Client, s: nat, id: nat, m: Inbound)
    requires m.Envelope? && (m.result.Some? || m.error.Some?) && id in c.pending
    ensures HandleResponse(c, s, id, m).heard == c.heard
  {
  }
}
