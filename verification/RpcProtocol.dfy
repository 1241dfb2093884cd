/**
 The JSON-RPC client of the web front end as a state machine. A `Client` value is the client
 object together with the part of the browser it can observe (sockets and timers) and a history
 of what it sent and settled; `Step` is one event with the microtasks it releases.
 */
module RpcProtocol {
  import opened Wrappers
  import Backoff

  const INITIALIZE := "initialize"
  const INITIALIZED := "initialized"

  datatype Phase = Idle | Connecting | Initializing | Ready | Reconnecting | Offline | Closed

  /** What the snapshot's error text says. */
  datatype Notice =
    | DeviceOffline
    | SocketFailed
    | TimedOut(methodName: string)
    | Interrupted(code: int)
    | Text(text: string)
    | Paused(reason: Notice)

  datatype Snapshot = Snapshot(
    phase: Phase, attempt: nat, nextRetryMs: Option<int>, error: Option<Notice>, server: Option<string>)

  /** Who awaits a request: application code, or the open handler of a socket. */
  datatype Waiter = Caller | Handshake(socket: nat)

  datatype Pending = Pending(methodName: string, timeout: Option<nat>, waiter: Waiter)

  datatype RequestId = Num(num: int) | Str(str: string)

  datatype Frame =
    Request(id: nat, methodName: string) | Notification(methodName: string) | Response(answered: RequestId)

  datatype ReadyState = Opening | Open | Closing | Shut

  /** A browser socket: its readyState, whether the promise of its `openSocket` call is settled, and
      every frame sent on it. */
  datatype Socket = Socket(readyState: ReadyState, settled: bool, sent: seq<Frame>)

  /** A live `setTimeout`: the reconnect timer, or the closure over one request's reject function. */
  datatype Timer = Reconnect | Timeout(id: nat, methodName: string, waiter: Waiter)

  datatype Outcome = Answered(socket: nat, ok: bool) | Expired | ConnectionClosed | ConnectionReplaced | ConnectionLost

  datatype Heard = RequestHeard | NotificationHeard | UnhandledHeard

  /** A frame received from the server, as far as the type guards look into it. */
  datatype Inbound =
    | NotText
    | Malformed
    | NotRecord
    | Envelope(id: Option<RequestId>, result: Option<string>, error: Option<string>, methodName: Option<string>)

  /** Whether the device is offline, and whether constructing the WebSocket throws. */
  datatype Network = Unreachable | FactoryThrows | Dialed

  datatype Config = Config(reconnectBaseMs: nat, reconnectMaxMs: nat, reconnectMaxAttempts: nat)

  datatype Client = Client(
    socket: Option<nat>,
    pending: map<nat, Pending>,
    sequence: nat,
    reconnectTimer: Option<nat>,
    manuallyClosed: bool,
    connectPromise: Option<nat>,
    snapshot: Snapshot,
    // the browser
    sockets: seq<Socket>,
    timers: map<nat, Timer>,
    nextTimer: nat,
    // history
    sentOn: map<nat, nat>,
    settled: multiset<nat>,
    outcomes: map<nat, Outcome>,
    heard: seq<Heard>)

  const INITIAL := Client(None, map[], 0, None, false, None, Snapshot(Idle, 0, None, None, None),
                          [], map[], 0, map[], multiset{}, map[], [])

  // ---------- the browser ----------

  function ReadyStateOf(sockets: seq<Socket>, s: nat): ReadyState {
    if s < |sockets| then sockets[s].readyState else Shut
  }

  /** The frames sent so far, socket by socket. */
  function Transcripts(sockets: seq<Socket>): seq<seq<Frame>> {
    seq(|sockets|, i requires 0 <= i < |sockets| => sockets[i].sent)
  }

  function SetReadyState(sockets: seq<Socket>, s: nat, state: ReadyState): (r: seq<Socket>)
    ensures Transcripts(r) == Transcripts(sockets)
  {
    if s < |sockets| then sockets[s := sockets[s].(readyState := state)] else sockets
  }

  /** `socket.close()`: the close event itself arrives later. */
  function CloseCall(sockets: seq<Socket>, s: nat): (r: seq<Socket>)
    ensures Transcripts(r) == Transcripts(sockets)
  {
    if ReadyStateOf(sockets, s) in {Opening, Open} then SetReadyState(sockets, s, Closing) else sockets
  }

  function SendCall(sockets: seq<Socket>, s: nat, frame: Frame): (r: seq<Socket>)
    ensures s < |sockets| ==> Transcripts(r) == Transcripts(sockets)[s := sockets[s].sent + [frame]]
  {
    if s < |sockets| then sockets[s := sockets[s].(sent := sockets[s].sent + [frame])] else sockets
  }

  function MarkSettled(sockets: seq<Socket>, s: nat): (r: seq<Socket>)
    ensures Transcripts(r) == Transcripts(sockets)
  {
    if s < |sockets| then sockets[s := sockets[s].(settled := true)] else sockets
  }

  function MarkAllSettled(sockets: seq<Socket>, ss: set<nat>): (r: seq<Socket>)
    ensures Transcripts(r) == Transcripts(sockets)
  {
    seq(|sockets|, i requires 0 <= i < |sockets| =>
      if i in ss then sockets[i].(settled := true) else sockets[i])
  }

  /** `clearTimeout` */
  function Cleared(timers: map<nat, Timer>, timer: Option<nat>): map<nat, Timer> {
    if timer.Some? then timers - {timer.value} else timers
  }

  /** The request ids the server has received on a socket. */
  function RequestIds(sent: seq<Frame>): set<nat> {
    set f | f in sent && f.Request? :: f.id
  }

  // ---------- the client's own operations ----------

  predicate CanSend(c: Client) {
    c.socket.Some? && ReadyStateOf(c.sockets, c.socket.value) == Open
  }

  function ClearReconnectTimer(c: Client): Client {
    c.(timers := Cleared(c.timers, c.reconnectTimer), reconnectTimer := None)
  }

  function PendingTimers(pending: map<nat, Pending>): set<nat> {
    set id | id in pending && pending[id].timeout.Some? :: pending[id].timeout.value
  }

  /** The sockets whose `initialize` request is still pending. */
  function Handshaking(pending: map<nat, Pending>): set<nat> {
    set id | id in pending && pending[id].waiter.Handshake? :: pending[id].waiter.socket
  }

  function Rejections(pending: map<nat, Pending>, why: Outcome): map<nat, Outcome> {
    map id | id in pending :: why
  }

  function RejectPending(c: Client, why: Outcome): Client {
    c.(pending := map[],
       timers := c.timers - PendingTimers(c.pending),
       settled := c.settled + multiset(c.pending.Keys),
       outcomes := c.outcomes + Rejections(c.pending, why))
  }

  /** The promise of socket s's `openSocket` call settles, which also clears `connectPromise` if it is that promise. */
  function Settle(c: Client, s: nat): Client {
    c.(sockets := MarkSettled(c.sockets, s),
       connectPromise := if c.connectPromise == Some(s) then None else c.connectPromise)
  }

  /** The same for every socket of a set, none of which is current. */
  function SettleReplaced(c: Client, ss: set<nat>): Client {
    c.(sockets := MarkAllSettled(c.sockets, ss),
       connectPromise := if c.connectPromise.Some? && c.connectPromise.value in ss then None else c.connectPromise)
  }

  function OpenSocket(c: Client, net: Network): Client {
    if net.Unreachable? then
      c.(snapshot := c.snapshot.(phase := Offline, nextRetryMs := None))
    else
      var isRetry := c.snapshot.attempt > 0 || c.snapshot.phase == Reconnecting;
      var phase := if isRetry then Reconnecting else Connecting;
      var dialing := c.(snapshot := c.snapshot.(phase := phase, nextRetryMs := None, error := None));
      if net.FactoryThrows? then dialing
      else dialing.(socket := Some(|c.sockets|), sockets := c.sockets + [Socket(Opening, false, [])])
  }

  function Connect(c: Client, net: Network): Client {
    if c.snapshot.phase == Ready || c.connectPromise.Some? then c
    else
      var cleared := ClearReconnectTimer(c.(manuallyClosed := false));
      OpenSocket(cleared, net).(connectPromise := if net.Dialed? then Some(|c.sockets|) else None)
  }

  function Withdrawn(c: Client, manually: bool, why: Outcome): Client {
    RejectPending(ClearReconnectTimer(c.(manuallyClosed := manually)), why)
  }

  function Detached(c: Client): Client {
    c.(sockets := if c.socket.Some? then CloseCall(c.sockets, c.socket.value) else c.sockets, socket := None)
  }

  function Disconnect(c: Client): Client {
    var detached := Detached(Withdrawn(c, true, ConnectionClosed));
    var closed := detached.(snapshot := c.snapshot.(phase := Closed, nextRetryMs := None));
    SettleReplaced(closed, Handshaking(c.pending))
  }

  /** `reconnectNow` up to its call of `connect`. */
  function Superseded(c: Client): Client {
    Detached(Withdrawn(c, false, ConnectionReplaced)).(
      connectPromise := None,
      snapshot := c.snapshot.(phase := Reconnecting, attempt := 0, nextRetryMs := Some(0), error := None))
  }

  function ReconnectNow(c: Client, net: Network): Client {
    SettleReplaced(Connect(Superseded(c), net), Handshaking(c.pending))
  }

  function Issue(c: Client, methodName: string, timed: bool, waiter: Waiter): Client {
    if !CanSend(c) then c
    else
      var id := c.sequence + 1;
      var timeout := if timed then Some(c.nextTimer) else None;
      c.(sequence := id,
         timers := if timed then c.timers[c.nextTimer := Timeout(id, methodName, waiter)] else c.timers,
         nextTimer := if timed then c.nextTimer + 1 else c.nextTimer,
         pending := c.pending[id := Pending(methodName, timeout, waiter)],
         sockets := SendCall(c.sockets, c.socket.value, Request(id, methodName)),
         sentOn := c.sentOn[id := c.socket.value])
  }

  /** `notify`, `respond` and `respondError`: one frame, or an exception when the socket is not open. */
  function Send(c: Client, frame: Frame): Client {
    if CanSend(c) then c.(sockets := SendCall(c.sockets, c.socket.value, frame)) else c
  }

  /** The catch branch of socket s's open handler. */
  function HandshakeFailed(c: Client, s: nat, failure: Notice): Client {
    if c.socket != Some(s) then Settle(c, s)
    else
      Settle(c.(snapshot := c.snapshot.(error := Some(failure)), sockets := CloseCall(c.sockets, s)), s)
  }

  /** The rest of `initialize` after its response, then the open handler's continuation. */
  function HandshakeSucceeded(c: Client, s: nat, server: string): Client {
    if !CanSend(c) then HandshakeFailed(c, s, Text("WebSocket 未连接"))
    else
      var sent := Send(c, Notification(INITIALIZED));
      Settle(sent.(snapshot := Snapshot(Ready, 0, None, None, Some(server))), s)
  }

  function SettleRequest(c: Client, id: nat, outcome: Outcome): Client {
    c.(pending := c.pending - {id}, settled := c.settled + multiset{id}, outcomes := c.outcomes[id := outcome])
  }

  function SocketOpened(c: Client, s: nat): Client {
    var live := c.(sockets := SetReadyState(c.sockets, s, Open));
    if c.socket != Some(s) then Settle(live.(sockets := CloseCall(live.sockets, s)), s)
    else Issue(live.(snapshot := c.snapshot.(phase := Initializing)), INITIALIZE, true, Handshake(s))
  }

  predicate IsResponse(m: Inbound) {
    m.Envelope? && m.id.Some? && (m.result.Some? || m.error.Some?)
  }

  function HandleResponse(c: Client, s: nat, id: nat, m: Inbound): Client
    requires m.Envelope? && (m.result.Some? || m.error.Some?) && id in c.pending
  {
    var p := c.pending[id];
    var done := SettleRequest(c.(timers := Cleared(c.timers, p.timeout)), id, Answered(s, m.error.None?));
    if p.waiter.Caller? then done
    else if m.error.Some? then HandshakeFailed(done, p.waiter.socket, Text(m.error.value))
    else HandshakeSucceeded(done, p.waiter.socket, m.result.value)
  }

  function Hear(c: Client, what: Heard): Client {
    c.(heard := c.heard + [what])
  }

  function HandleMessage(c: Client, s: nat, m: Inbound): Client {
    if IsResponse(m) then
      if m.id.value.Num? && m.id.value.num in c.pending then HandleResponse(c, s, m.id.value.num, m)
      else Hear(c, UnhandledHeard)
    else if m.Envelope? && m.methodName.Some? then Hear(c, if m.id.Some? then RequestHeard else NotificationHeard)
    else Hear(c, UnhandledHeard)
  }

  predicate Truthy(n: Notice) {
    n.Text? ==> n.text != ""
  }

  function CloseReason(c: Client, code: int, reason: string): Notice {
    if reason != "" then Text(reason)
    else if c.snapshot.error.Some? && Truthy(c.snapshot.error.value) then c.snapshot.error.value
    else Interrupted(code)
  }

  function ScheduleReconnect(cfg: Config, c: Client, reason: Notice, jitter: real): Client {
    var cleared := ClearReconnectTimer(c);
    var attempt := c.snapshot.attempt + 1;
    if attempt > cfg.reconnectMaxAttempts then
      cleared.(snapshot := c.snapshot.(phase := Closed, attempt := cfg.reconnectMaxAttempts, nextRetryMs := None,
          error := Some(Paused(reason))))
    else
      var delay := Backoff.Delay(cfg.reconnectBaseMs, cfg.reconnectMaxMs, attempt, jitter);
      cleared.(snapshot := c.snapshot.(phase := Reconnecting, attempt := attempt, nextRetryMs := Some(delay),
          error := Some(reason)),
               reconnectTimer := Some(c.nextTimer),
               timers := cleared.timers[c.nextTimer := Reconnect],
               nextTimer := c.nextTimer + 1)
  }

  /** The current socket s has closed; whether to retry is still open. */
  function LoseCurrent(c: Client, s: nat): Client {
    Settle(RejectPending(c.(sockets := SetReadyState(c.sockets, s, Shut), socket := None), ConnectionLost), s)
  }

  function SocketClosed(cfg: Config, c: Client, s: nat, code: int, reason: string, jitter: real): Client {
    if c.socket != Some(s) then Settle(c.(sockets := SetReadyState(c.sockets, s, Shut)), s)
    else
      var lost := LoseCurrent(c, s);
      var next := if c.manuallyClosed then lost else ScheduleReconnect(cfg, lost, CloseReason(c, code, reason), jitter);
      SettleReplaced(next, Handshaking(c.pending))
  }

  function TimeoutFired(c: Client, t: nat, id: nat, methodName: string, waiter: Waiter): Client {
    var expired := SettleRequest(c.(timers := c.timers - {t}), id, Expired);
    if waiter.Handshake? then HandshakeFailed(expired, waiter.socket, TimedOut(methodName)) else expired
  }

  function WentOnline(c: Client, net: Network): Client {
    if c.manuallyClosed || c.snapshot.phase == Ready then c
    else Connect(c.(snapshot := c.snapshot.(phase := Reconnecting, nextRetryMs := Some(0), error := None)), net)
  }

  function WentOffline(c: Client): Client {
    ClearReconnectTimer(c).(snapshot := c.snapshot.(phase := Offline, nextRetryMs := None,
        error := Some(DeviceOffline)))
  }

  // ---------- events ----------

  datatype Event =
    | UserConnect(net: Network)
    | UserDisconnect
    | UserReconnect(net: Network)
    | UserRequest(methodName: string, timed: bool)
    | UserSend(frame: Frame)
    | OpenEvent(s: nat)
    | MessageEvent(s: nat, message: Inbound)
    | ErrorEvent(s: nat)
    | CloseEvent(s: nat, code: int, reason: string, jitter: real)
    | PeerClosing(s: nat)
    | TimeoutEvent(t: nat)
    | ReconnectEvent(t: nat, net: Network)
    | OnlineEvent(net: Network)
    | OfflineEvent

  /** What the environment can do next. A server answers only ids it received on that socket. */
  predicate Enabled(c: Client, e: Event) {
    match e
    case UserSend(frame) => !frame.Request?
    case OpenEvent(s) => ReadyStateOf(c.sockets, s) == Opening
    case MessageEvent(s, m) =>
      && ReadyStateOf(c.sockets, s) == Open
      && (IsResponse(m) && m.id.value.Num? ==> m.id.value.num in RequestIds(c.sockets[s].sent))
    case ErrorEvent(s) => ReadyStateOf(c.sockets, s) != Shut
    case CloseEvent(s, _, _, _) => ReadyStateOf(c.sockets, s) != Shut
    case PeerClosing(s) => ReadyStateOf(c.sockets, s) == Open
    case TimeoutEvent(t) => t in c.timers && c.timers[t].Timeout?
    case ReconnectEvent(t, _) => t in c.timers && c.timers[t].Reconnect?
    case _ => true
  }

  function Step(cfg: Config, c: Client, e: Event): Client
    requires Enabled(c, e)
  {
    match e
    case UserConnect(net) => Connect(c, net)
    case UserDisconnect => Disconnect(c)
    case UserReconnect(net) => ReconnectNow(c, net)
    case UserRequest(methodName, timed) => Issue(c, methodName, timed, Caller)
    case UserSend(frame) => Send(c, frame)
    case OpenEvent(s) => SocketOpened(c, s)
    case MessageEvent(s, m) => if c.socket == Some(s) then HandleMessage(c, s, m) else c
    case ErrorEvent(s) => if c.socket == Some(s) then c.(snapshot := c.snapshot.(error := Some(SocketFailed))) else c
    case CloseEvent(s, code, reason, jitter) => SocketClosed(cfg, c, s, code, reason, jitter)
    case PeerClosing(s) => c.(sockets := SetReadyState(c.sockets, s, Closing))
    case TimeoutEvent(t) => TimeoutFired(c, t, c.timers[t].id, c.timers[t].methodName, c.timers[t].waiter)
    case ReconnectEvent(t, net) => Connect(c.(timers := c.timers - {t}, reconnectTimer := None), net)
    case OnlineEvent(net) => WentOnline(c, net)
    case OfflineEvent => WentOffline(c)
  }

  ghost predicate IsRun(cfg: Config, c: Client, events: seq<Event>)
    decreases |events|
  {
    events == [] || (Enabled(c, events[0]) && IsRun(cfg, Step(cfg, c, events[0]), events[1..]))
  }

  function Run(cfg: Config, c: Client, events: seq<Event>): Client
    requires IsRun(cfg, c, events)
    decreases |events|
  {
    if events == [] then c else Run(cfg, Step(cfg, c, events[0]), events[1..])
  }
}
