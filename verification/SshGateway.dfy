/** The gateway's managed SSH session: one child process at a time, a session slot and an upstream target. */
module SshGateway {
  import opened Wrappers
  import opened RemoteCommand
  import Text
  import Utf8

  // ---------- checks on a request ----------

  predicate IsAllowedByte(b: Byte) {
    || ('0' as int <= b <= '9' as int) || ('A' as int <= b <= 'Z' as int) || ('a' as int <= b <= 'z' as int)
    || b == '-' as int || b == '_' as int || b == '.' as int || b == '@' as int || b == ':' as int
    || b == '[' as int || b == ']' as int
  }

  /** `validate_target`, which looks at the bytes. */
  predicate ValidTarget(target: string) {
    var bytes := Utf8.Encode(target);
    bytes != [] && |bytes| <= 255 && bytes[0] != '-' as int && forall k :: 0 <= k < |bytes| ==> IsAllowedByte(bytes[k])
  }

  predicate IsAllowed(c: char) {
    'A' <= c <= 'Z' || 'a' <= c <= 'z' || '0' <= c <= '9' || c in "-_.@:[]"
  }

  lemma {:induction false} AllowedBytesAreCharacters(s: string)
    ensures (forall k :: 0 <= k < |Utf8.Encode(s)| ==> IsAllowedByte(Utf8.Encode(s)[k]))
        <==> (forall k :: 0 <= k < |s| ==> IsAllowed(s[k]))
    ensures (forall k :: 0 <= k < |s| ==> IsAllowed(s[k])) ==> |Utf8.Encode(s)| == |s|
  {
    if s != "" {
      var head, tail := Utf8.EncodeChar(s[0]), Utf8.Encode(s[1..]);
      AllowedBytesAreCharacters(s[1..]);
      assert IsAllowedByte(head[0]) <==> IsAllowed(s[0]);
      assert Utf8.Encode(s)[0] == head[0];
      if IsAllowed(s[0]) {
        assert head == [s[0] as int];
        assert Utf8.Encode(s)[1..] == tail;
        assert forall k :: 0 <= k < |tail| ==> Utf8.Encode(s)[k + 1] == tail[k];
        assert forall k :: 0 <= k < |s[1..]| ==> s[k + 1] == s[1..][k];
      }
    }
  }

  /** A target is accepted exactly when it is 1 to 255 host-name characters, the first not a hyphen. */
  lemma ValidTargetExactlyWhen(target: string)
    ensures ValidTarget(target) <==>
            1 <= |target| <= 255 && target[0] != '-' && forall k :: 0 <= k < |target| ==> IsAllowed(target[k])
  {
    AllowedBytesAreCharacters(target);
    if target != "" {
      assert Utf8.Encode(target)[0] == Utf8.EncodeChar(target[0])[0];
    }
  }

  predicate IsInert(c: char) {
    !IsSpecial(c) && !IsBlank(c) && c != '\'' && c != '"'
  }

  lemma AllowedIsInert(c: char)
    requires IsAllowed(c) && c != '['
    ensures IsInert(c)
  {
  }

  /** An accepted target is never an option, and but for the brackets of an IPv6 address a shell would read it
      as one word, unchanged. */
  lemma ValidTargetsAreHarmless(target: string)
    requires ValidTarget(target)
    ensures target[0] != '-' && forall k :: 0 <= k < |target| ==> target[k] == '[' || IsInert(target[k])
    ensures '[' !in target ==> Split(target) == Some([target])
  {
    ValidTargetExactlyWhen(target);
    forall k | 0 <= k < |target| && target[k] != '[' ensures IsInert(target[k]) {
      assert IsAllowed(target[k]);
      AllowedIsInert(target[k]);
    }
    if '[' !in target {
      assert IsBare(target) by {
        forall k | 0 <= k < |target| ensures !IsSpecial(target[k]) && !IsBlank(target[k]) && target[k] != '\''
            && target[k] != '"' {
          assert IsInert(target[k]);
        }
      }
      BareReads(None, target, "");
      assert target + "" == target && "" + target == target && [target] + [] == [target];
    }
  }

  const DEFAULT_REMOTE_CODEX_BIN := "codex"

  function RemoteBin(request: SshConnectRequest): string {
    Text.Trim(if request.remoteCodexBin.Some? then request.remoteCodexBin.value else DEFAULT_REMOTE_CODEX_BIN)
  }

  /** The executable is the one that was asked for, without whitespace around it, or `codex`. */
  lemma RemoteBinExactlyWhen(request: SshConnectRequest, bin: string)
    ensures RemoteBin(request) == bin <==>
            if request.remoteCodexBin.None? then bin == "codex"
            else Text.IsTrimmed(bin) && Text.Surrounds(request.remoteCodexBin.value, bin)
  {
    if request.remoteCodexBin.Some? {
      Text.TrimExactlyWhen(request.remoteCodexBin.value, bin);
    } else {
      Text.TrimExactlyWhen("codex", "codex");
      assert "codex" == "" + ("codex" + "");
    }
  }

  datatype SshError = InvalidTarget | InvalidPort | InvalidCodexBin | ReservePort | Spawn | Exited | TimedOut

  /** The error of a request that is turned down before anything is started. */
  function Refusal(request: SshConnectRequest): Option<SshError> {
    if !ValidTarget(request.target) then Some(InvalidTarget)
    else if request.port == Some(0) || request.remotePort == Some(0) then Some(InvalidPort)
    else if RemoteBin(request) == "" then Some(InvalidCodexBin)
    else None
  }

  // ---------- the state ----------

  datatype Life = Running | Ended | Killed

  datatype Child = Child(args: seq<string>, life: Life)

  datatype UpstreamMode = Local | Ssh

  datatype Upstream = Upstream(url: string, host: string, port: nat, mode: UpstreamMode)

  datatype Config = Config(codexUrl: string, codexHost: string, codexPort: nat, sshRemotePort: nat)

  datatype SshSession = SshSession(pid: nat, target: string, localPort: nat, remotePort: nat)

  /** A child's pid is its position in the list of all children ever spawned. */
  datatype Gateway = Gateway(config: Config, children: seq<Child>, session: Option<SshSession>, upstream: Upstream)

  datatype SshStatus = SshStatus(
    mode: UpstreamMode, connected: bool, target: Option<string>, localPort: Option<nat>, remotePort: Option<nat>)

  datatype Reply = Connected(status: SshStatus) | Failed(error: SshError)

  function StatusOf(session: SshSession): SshStatus {
    SshStatus(Ssh, true, Some(session.target), Some(session.localPort), Some(session.remotePort))
  }

  const LOCAL_STATUS := SshStatus(Local, false, None, None, None)

  const LOOPBACK := "127.0.0.1"

  function LocalUpstream(config: Config): Upstream {
    Upstream(config.codexUrl, config.codexHost, config.codexPort, Local)
  }

  function SshUpstream(session: SshSession): Upstream {
    Upstream(Url(session.localPort), LOOPBACK, session.localPort, Ssh)
  }

  // ---------- what the outside world does during a connect ----------

  /** One round of the probing loop: what `try_wait` says, then whether Codex answers and the time is up. */
  datatype Poll = HasExited | WaitFailed | StillRunning(ready: bool, timeIsUp: bool)

  /** `polls` are the rounds before the time is certainly up. */
  datatype Attempt = Attempt(localPort: Option<nat>, spawns: bool, polls: seq<Poll>)

  datatype Verdict = Ready | Died | Lost | OutOfTime

  function Probe(polls: seq<Poll>): Verdict {
    if polls == [] then OutOfTime
    else
      match polls[0]
      case HasExited => Died
      case WaitFailed => Lost
      case StillRunning(ready, timeIsUp) => if ready then Ready else if timeIsUp then OutOfTime else Probe(polls[1..])
  }

  // ---------- the handlers, as functions ----------

  function RemotePort(config: Config, request: SshConnectRequest): nat {
    if request.remotePort.Some? then request.remotePort.value else config.sshRemotePort
  }

  function Spawned(g: Gateway, request: SshConnectRequest, localPort: nat, life: Life): Gateway {
    g.(children := g.children
        + [Child(SshArgs(request, localPort, RemotePort(g.config, request), RemoteBin(request)), life)])
  }

  /** Stopping a session, or dropping its child, ends the child if it is still running. */
  function Stop(children: seq<Child>, pid: nat): seq<Child> {
    if pid < |children| && children[pid].life.Running? then children[pid := children[pid].(life := Killed)]
        else children
  }

  function StopPrevious(children: seq<Child>, session: Option<SshSession>): seq<Child> {
    if session.Some? then Stop(children, session.value.pid) else children
  }

  function NewSession(g: Gateway, request: SshConnectRequest, localPort: nat): SshSession {
    SshSession(|g.children|, request.target, localPort, RemotePort(g.config, request))
  }

  function Install(g: Gateway, request: SshConnectRequest, localPort: nat): Gateway {
    var session := NewSession(g, request, localPort);
    g.(children := StopPrevious(Spawned(g, request, localPort, Running).children, g.session),
       session := Some(session), upstream := SshUpstream(session))
  }

  /** `start_session` */
  function Connect(g: Gateway, request: SshConnectRequest, attempt: Attempt): (Gateway, Reply) {
    if Refusal(request).Some? then (g, Failed(Refusal(request).value))
    else if attempt.localPort.None? then (g, Failed(ReservePort))
    else if !attempt.spawns then (g, Failed(Spawn))
    else
      var port := attempt.localPort.value;
      match Probe(attempt.polls)
      case Ready => (Install(g, request, port), Connected(StatusOf(NewSession(g, request, port))))
      case Died => (Spawned(g, request, port, Ended), Failed(Exited))
      case Lost => (Spawned(g, request, port, Killed), Failed(Spawn))
      case OutOfTime => (Spawned(g, request, port, Killed), Failed(TimedOut))
  }

  /** `stop_managed_ssh` */
  function Disconnect(g: Gateway): Gateway {
    if g.session.None? then g
    else g.(children := StopPrevious(g.children, g.session), session := None, upstream := LocalUpstream(g.config))
  }

  predicate IsStale(g: Gateway, waitFails: bool) {
    g.session.Some? && (waitFails
        || (g.session.value.pid < |g.children| && !g.children[g.session.value.pid].life.Running?))
  }

  /** `current_status` */
  function Status(g: Gateway, waitFails: bool): (Gateway, SshStatus) {
    if IsStale(g, waitFails) then (Disconnect(g), LOCAL_STATUS)
    else (g, if g.session.Some? then StatusOf(g.session.value) else LOCAL_STATUS)
  }

  /** A child ends on its own. */
  function End(g: Gateway, pid: nat): Gateway {
    if pid < |g.children| && g.children[pid].life.Running? then
      g.(children := g.children[pid := g.children[pid].(life := Ended)])
    else g
  }

  datatype Event =
    | ConnectCalled(request: SshConnectRequest, attempt: Attempt)
    | DisconnectCalled
    | StatusCalled(waitFails: bool)
    | ChildEnds(pid: nat)

  function Step(g: Gateway, e: Event): Gateway {
    match e
    case ConnectCalled(request, attempt) => Connect(g, request, attempt).0
    case DisconnectCalled => Disconnect(g)
    case StatusCalled(waitFails) => Status(g, waitFails).0
    case ChildEnds(pid) => End(g, pid)
  }

  function Run(g: Gateway, es: seq<Event>): Gateway
    decreases |es|
  {
    if es == [] then g else Run(Step(g, es[0]), es[1..])
  }

  function Start(config: Config): Gateway {
    Gateway(config, [], None, LocalUpstream(config))
  }

  // ---------- agreement of session, upstream and children ----------

  /** The command line forwards the session's local port to its remote port on its target. */
  predicate Forwards(args: seq<string>, session: SshSession) {
    var invocation := Parse(args);
    && invocation.Some?
    && invocation.value.destination == session.target
    && invocation.value.options != []
    && invocation.value.options[|invocation.value.options| - 1] ==
        Valued('L', Forwarding(session.localPort, session.remotePort))
  }

  ghost predicate OnlyInstalledRuns(children: seq<Child>, session: Option<SshSession>) {
    forall pid :: 0 <= pid < |children| && children[pid].life.Running? ==> session.Some? && session.value.pid == pid
  }

  ghost predicate Agrees(g: Gateway) {
    && g.upstream == (if g.session.Some? then SshUpstream(g.session.value) else LocalUpstream(g.config))
    && (g.session.Some? ==>
          g.session.value.pid < |g.children| && Forwards(g.children[g.session.value.pid].args, g.session.value))
    && OnlyInstalledRuns(g.children, g.session)
  }

  lemma NewChildForwards(g: Gateway, request: SshConnectRequest, localPort: nat)
    ensures Forwards(SshArgs(request, localPort, RemotePort(g.config, request), RemoteBin(request)),
        NewSession(g, request, localPort))
  {
    SshArgsParse(request, localPort, RemotePort(g.config, request), RemoteBin(request));
  }

  lemma StopKeepsArgs(children: seq<Child>, pid: nat)
    ensures |Stop(children, pid)| == |children|
    ensures forall k :: 0 <= k < |children| ==>
              Stop(children, pid)[k].args == children[k].args
              && Stop(children, pid)[k].life == if k == pid && children[k].life.Running? then Killed
                  else children[k].life
  {
  }

  lemma InstallAgrees(g: Gateway, request: SshConnectRequest, localPort: nat)
    requires Agrees(g)
    ensures Agrees(Install(g, request, localPort))
  {
    NewChildForwards(g, request, localPort);
    var spawned := Spawned(g, request, localPort, Running).children;
    if g.session.Some? {
      StopKeepsArgs(spawned, g.session.value.pid);
    }
  }

  lemma SpawnedAgrees(g: Gateway, request: SshConnectRequest, localPort: nat, life: Life)
    requires Agrees(g) && !life.Running?
    ensures Agrees(Spawned(g, request, localPort, life))
  {
  }

  lemma DisconnectAgrees(g: Gateway)
    requires Agrees(g)
    ensures Agrees(Disconnect(g))
  {
  }

  lemma ConnectAgrees(g: Gateway, request: SshConnectRequest, attempt: Attempt)
    requires Agrees(g)
    ensures Agrees(Connect(g, request, attempt).0)
  {
    if Refusal(request).None? && attempt.localPort.Some? && attempt.spawns {
      var port := attempt.localPort.value;
      match Probe(attempt.polls) {
        case Ready => InstallAgrees(g, request, port);
        case Died => SpawnedAgrees(g, request, port, Ended);
        case Lost => SpawnedAgrees(g, request, port, Killed);
        case OutOfTime => SpawnedAgrees(g, request, port, Killed);
      }
    }
  }

  lemma EndAgrees(g: Gateway, pid: nat)
    requires Agrees(g)
    ensures Agrees(End(g, pid))
  {
  }

  lemma StepAgrees(g: Gateway, e: Event)
    requires Agrees(g)
    ensures Agrees(Step(g, e)) && Step(g, e).config == g.config
  {
    match e {
      case ConnectCalled(request, attempt) =>
        ConnectAgrees(g, request, attempt);
      case DisconnectCalled =>
        DisconnectAgrees(g);
      case StatusCalled(waitFails) =>
        DisconnectAgrees(g);
      case ChildEnds(pid) =>
        EndAgrees(g, pid);
    }
  }

  lemma {:induction false} RunAgrees(g: Gateway, es: seq<Event>)
    requires Agrees(g)
    ensures Agrees(Run(g, es)) && Run(g, es).config == g.config
    decreases |es|
  {
    if es != [] {
      StepAgrees(g, es[0]);
      RunAgrees(Step(g, es[0]), es[1..]);
    }
  }

  /** Over every run of serialised handlers: the upstream is the installed session's loopback address, in SSH
      mode, if a session is installed, and the local one otherwise; the installed child's command line is the
      one that forwards that port; and every other child ever spawned has ended or been killed. */
  lemma UpstreamFollowsSession(config: Config, es: seq<Event>)
    ensures var g := Run(Start(config), es);
            && g.upstream == (if g.session.Some? then SshUpstream(g.session.value) else LocalUpstream(config))
            && (g.upstream.mode.Ssh? <==> g.session.Some?)
            && (g.session.Some? ==>
                  g.session.value.pid < |g.children| && Forwards(g.children[g.session.value.pid].args, g.session.value))
            && OnlyInstalledRuns(g.children, g.session)
  {
    RunAgrees(Start(config), es);
  }

  /** A disconnect empties the slot, restores the local upstream and ends the session's child; no other child was
      running, and none is touched. */
  lemma DisconnectEndsTheSession(g: Gateway)
    requires Agrees(g)
    ensures var after := Disconnect(g);
            && after.session.None? && after.config == g.config
            && after.upstream == Upstream(g.config.codexUrl, g.config.codexHost, g.config.codexPort, Local)
            && |after.children| == |g.children|
            && (forall pid :: 0 <= pid < |g.children| ==>
                  after.children[pid] == if g.children[pid].life.Running? then g.children[pid].(life := Killed)
                                         else g.children[pid])
  {
    if g.session.Some? { StopKeepsArgs(g.children, g.session.value.pid); }
  }

  // ---------- connecting ----------

  /** A failed connect changes neither the session nor the upstream, and leaves no child running that was not. */
  lemma FailedConnectChangesNeither(g: Gateway, request: SshConnectRequest, attempt: Attempt)
    ensures var (after, reply) := Connect(g, request, attempt);
            reply.Failed? ==>
              && after.session == g.session && after.upstream == g.upstream
              && (after.children == g.children
                  || (|after.children| == |g.children| + 1 && after.children[..|g.children|] == g.children
                      && !after.children[|g.children|].life.Running?))
  {
  }

  predicate Undecided(poll: Poll) {
    poll.StillRunning? && !poll.ready && !poll.timeIsUp
  }

  predicate ReadyAt(polls: seq<Poll>, k: nat) {
    k < |polls| && polls[k].StillRunning? && polls[k].ready && forall j :: 0 <= j < k ==> Undecided(polls[j])
  }

  lemma {:induction false} ProbeIsReadyExactlyWhen(polls: seq<Poll>)
    ensures Probe(polls).Ready? <==> exists k: nat :: ReadyAt(polls, k)
  {
    if polls != [] {
      ProbeIsReadyExactlyWhen(polls[1..]);
      if Probe(polls).Ready? {
        if polls[0].ready {
          assert ReadyAt(polls, 0);
        } else {
          var k: nat :| ReadyAt(polls[1..], k);
          assert forall j :: 0 < j < k + 1 ==> polls[j] == polls[1..][j - 1];
          assert ReadyAt(polls, k + 1);
        }
      }
      if k: nat :| ReadyAt(polls, k) && k > 0 {
        assert Undecided(polls[0]);
        assert forall j :: 0 <= j < k - 1 ==> polls[1..][j] == polls[j + 1];
        assert ReadyAt(polls[1..], k - 1);
      }
    }
  }

  /** A connect succeeds exactly when the request is acceptable, a port and a process can be had, and Codex
      answers in some round in which the child still runs, after rounds that decided nothing. */
  lemma ConnectSucceedsExactlyWhen(g: Gateway, request: SshConnectRequest, attempt: Attempt)
    ensures Connect(g, request, attempt).1.Connected? <==>
            && ValidTarget(request.target) && request.port != Some(0) && request.remotePort != Some(0)
                && RemoteBin(request) != ""
            && attempt.localPort.Some? && attempt.spawns
            && exists k: nat :: ReadyAt(attempt.polls, k)
  {
    ProbeIsReadyExactlyWhen(attempt.polls);
  }

  /** The round that decides: the first that is not undecided. */
  predicate DecidedAt(polls: seq<Poll>, k: nat) {
    k < |polls| && !Undecided(polls[k]) && forall j :: 0 <= j < k ==> Undecided(polls[j])
  }

  lemma {:induction false} ProbeIsDecidedAt(polls: seq<Poll>, k: nat)
    requires DecidedAt(polls, k)
    ensures Probe(polls) == if polls[k].HasExited? then Died else if polls[k].WaitFailed? then Lost
        else if polls[k].ready then Ready else OutOfTime
  {
    if k > 0 {
      assert DecidedAt(polls[1..], k - 1) by {
        assert forall j :: 0 <= j < k - 1 ==> polls[1..][j] == polls[j + 1];
      }
      ProbeIsDecidedAt(polls[1..], k - 1);
    }
  }

  lemma {:induction false} ProbeIsUndecided(polls: seq<Poll>)
    requires forall j :: 0 <= j < |polls| ==> Undecided(polls[j])
    ensures Probe(polls) == OutOfTime
  {
    if polls != [] { ProbeIsUndecided(polls[1..]); }
  }

  /** The request could be served and its child was started. */
  predicate Starts(request: SshConnectRequest, attempt: Attempt) {
    && ValidTarget(request.target) && request.port != Some(0) && request.remotePort != Some(0)
        && RemoteBin(request) != ""
    && attempt.localPort.Some? && attempt.spawns
  }

  /** What a connect that starts its child answers is settled by the first round that decides anything: an exit, a
      failed inspection, readiness, or the end of the time. */
  lemma ConnectAnswersByTheDecidingRound(g: Gateway, request: SshConnectRequest, attempt: Attempt, k: nat)
    requires Starts(request, attempt) && DecidedAt(attempt.polls, k)
    ensures var (poll, (after, reply)) := (attempt.polls[k], Connect(g, request, attempt));
            && (poll.HasExited? ==> reply == Failed(Exited) && after.children[|g.children|].life == Ended)
            && (poll.WaitFailed? ==> reply == Failed(Spawn) && after.children[|g.children|].life == Killed)
            && (poll.StillRunning? && poll.ready ==> reply.Connected?)
            && (poll.StillRunning? && !poll.ready ==>
                  reply == Failed(TimedOut) && after.children[|g.children|].life == Killed)
  {
    ProbeIsDecidedAt(attempt.polls, k);
  }

  /** Without such a round it times out and ends its child. */
  lemma ConnectTimesOut(g: Gateway, request: SshConnectRequest, attempt: Attempt)
    requires Starts(request, attempt) && forall j :: 0 <= j < |attempt.polls| ==> Undecided(attempt.polls[j])
    ensures var (after, reply) := Connect(g, request, attempt);
            reply == Failed(TimedOut) && after.children[|g.children|].life == Killed
  {
    ProbeIsUndecided(attempt.polls);
  }

  /** A connect that does not start a child says why, checking in this order, and changes nothing. */
  lemma RefusalSaysWhy(g: Gateway, request: SshConnectRequest, attempt: Attempt)
    requires !Starts(request, attempt)
    ensures var (after, reply) := Connect(g, request, attempt);
            && after == g
            && (reply == Failed(InvalidTarget) <==> !ValidTarget(request.target))
            && (reply == Failed(InvalidPort) <==>
                ValidTarget(request.target) && (request.port == Some(0) || request.remotePort == Some(0)))
            && (reply == Failed(InvalidCodexBin) <==>
                ValidTarget(request.target) && request.port != Some(0) && request.remotePort != Some(0)
                && RemoteBin(request) == "")
            && (reply == Failed(Spawn) ==> attempt.localPort.Some? && !attempt.spawns)
            && (reply == Failed(ReservePort) ==> attempt.localPort.None?)
            && reply.Failed? && reply.error in {InvalidTarget, InvalidPort, InvalidCodexBin, ReservePort, Spawn}
  {
  }

  lemma SuccessInstalls(g: Gateway, request: SshConnectRequest, attempt: Attempt)
    requires Connect(g, request, attempt).1.Connected?
    ensures attempt.localPort.Some?
    ensures var port := attempt.localPort.value;
            Connect(g, request, attempt) ==
                (Install(g, request, port), Connected(StatusOf(NewSession(g, request, port))))
  {
  }

  lemma InstallEndsOthers(g: Gateway, request: SshConnectRequest, localPort: nat)
    requires OnlyInstalledRuns(g.children, g.session) && (g.session.Some? ==> g.session.value.pid < |g.children|)
    ensures var after := Install(g, request, localPort);
            && |after.children| == |g.children| + 1 && after.children[|g.children|].life.Running?
            && forall pid :: 0 <= pid < |g.children| ==> !after.children[pid].life.Running?
  {
    var spawned := Spawned(g, request, localPort, Running).children;
    if g.session.Some? {
      StopKeepsArgs(spawned, g.session.value.pid);
    }
  }

  /** A successful connect installs and reports the new child, with the ports and the target that were asked for or
      configured, makes its loopback address the upstream, and ends every other child. */
  lemma SuccessReplacesTheSession(g: Gateway, request: SshConnectRequest, attempt: Attempt)
    requires Agrees(g) && Connect(g, request, attempt).1.Connected?
    ensures var (after, reply) := Connect(g, request, attempt);
            && attempt.localPort.Some?
            && var port, remotePort := attempt.localPort.value,
                   if request.remotePort.Some? then request.remotePort.value else g.config.sshRemotePort;
            && after.session == Some(SshSession(|g.children|, request.target, port, remotePort))
            && reply.status == SshStatus(Ssh, true, Some(request.target), Some(port), Some(remotePort))
            && after.upstream == Upstream("ws://127.0.0.1:" + Text.Decimal(port), "127.0.0.1", port, Ssh)
            && after.config == g.config
            && |after.children| == |g.children| + 1 && after.children[|g.children|].life.Running?
            && after.children[|g.children|].args == SshArgs(request, port, remotePort, RemoteBin(request))
            && forall pid :: 0 <= pid < |g.children| ==> !after.children[pid].life.Running?
  {
    SuccessInstalls(g, request, attempt);
    InstallEndsOthers(g, request, attempt.localPort.value);
    var spawned := Spawned(g, request, attempt.localPort.value, Running).children;
    if g.session.Some? { StopKeepsArgs(spawned, g.session.value.pid); }
  }

  // ---------- status ----------

  /** The configured address of the local Codex. */
  predicate IsLocal(upstream: Upstream, config: Config) {
    && upstream.url == config.codexUrl && upstream.host == config.codexHost && upstream.port == config.codexPort
    && upstream.mode == Local
  }

  ghost predicate NoneRuns(children: seq<Child>) {
    forall pid :: 0 <= pid < |children| ==> !children[pid].life.Running?
  }

  /** A status call changes something exactly when a session is installed whose child cannot be inspected or no longer
      runs. Then the slot is emptied, the local upstream restored and no child runs. */
  lemma StatusChangesNothingExactlyWhen(g: Gateway, waitFails: bool)
    requires Agrees(g)
    ensures var (after, status) := Status(g, waitFails);
            && (after == g <==>
                g.session.None? || (!waitFails && g.children[g.session.value.pid].life.Running?))
            && (after != g ==>
                  after.session.None? && IsLocal(after.upstream, g.config) && NoneRuns(after.children)
                  && after.config == g.config)
  {
    if Status(g, waitFails).0 != g { DisconnectEndsTheSession(g); }
  }

  /** It reports the installed session, field by field, exactly when one is still installed after it, and otherwise
      nothing; asking again changes nothing and gives the same answer. */
  lemma StatusIsHonest(g: Gateway, waitFails: bool)
    requires Agrees(g)
    ensures var (after, status) := Status(g, waitFails);
            && (status.connected <==> g.session.Some? && !waitFails && g.children[g.session.value.pid].life.Running?)
            && (status.connected ==>
                  && after == g && status.mode == Ssh && after.upstream.mode == Ssh
                  && status.target == Some(g.session.value.target)
                  && status.localPort == Some(g.session.value.localPort)
                  && status.remotePort == Some(g.session.value.remotePort))
            && (!status.connected ==>
                  && after.session.None? && status.mode == Local && after.upstream.mode == Local
                  && status.target.None? && status.localPort.None? && status.remotePort.None?)
            && Agrees(after) && Status(after, false) == (after, status)
  {
    DisconnectAgrees(g);
  }

  // ---------- the handlers as methods ----------

  lemma SpawnedThenEnded(g: Gateway, request: SshConnectRequest, localPort: nat, life: Life)
    ensures var spawned := Spawned(g, request, localPort, Running).children;
            spawned[|g.children| := spawned[|g.children|].(life := life)] ==
                Spawned(g, request, localPort, life).children
  {
  }

  class GatewayState {
    const config: Config
    var children: seq<Child>
    var session: Option<SshSession>
    var upstream: Upstream

    ghost function State(): Gateway
      reads this
    {
      Gateway(config, children, session, upstream)
    }

    constructor (config: Config)
      ensures State() == Start(config)
    {
      this.config, children, session := config, [], None;
      upstream := LocalUpstream(config);
    }

    /** `SshSession::stop`. When inspecting the child fails, dropping the session still kills it. */
    method StopSession(stopped: SshSession)
      modifies this
      ensures State() == old(State()).(children := Stop(old(children), stopped.pid))
    {
      if stopped.pid < |children| && children[stopped.pid].life.Running? {
        children := children[stopped.pid := children[stopped.pid].(life := Killed)];
      }
    }

    method SetLife(pid: nat, life: Life)
      requires pid < |children|
      modifies this
      ensures State() == old(State()).(children := old(children)[pid := old(children)[pid].(life := life)])
    {
      children := children[pid := children[pid].(life := life)];
    }

    method StartSession(request: SshConnectRequest, attempt: Attempt) returns (reply: Reply)
      modifies this
      ensures (State(), reply) == Connect(old(State()), request, attempt)
    {
      if !ValidTarget(request.target) { return Failed(InvalidTarget); }
      if request.port == Some(0) { return Failed(InvalidPort); }
      if request.remotePort == Some(0) { return Failed(InvalidPort); }
      var remoteCodexBin := RemoteBin(request);
      if remoteCodexBin == "" { return Failed(InvalidCodexBin); }
      var remotePort := RemotePort(config, request);
      if attempt.localPort.None? { return Failed(ReservePort); }
      var localPort := attempt.localPort.value;
      var args := BuildSshArgs(request, localPort, remotePort, remoteCodexBin);
      if !attempt.spawns { return Failed(Spawn); }
      reply := ProbeChild(request, args, localPort, attempt.polls);
    }

    /** From the spawn of the child to the end of the probing loop. */
    method ProbeChild(request: SshConnectRequest, args: seq<string>, localPort: nat, polls: seq<Poll>)
        returns (reply: Reply)
      requires args == SshArgs(request, localPort, RemotePort(config, request), RemoteBin(request))
      requires Refusal(request).None?
      modifies this
      ensures (State(), reply) == Connect(old(State()), request, Attempt(Some(localPort), true, polls))
    {
      SpawnedThenEnded(State(), request, localPort, Ended);
      SpawnedThenEnded(State(), request, localPort, Killed);
      var pid := |children|;
      children := children + [Child(args, Running)];
      var i := 0;
      while i < |polls|
        invariant 0 <= i <= |polls|
        invariant State() == Spawned(old(State()), request, localPort, Running)
        invariant Probe(polls[i..]) == Probe(polls)
      {
        assert polls[i..][1..] == polls[i + 1..];
        match polls[i] {
          case HasExited =>
            SetLife(pid, Ended);
            return Failed(Exited);
          case WaitFailed =>
            SetLife(pid, Killed);
            return Failed(Spawn);
          case StillRunning(ready, timeIsUp) =>
            if ready {
              var status := InstallSession(SshSession(pid, request.target, localPort, RemotePort(config, request)));
              return Connected(status);
            }
            if timeIsUp {
              SetLife(pid, Killed);
              return Failed(TimedOut);
            }
        }
        i := i + 1;
      }
      SetLife(pid, Killed);
      return Failed(TimedOut);
    }

    /** The slot, then the upstream, then the end of the session before. */
    method InstallSession(started: SshSession) returns (status: SshStatus)
      modifies this
      ensures State() == old(State()).(children := StopPrevious(old(children), old(session)),
                                       session := Some(started), upstream := SshUpstream(started))
      ensures status == StatusOf(started)
    {
      status := StatusOf(started);
      var previous := session;
      session := Some(started);
      upstream := SshUpstream(started);
      if previous.Some? {
        StopSession(previous.value);
      }
    }

    method StopManagedSsh()
      modifies this
      ensures State() == Disconnect(old(State()))
    {
      if session.Some? {
        var taken := session.value;
        session := None;
        upstream := LocalUpstream(config);
        StopSession(taken);
      }
    }

    method CurrentStatus(waitFails: bool) returns (status: SshStatus)
      modifies this
      ensures (State(), status) == Status(old(State()), waitFails)
    {
      var exited := session.Some?
          && (waitFails || (session.value.pid < |children| && !children[session.value.pid].life.Running?));
      if exited {
        var stale := session.value;
        session := None;
        StopSession(stale);
        upstream := LocalUpstream(config);
        status := LOCAL_STATUS;
      } else {
        status := if session.Some? then StatusOf(session.value) else LOCAL_STATUS;
      }
    }
  }
}
