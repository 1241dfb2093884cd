/** The pieces of one handler, not interrupted, are the handler: the model of overlapping handlers and the model of
    serialised ones agree. */
module SshRefinement {
  import opened Wrappers
  import opened RemoteCommand
  import opened SshGateway
  import opened SshInterleaving

  /** From w the pieces lead to this gateway, and no handler is left over. */
  ghost predicate LeadsTo(w: World, actions: seq<Action>, g: Gateway) {
    && IsRun(w, actions)
    && var v := SshInterleaving.Run(w, actions);
       AsGateway(v) == g && v.tasks == w.tasks && v.lockedBy == w.lockedBy
  }

  lemma InARow(w: World, a: Action, rest: seq<Action>)
    requires Enabled(w, a) && IsRun(Act(w, a), rest)
    ensures IsRun(w, [a] + rest) && SshInterleaving.Run(w, [a] + rest) == SshInterleaving.Run(Act(w, a), rest)
  {
    assert ([a] + rest)[1..] == rest;
  }

  function Spawn(w: World, id: nat, request: SshConnectRequest, localPort: nat): Action {
    var remotePort := RemotePort(w.config, request);
    SpawnChild(id, request.target, localPort, remotePort, SshArgs(request, localPort, remotePort, RemoteBin(request)))
  }

  function InstallPieces(w: World, id: nat, request: SshConnectRequest, localPort: nat): seq<Action> {
    [Spawn(w, id, request, localPort)] + ([ReplaceSession(id)] + ([WriteUpstream(id)] + [StopReplaced(id)]))
  }

  /** The pieces of a connect that succeeds. */
  lemma PiecesInstall(w: World, id: nat, request: SshConnectRequest, localPort: nat)
    requires id !in w.tasks && w.lockedBy.None?
    ensures LeadsTo(w, InstallPieces(w, id, request, localPort), Install(AsGateway(w), request, localPort))
  {
    var spawned := Act(w, Spawn(w, id, request, localPort));
    var replaced := Act(spawned, ReplaceSession(id));
    var written := Act(replaced, WriteUpstream(id));
    var v := Act(written, StopReplaced(id));
    InARow(written, StopReplaced(id), []);
    InARow(replaced, WriteUpstream(id), [StopReplaced(id)]);
    InARow(spawned, ReplaceSession(id), [WriteUpstream(id)] + [StopReplaced(id)]);
    InARow(w, Spawn(w, id, request, localPort), [ReplaceSession(id)] + ([WriteUpstream(id)] + [StopReplaced(id)]));
    assert v.tasks == w.tasks;
    assert AsGateway(v) == Install(AsGateway(w), request, localPort);
  }

  function FailPieces(w: World, id: nat, request: SshConnectRequest, localPort: nat, life: Life): seq<Action> {
    [Spawn(w, id, request, localPort)] + [GiveUp(id, life)]
  }

  /** The pieces of a connect whose child ends or is given up. */
  lemma PiecesFail(w: World, id: nat, request: SshConnectRequest, localPort: nat, life: Life)
    requires id !in w.tasks && !life.Running?
    ensures LeadsTo(w, FailPieces(w, id, request, localPort, life), Spawned(AsGateway(w), request, localPort, life))
  {
    var spawned := Act(w, Spawn(w, id, request, localPort));
    var v := Act(spawned, GiveUp(id, life));
    InARow(spawned, GiveUp(id, life), []);
    InARow(w, Spawn(w, id, request, localPort), [GiveUp(id, life)]);
    assert v.tasks == w.tasks;
    SpawnedThenEnded(AsGateway(w), request, localPort, life);
    assert v.children == Spawned(AsGateway(w), request, localPort, life).children;
  }

  /** The pieces of a whole connect, by the outcome of its probing. */
  function ConnectPieces(w: World, id: nat, request: SshConnectRequest, attempt: Attempt): seq<Action> {
    if Refusal(request).Some? || attempt.localPort.None? || !attempt.spawns then []
    else
      var port := attempt.localPort.value;
      match Probe(attempt.polls)
      case Ready => InstallPieces(w, id, request, port)
      case Died => FailPieces(w, id, request, port, Ended)
      case Lost => FailPieces(w, id, request, port, Killed)
      case OutOfTime => FailPieces(w, id, request, port, Killed)
  }

  /** A connect that is not interrupted is the connect handler, whatever the request and its outcome. */
  lemma PiecesConnect(w: World, id: nat, request: SshConnectRequest, attempt: Attempt)
    requires id !in w.tasks && w.lockedBy.None?
    ensures LeadsTo(w, ConnectPieces(w, id, request, attempt), Connect(AsGateway(w), request, attempt).0)
  {
    if Refusal(request).None? && attempt.localPort.Some? && attempt.spawns {
      var port := attempt.localPort.value;
      match Probe(attempt.polls) {
        case Ready => PiecesInstall(w, id, request, port);
        case Died => PiecesFail(w, id, request, port, Ended);
        case Lost => PiecesFail(w, id, request, port, Killed);
        case OutOfTime => PiecesFail(w, id, request, port, Killed);
      }
    }
  }

  function DisconnectPieces(w: World, id: nat): seq<Action> {
    if w.session.None? then [] else [TakeSession(id)] + ([LeaveUpstream(id)] + [StopLeft(id)])
  }

  /** So is a disconnect. */
  lemma PiecesDisconnect(w: World, id: nat)
    requires id !in w.tasks && w.lockedBy.None?
    ensures LeadsTo(w, DisconnectPieces(w, id), Disconnect(AsGateway(w)))
  {
    if w.session.Some? {
      var taken := Act(w, TakeSession(id));
      var left := Act(taken, LeaveUpstream(id));
      var v := Act(left, StopLeft(id));
      InARow(left, StopLeft(id), []);
      InARow(taken, LeaveUpstream(id), [StopLeft(id)]);
      InARow(w, TakeSession(id), [LeaveUpstream(id)] + [StopLeft(id)]);
      assert v.tasks == w.tasks;
      assert AsGateway(v) == Disconnect(AsGateway(w));
    }
  }

  function StatusPieces(w: World, id: nat, waitFails: bool): seq<Action> {
    if !IsStale(AsGateway(w), waitFails) then []
    else [TakeStale(id, waitFails)] + ([StopTaken(id)] + [RestoreUpstream(id)])
  }

  /** And a status call. */
  lemma PiecesStatus(w: World, id: nat, waitFails: bool)
    requires id !in w.tasks && w.lockedBy.None?
    ensures LeadsTo(w, StatusPieces(w, id, waitFails), Status(AsGateway(w), waitFails).0)
  {
    if IsStale(AsGateway(w), waitFails) {
      var taken := Act(w, TakeStale(id, waitFails));
      var stopped := Act(taken, StopTaken(id));
      var v := Act(stopped, RestoreUpstream(id));
      InARow(stopped, RestoreUpstream(id), []);
      InARow(taken, StopTaken(id), [RestoreUpstream(id)]);
      InARow(w, TakeStale(id, waitFails), [StopTaken(id)] + [RestoreUpstream(id)]);
      assert v.tasks == w.tasks;
      assert AsGateway(v) == Disconnect(AsGateway(w));
    }
  }

  function EventPieces(w: World, id: nat, e: Event): seq<Action> {
    match e
    case ConnectCalled(request, attempt) => ConnectPieces(w, id, request, attempt)
    case DisconnectCalled => DisconnectPieces(w, id)
    case StatusCalled(waitFails) => StatusPieces(w, id, waitFails)
    case ChildEnds(pid) => [ChildDies(pid)]
  }

  lemma PiecesEvent(w: World, id: nat, e: Event)
    requires id !in w.tasks && w.lockedBy.None?
    ensures LeadsTo(w, EventPieces(w, id, e), SshGateway.Step(AsGateway(w), e))
  {
    match e {
      case ConnectCalled(request, attempt) => PiecesConnect(w, id, request, attempt);
      case DisconnectCalled => PiecesDisconnect(w, id);
      case StatusCalled(waitFails) => PiecesStatus(w, id, waitFails);
      case ChildEnds(pid) => InARow(w, ChildDies(pid), []);
    }
  }

  /** Every serialised run is one of the interleavings, so what holds for all interleavings holds for it. */
  lemma {:induction false} SerialisedRunsAreInterleavings(w: World, id: nat, es: seq<Event>)
    requires id !in w.tasks && w.lockedBy.None?
    ensures exists actions :: LeadsTo(w, actions, SshGateway.Run(AsGateway(w), es))
    decreases |es|
  {
    if es == [] {
      assert LeadsTo(w, [], SshGateway.Run(AsGateway(w), es));
    } else {
      var first := EventPieces(w, id, es[0]);
      PiecesEvent(w, id, es[0]);
      var v := SshInterleaving.Run(w, first);
      SerialisedRunsAreInterleavings(v, id, es[1..]);
      var rest :| LeadsTo(v, rest, SshGateway.Run(AsGateway(v), es[1..]));
      RunConcat(w, first, rest);
      assert LeadsTo(w, first + rest, SshGateway.Run(AsGateway(w), es));
    }
  }
}
