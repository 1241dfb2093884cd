# Verification of the Pocket Agent protocol cores

A Dafny model of the parts of Pocket Agent that keep state across asynchronous events, and of the codecs and
small loops around them, with proofs of what they guarantee. `dafny verify dfyconfig.toml` checks all of it.

**The JSON-RPC client** (`Rpc*.dfy`, `Backoff.dfy`). `RpcProtocol` gives one event (a call of the application, a
socket or timer event, online or offline) with the microtasks it releases as one step on a value that holds the
client's fields, the browser's sockets and timers, and a history of what was sent and settled. `RpcClient` is
the mutable object: each of its methods is proved to take the object from one such value to the next, and the
event loop `Serve` to be a whole run. The other modules prove what every run keeps: each request settled exactly
once, the handshake on every socket, the inertness of superseded sockets, one bounded retry loop, dropped sockets
that stay closed (`RpcClosing`), and a snapshot that tells the truth (`RpcSnapshots`). Six statements one would expect
are false, and each is replaced by its exact condition over whole runs and a run that breaks it: that pending requests
were always sent on the current socket, and that nothing precedes `initialized` on a connection (`RpcRouting`); that
the two handshake messages go out only where they belong (`RpcManners`); that a client that says it is connecting has
something to wait for, and that `connect` after `disconnect` connects (`RpcLiveness`); that only the current socket is
open (`RpcClosing`: going offline and online again forgets a connection that survived).

**The session store** (`Conversation`, `Session`, `JsNumber`, `SessionStreams`, `SessionEffects`, `SessionOrder`,
`DeltaOrder`, `ThreadSwitch`, `ThreadChoice`, `StoreRuns`, `SessionStore`). `Session` describes field by field what a notification does, `ThreadSwitch` the store
as a state machine: notifications, thread switches and their responses, replies and server requests in any order.
`SessionStore` is the store with its switch, its upserts and its two-step placeholder writes, proved to do the same.
What each notification does is stated by its method name and raw parameters (`SessionEffects`, `SessionOrder`), apart
from the reducer's own helpers; the predicates in the results over runs are in those terms too.
Over all runs it is proved that a streamed field always holds what the last event that set it said plus all later
deltas, that the logs are exact tails, who decides the active turn, that of any number of overlapping thread switches
only the newest can be shown, when other threads interfere with the one on display (a late reply to a request for
another thread does), and when the shell shows the text that was sent to it; and which writes commute.

**The gateway's SSH session** (`SshGateway`, `SshInterleaving`, `SshRefinement`, `RemoteCommand`, `Tail`). The
handlers, run one after the other, keep the session slot, the upstream and the child processes in agreement. Cut where
they give up a lock or wait, and interleaved freely, they still never orphan or share a child; uninterrupted, the
pieces of a handler are the handler. Under interleaving the upstream follows the session exactly when the last handler
to write it and the last to have changed the slot both emptied the slot, or both filled it with the same local port;
two runs show how that fails. The remote command is read back by a model of POSIX shell quoting, and the argument list
by a model of how the SSH client reads its options.

**Codecs and loops** (`Utf8`, `Utf8Pieces`, `Base64`, `TokenAuth`, `Paths`, `Readiness`, `Text`). UTF-8 and where
encoded text may be cut, base64, the token subprotocol on both sides, host paths, and the readiness probe.

Where the code and its documentation disagree, the model follows the code. `docs/PROTOCOL_COMPATIBILITY.md`
asks that every connection sends `initialized` right after the answer to `initialize`, before any other request;
the client does not enforce that, and `OrderKeptExactlyWhen` says when it holds. The same document lists
`item/mcpToolCall/progress` among the aggregated events; the store only logs it as unknown activity.

## Model

| member | source | states |
|---|---|---|
| RpcRuns.SettlementIsExactlyOnce | frontend/src/rpc/JsonRpcClient.ts:281-326 | in every reachable state the issued ids are exactly 1..sequence, and each is pending or has been settled once, never both and never twice |
| RpcRuns.TimersMatchPending | frontend/src/rpc/JsonRpcClient.ts:288-292 | the live timers are exactly one per pending request with a timeout, no two sharing one, plus the armed reconnect timer |
| RpcRuns.ReconnectSettlesAll | frontend/src/rpc/JsonRpcClient.ts:148-158 | after `reconnectNow` nothing is pending, every request that was got its own rejection as replaced, and no earlier outcome changed |
| RpcRuns.DisconnectSettlesAll | frontend/src/rpc/JsonRpcClient.ts:139-146 | the same for `disconnect`, with rejections as closed |
| RpcRuns.LossSettlesAll | frontend/src/rpc/JsonRpcClient.ts:251-262 | the same for the close of the current socket, with rejections as lost |
| RpcRuns.MessageSettlesOne | frontend/src/rpc/JsonRpcClient.ts:302-338 | a frame settles the request its id names if it is a response and that request is pending, even when it completes or fails a handshake, and nothing otherwise |
| RpcRuns.AnswersComeFromTheCurrentSocket | frontend/src/rpc/JsonRpcClient.ts:245-247 | a request is only ever answered by a message event of the socket current at that moment, and that is the socket the request was sent on |
| RpcRuns.SupersededSocketsAreInert | frontend/src/rpc/JsonRpcClient.ts:220-262 | any open, message, error or close event of a socket that is not current leaves the whole client as it was, except that socket's own record and a connect promise that was waiting for it; nothing is sent |
| RpcClosing.DisconnectCloses | frontend/src/rpc/JsonRpcClient.ts:139-146 | `disconnect` leaves the socket that was current closing, or closed if it was, and the state of every other socket as it was |
| RpcClosing.ReconnectCloses | frontend/src/rpc/JsonRpcClient.ts:148-158 | so does `reconnectNow`, which adds at most the socket it dials |
| RpcClosing.RefusalCloses | frontend/src/rpc/JsonRpcClient.ts:232-242 | a refused `initialize` leaves its socket closing and current, shows the refusal, and changes the state of no other socket |
| RpcClosing.ExpiryCloses | frontend/src/rpc/JsonRpcClient.ts:232-242 | the same for an `initialize` that times out |
| RpcClosing.SupersededOpenCloses | frontend/src/rpc/JsonRpcClient.ts:220-225 | a superseded socket that opens is closing at once, and no other socket changes state |
| RpcClosing.DroppedSocketsStayClosed | frontend/src/rpc/JsonRpcClient.ts:139-158 | from every reachable state: a socket that was current at a `disconnect` or `reconnectNow` is closing or closed after every continuation |
| RpcClosing.OnlyCurrentIsOpenExactlyWhen | frontend/src/rpc/JsonRpcClient.ts:392-401 | a step keeps every socket but the current one from being open if and only if it does not dial while the current socket is open |
| RpcClosing.OneOpenThroughoutExactlyWhen | frontend/src/rpc/JsonRpcClient.ts:392-401 | at every moment of a run from the initial client no socket but the current one is open, if and only if no step of the run dials while the current socket is open |
| RpcClosing.AConnectionCanBeForgotten | frontend/src/rpc/JsonRpcClient.ts:392-401 | there is a run from the initial client, through a completed handshake, going offline and coming online, that ends with an open socket that is not current |
| RpcRuns.OneRetryLoop | frontend/src/rpc/JsonRpcClient.ts:340-374 | in every reachable state there is never both a current socket and an armed reconnect timer, the attempt count is within the maximum, and after a manual close there is neither |
| RpcRuns.StaysDisconnected | frontend/src/rpc/JsonRpcClient.ts:139-146 | after `disconnect`, any run of socket, timer, online and offline events and of requests opens no socket, sends nothing and arms nothing, until the application connects again |
| RpcRuns.AutomaticRetriesAreBounded | frontend/src/rpc/JsonRpcClient.ts:340-363 | along every run without a completed handshake, a user's connect or coming online, each firing of the reconnect timer uses up budget that never goes below zero; leaving `ready`, at most `reconnectMaxAttempts` sockets are opened |
| RpcRuns.LossRetriesOrGivesUp | frontend/src/rpc/JsonRpcClient.ts:340-352 | losing the current socket arms a retry exactly when attempts are left; otherwise the phase is `closed`, no timer is armed and the budget is zero |
| RpcSnapshots.SnapshotsAreTruthful | frontend/src/rpc/JsonRpcClient.ts:340-401 | after every run `idle` is shown only before the first call, `connecting` only with no attempts counted, `initializing` and `ready` only with a current socket, `closed` only with neither socket nor retry, an armed retry only as `reconnecting` with a delay, a reason and a positive attempt, and a delay only while reconnecting or initializing |
| RpcSnapshots.AttemptsCountTheLosses | frontend/src/rpc/JsonRpcClient.ts:340-352 | after every run the attempt shown is the number of losses of a current socket since the last completed handshake or `reconnectNow`, up to the maximum |
| RpcSnapshots.LossShowsDelayAndReason | frontend/src/rpc/JsonRpcClient.ts:251-261 | a loss shows the close reason, else the error shown before, else the code; while attempts are left it arms a retry whose delay is within the cap and the band of its attempt, and otherwise says it has given up |
| RpcSnapshots.ErrorThenClose | frontend/src/rpc/JsonRpcClient.ts:248-261 | an error event of the current socket followed by a close without a reason retries, or gives up, with that error |
| RpcSnapshots.DialShows | frontend/src/rpc/JsonRpcClient.ts:125-205 | a dial clears error and countdown; it is shown as connecting only if the application asked for it with no attempts counted and no retry under way, and otherwise as reconnecting, or as offline |
| RpcSnapshots.ReconnectShows | frontend/src/rpc/JsonRpcClient.ts:148-158 | `reconnectNow` leaves no attempts, no error, no countdown and no armed retry, in phase reconnecting or offline |
| RpcSnapshots.OfflineShows | frontend/src/rpc/JsonRpcClient.ts:398-401 | going offline shows that and disarms the retry, and touches neither sockets nor pending requests |
| RpcSnapshots.HandshakeCompletes | frontend/src/rpc/JsonRpcClient.ts:266-278 | a successful answer to the current socket's pending `initialize` makes the client ready, with the server it named and no attempt, delay or error |
| RpcSnapshots.CallsGoOutVerbatim | frontend/src/rpc/JsonRpcClient.ts:281-300 | what the application sends is the last frame of the current socket, unchanged, and nothing else goes out; a request is pending under its own name, with a timer exactly when it has a timeout; on a socket that is not open nothing happens |
| RpcSnapshots.FramesReachTheirListeners | frontend/src/rpc/JsonRpcClient.ts:302-338 | a frame on the current socket reaches request listeners if it has an id and a method and is no response, notification listeners if it has a method and no id, none if it answers a pending request, and is unhandled otherwise |
| RpcRuns.EverySocketOpensWithInitialize | frontend/src/rpc/JsonRpcClient.ts:220-279 | in every run, whatever the application sends, the first frame on every socket is an `initialize` request, which while it is pending is awaited by that socket's own open handler; a success of that request has been followed by `initialized`, and `ready` means that the current socket has come that far |
| RpcRouting.FirstFrameIsTheOpenHandlers | frontend/src/rpc/JsonRpcClient.ts:220-226 | the step that sends the first frame of a socket is the open event of that socket, while it is current, and the frame is the `initialize` request that its open handler then awaits |
| RpcManners.HandshakeOnEverySocketExactlyWhen | frontend/src/rpc/JsonRpcClient.ts:220-279 | after a run from the initial client, on every socket the first frame is the only `initialize` request and `initialized` was sent at most once and exactly when that request was answered with success on that socket, if and only if the application never itself sent `initialize` or `initialized` while the current socket was open |
| RpcManners.HandshakeKeptExactlyWhen | frontend/src/rpc/JsonRpcClient.ts:177-185 | a step keeps that discipline on all sockets if and only if it is no such message or the current socket is not open |
| RpcManners.RudenessStays | frontend/src/rpc/JsonRpcClient.ts:266-279 | a socket with a second `initialize`, a second `initialized` or one before the answer is never mended: a later answer only sends another |
| RpcManners.RudenessBreaksTheHandshake | frontend/src/rpc/JsonRpcClient.ts:177-185 | after the first connection has opened, each such message at once breaks the discipline, in a run from the initial client |
| RpcHandshake.StepKeepsHandshaken | frontend/src/rpc/JsonRpcClient.ts:266-279 | every step keeps, on all sockets, what `EverySocketOpensWithInitialize` says, and a step that is no such message keeps the stricter discipline too |
| RpcInvariants.StepKeepsCore | frontend/src/rpc/JsonRpcClient.ts:281-381 | every step keeps the bookkeeping of ids, timers, settlements, outcomes and the sockets that requests went out on |
| RpcControl.StepKeepsInv | frontend/src/rpc/JsonRpcClient.ts:125-158 | every step keeps the core bookkeeping and the agreement of current socket, reconnect timer, manual close, connect promise and phase |
| RpcRouting.PendingStaysOnCurrentExactlyWhen | frontend/src/rpc/JsonRpcClient.ts:392-401 | a step keeps all pending requests on the current socket if and only if it does not dial while a socket is current, or nothing is pending |
| RpcRouting.RoutedThroughoutExactlyWhen | frontend/src/rpc/JsonRpcClient.ts:392-401 | every pending request was sent on the current socket at every moment of a run if and only if the run never dials over a live socket while a request is pending |
| RpcRouting.PendingCanOutliveItsSocket | frontend/src/rpc/JsonRpcClient.ts:239-241 | there is a run from the initial client, with a `connect` before the socket of a failed handshake has closed, that leaves a request pending on a socket that is not current |
| RpcRouting.OrderKeptExactlyWhen | docs/PROTOCOL_COMPATIBILITY.md:20-29 | a step keeps `initialized` the second frame of every socket if and only if the application does not send anything else on an open socket that has only its `initialize` request behind it |
| RpcRouting.RequestsCanOvertakeTheHandshake | docs/PROTOCOL_COMPATIBILITY.md:20-29 | there is a run from the initial client, of an application that leaves the two handshake messages to the client, in which a request precedes `initialized` |
| RpcRouting.EveryConnectionIsInOrderExactlyWhen | docs/PROTOCOL_COMPATIBILITY.md:20-29 | after a run from the initial client every connection shows the documented order if and only if the application never sent anything else that early on any of them |
| RpcRouting.ReadyNeverOvertakes | frontend/src/rpc/JsonRpcClient.ts:275-277 | waiting for phase `ready` is enough for that |
| RpcLiveness.StallFreeExactlyWhen | frontend/src/rpc/JsonRpcClient.ts:197-212 | over a run from the initial client, whenever the phase is connecting, initializing or reconnecting there is a current socket or an armed retry, if and only if no dial without a current socket throws |
| RpcLiveness.StallsExactlyWhen | frontend/src/rpc/JsonRpcClient.ts:125-158 | whether a step ends stalled (such a phase with neither): from a stalled state unless it is a disconnect, going offline, or a connect, reconnect or coming online that does not throw; from any other state exactly when it dials without a current socket and that throws |
| RpcLiveness.StalledExactlyWhenNothingIsAwaited | frontend/src/rpc/JsonRpcClient.ts:359-362 | in such a phase the client is stalled if and only if no timer and no event of the current socket can occur any more |
| RpcLiveness.StaysStalledUntilFreed | frontend/src/rpc/JsonRpcClient.ts:392-401 | a stalled client stays stalled over every run without one of those calls or changes of the network |
| RpcLiveness.AThrowingDialStalls | frontend/src/rpc/JsonRpcClient.ts:208-210 | `connect` with a socket constructor that throws stalls the initial client |
| RpcLiveness.ConnectIsLostExactlyWhen | frontend/src/rpc/JsonRpcClient.ts:125-146 | `connect` right after `disconnect` changes nothing at all if and only if a connect promise is stored whose socket has no `initialize` pending |
| RpcLiveness.DeafExactlyWhen | frontend/src/rpc/JsonRpcClient.ts:132-136 | from a disconnected client with a promise still stored, the end of any run still is one with that promise, which ignores `connect`, if and only if neither `reconnectNow` was called nor the dropped socket reported that it opened or closed |
| RpcLiveness.ConnectCanBeLost | frontend/src/rpc/JsonRpcClient.ts:125-146 | `connect`, `disconnect`, `connect` on the initial client ends closed, with the old promise stored |
| RpcClient.Serve | frontend/src/rpc/JsonRpcClient.ts:125-402 | the object driven by any run of events ends in the state the protocol gives and satisfies the invariant |
| RpcClient.JsonRpcClient.RejectEach | frontend/src/rpc/JsonRpcClient.ts:375-381 | the loop rejects each pending request once and clears exactly their timers |
| RpcClient.JsonRpcClient.Connect | frontend/src/rpc/JsonRpcClient.ts:125-137 | the new state of the object is the protocol's |
| RpcClient.JsonRpcClient.Disconnect | frontend/src/rpc/JsonRpcClient.ts:139-146 | the same, including the released handshakes |
| RpcClient.JsonRpcClient.ReconnectNow | frontend/src/rpc/JsonRpcClient.ts:148-158 | the same: withdraw, replace, dial, then the released handshakes |
| RpcClient.JsonRpcClient.OpenSocket | frontend/src/rpc/JsonRpcClient.ts:197-212 | the same for dialling, offline or with a factory that throws |
| RpcClient.JsonRpcClient.Register | frontend/src/rpc/JsonRpcClient.ts:285-292 | the same for a request's id, timer and pending entry |
| RpcClient.JsonRpcClient.IssueRequest | frontend/src/rpc/JsonRpcClient.ts:281-295 | the same for a request: registered and sent, or nothing on a socket that is not open |
| RpcClient.JsonRpcClient.Dispatch | frontend/src/rpc/JsonRpcClient.ts:302-338 | the same for an inbound frame, whatever it is |
| RpcClient.JsonRpcClient.OnOpen | frontend/src/rpc/JsonRpcClient.ts:220-243 | the same for an open event |
| RpcClient.JsonRpcClient.OnClose | frontend/src/rpc/JsonRpcClient.ts:251-262 | the same for a close event, current or not |
| RpcClient.JsonRpcClient.ScheduleReconnect | frontend/src/rpc/JsonRpcClient.ts:340-363 | the same for arming a retry or giving up |
| RpcClient.JsonRpcClient.OnTimeout | frontend/src/rpc/JsonRpcClient.ts:288-291 | the same for a request timeout, which can fail a handshake |
| RpcClient.JsonRpcClient.OnOnline | frontend/src/rpc/JsonRpcClient.ts:392-396 | the same for coming online |
| RpcClient.JsonRpcClient.OnOffline | frontend/src/rpc/JsonRpcClient.ts:398-401 | the same for going offline |
| Backoff.DelayBand | frontend/src/rpc/JsonRpcClient.ts:353-358 | for every draw in [0,1) the delay is between 0 and the cap and, up to rounding and capping, within 0.75 to 1.25 of base times 2^min(attempt-1, 7) |
| Backoff.DelayNeverShortensExactlyWhen | frontend/src/rpc/JsonRpcClient.ts:353-358 | the next delay is never shorter, whatever is drawn, if and only if the attempt is below 8, the base is 0, or the cap is at most 96 times the base |
| StoreRuns.StreamedContent | frontend/src/stores/useCodexSession.ts:815-836 | in every run of the store a streamed field (or element) equals what the last event that set it says (a lifecycle payload of its item, a replacement of its turn or a switch of the thread), followed by all later deltas that reach it, in order |
| StoreRuns.DeltasAccumulate | frontend/src/stores/useCodexSession.ts:896-919 | as long as no event of a run sets the field it grows by exactly the deltas that reach it, in order, also when the item did not exist |
| SessionStreams.TurnsAfterSetsValue | frontend/src/stores/useCodexSession.ts:879-919 | one notification sets the field to what its payload says or appends its delta, and touches no other item's fields |
| SessionStreams.WritesAppendTheDelta | frontend/src/stores/useCodexSession.ts:820-837 | what the reducer writes appends, for each of the six delta methods by name, the delta to the field the protocol gives it and to no other |
| SessionEffects.TextDeltaChangesOneField | frontend/src/stores/useCodexSession.ts:820-837 | a delta of a message, plan, command output or file output appends to `text`, `text`, `aggregatedOutput` or `output` of the item it names, leaves every other field and item alone, and makes an item of the right type if there is none |
| SessionEffects.ReasoningDeltaChangesOneElement | frontend/src/stores/useCodexSession.ts:826-831 | a reasoning delta appends to the indexed element of `summary` or `content` of the item it names, filling holes up to it, leaves everything else alone, and makes a reasoning item if there is none |
| SessionEffects.PatchUpdateReplacesTheChanges | frontend/src/stores/useCodexSession.ts:838-842 | a patch update replaces `changes` of an item that exists, if it brings a list, and changes no other field or item |
| SessionEffects.LifecycleSetsTheItem | frontend/src/stores/useCodexSession.ts:815-819 | after `item/started` or `item/completed` the item is its payload and every other item is as it was |
| SessionEffects.TurnPayloadSetsTheTurn | frontend/src/stores/useCodexSession.ts:796-814 | after `turn/started` or `turn/completed` the turn holds the items of its payload and every other turn its own |
| SessionEffects.StatusGoesToItsThread | frontend/src/stores/useCodexSession.ts:789-795 | a status is set on the listed threads with the given id and on the one on display if it has that id, and on no other |
| SessionEffects.PlanIsStored | frontend/src/stores/useCodexSession.ts:846-851 | a plan is stored under its turn, with the explanation if that is a string and the steps that are records, and other turns keep theirs |
| SessionEffects.RecordsOfMore | frontend/src/stores/useCodexSession.ts:849 | the steps kept are exactly the records, in their order |
| SessionEffects.ShellShowsOrSaysSo | frontend/src/stores/useCodexSession.ts:852-859 | an output delta of the shell's process appends its text, or a note if it is not base64, and one of another process nothing |
| SessionEffects.OthersLeaveItAlone | frontend/src/stores/useCodexSession.ts:762-871 | each field of the store changes only with the methods that are about it, and no notification changes which thread is on display |
| SessionOrder.NotificationsAppend | frontend/src/stores/useCodexSession.ts:879-919 | a notification on display puts a new turn last among the turns and a new item last in its turn, moves nothing, and gives a turn the status of its payload or `inProgress` if only an item brought it in |
| SessionOrder.TurnsOnlyGrow | frontend/src/stores/useCodexSession.ts:879-894 | over any run in which no other thread is put on display the turns that are there stay in place and new ones follow |
| SessionStreams.OtherThreadsAreOnlyLogged | frontend/src/stores/useCodexSession.ts:762-766 | a notification whose method starts with `turn/`, `item/` or `rawResponseItem/` and whose `threadId` is a nonempty string other than the active thread is logged and changes nothing else |
| SessionStreams.TheThreadOnDisplayIsServed | frontend/src/stores/useCodexSession.ts:1058-1062 | every other notification is logged and applied |
| StoreRuns.OtherThreadsDoNotInterfereExactlyWhen | frontend/src/stores/useCodexSession.ts:1058-1062 | over any run of the store the state, the event log aside, is at every moment that of the run without foreign events (turn and item notifications that name another thread, replies to requests for a thread not on display) if and only if every foreign reply brings a turn that is there unchanged and the active turn that is already set |
| StoreRuns.ForeignEventsInterfereExactlyWhen | frontend/src/stores/useCodexSession.ts:457-459 | one foreign event changes something beside the event log if and only if it is a reply that brings something new |
| StoreRuns.AgreementIsTheSameOutcome | frontend/src/stores/useCodexSession.ts:1058-1062 | such agreement means that the run without its foreign events is itself a run, with the same outcome |
| StoreRuns.LogsAreTails | frontend/src/stores/useCodexSession.ts:929-937 | after any run of notifications, unhandled RPC payloads, failed opens, server requests and other reports the event log and the unknown-activity log are exactly the last 500 and the last 80 entries appended |
| StoreRuns.ShellShowsTheTextExactlyWhen | frontend/src/stores/useCodexSession.ts:852-859 | when, after a command has started, the deltas of its process carry the bytes of a text, cut anywhere, the shell shows the text, whatever else happens in the store but another command or its whole output, if and only if no delta starts inside a character and none starts with a byte order mark |
| StoreRuns.OutputIsWhatWasPrinted | frontend/src/stores/useCodexSession.ts:852-859 | as long as no command starts, the output grows by exactly what its process's deltas and a whole output say, in order |
| Session.ScopedIsThePattern | frontend/src/stores/useCodexSession.ts:1058-1062 | the kinds treated as scoped are exactly the method names that match the source's pattern |
| DeltaOrder.WritesCommuteExactlyWhen | frontend/src/stores/useCodexSession.ts:838-919 | two writes to different items commute if and only if one sets file changes, one of the items exists, or the turns differ and one of them exists |
| Session.IndexFromNumberOrText | frontend/src/stores/useCodexSession.ts:827-830 | an index given as a number or as its decimal text is that array index |
| JsNumber.NumberOfDecimal | frontend/src/stores/useCodexSession.ts:827-830 | the conversion of strings reads a number written in decimal, up to 2^53, as itself |
| JsNumber.MarkersGiveTheBase | frontend/src/stores/useCodexSession.ts:827-830 | the markers for hexadecimal, octal and binary give the base in which an index is read |
| Session.IndexOfOtherValues | frontend/src/stores/useCodexSession.ts:827-830 | no index or `null` means the first element; a list of several values, a record and a text that is no number mean none |
| DeltaOrder.MergesCommuteExactlyWhen | frontend/src/stores/useCodexSession.ts:1038-1042 | two lifecycle merges of different items commute if and only if one of the items is already there |
| Conversation.PatchSetsValue | frontend/src/stores/useCodexSession.ts:900-919 | a delta appends its text to the one slot it addresses and to no other, for every item and turn |
| Conversation.MergeFinds | frontend/src/stores/useCodexSession.ts:1038-1042 | after a merge, looking up the item gives the new one, and every other look-up is unchanged |
| Conversation.PatchKeepsDistinct | frontend/src/stores/useCodexSession.ts:896-919 | a delta keeps turn ids, and item ids within a turn, free of duplicates |
| Conversation.UpsertTurnKeepsDistinct | frontend/src/stores/useCodexSession.ts:879-884 | so does a turn replacement, if the incoming turn is |
| Conversation.UpsertItemKeepsDistinct | frontend/src/stores/useCodexSession.ts:886-894 | so does a lifecycle payload |
| ThreadSwitch.LastWriterWins | frontend/src/stores/useCodexSession.ts:375-428 | for any overlapping calls and any order of responses, the generations put on display are strictly increasing, the last of them is on display, and the store is loading exactly while the newest call is in flight |
| ThreadSwitch.StaleResponsesAreInert | frontend/src/stores/useCodexSession.ts:381-399 | the response of a superseded call, success or failure, changes nothing on display |
| ThreadSwitch.OnlyTheNewestCallWrites | frontend/src/stores/useCodexSession.ts:376-428 | while no new call begins, the newest call is put on display once if its last response is a success and not otherwise, and no other call is |
| ThreadSwitch.SupersededCallsNeverWrite | frontend/src/stores/useCodexSession.ts:381 | a call that a newer one has overtaken is never put on display, in any run |
| ThreadSwitch.StepKeepsArbitrated | frontend/src/stores/useCodexSession.ts:375-428 | every notification, call and response keeps the arbitration invariant |
| ThreadSwitch.RunKeepsDistinct | frontend/src/stores/useCodexSession.ts:879-894 | over every run of calls, responses and notifications turn ids, and item ids within a turn, stay free of duplicates if loaded threads and incoming turns are |
| ThreadSwitch.LastInProgressExactlyWhen | frontend/src/stores/useCodexSession.ts:921-927 | opening a thread makes active the last of its turns that is in progress, if and only if there is one |
| ThreadChoice.NewestOpenShows | frontend/src/stores/useCodexSession.ts:376-388 | from the start of the newest `openThread`, whatever happens before its two responses, the second puts the thread that was asked for on display, with the resumed conversation if that has turns and otherwise the one its own first response read, makes active its last turn in progress, if any, and ends the loading |
| ThreadChoice.NewestStartShows | frontend/src/stores/useCodexSession.ts:404-428 | the same for the response of the newest `startThread`, which keeps the active turn |
| ThreadChoice.FailuresShowNothing | frontend/src/stores/useCodexSession.ts:393-402 | a failed response leaves everything on display as it was, ends its call, and ends the loading if its call is the newest |
| StoreRuns.LastDecisionHolds | frontend/src/stores/useCodexSession.ts:796-814 | after any run of the store the active turn is what the last event that decides it says: a started or completed turn in scope, an accepted turn, or an opened thread |
| StoreRuns.LastDiffIsKept | frontend/src/stores/useCodexSession.ts:843-845 | after any run the diff of a turn is the last one given for it in scope |
| StoreRuns.ExactlyTheResolvedDisappear | frontend/src/stores/useCodexSession.ts:1044-1051 | over any run in which the user answers nothing and the connection does not come or go, exactly the requests that were resolved disappear, the others keep their order, and newer ones come last |
| StoreRuns.DroppedRequestsAreGone | frontend/src/stores/useCodexSession.ts:325-340 | when the connection comes or goes, only requests asked since then and not resolved are pending |
| ThreadChoice.AnsweredRequestGoes | frontend/src/stores/useCodexSession.ts:733-739 | answering the request at a place takes that one out and leaves the others in order; a place that does not exist changes nothing |
| StoreRuns.RunKeepsThreads | frontend/src/stores/useCodexSession.ts:873-877 | thread ids stay free of duplicates over every run of the store in which listings of threads are |
| StoreRuns.UpsertKeepsThreads | frontend/src/stores/useCodexSession.ts:873-877 | listing a thread keeps every other thread and adds no duplicate |
| SessionOrder.StepListsThread | frontend/src/stores/useCodexSession.ts:873-877 | a thread that starts is found in the list as it was given, in front if it is new; the others are found as before, in their order |
| SessionOrder.NewThreadsComeFirst | frontend/src/stores/useCodexSession.ts:873-877 | over any run without a new listing the threads listed stay in order and new ones come in front |
| SessionOrder.ListingsReplaceTheList | frontend/src/stores/useCodexSession.ts:367 | after a listing, until the next one, the list is what was listed with newer threads in front |
| SessionStore.SessionStore.HandleNotification | frontend/src/stores/useCodexSession.ts:762-871 | the store's new state after a notification is the reducer's |
| SessionStore.SessionStore.Dispatch | frontend/src/stores/useCodexSession.ts:768-870 | each branch of the switch changes the fields the reducer says and no other |
| SessionStore.SessionStore.ChangeItem | frontend/src/stores/useCodexSession.ts:900-919 | looking up, putting in a placeholder and writing to it are together one patch |
| SessionStore.PlaceholderThenChange | frontend/src/stores/useCodexSession.ts:900-908 | the same on values: the placeholder is found where it was put, and writing to it gives the patch |
| SessionStore.SessionStore.UpsertItem | frontend/src/stores/useCodexSession.ts:886-894 | the item is merged into its turn, which is created if it is missing; nothing happens without an active thread |
| SessionStore.SessionStore.UpsertTurn | frontend/src/stores/useCodexSession.ts:879-884 | the turn replaces the one with its id or is appended |
| SessionStore.SessionStore.UpsertThread | frontend/src/stores/useCodexSession.ts:873-877 | the thread replaces the one with its id or is put in front |
| SessionStore.SessionStore.SetThreadStatuses | frontend/src/stores/useCodexSession.ts:789-792 | the loop sets the status of every thread with the id and of no other |
| SessionStore.SessionStore.AppendEvent | frontend/src/stores/useCodexSession.ts:929-932 | push and trim leave the last 500 entries |
| SessionStore.SessionStore.OnRead | frontend/src/stores/useCodexSession.ts:379-380 | the first response of `openThread` is kept for the second request whatever the generation is; a failure is logged by the newest call only |
| SessionStore.SessionStore.OnResumed | frontend/src/stores/useCodexSession.ts:380-400 | the newest call shows the resumed thread, or the read one if that has no turns, and resynchronises the active turn; an older one ends silently |
| SessionStore.SessionStore.OnStarted | frontend/src/stores/useCodexSession.ts:414-427 | the newest call shows the started thread and lists it; an older one ends silently |
| SessionStore.SessionStore.OnTurnAccepted | frontend/src/stores/useCodexSession.ts:457-459 | the reply to `turn/start` or `review/start` replaces or adds its turn and decides the active turn |
| SessionStore.SessionStore.HandleServerRequest | frontend/src/stores/useCodexSession.ts:757-760 | the request is pending, last, and logged |
| SessionStore.SessionStore.RespondTo | frontend/src/stores/useCodexSession.ts:733-739 | the answered request and no other is removed |
| SessionStore.SessionStore.OnUnhandled | frontend/src/stores/useCodexSession.ts:207-210 | a payload the RPC client could not handle is appended to both logs |
| SessionStore.SessionStore.HandleEvent | frontend/src/stores/useCodexSession.ts:375-428 | every event of the store's environment (notifications, unhandled payloads, thread switches and listings, replies, server requests and their answers, shell commands) takes it where the state machine says |
| SshGateway.UpstreamFollowsSession | backend/src/ssh.rs:160-239 | over every run of serialised handlers the upstream is the installed session's loopback address in SSH mode if a session is installed and the local one otherwise, the installed child's command line forwards that port, and every other child ever spawned has ended or been killed |
| SshGateway.FailedConnectChangesNeither | backend/src/ssh.rs:199-236 | a failed connect leaves session, upstream and all earlier children as they were and its own child, if any, not running |
| SshGateway.ConnectSucceedsExactlyWhen | backend/src/ssh.rs:160-239 | a connect succeeds if and only if the request is valid, a port and a process can be had, and Codex answers while the child runs after rounds that decided nothing |
| SshGateway.SuccessReplacesTheSession | backend/src/ssh.rs:173-227 | a successful connect installs and reports the new child with the target asked for, the reserved local port and the remote port asked for or configured, makes that loopback address the upstream in SSH mode, starts the child with the arguments for it, and ends every other |
| SshGateway.ConnectAnswersByTheDecidingRound | backend/src/ssh.rs:195-238 | once the child is started, the first round that decides anything settles the answer: an exit, a failed inspection, readiness or the end of the time, in that order within a round, each with its error and the fate of the child |
| SshGateway.ConnectTimesOut | backend/src/ssh.rs:228-238 | without such a round the connect times out and its child is killed |
| SshGateway.RefusalSaysWhy | backend/src/ssh.rs:160-191 | a connect that starts no child changes nothing and says why, the target being checked before the ports, those before the executable |
| SshGateway.RemoteBinExactlyWhen | backend/src/ssh.rs:166-174 | the executable is `codex`, or the one asked for with all whitespace around it removed and none inside |
| SshGateway.DisconnectEndsTheSession | backend/src/ssh.rs:379-384 | a disconnect empties the slot, restores the configured local upstream, kills the running child and touches no other |
| SshGateway.StatusChangesNothingExactlyWhen | backend/src/ssh.rs:347-367 | a status call changes nothing if and only if no session is installed or its child can be inspected and runs; otherwise the slot is emptied, the local upstream restored and no child runs |
| SshGateway.StatusIsHonest | backend/src/ssh.rs:347-377 | it reports a session, with that session's target and ports, if and only if the installed child can be inspected and runs, and otherwise nothing; its mode is the upstream's, and asking again changes nothing |
| SshGateway.ValidTargetExactlyWhen | backend/src/ssh.rs:323-335 | the check on bytes accepts exactly the strings of 1 to 255 host-name characters that do not start with a hyphen |
| SshGateway.ValidTargetsAreHarmless | backend/src/ssh.rs:323-335 | an accepted target is never an option and holds no shell-special character but the opening bracket of an IPv6 address |
| SshGateway.GatewayState.StartSession | backend/src/ssh.rs:160-191 | the handler's new state and reply are those of the connect function, for every request and everything the outside world can do |
| SshGateway.GatewayState.ProbeChild | backend/src/ssh.rs:184-238 | the probing loop ends in the state and with the reply that its first decisive round calls for |
| SshGateway.GatewayState.StopManagedSsh | backend/src/ssh.rs:379-384 | the new state is that of the disconnect function |
| SshGateway.GatewayState.CurrentStatus | backend/src/ssh.rs:347-367 | the new state and the report are those of the status function |
| SshGateway.GatewayState.StopSession | backend/src/ssh.rs:74-87 | the session's child no longer runs and no other child is touched |
| SshInterleaving.ChildrenAreNeverOrphaned | backend/src/ssh.rs:160-239 | however handlers overlap, and even if some are dropped half-way, a running child is the installed one or in the hands of exactly one handler, and when all have finished only the installed one runs |
| SshInterleaving.UpstreamFollowsSessionExactlyWhen | backend/src/ssh.rs:221-222 | in every run, whatever overlaps or is dropped, the upstream follows the session if and only if the handler that wrote it last and the one that changed the slot last both emptied the slot, or both filled it with the same local port |
| SshInterleaving.OrderedWritesFollowTheSession | backend/src/ssh.rs:221-222 | if no handler is dropped between its two writes and handlers write in the order in which they changed the slot, the upstream follows the session whenever no handler is between the two, however much they overlap |
| SshInterleaving.DisjointWindowsWriteInOrder | backend/src/ssh.rs:353-359 | handlers of which none changes the slot while another is between its two writes do write in order |
| SshInterleaving.DisconnectInsideConnect | backend/src/ssh.rs:221-222 | from any idle state there is a run, with a disconnect between the two writes of a connect, that ends idle with an SSH upstream and no session |
| SshInterleaving.ConnectInsideStatus | backend/src/ssh.rs:354-359 | from any idle state with a session there is a run, with a connect between the two writes of a status call, that ends idle with a session behind a local upstream |
| SshInterleaving.ActKeepsExclusive | backend/src/ssh.rs:347-384 | every piece of every handler keeps children from having two owners |
| SshInterleaving.DisconnectKeepsTheSlotEmpty | backend/src/ssh.rs:379-384 | from the moment a disconnect has taken the session until it is done or dropped no handler changes the slot |
| SshRefinement.PiecesConnect | backend/src/ssh.rs:160-239 | the pieces of a connect, run without interruption, do what the connect handler does, for every request and every outcome |
| SshRefinement.PiecesDisconnect | backend/src/ssh.rs:379-384 | the same for a disconnect |
| SshRefinement.PiecesStatus | backend/src/ssh.rs:347-367 | the same for a status call, stale or not |
| SshRefinement.SerialisedRunsAreInterleavings | backend/src/ssh.rs:160-239 | every run of serialised handlers and dying children is one of the interleavings, so what holds for all interleavings holds for it |
| RemoteCommand.QuotingIsUndoneExactlyWhen | backend/src/ssh.rs:319-321 | a POSIX shell reads the quoted value as one word equal to the value if and only if it holds no NUL |
| RemoteCommand.CommandReads | backend/src/ssh.rs:311-316 | for every NUL-free executable path the remote command splits into exactly `exec`, the path, `app-server`, `--listen` and the URL |
| RemoteCommand.CommandIsInjective | backend/src/ssh.rs:311-316 | different paths or ports give different commands |
| RemoteCommand.SshArgsParse | backend/src/ssh.rs:273-317 | the SSH client reads the argument list back as the six fixed options, the SSH port and trimmed identity file if given, and the forwarding from the local to the remote port, the target as destination and the command as one argument, whatever they contain |
| RemoteCommand.BuildSshArgs | backend/src/ssh.rs:273-317 | the pushes build that list |
| Tail.CaptureStderr | backend/src/ssh.rs:249-263 | what is captured is the last 8192 bytes of everything received, for any sequence of reads |
| Tail.LastAppend | backend/src/ssh.rs:258-262 | trimming after every append keeps what trimming once at the end would |
| Text.TrimExactlyWhen | backend/src/ssh.rs:166-174 | trimming gives the one part of a string that has no whitespace at its ends and only whitespace around it |
| Text.DecimalIsCanonical | backend/src/ssh.rs:304-308 | a port is written without leading zeros |
| Utf8.DecodeEncodedExactlyWhen | frontend/src/utils/encoding.ts:1-8 | text survives UTF-8 encoding and decoding if and only if it does not start with U+FEFF |
| Utf8.ReplacesTheLongestBeginning | frontend/src/utils/encoding.ts:1-5 | bytes that begin no character decode to one U+FFFD for the longest part that begins one, or for the first byte |
| Utf8.Examples | frontend/src/utils/encoding.ts:7-8 | the encoder gives the bytes of the example in section 7 of RFC 3629, and of a character of four bytes |
| Utf8.PiecewiseDecodingExactlyWhen | frontend/src/utils/encoding.ts:1-5 | for bytes cut after a whole character, decoding the two pieces gives the decoding of the whole if and only if the first is empty or the second does not start with a byte order mark |
| Utf8Pieces.PiecesDecodeExactlyWhen | frontend/src/utils/encoding.ts:1-5 | encoded text that is cut into any pieces and decoded piece by piece comes out whole if and only if no piece starts inside a character and none starts with a byte order mark |
| Utf8Pieces.CutIsHarmlessExactlyWhen | frontend/src/stores/useCodexSession.ts:855 | the same for one cut at any byte |
| Utf8Pieces.BoundaryExactlyWhen | frontend/src/utils/encoding.ts:1-5 | the second part does not start inside a character if and only if the cut is at the end of a prefix of the text |
| Utf8Pieces.CleanPiecesDecodeLikeTheWhole | frontend/src/utils/encoding.ts:1-5 | such pieces of any byte stream, well-formed or not, decode to what the whole decodes to |
| Base64.AtobUndoesBtoa | frontend/src/utils/encoding.ts:1-15 | the forgiving decoder gives back every byte string that was encoded |
| Base64.SextetsAreWrittenInTheAlphabet | frontend/src/utils/encoding.ts:7-15 | a sextet is written as the character at its place in the alphabet of RFC 4648 |
| Base64.QuadIsTheGroup | frontend/src/utils/encoding.ts:7-15 | the four characters for three bytes hold the same 24 bits, the first ones first |
| Base64.SpacesDoNotMatter | frontend/src/utils/encoding.ts:1-2 | ASCII whitespace anywhere does not change what is decoded |
| Base64.OneCharacterTooMany | frontend/src/utils/encoding.ts:1-2 | an encoded text with one more character is refused |
| Base64.RoundTripExactlyWhen | frontend/src/utils/encoding.ts:1-15 | `decodeBase64Utf8` undoes `encodeUtf8Base64` if and only if the text does not start with U+FEFF |
| Base64.CopyInChunks | frontend/src/utils/encoding.ts:9-13 | copying chunk by chunk gives all the bytes, for every positive chunk size |
| Base64.EncodeUtf8Base64 | frontend/src/utils/encoding.ts:7-15 | the chunked encoder gives the base64 form of the whole text |
| Base64.FileToBase64 | frontend/src/utils/encoding.ts:17-25 | decoding the result gives back every byte of the file |
| Base64.DeltasDecodeExactlyWhen | frontend/src/stores/useCodexSession.ts:852-859 | deltas that carry the bytes of a text decode, one by one, to the text if and only if none starts inside a character or with a byte order mark |
| Base64.DeltasDecodeLikeTheirConcatenation | frontend/src/stores/useCodexSession.ts:852-859 | such deltas of any byte stream decode, one by one, to what one delta with all of it decodes to |
| TokenAuth.Hex | backend/src/auth.rs:43-51 | the gateway's loop gives the front end's encoding for every byte string |
| TokenAuth.HexIsABijection | frontend/src/rpc/JsonRpcClient.ts:38-42 | a string decodes to given bytes if and only if it is their encoding |
| TokenAuth.ProtocolIsInjective | frontend/src/rpc/JsonRpcClient.ts:38-42 | two tokens give the same subprotocol if and only if they are equal |
| TokenAuth.ProtocolFoundExactlyWhen | backend/src/auth.rs:17-27 | the search succeeds if and only if some element of some protocol header, trimmed, is the prefix and the hexadecimal form of the expected token, and then answers with what the front end offers for it |
| TokenAuth.AuthorizedExactlyWhen | backend/src/auth.rs:9-15 | a request is let in if and only if the bearer value, the token header, the query or a listed subprotocol carries exactly the expected token |
| TokenAuth.BearerExactlyWhen | backend/src/auth.rs:29-37 | the bearer token is the expected one if and only if the value is the scheme in any case, one space and that nonempty token |
| TokenAuth.FrontEndGetsInExactlyWhen | frontend/src/rpc/JsonRpcClient.ts:206-208 | end to end, the front end's offer alone is accepted if and only if it has a token and it is the gateway's |
| TokenAuth.OfferAmongOthersGetsIn | backend/src/auth.rs:17-27 | so is an offer that stands anywhere among other subprotocols, set off by a comma and a space |
| Paths.BasenameOfJoined | frontend/src/utils/paths.ts:19-21 | the last component of a joined path is the name that was joined |
| Paths.ParentUndoesJoinExactlyWhen | frontend/src/utils/paths.ts:5-17 | going up from a joined path leads back if and only if the path is `/`, `\`, a drive root, or nonempty without a trailing separator |
| Paths.TrailingSeparatorsDoNotMatter | frontend/src/utils/paths.ts:10-21 | a separator at the end of a path changes neither its parent nor its last component |
| Paths.MeetingSeparatorsDoNotMatter | frontend/src/utils/paths.ts:5-8 | separators where two paths meet do not change what joining gives, but for a first backslash, which makes backslashes the separator |
| Paths.ParentIsShorterOrEqual | frontend/src/utils/paths.ts:10-17 | going up shortens a path or leaves it as it is |
| Paths.ParentStaysExactlyWhen | frontend/src/utils/paths.ts:10-17 | it leaves a path as it is if and only if that has no separator |
| Paths.TopIsSeparatorFree | frontend/src/utils/paths.ts:10-17 | going up repeatedly ends, at a path without a separator |
| Readiness.CodexIsReady | backend/src/app_server.rs:116-134 | however the response is cut into reads, the loop stays within its 256 bytes, ends, and without a failed read answers yes if and only if the response begins with one of the two success status lines |
| Readiness.TcpStream.Read | backend/src/app_server.rs:120 | a read moves some bytes of the stream into the buffer, none only at its end, and leaves the earlier ones alone |

## Left out

- Vue components, `computed` values, styles, settings persistence, timestamps, random ids and display strings: no behaviour across events. Error texts are kept only as far as the client's own code looks at them.
- Listeners and callbacks of the RPC client: which list a frame goes to is recorded, the callbacks themselves and re-entrant calls from them are not; nor are `updateConfig`, `destroy` and the value of the promise that `connect` returns after a `disconnect`.
- Browser sockets, timers and the network: a `close()` call takes effect at a later close event, messages arrive on open sockets only, `send` on an open socket succeeds, a server answers only ids it received on that socket, and delays are armed or fired rather than measured. A JavaScript map's insertion order is not modelled where pending requests are rejected in a loop.
- Backoff over IEEE doubles: the formula is over real numbers and unbounded integers.
- Object identity in the session store: the active thread, the thread list and payloads are values, so a status set through one alias is set where the code sets it and nowhere else. A thread, turn or item has only the fields the reducer reads or writes; item ids that are not strings and list elements that are not records are not represented.
- JsNumber.Number: values are exact, not rounded to a double, and only finite ones are values.
- `lastError`, skills, apps and MCP servers: their notifications are logged and change nothing else in the model.
- Requests the store sends, approvals, file commands, and of a shell command all but its process id and output: request and response plumbing. Their entries in the event log are the event `Remarked`.
- Real processes, OpenSSH, `fetch` and HTTP routing: what they do is a parameter or an event. A connect's polling is a finite list of rounds, after which the time is up; stopping or dropping a child always ends it.
- SshGateway.GatewayState.StartSession: handlers run one at a time in this class; overlapping handlers are in `SshInterleaving`, on values.
- RemoteCommand.Words: it gives no result for expansions, operators and other special characters outside single quotes, rather than modelling what a shell does with them.
- The proxy's relay, the configuration parser, the local Codex process and its start-up loop: one-branch validation and forwarding over library types.
