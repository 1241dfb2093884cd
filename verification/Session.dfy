/** The session state of the web front end and the reducer that folds server notifications into it. */
module Session {
  import opened Wrappers
  import opened Conversation
  import Tail
  import Base64
  import JsNumber
  import Text

  /** The methods the reducer distinguishes. */
  datatype Kind =
    | SkillsChanged | AppListUpdated | McpStartupStatusUpdated
    | ThreadStarted | ThreadStatusChanged
    | TurnStarted | TurnCompleted | TurnDiffUpdated | TurnPlanUpdated
    | ItemStarted | ItemCompleted
    | AgentMessageDelta | PlanDelta | SummaryTextDelta | ReasoningTextDelta | CommandOutputDelta | FileOutputDelta
    | FilePatchUpdated
    | RequestResolved | ExecOutputDelta
    | ErrorNotice | WarningNotice | ConfigWarning
    | Other(name: string)

  datatype Thread = Thread(id: string, turns: seq<Turn>, status: Json)

  /** A notification: its scalar parameters, and the `turn`, `item` and `thread` payloads that pass their type
      guards. */
  datatype Notification = Notification(
    kind: Kind, params: map<string, Json>, turn: Option<Turn>, item: Option<Item>, thread: Option<Thread>)

  datatype Plan = Plan(explanation: Option<string>, steps: seq<Json>)

  /** A log entry: a notification, a server request, an unreadable message, a failed `openThread`, or what other
      operations of the store report. */
  datatype LogEntry =
    | Received(notification: Notification) | Asked(id: Json) | Unreadable(payload: Json)
    | OpenFailed(threadId: string) | Remark(text: string)

  /** One `openThread` or `startThread` call that is still waiting for the server. */
  datatype Call = Reading(threadId: string) | Resuming(threadId: string, read: Thread) | Starting

  /** A thread that the call of this generation put on display. */
  datatype Choice = Choice(generation: nat, threadId: string)

  datatype Session = Session(
    activeThreadId: Option<string>,
    activeThread: Option<Thread>,
    activeTurnId: Option<string>,
    threads: seq<Thread>,
    turnDiffs: map<string, string>,
    turnPlans: map<string, Plan>,
    pendingRequests: seq<Json>,
    shellProcessId: Option<string>,
    shellOutput: string,
    terminalEvents: seq<LogEntry>,
    unknownActivity: seq<LogEntry>,
    // openThread / startThread
    generation: nat,
    loading: bool,
    calls: map<nat, Call>,
    written: seq<Choice>)

  // ---------- scope ----------

  function Name(kind: Kind): string {
    match kind
    case SkillsChanged => "skills/changed"
    case AppListUpdated => "app/list/updated"
    case McpStartupStatusUpdated => "mcpServer/startupStatus/updated"
    case ThreadStarted => "thread/started"
    case ThreadStatusChanged => "thread/status/changed"
    case TurnStarted => "turn/started"
    case TurnCompleted => "turn/completed"
    case TurnDiffUpdated => "turn/diff/updated"
    case TurnPlanUpdated => "turn/plan/updated"
    case ItemStarted => "item/started"
    case ItemCompleted => "item/completed"
    case AgentMessageDelta => "item/agentMessage/delta"
    case PlanDelta => "item/plan/delta"
    case SummaryTextDelta => "item/reasoning/summaryTextDelta"
    case ReasoningTextDelta => "item/reasoning/textDelta"
    case CommandOutputDelta => "item/commandExecution/outputDelta"
    case FileOutputDelta => "item/fileChange/outputDelta"
    case FilePatchUpdated => "item/fileChange/patchUpdated"
    case RequestResolved => "serverRequest/resolved"
    case ExecOutputDelta => "command/exec/outputDelta"
    case ErrorNotice => "error"
    case WarningNotice => "warning"
    case ConfigWarning => "configWarning"
    case Other(name) => name
  }

  predicate HasScope(name: string) {
    "turn/" <= name || "item/" <= name || "rawResponseItem/" <= name
  }

  predicate Scoped(kind: Kind) {
    match kind
    case TurnStarted | TurnCompleted | TurnDiffUpdated | TurnPlanUpdated => true
    case ItemStarted | ItemCompleted | AgentMessageDelta | PlanDelta | SummaryTextDelta | ReasoningTextDelta => true
    case CommandOutputDelta | FileOutputDelta | FilePatchUpdated => true
    case Other(name) => HasScope(name)
    case _ => false
  }

  lemma ScopeLetters(name: string)
    requires |name| > 1 && name[0] != 'i' && name[0] != 'r' && (name[0] == 't' ==> name[1] != 'u')
    ensures !HasScope(name)
  {
    assert "turn/"[0] == 't' && "turn/"[1] == 'u' && "item/"[0] == 'i' && "rawResponseItem/"[0] == 'r';
  }

  lemma ScopedNames(kind: Kind)
    requires Scoped(kind)
    ensures HasScope(Name(kind))
  {
  }

  lemma UnscopedNames(kind: Kind)
    requires !Scoped(kind) && !kind.Other?
    ensures !HasScope(Name(kind))
  {
    ScopeLetters(Name(kind));
  }

  /** The scope test by kind is the source's pattern on method names. */
  lemma ScopedIsThePattern(kind: Kind)
    ensures Scoped(kind) <==> HasScope(Name(kind))
  {
    if Scoped(kind) {
      ScopedNames(kind);
    } else if !kind.Other? {
      UnscopedNames(kind);
    }
  }

  /** The notification's method is this one of those the reducer distinguishes. */
  predicate Named(n: Notification, name: string) {
    !n.kind.Other? && Name(n.kind) == name
  }

  /** The method names tell the kinds apart. */
  lemma NamesTellKinds(n: Notification)
    ensures Named(n, "thread/started") <==> n.kind.ThreadStarted?
    ensures Named(n, "thread/status/changed") <==> n.kind.ThreadStatusChanged?
    ensures Named(n, "turn/started") <==> n.kind.TurnStarted?
    ensures Named(n, "turn/completed") <==> n.kind.TurnCompleted?
    ensures Named(n, "turn/diff/updated") <==> n.kind.TurnDiffUpdated?
    ensures Named(n, "turn/plan/updated") <==> n.kind.TurnPlanUpdated?
    ensures Named(n, "item/started") <==> n.kind.ItemStarted?
    ensures Named(n, "item/completed") <==> n.kind.ItemCompleted?
    ensures Named(n, "serverRequest/resolved") <==> n.kind.RequestResolved?
    ensures Named(n, "command/exec/outputDelta") <==> n.kind.ExecOutputDelta?
  {
  }

  lemma NamesTellDeltas(n: Notification)
    ensures Named(n, "item/agentMessage/delta") <==> n.kind.AgentMessageDelta?
    ensures Named(n, "item/plan/delta") <==> n.kind.PlanDelta?
    ensures Named(n, "item/reasoning/summaryTextDelta") <==> n.kind.SummaryTextDelta?
    ensures Named(n, "item/reasoning/textDelta") <==> n.kind.ReasoningTextDelta?
    ensures Named(n, "item/commandExecution/outputDelta") <==> n.kind.CommandOutputDelta?
    ensures Named(n, "item/fileChange/outputDelta") <==> n.kind.FileOutputDelta?
    ensures Named(n, "item/fileChange/patchUpdated") <==> n.kind.FilePatchUpdated?
  {
  }

  function StringField(params: map<string, Json>, key: string): string {
    if key in params then StringOf(params[key]) else ""
  }

  /** `shouldApplyScopedNotification` */
  predicate ShouldApply(activeThreadId: Option<string>, n: Notification) {
    var threadId := StringField(n.params, "threadId");
    !Scoped(n.kind) || threadId == ""
        || (activeThreadId.Some? && activeThreadId.value != "" && threadId == activeThreadId.value)
  }

  // ---------- turns ----------

  const MAX_ARRAY_INDEX := 4294967294

  /** `Number(j)`. An array is read as the text of its only element; with more it has a comma. */
  function NumberOf(j: Json): Option<real> {
    match j
    case Null => Some(0.0)
    case Bool(b) => Some(if b then 1.0 else 0.0)
    case Num(value) => Some(value)
    case Str(s) => JsNumber.Number(s)
    case Arr(elements) =>
      if elements == [] then Some(0.0)
      else if |elements| > 1 || elements[0].Bool? then None
      else if elements[0].Undefined? then Some(0.0)
      else NumberOf(elements[0])
    case _ => None
  }

  function AsIndex(number: Option<real>): Option<nat> {
    if number.Some? && 0.0 <= number.value <= MAX_ARRAY_INDEX as real && number.value.Floor as real == number.value
    then Some(number.value.Floor)
    else None
  }

  /** `Number(params[key] ?? 0)` as an array index. */
  function IndexField(params: map<string, Json>, key: string): Option<nat> {
    if key !in params || params[key].Undefined? then Some(0) else AsIndex(NumberOf(params[key]))
  }

  /** An index may come as a number or as its decimal text. */
  lemma IndexFromNumberOrText(params: map<string, Json>, key: string, n: nat)
    requires key in params && n <= MAX_ARRAY_INDEX
    requires params[key] == Num(n as real) || params[key] == Str(Text.Decimal(n))
    ensures IndexField(params, key) == Some(n)
  {
    JsNumber.NumberOfDecimal(n);
    assert (n as real).Floor == n;
  }

  /** No index, or `null`, means the first element; a list of several values and a text that is no number mean none. */
  lemma IndexOfOtherValues(params: map<string, Json>, key: string)
    ensures key !in params || params[key].Undefined? || params[key].Null? ==> IndexField(params, key) == Some(0)
    ensures key in params && params[key].Arr? && |params[key].elements| > 1 ==> IndexField(params, key).None?
    ensures key in params && (params[key].Obj? || (params[key].Str? && JsNumber.Number(params[key].s).None?)) ==>
              IndexField(params, key).None?
  {
  }

  /** The change a delta or patch notification makes to its item. */
  function ChangeOf(n: Notification): Option<Change> {
    var delta := StringField(n.params, "delta");
    if n.kind.AgentMessageDelta? then Some(AppendText("agentMessage", TEXT, delta))
    else if n.kind.PlanDelta? then Some(AppendText("plan", TEXT, delta))
    else if n.kind.SummaryTextDelta? then Some(AppendIndexed(SUMMARY, IndexField(n.params, "summaryIndex"), delta))
    else if n.kind.ReasoningTextDelta? then Some(AppendIndexed(CONTENT, IndexField(n.params, "contentIndex"), delta))
    else if n.kind.CommandOutputDelta? then Some(AppendText("commandExecution", AGGREGATED_OUTPUT, delta))
    else if n.kind.FileOutputDelta? then Some(AppendText("fileChange", OUTPUT, delta))
    else if n.kind.FilePatchUpdated? && "changes" in n.params && n.params["changes"].Arr?
        then Some(SetChanges(n.params["changes"]))
    else None
  }

  /** The write of a delta or patch notification. */
  function WriteOf(n: Notification): Option<Write> {
    var change := ChangeOf(n);
    if change.None? then None
    else Some(Write(StringField(n.params, "turnId"), StringField(n.params, "itemId"), change.value))
  }

  predicate IsTurnEvent(kind: Kind) {
    kind.TurnStarted? || kind.TurnCompleted?
  }

  predicate IsItemEvent(kind: Kind) {
    kind.ItemStarted? || kind.ItemCompleted?
  }

  /** What a notification does to the turns of the active thread. */
  function TurnsAfter(turns: seq<Turn>, n: Notification): seq<Turn> {
    if IsTurnEvent(n.kind) then
      if n.turn.Some? then UpsertTurn(turns, n.turn.value) else turns
    else if IsItemEvent(n.kind) then
      if n.item.Some? then UpsertItem(turns, StringField(n.params, "turnId"), n.item.value) else turns
    else if WriteOf(n).Some? then Patch(turns, WriteOf(n).value)
    else turns
  }

  function TurnsOf(thread: Option<Thread>): seq<Turn> {
    if thread.Some? then thread.value.turns else []
  }

  function Turns(s: Session): seq<Turn> {
    TurnsOf(s.activeThread)
  }

  function WithTurns(thread: Option<Thread>, turns: seq<Turn>): Option<Thread> {
    if thread.Some? then Some(thread.value.(turns := turns)) else None
  }

  // ---------- the rest of the state ----------

  function UpsertThread(threads: seq<Thread>, thread: Thread): seq<Thread> {
    var i := ThreadIndex(threads, thread.id);
    if i < |threads| then threads[i := thread] else [thread] + threads
  }

  function ThreadIndex(threads: seq<Thread>, id: string): (i: nat)
    ensures i <= |threads|
    ensures i < |threads| ==> threads[i].id == id
    ensures forall k :: 0 <= k < i ==> threads[k].id != id
  {
    if threads == [] || threads[0].id == id then 0 else 1 + ThreadIndex(threads[1..], id)
  }

  function SetStatus(t: Thread, id: string, status: Json): Thread {
    if t.id == id then t.(status := status) else t
  }

  function SetStatuses(threads: seq<Thread>, id: string, status: Json): seq<Thread> {
    seq(|threads|, i requires 0 <= i < |threads| => SetStatus(threads[i], id, status))
  }

  /** `filterResolvedRequests` */
  function Unresolved(requests: seq<Json>, id: Json): seq<Json> {
    if requests == [] then [] else (if requests[0] == id then [] else [requests[0]]) + Unresolved(requests[1..], id)
  }

  function Records(elements: seq<Json>): seq<Json> {
    if elements == [] then [] else (if elements[0].Obj? then [elements[0]] else []) + Records(elements[1..])
  }

  function PlanOf(params: map<string, Json>): Plan {
    Plan(if "explanation" in params && params["explanation"].Str? then Some(params["explanation"].s) else None,
         if "plan" in params then Records(ElementsOf(params["plan"])) else [])
  }

  const UNREADABLE := "[无法解码的输出]"

  function ExecOutput(output: string, delta: string): string {
    var text := Base64.DecodeBase64Utf8(delta);
    output + if text.Some? then text.value else UNREADABLE
  }

  const MAX_EVENTS := 500
  const MAX_UNKNOWN := 80

  function AppendEvent(s: Session, entry: LogEntry): Session {
    s.(terminalEvents := Tail.Last(MAX_EVENTS, s.terminalEvents + [entry]))
  }

  /** `addUnknown`: push, then at most one shift. */
  function AddUnknown(log: seq<LogEntry>, entry: LogEntry): seq<LogEntry> {
    var grown := log + [entry];
    if |grown| > MAX_UNKNOWN then grown[1..] else grown
  }

  predicate IsUnknown(activeThreadId: Option<string>, n: Notification) {
    n.kind.Other? && (activeThreadId == Some(StringField(n.params, "threadId")) || "item/" <= n.kind.name)
  }

  // ---------- field by field, what a notification within scope does ----------

  predicate SetsStatus(n: Notification) {
    n.kind.ThreadStatusChanged? && "status" in n.params && n.params["status"].Obj?
  }

  function ThreadAfter(thread: Option<Thread>, n: Notification): Option<Thread> {
    if thread.None? then None
    else if SetsStatus(n) then Some(SetStatus(thread.value, StringField(n.params, "threadId"), n.params["status"]))
    else Some(thread.value.(turns := TurnsAfter(thread.value.turns, n)))
  }

  function ThreadsAfter(threads: seq<Thread>, n: Notification): seq<Thread> {
    if n.kind.ThreadStarted? && n.thread.Some? then UpsertThread(threads, n.thread.value)
    else if SetsStatus(n) then SetStatuses(threads, StringField(n.params, "threadId"), n.params["status"])
    else threads
  }

  function ActiveTurnAfter(id: Option<string>, n: Notification): Option<string> {
    if n.kind.TurnStarted? && n.turn.Some? then Some(n.turn.value.id)
    else if n.kind.TurnCompleted? then None
    else id
  }

  function DiffsAfter(diffs: map<string, string>, n: Notification): map<string, string> {
    if n.kind.TurnDiffUpdated? then diffs[StringField(n.params, "turnId") := StringField(n.params, "diff")] else diffs
  }

  function PlansAfter(plans: map<string, Plan>, n: Notification): map<string, Plan> {
    if n.kind.TurnPlanUpdated? then plans[StringField(n.params, "turnId") := PlanOf(n.params)] else plans
  }

  function RequestsAfter(requests: seq<Json>, n: Notification): seq<Json> {
    if n.kind.RequestResolved? && "requestId" in n.params && (n.params["requestId"].Str? || n.params["requestId"].Num?)
    then Unresolved(requests, n.params["requestId"])
    else requests
  }

  /** An output delta of this shell process. */
  predicate IsShellOutput(processId: Option<string>, n: Notification) {
    n.kind.ExecOutputDelta? && processId == Some(StringField(n.params, "processId"))
  }

  function ShellAfter(processId: Option<string>, output: string, n: Notification): string {
    if IsShellOutput(processId, n) then ExecOutput(output, StringField(n.params, "deltaBase64")) else output
  }

  function UnknownAfter(activeThreadId: Option<string>, log: seq<LogEntry>, n: Notification): seq<LogEntry> {
    if IsUnknown(activeThreadId, n) then AddUnknown(log, Received(n)) else log
  }

  function Apply(s: Session, n: Notification): Session {
    s.(activeThread := ThreadAfter(s.activeThread, n),
       activeTurnId := ActiveTurnAfter(s.activeTurnId, n),
       threads := ThreadsAfter(s.threads, n),
       turnDiffs := DiffsAfter(s.turnDiffs, n),
       turnPlans := PlansAfter(s.turnPlans, n),
       pendingRequests := RequestsAfter(s.pendingRequests, n),
       shellOutput := ShellAfter(s.shellProcessId, s.shellOutput, n),
       unknownActivity := UnknownAfter(s.activeThreadId, s.unknownActivity, n))
  }

  /** `handleNotification` */
  function Handle(s: Session, n: Notification): Session {
    var logged := AppendEvent(s, Received(n));
    if ShouldApply(s.activeThreadId, n) then Apply(logged, n) else logged
  }
}
