/** What one notification does to streamed text, ids, logs and shell output. */
module SessionStreams {
  import opened Wrappers
  import opened Conversation
  import opened Session
  import Base64
  import Tail
  import Utf8
  import Utf8Pieces

  // ---------- scope ----------

  /** The method name is a turn's or an item's, and the notification names a thread that is not on display. */
  predicate ForAnotherThread(activeThreadId: Option<string>, n: Notification) {
    && HasScope(Name(n.kind))
    && "threadId" in n.params && n.params["threadId"].Str? && n.params["threadId"].s != ""
    && activeThreadId != Some(n.params["threadId"].s)
  }

  lemma ScopeExactlyWhen(activeThreadId: Option<string>, n: Notification)
    ensures ShouldApply(activeThreadId, n) <==> !ForAnotherThread(activeThreadId, n)
  {
    ScopedIsThePattern(n.kind);
  }

  /** A turn or item notification that names another thread is logged and has no other effect. */
  lemma OtherThreadsAreOnlyLogged(s: Session, n: Notification, threadId: string)
    requires "turn/" <= Name(n.kind) || "item/" <= Name(n.kind) || "rawResponseItem/" <= Name(n.kind)
    requires "threadId" in n.params && n.params["threadId"] == Str(threadId) && threadId != ""
    requires s.activeThreadId != Some(threadId)
    ensures Handle(s, n) == s.(terminalEvents := Tail.Last(500, s.terminalEvents + [Received(n)]))
  {
    ScopeExactlyWhen(s.activeThreadId, n);
  }

  /** One that names the thread on display, or no thread, is logged and applied, and so is every other one. */
  lemma TheThreadOnDisplayIsServed(s: Session, n: Notification)
    requires || !("turn/" <= Name(n.kind) || "item/" <= Name(n.kind) || "rawResponseItem/" <= Name(n.kind))
             || "threadId" !in n.params || !n.params["threadId"].Str? || n.params["threadId"].s == ""
             || s.activeThreadId == Some(n.params["threadId"].s)
    ensures Handle(s, n) == Apply(s.(terminalEvents := Tail.Last(500, s.terminalEvents + [Received(n)])), n)
  {
    ScopeExactlyWhen(s.activeThreadId, n);
  }

  // ---------- the text in one slot of one item ----------

  /** The item payload of an `item/started` or `item/completed` for this item. */
  function Lifecycle(n: Notification, turnId: string, itemId: string): Option<Item> {
    if (Named(n, "item/started") || Named(n, "item/completed")) && n.item.Some?
       && StringField(n.params, "turnId") == turnId && n.item.value.id == Some(itemId)
    then n.item
    else None
  }

  /** The payload of a `turn/started` or `turn/completed` for this turn. */
  function Replacement(n: Notification, turnId: string): Option<Turn> {
    if (Named(n, "turn/started") || Named(n, "turn/completed")) && n.turn.Some? && n.turn.value.id == turnId
    then n.turn
    else None
  }

  /** The value that a notification sets a slot to, if it does not merely append to it. */
  function ResetTo(n: Notification, turnId: string, itemId: string, slot: Slot): Option<string> {
    if Lifecycle(n, turnId, itemId).Some? then Some(Read(Lifecycle(n, turnId, itemId).value, slot))
    else if Replacement(n, turnId).Some? then Some(ValueIn(Replacement(n, turnId).value.items, itemId, slot))
    else None
  }

  function ElementAt(field: string, index: Option<nat>): Option<Slot> {
    if index.Some? then Some(Element(field, index.value)) else None
  }

  /** The streamed field that a delta of this method belongs to, as the protocol names both. */
  function StreamOf(n: Notification): Option<Slot> {
    if Named(n, "item/agentMessage/delta") || Named(n, "item/plan/delta") then Some(Whole("text"))
    else if Named(n, "item/reasoning/summaryTextDelta") then ElementAt("summary", IndexField(n.params, "summaryIndex"))
    else if Named(n, "item/reasoning/textDelta") then ElementAt("content", IndexField(n.params, "contentIndex"))
    else if Named(n, "item/commandExecution/outputDelta") then Some(Whole("aggregatedOutput"))
    else if Named(n, "item/fileChange/outputDelta") then Some(Whole("output"))
    else None
  }

  /** What a notification appends to a slot. */
  function Delta(n: Notification, turnId: string, itemId: string, slot: Slot): string {
    if StreamOf(n) == Some(slot)
       && StringField(n.params, "turnId") == turnId && StringField(n.params, "itemId") == itemId
    then StringField(n.params, "delta")
    else ""
  }

  /** The write that the reducer makes appends to exactly that field. */
  lemma WritesAppendTheDelta(n: Notification, turnId: string, itemId: string, slot: Slot)
    ensures Delta(n, turnId, itemId, slot) ==
            var w := WriteOf(n);
            if w.Some? && (w.value.turnId, w.value.itemId) == (turnId, itemId) then Piece(w.value.change, slot) else ""
  {
    NamesTellDeltas(n);
  }

  lemma WritesAreWellFormed(n: Notification)
    ensures WriteOf(n).Some? ==> WellFormedChange(WriteOf(n).value.change)
  {
    assert TEXT[0] == 't' && TEXT[1] == 'e' && TYPE[1] == 'y';
    assert AGGREGATED_OUTPUT[0] == 'a' && OUTPUT[0] == 'o';
    assert SUMMARY[0] == 's' && CONTENT[0] == 'c' && CHANGES[0] == 'c' && TYPE[0] == 't';
  }

  lemma UpsertTurnFinds(turns: seq<Turn>, turn: Turn, other: string)
    ensures ItemsOf(UpsertTurn(turns, turn), other) == if other == turn.id then turn.items else ItemsOf(turns, other)
  {
    var after := UpsertTurn(turns, turn);
    var i, j, a := TurnIndex(turns, other), TurnIndex(after, other), TurnIndex(turns, turn.id);
    if other == turn.id {
      assert after[a] == turn;
      assert j == a;
    } else if i < |turns| {
      assert after[i] == turns[i];
      assert j == i;
    } else {
      assert j == |after|;
    }
  }

  lemma OnlyDeltasWrite(n: Notification)
    ensures IsTurnEvent(n.kind) || IsItemEvent(n.kind) ==> WriteOf(n).None?
  {
  }

  lemma TurnEventSetsValue(turns: seq<Turn>, n: Notification, turnId: string, itemId: string, slot: Slot)
    requires IsTurnEvent(n.kind)
    ensures var reset := ResetTo(n, turnId, itemId, slot);
            Value(TurnsAfter(turns, n), turnId, itemId, slot) ==
            if reset.Some? then reset.value else Value(turns, turnId, itemId, slot)
  {
    NamesTellKinds(n);
    if n.turn.Some? {
      UpsertTurnFinds(turns, n.turn.value, turnId);
    }
  }

  lemma ItemEventSetsValue(turns: seq<Turn>, n: Notification, turnId: string, itemId: string, slot: Slot)
    requires IsItemEvent(n.kind)
    ensures var reset := ResetTo(n, turnId, itemId, slot);
            Value(TurnsAfter(turns, n), turnId, itemId, slot) ==
            if reset.Some? then reset.value else Value(turns, turnId, itemId, slot)
  {
    NamesTellKinds(n);
    if n.item.Some? {
      var id := StringField(n.params, "turnId");
      UpsertItemFinds(turns, id, n.item.value, turnId);
      MergeSetsValue(ItemsOf(turns, id), n.item.value, itemId, slot);
    }
  }

  /** One notification sets the slot or appends to it. */
  lemma TurnsAfterSetsValue(turns: seq<Turn>, n: Notification, turnId: string, itemId: string, slot: Slot)
    requires Streams(slot)
    ensures var reset := ResetTo(n, turnId, itemId, slot);
            Value(TurnsAfter(turns, n), turnId, itemId, slot) ==
            if reset.Some? then reset.value else Value(turns, turnId, itemId, slot) + Delta(n, turnId, itemId, slot)
  {
    OnlyDeltasWrite(n);
    WritesAppendTheDelta(n, turnId, itemId, slot);
    NamesTellKinds(n);
    if IsTurnEvent(n.kind) {
      TurnEventSetsValue(turns, n, turnId, itemId, slot);
    } else if IsItemEvent(n.kind) {
      ItemEventSetsValue(turns, n, turnId, itemId, slot);
    } else if WriteOf(n).Some? {
      WritesAreWellFormed(n);
      PatchSetsValue(turns, WriteOf(n).value, turnId, itemId, slot);
    }
  }

  lemma ApplySetsTurns(s: Session, n: Notification)
    ensures var after := Apply(s, n);
            && after.activeThreadId == s.activeThreadId
            && (after.activeThread.Some? <==> s.activeThread.Some?)
            && Turns(after) == if s.activeThread.Some? then TurnsAfter(Turns(s), n) else []
  {
    if SetsStatus(n) { StatusLeavesTurns(Turns(s), n); }
    assert Apply(s, n).activeThread == ThreadAfter(s.activeThread, n);
  }

  lemma StatusLeavesTurns(turns: seq<Turn>, n: Notification)
    requires n.kind.ThreadStatusChanged?
    ensures TurnsAfter(turns, n) == turns
  {
  }

  /** Notifications never change which thread is shown, and only those in scope touch its turns. */
  lemma HandleSetsTurns(s: Session, n: Notification)
    ensures var after := Handle(s, n);
            && after.activeThreadId == s.activeThreadId
            && (after.activeThread.Some? <==> s.activeThread.Some?)
            && Turns(after) == if s.activeThread.Some? && !ForAnotherThread(s.activeThreadId, n)
                then TurnsAfter(Turns(s), n) else Turns(s)
  {
    ScopeExactlyWhen(s.activeThreadId, n);
    ApplySetsTurns(AppendEvent(s, Received(n)), n);
  }

  // ---------- unique ids ----------

  lemma TurnsAfterKeepsDistinct(turns: seq<Turn>, n: Notification)
    requires Distinct(turns) && (n.turn.Some? ==> DistinctItems(n.turn.value.items))
    ensures Distinct(TurnsAfter(turns, n))
  {
    if IsTurnEvent(n.kind) {
      if n.turn.Some? {
        UpsertTurnKeepsDistinct(turns, n.turn.value);
      }
    } else if IsItemEvent(n.kind) {
      if n.item.Some? {
        UpsertItemKeepsDistinct(turns, StringField(n.params, "turnId"), n.item.value);
      }
    } else if WriteOf(n).Some? {
      PatchKeepsDistinct(turns, WriteOf(n).value);
    }
  }

  // ---------- other threads do not interfere ----------

  function Unlogged(s: Session): Session {
    s.(terminalEvents := [])
  }

  lemma ApplyIgnoresLog(s: Session, log: seq<LogEntry>, n: Notification)
    ensures Apply(s.(terminalEvents := log), n) == Apply(s, n).(terminalEvents := log)
  {
  }

  lemma HandleIgnoresLog(s: Session, t: Session, n: Notification)
    requires Unlogged(s) == Unlogged(t)
    ensures Unlogged(Handle(s, n)) == Unlogged(Handle(t, n))
    ensures Unlogged(Handle(s, n)) ==
            if ForAnotherThread(s.activeThreadId, n) then Unlogged(s) else Apply(Unlogged(s), n)
  {
    ScopeExactlyWhen(s.activeThreadId, n);
    assert s.activeThreadId == Unlogged(s).activeThreadId == t.activeThreadId;
    assert Unlogged(AppendEvent(s, Received(n))) == Unlogged(s) && Unlogged(AppendEvent(t, Received(n))) == Unlogged(t);
    ApplyIgnoresLog(AppendEvent(s, Received(n)), [], n);
    ApplyIgnoresLog(AppendEvent(t, Received(n)), [], n);
  }

  // ---------- logs ----------

  /** A method the reducer does not know, about an item or about the thread on display. */
  predicate Unrecognised(activeThreadId: Option<string>, n: Notification) {
    && n.kind.Other?
    && ("item/" <= Name(n.kind) || activeThreadId == Some(StringField(n.params, "threadId")))
  }

  lemma HandleLogs(s: Session, n: Notification)
    requires |s.unknownActivity| <= MAX_UNKNOWN
    ensures var after := Handle(s, n);
            && after.terminalEvents == Tail.Last(MAX_EVENTS, s.terminalEvents + [Received(n)])
            && after.unknownActivity ==
               if !ForAnotherThread(s.activeThreadId, n) && Unrecognised(s.activeThreadId, n)
                   then Tail.Last(MAX_UNKNOWN, s.unknownActivity + [Received(n)])
               else s.unknownActivity
  {
    ScopeExactlyWhen(s.activeThreadId, n);
  }

  lemma AppendThenMore<T>(max: nat, log: seq<T>, entry: seq<T>, more: seq<T>)
    ensures Tail.Last(max, Tail.Last(max, log + entry) + more) == Tail.Last(max, log + (entry + more))
  {
    Tail.LastAppend(max, log + entry, more);
    assert log + entry + more == log + (entry + more);
  }

  // ---------- shell output ----------

  /** An output delta of the shell's process. */
  predicate FromShell(processId: Option<string>, n: Notification) {
    Named(n, "command/exec/outputDelta") && processId == Some(StringField(n.params, "processId"))
  }

  lemma HandleShell(s: Session, n: Notification)
    ensures var after := Handle(s, n);
            && after.shellProcessId == s.shellProcessId
            && after.shellOutput ==
               if FromShell(s.shellProcessId, n)
               then ExecOutput(s.shellOutput, StringField(n.params, "deltaBase64")) else s.shellOutput
  {
    NamesTellKinds(n);
    ScopeExactlyWhen(s.activeThreadId, n);
    ScopedIsThePattern(n.kind);
  }

  function ShellText(output: string, deltas: seq<string>): string
    decreases |deltas|
  {
    if deltas == [] then output else ShellText(ExecOutput(output, deltas[0]), deltas[1..])
  }

  lemma Associative(a: string, b: string, c: string)
    ensures a + b + c == a + (b + c)
  {
  }

  lemma {:induction false} DeltasShowPieces(output: string, pieces: seq<seq<Byte>>)
    ensures ShellText(output, Base64.Encoded(pieces)) == output + Utf8Pieces.DecodedPieces(pieces)
    decreases |pieces|
  {
    if pieces != [] {
      FirstPieceShows(output, pieces);
      DeltasShowPieces(output + Utf8.Decode(pieces[0]), pieces[1..]);
      Associative(output, Utf8.Decode(pieces[0]), Utf8Pieces.DecodedPieces(pieces[1..]));
    }
  }

  lemma FirstPieceShows(output: string, pieces: seq<seq<Byte>>)
    requires pieces != []
    ensures ShellText(output, Base64.Encoded(pieces)) ==
            ShellText(output + Utf8.Decode(pieces[0]), Base64.Encoded(pieces[1..]))
  {
    Base64.AtobUndoesBtoa(pieces[0]);
    assert Base64.Encoded(pieces)[1..] == Base64.Encoded(pieces[1..]);
  }
}
