/** What each notification does, by its method name and its raw parameters. */
module SessionEffects {
  import opened Wrappers
  import opened Conversation
  import opened Session
  import opened SessionStreams
  import Base64
  import Tail
  import Utf8

  predicate Says(n: Notification, key: string, text: string) {
    key in n.params && n.params[key] == Str(text)
  }

  /** It is handled on the thread on display. */
  predicate OnDisplay(s: Session, n: Notification) {
    s.activeThread.Some? && !ForAnotherThread(s.activeThreadId, n)
  }

  // ---------- deltas ----------

  lemma PatchFinds(turns: seq<Turn>, w: Write, turnId: string, itemId: string)
    ensures var found := FindItem(turns, w.turnId, w.itemId);
            FindItem(Patch(turns, w), turnId, itemId) ==
            if (turnId, itemId) != (w.turnId, w.itemId) then FindItem(turns, turnId, itemId)
            else if found.Some? then Some(Changed(found.value, w.change))
            else if w.change.SetChanges? then None
            else Some(Changed(Placeholder(w.itemId, w.change), w.change))
  {
    var items := ItemsOf(turns, w.turnId);
    var found := FindIn(items, w.itemId);
    if w.change.SetChanges? && TurnIndex(turns, w.turnId) == |turns| {
    } else {
      PatchIsSetTurn(turns, w);
      SetTurnFinds(turns, w.turnId, PatchItems(items, w.itemId, w.change), turnId);
      if turnId == w.turnId && !(found.None? && w.change.SetChanges?) {
        var before := if found.Some? then found.value else Placeholder(w.itemId, w.change);
        MergeFinds(items, Changed(before, w.change), itemId);
      }
    }
  }

  lemma HandlePatches(s: Session, n: Notification)
    requires OnDisplay(s, n) && WriteOf(n).Some?
    ensures Turns(Handle(s, n)) == Patch(Turns(s), WriteOf(n).value)
  {
    HandleSetsTurns(s, n);
    OnlyDeltasWrite(n);
  }

  /** The method names of the four deltas of plain text, with the type of their items and the field. */
  predicate StreamsText(n: Notification, kind: string, field: string) {
    || (Named(n, "item/agentMessage/delta") && (kind, field) == ("agentMessage", "text"))
    || (Named(n, "item/plan/delta") && (kind, field) == ("plan", "text"))
    || (Named(n, "item/commandExecution/outputDelta") && (kind, field) == ("commandExecution", "aggregatedOutput"))
    || (Named(n, "item/fileChange/outputDelta") && (kind, field) == ("fileChange", "output"))
  }

  lemma StreamsTextWrites(n: Notification, kind: string, field: string, turnId: string, itemId: string, delta: string)
    requires StreamsText(n, kind, field)
    requires Says(n, "turnId", turnId) && Says(n, "itemId", itemId) && Says(n, "delta", delta)
    ensures WriteOf(n) == Some(Write(turnId, itemId, AppendText(kind, field, delta))) && field != TYPE
  {
    NamesTellDeltas(n);
    assert TYPE[0] == 't' && TYPE[1] == 'y' && TEXT[1] == 'e' && AGGREGATED_OUTPUT[0] == 'a' && OUTPUT[0] == 'o';
  }

  /** A text delta appends to one field of one item, and makes the item if there is none. */
  lemma TextDeltaChangesOneField(s: Session, n: Notification, kind: string, field: string, turnId: string,
      itemId: string, delta: string, atTurn: string, atItem: string)
    requires OnDisplay(s, n) && StreamsText(n, kind, field)
    requires Says(n, "turnId", turnId) && Says(n, "itemId", itemId) && Says(n, "delta", delta)
    ensures var found := FindItem(Turns(s), turnId, itemId);
            FindItem(Turns(Handle(s, n)), atTurn, atItem) ==
            if (atTurn, atItem) != (turnId, itemId) then FindItem(Turns(s), atTurn, atItem)
            else if found.Some?
            then Some(found.value.(fields := found.value.fields[field := Str(Read(found.value, Whole(field)) + delta)]))
            else Some(Item(Some(itemId), map["type" := Str(kind), field := Str(delta)]))
  {
    StreamsTextWrites(n, kind, field, turnId, itemId, delta);
    HandlePatches(s, n);
    PatchFinds(Turns(s), WriteOf(n).value, atTurn, atItem);
    FreshText(itemId, kind, field, delta);
  }

  lemma FreshText(itemId: string, kind: string, field: string, delta: string)
    requires field != TYPE
    ensures var change := AppendText(kind, field, delta);
            Changed(Placeholder(itemId, change), change) ==
            Item(Some(itemId), map["type" := Str(kind), field := Str(delta)])
  {
    assert "" + delta == delta;
    assert map[TYPE := Str(kind)][field := Str("")][field := Str(delta)] == map[TYPE := Str(kind), field := Str(delta)];
  }

  /** The same for the two deltas of reasoning, with the parameter that gives the index. */
  predicate StreamsReasoning(n: Notification, field: string, key: string) {
    || (Named(n, "item/reasoning/summaryTextDelta") && (field, key) == ("summary", "summaryIndex"))
    || (Named(n, "item/reasoning/textDelta") && (field, key) == ("content", "contentIndex"))
  }

  lemma StreamsReasoningWrites(n: Notification, field: string, key: string, turnId: string, itemId: string, k: nat,
      delta: string)
    requires StreamsReasoning(n, field, key) && k <= MAX_ARRAY_INDEX
    requires Says(n, "turnId", turnId) && Says(n, "itemId", itemId) && Says(n, "delta", delta)
    requires key in n.params && n.params[key] == Num(k as real)
    ensures WriteOf(n) == Some(Write(turnId, itemId, AppendIndexed(field, Some(k), delta)))
  {
    NamesTellDeltas(n);
    IndexFromNumberOrText(n.params, key, k);
  }

  /** An array with one string element changed, extended by holes up to it if it was shorter. */
  function Filled(values: seq<Json>, k: nat, text: string): seq<Json> {
    if k < |values| then values[..k] + [Str(text)] + values[k + 1..]
    else values + seq(k - |values|, _ => Undefined) + [Str(text)]
  }

  lemma AppendAtFills(values: seq<Json>, k: nat, delta: string)
    ensures AppendAt(values, Some(k), delta) ==
            Filled(values, k, (if k < |values| then StringOf(values[k]) else "") + delta)
  {
  }

  /** A reasoning delta appends to one element of one array of one item, and makes the item if there is none. */
  lemma ReasoningDeltaChangesOneElement(s: Session, n: Notification, field: string, key: string, turnId: string,
      itemId: string, k: nat, delta: string, atTurn: string, atItem: string)
    requires OnDisplay(s, n) && StreamsReasoning(n, field, key) && k <= MAX_ARRAY_INDEX
    requires Says(n, "turnId", turnId) && Says(n, "itemId", itemId) && Says(n, "delta", delta)
    requires key in n.params && n.params[key] == Num(k as real)
    ensures var found := FindItem(Turns(s), turnId, itemId);
            FindItem(Turns(Handle(s, n)), atTurn, atItem) ==
            if (atTurn, atItem) != (turnId, itemId) then FindItem(Turns(s), atTurn, atItem)
            else if found.Some?
            then Some(found.value.(fields := found.value.fields[
                field := Arr(Filled(ElementsOf(FieldOf(found.value, field)), k,
                                    Read(found.value, Element(field, k)) + delta))]))
            else Some(Item(Some(itemId), map["type" := Str("reasoning"), "summary" := Arr([]), "content" := Arr([])][
                field := Arr(Filled([], k, delta))]))
  {
    StreamsReasoningWrites(n, field, key, turnId, itemId, k, delta);
    HandlePatches(s, n);
    PatchFinds(Turns(s), WriteOf(n).value, atTurn, atItem);
    var found := FindItem(Turns(s), turnId, itemId);
    if found.Some? {
      AppendAtFills(ElementsOf(FieldOf(found.value, field)), k, delta);
    } else {
      FreshReasoning(itemId, field, k, delta);
    }
  }

  lemma FreshReasoning(itemId: string, field: string, k: nat, delta: string)
    requires field == SUMMARY || field == CONTENT
    ensures var change := AppendIndexed(field, Some(k), delta);
            Changed(Placeholder(itemId, change), change) ==
            Item(Some(itemId), map["type" := Str("reasoning"), "summary" := Arr([]), "content" := Arr([])][
                field := Arr(Filled([], k, delta))])
  {
    var item := Placeholder(itemId, AppendIndexed(field, Some(k), delta));
    DistinctFieldNames();
    assert "" + delta == delta;
    AppendAtFills([], k, delta);
    assert FieldOf(item, field) == Arr([]);
  }

  /** A patch update replaces the file changes of an item that exists and does nothing else. */
  lemma PatchUpdateReplacesTheChanges(s: Session, n: Notification, turnId: string, itemId: string,
      atTurn: string, atItem: string)
    requires OnDisplay(s, n) && Named(n, "item/fileChange/patchUpdated")
    requires Says(n, "turnId", turnId) && Says(n, "itemId", itemId)
    ensures var found := FindItem(Turns(s), atTurn, atItem);
            FindItem(Turns(Handle(s, n)), atTurn, atItem) ==
            if found.Some? && (atTurn, atItem) == (turnId, itemId) && "changes" in n.params && n.params["changes"].Arr?
            then Some(found.value.(fields := found.value.fields["changes" := n.params["changes"]]))
            else found
  {
    NamesTellDeltas(n);
    HandleSetsTurns(s, n);
    OnlyDeltasWrite(n);
    if WriteOf(n).Some? {
      PatchFinds(Turns(s), WriteOf(n).value, atTurn, atItem);
    }
  }

  // ---------- payloads ----------

  /** A lifecycle payload is what its item then is. */
  lemma LifecycleSetsTheItem(s: Session, n: Notification, turnId: string, atTurn: string, atItem: string)
    requires OnDisplay(s, n) && (Named(n, "item/started") || Named(n, "item/completed"))
    requires Says(n, "turnId", turnId)
    ensures FindItem(Turns(Handle(s, n)), atTurn, atItem) ==
            if n.item.Some? && atTurn == turnId && n.item.value.id == Some(atItem) then n.item
            else FindItem(Turns(s), atTurn, atItem)
  {
    NamesTellKinds(n);
    HandleSetsTurns(s, n);
    if n.item.Some? {
      UpsertItemFinds(Turns(s), turnId, n.item.value, atTurn);
      MergeFinds(ItemsOf(Turns(s), turnId), n.item.value, atItem);
    }
  }

  /** A turn payload is what its turn then holds. */
  lemma TurnPayloadSetsTheTurn(s: Session, n: Notification, atTurn: string)
    requires OnDisplay(s, n) && (Named(n, "turn/started") || Named(n, "turn/completed"))
    ensures ItemsOf(Turns(Handle(s, n)), atTurn) ==
            if n.turn.Some? && n.turn.value.id == atTurn then n.turn.value.items else ItemsOf(Turns(s), atTurn)
  {
    NamesTellKinds(n);
    HandleSetsTurns(s, n);
    if n.turn.Some? { UpsertTurnFinds(Turns(s), n.turn.value, atTurn); }
  }

  // ---------- thread status, diffs and plans ----------

  /** A status is set on the threads with the given id, listed or on display, and on no other. */
  lemma StatusGoesToItsThread(s: Session, n: Notification, threadId: string)
    requires Named(n, "thread/status/changed") && Says(n, "threadId", threadId)
    ensures var after := Handle(s, n);
            && |after.threads| == |s.threads|
            && (forall k :: 0 <= k < |s.threads| ==>
                  after.threads[k] ==
                  if s.threads[k].id == threadId && "status" in n.params && n.params["status"].Obj?
                  then s.threads[k].(status := n.params["status"]) else s.threads[k])
            && after.activeThread ==
               if s.activeThread.Some? && s.activeThread.value.id == threadId
                  && "status" in n.params && n.params["status"].Obj?
               then Some(s.activeThread.value.(status := n.params["status"])) else s.activeThread
  {
    NamesTellKinds(n);
    ScopeExactlyWhen(s.activeThreadId, n);
    ScopedIsThePattern(n.kind);
    if s.activeThread.Some? { StatusLeavesTurns(Turns(s), n); }
  }

  /** A plan is stored under its turn: the explanation if it is a string, and the steps that are records. */
  lemma PlanIsStored(s: Session, n: Notification, turnId: string, atTurn: string)
    requires Named(n, "turn/plan/updated") && Says(n, "turnId", turnId)
    ensures var after := Handle(s, n).turnPlans;
            if ForAnotherThread(s.activeThreadId, n) then after == s.turnPlans
            else
              && after.Keys == s.turnPlans.Keys + {turnId}
              && (atTurn in s.turnPlans && atTurn != turnId ==> after[atTurn] == s.turnPlans[atTurn])
              && (forall text :: after[turnId].explanation == Some(text) <==> Says(n, "explanation", text))
              && after[turnId].steps == if "plan" in n.params && n.params["plan"].Arr?
                                        then Records(n.params["plan"].elements) else []
  {
    NamesTellKinds(n);
    ScopeExactlyWhen(s.activeThreadId, n);
  }

  lemma RecordsOfFirst(first: Json, rest: seq<Json>)
    ensures Records([first] + rest) == (if first.Obj? then [first] else []) + Records(rest)
  {
    assert ([first] + rest)[1..] == rest;
  }

  lemma Grouped(a: seq<Json>, b: seq<Json>, c: seq<Json>)
    ensures (a + b) + c == a + (b + c)
  {
  }

  /** The steps that are kept are the records, in their order. */
  lemma {:induction false} RecordsOfMore(elements: seq<Json>, last: Json)
    ensures Records(elements + [last]) == Records(elements) + if last.Obj? then [last] else []
    decreases |elements|
  {
    if elements == [] {
      RecordsOfFirst(last, []);
      assert [] + [last] == [last] + [];
    } else {
      var first, rest := elements[0], elements[1..];
      assert elements == [first] + rest;
      Grouped([first], rest, [last]);
      RecordsOfFirst(first, rest);
      RecordsOfFirst(first, rest + [last]);
      RecordsOfMore(rest, last);
      Grouped(if first.Obj? then [first] else [], Records(rest), if last.Obj? then [last] else []);
    }
  }

  /** An output delta of the shell's process shows its text, or that it cannot be read. */
  lemma ShellShowsOrSaysSo(s: Session, n: Notification, processId: string, delta: string)
    requires Named(n, "command/exec/outputDelta") && Says(n, "processId", processId) && Says(n, "deltaBase64", delta)
    ensures Handle(s, n).shellOutput ==
            if s.shellProcessId != Some(processId) then s.shellOutput
            else if Base64.Atob(delta).Some? then s.shellOutput + Utf8.Decode(Base64.Atob(delta).value)
            else s.shellOutput + "[无法解码的输出]"
  {
    HandleShell(s, n);
  }

  // ---------- what stays ----------

  /** Each field changes only with the methods that are about it. */
  lemma OthersLeaveItAlone(s: Session, n: Notification)
    ensures var after := Handle(s, n);
            && after.activeThreadId == s.activeThreadId && after.shellProcessId == s.shellProcessId
            && (after.generation, after.loading, after.calls, after.written)
               == (s.generation, s.loading, s.calls, s.written)
            && (after.activeTurnId != s.activeTurnId ==> Named(n, "turn/started") || Named(n, "turn/completed"))
            && (after.threads != s.threads ==> Named(n, "thread/started") || Named(n, "thread/status/changed"))
            && (after.turnDiffs != s.turnDiffs ==> Named(n, "turn/diff/updated"))
            && (after.turnPlans != s.turnPlans ==> Named(n, "turn/plan/updated"))
            && (after.pendingRequests != s.pendingRequests ==> Named(n, "serverRequest/resolved"))
            && (after.shellOutput != s.shellOutput ==> Named(n, "command/exec/outputDelta"))
            && (after.unknownActivity != s.unknownActivity ==> n.kind.Other?)
  {
    NamesTellKinds(n);
  }
}
