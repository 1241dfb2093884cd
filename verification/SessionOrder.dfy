/** The order of turns, items and threads: what is new comes last in a conversation and first in the thread list, and
    nothing that is there moves. */
module SessionOrder {
  import opened Wrappers
  import opened Conversation
  import opened Session
  import opened SessionStreams
  import opened SessionEffects
  import opened ThreadSwitch
  import StoreRuns

  function TurnIds(turns: seq<Turn>): seq<string> {
    seq(|turns|, i requires 0 <= i < |turns| => turns[i].id)
  }

  function ItemIds(items: seq<Item>): seq<Option<string>> {
    seq(|items|, i requires 0 <= i < |items| => items[i].id)
  }

  function ThreadIds(threads: seq<Thread>): seq<string> {
    seq(|threads|, i requires 0 <= i < |threads| => threads[i].id)
  }

  function Last<T(==)>(ids: seq<T>, id: T): seq<T> {
    if id in ids then ids else ids + [id]
  }

  function First<T(==)>(ids: seq<T>, id: T): seq<T> {
    if id in ids then ids else [id] + ids
  }

  function StatusIn(turns: seq<Turn>, turnId: string): Option<string> {
    var i := TurnIndex(turns, turnId);
    if i < |turns| then Some(turns[i].status) else None
  }

  lemma InTurnIds(turns: seq<Turn>, id: string)
    ensures id in TurnIds(turns) <==> TurnIndex(turns, id) < |turns|
  {
    var i := TurnIndex(turns, id);
    if i < |turns| { assert TurnIds(turns)[i] == id; }
  }

  lemma InItemIds(items: seq<Item>, id: Option<string>)
    ensures id in ItemIds(items) <==> ItemIndex(items, id) < |items|
  {
    var i := ItemIndex(items, id);
    if i < |items| { assert ItemIds(items)[i] == id; }
  }

  lemma UpsertTurnOrder(turns: seq<Turn>, turn: Turn, other: string)
    ensures TurnIds(UpsertTurn(turns, turn)) == Last(TurnIds(turns), turn.id)
    ensures StatusIn(UpsertTurn(turns, turn), other) == if other == turn.id then Some(turn.status)
        else StatusIn(turns, other)
  {
    InTurnIds(turns, turn.id);
    var after := UpsertTurn(turns, turn);
    var i, j, a := TurnIndex(turns, other), TurnIndex(after, other), TurnIndex(turns, turn.id);
    if other == turn.id {
      assert after[a] == turn && j == a;
    } else if i < |turns| {
      assert after[i] == turns[i] && j == i;
    } else {
      assert j == |after|;
    }
  }

  lemma SetTurnOrder(turns: seq<Turn>, turnId: string, items: seq<Item>, other: string)
    ensures TurnIds(SetTurn(turns, turnId, items)) == Last(TurnIds(turns), turnId)
    ensures StatusIn(SetTurn(turns, turnId, items), other) ==
            if other == turnId && StatusIn(turns, turnId).None? then Some("inProgress") else StatusIn(turns, other)
  {
    InTurnIds(turns, turnId);
    SetTurnFinds(turns, turnId, items, other);
  }

  lemma MergeOrder(items: seq<Item>, item: Item)
    ensures ItemIds(MergeItem(items, item)) == Last(ItemIds(items), item.id)
  {
    InItemIds(items, item.id);
  }

  // ---------- one notification ----------

  /** The item that a notification writes, and the turn it is in: a lifecycle payload, or the target of a delta. */
  function ItemWritten(n: Notification): Option<(string, Option<string>)> {
    var turnId := StringField(n.params, "turnId");
    if Named(n, "item/started") || Named(n, "item/completed") then
      if n.item.Some? then Some((turnId, n.item.value.id)) else None
    else if Named(n, "item/agentMessage/delta") || Named(n, "item/plan/delta")
            || Named(n, "item/reasoning/summaryTextDelta") || Named(n, "item/reasoning/textDelta")
            || Named(n, "item/commandExecution/outputDelta") || Named(n, "item/fileChange/outputDelta")
    then Some((turnId, Some(StringField(n.params, "itemId"))))
    else None
  }

  function TurnWritten(n: Notification): Option<Turn> {
    if Named(n, "turn/started") || Named(n, "turn/completed") then n.turn else None
  }

  lemma ItemsAreSetIn(turns: seq<Turn>, n: Notification) returns (item: Item)
    requires ItemWritten(n).Some?
    ensures var (turnId, itemId) := ItemWritten(n).value;
            && item.id == itemId
            && TurnsAfter(turns, n) == SetTurn(turns, turnId, MergeItem(ItemsOf(turns, turnId), item))
  {
    NamesTellKinds(n);
    NamesTellDeltas(n);
    if IsItemEvent(n.kind) {
      item := n.item.value;
    } else {
      var w := WriteOf(n).value;
      PatchIsSetTurn(turns, w);
      var found := FindItem(turns, w.turnId, w.itemId);
      item := Changed(if found.Some? then found.value else Placeholder(w.itemId, w.change), w.change);
    }
  }

  /** A patch update, the only other write, adds nothing. */
  lemma OthersKeepOrder(turns: seq<Turn>, n: Notification, atTurn: string)
    requires ItemWritten(n).None? && TurnWritten(n).None?
    ensures var after := TurnsAfter(turns, n);
            && TurnIds(after) == TurnIds(turns) && StatusIn(after, atTurn) == StatusIn(turns, atTurn)
            && ItemIds(ItemsOf(after, atTurn)) == ItemIds(ItemsOf(turns, atTurn))
  {
    NamesTellKinds(n);
    NamesTellDeltas(n);
    if WriteOf(n).Some? && TurnIndex(turns, WriteOf(n).value.turnId) < |turns| {
      var w := WriteOf(n).value;
      PatchIsSetTurn(turns, w);
      var items := PatchItems(ItemsOf(turns, w.turnId), w.itemId, w.change);
      SetTurnOrder(turns, w.turnId, items, atTurn);
      SetTurnFinds(turns, w.turnId, items, atTurn);
      InTurnIds(turns, w.turnId);
      PatchKeepsItemOrder(ItemsOf(turns, w.turnId), w.itemId, w.change);
    }
  }

  lemma PatchKeepsItemOrder(items: seq<Item>, itemId: string, change: Change)
    requires change.SetChanges?
    ensures ItemIds(PatchItems(items, itemId, change)) == ItemIds(items)
  {
    var found := FindIn(items, itemId);
    if found.Some? {
      MergeOrder(items, Changed(found.value, change));
      InItemIds(items, Some(itemId));
    }
  }

  /** A notification on display adds its turn and its item last if they are new, moves nothing, and gives a turn the
      status of its payload, or `inProgress` if only an item brought it in. */
  lemma NotificationsAppend(s: Session, n: Notification, atTurn: string)
    requires OnDisplay(s, n)
    ensures var (before, after) := (Turns(s), Turns(Handle(s, n)));
            if TurnWritten(n).Some? then
              var turn := TurnWritten(n).value;
              && TurnIds(after) == Last(TurnIds(before), turn.id)
              && StatusIn(after, atTurn) == (if atTurn == turn.id then Some(turn.status) else StatusIn(before, atTurn))
              && ItemIds(ItemsOf(after, atTurn))
                 == ItemIds(if atTurn == turn.id then turn.items else ItemsOf(before, atTurn))
            else if ItemWritten(n).Some? then
              var (turnId, itemId) := ItemWritten(n).value;
              && TurnIds(after) == Last(TurnIds(before), turnId)
              && StatusIn(after, atTurn) == (if atTurn == turnId && StatusIn(before, turnId).None?
                                             then Some("inProgress") else StatusIn(before, atTurn))
              && ItemIds(ItemsOf(after, atTurn))
                 == (if atTurn == turnId then Last(ItemIds(ItemsOf(before, turnId)), itemId)
                     else ItemIds(ItemsOf(before, atTurn)))
            else
              && TurnIds(after) == TurnIds(before) && StatusIn(after, atTurn) == StatusIn(before, atTurn)
              && ItemIds(ItemsOf(after, atTurn)) == ItemIds(ItemsOf(before, atTurn))
  {
    HandleSetsTurns(s, n);
    if TurnWritten(n).Some? {
      NamesTellKinds(n);
      UpsertTurnOrder(Turns(s), n.turn.value, atTurn);
      UpsertTurnFinds(Turns(s), n.turn.value, atTurn);
    } else if ItemWritten(n).Some? {
      var turnId := ItemWritten(n).value.0;
      var item := ItemsAreSetIn(Turns(s), n);
      var items := MergeItem(ItemsOf(Turns(s), turnId), item);
      SetTurnOrder(Turns(s), turnId, items, atTurn);
      SetTurnFinds(Turns(s), turnId, items, atTurn);
      MergeOrder(ItemsOf(Turns(s), turnId), item);
    } else {
      OthersKeepOrder(Turns(s), n, atTurn);
    }
  }

  // ---------- whole runs ----------

  lemma StepAppendsTurns(s: Session, e: Event)
    requires Enabled(s, e) && StoreRuns.Displayed(s, e).None?
    ensures TurnIds(Turns(s)) <= TurnIds(Turns(Step(s, e)))
  {
    if e.Notified? {
      if OnDisplay(s, e.notification) {
        NotificationsAppend(s, e.notification, "");
      } else {
        HandleSetsTurns(s, e.notification);
      }
    } else {
      StoreRuns.StepSetsTurns(s, e);
      if e.TurnAccepted? { UpsertTurnOrder(Turns(s), e.turn, ""); }
    }
  }

  predicate SameDisplay(s: Session, es: seq<Event>)
    requires IsRun(s, es)
    decreases |es|
  {
    es == [] || (StoreRuns.Displayed(s, es[0]).None? && SameDisplay(Step(s, es[0]), es[1..]))
  }

  /** As long as no other thread is put on display, the turns that are there stay where they are and new ones follow. */
  lemma {:induction false} TurnsOnlyGrow(s: Session, es: seq<Event>)
    requires IsRun(s, es) && SameDisplay(s, es)
    ensures TurnIds(Turns(s)) <= TurnIds(Turns(Run(s, es)))
    decreases |es|
  {
    if es != [] {
      StepAppendsTurns(s, es[0]);
      TurnsOnlyGrow(Step(s, es[0]), es[1..]);
    }
  }

  // ---------- the list of threads ----------

  function FindThread(threads: seq<Thread>, id: string): Option<Thread> {
    var i := ThreadIndex(threads, id);
    if i < |threads| then Some(threads[i]) else None
  }

  lemma InThreadIds(threads: seq<Thread>, id: string)
    ensures id in ThreadIds(threads) <==> ThreadIndex(threads, id) < |threads|
  {
    var i := ThreadIndex(threads, id);
    if i < |threads| { assert ThreadIds(threads)[i] == id; }
  }

  lemma UpsertThreadOrder(threads: seq<Thread>, thread: Thread, id: string)
    ensures ThreadIds(UpsertThread(threads, thread)) == First(ThreadIds(threads), thread.id)
    ensures FindThread(UpsertThread(threads, thread), id) == if id == thread.id then Some(thread)
        else FindThread(threads, id)
  {
    InThreadIds(threads, thread.id);
    var after := UpsertThread(threads, thread);
    var i, j, a := ThreadIndex(threads, id), ThreadIndex(after, id), ThreadIndex(threads, thread.id);
    if id == thread.id {
      assert after[if a < |threads| then a else 0] == thread;
    } else if a < |threads| {
      if i < |threads| { assert after[i] == threads[i] && j == i; } else { assert j == |after|; }
    } else {
      if i < |threads| { assert after[i + 1] == threads[i] && j == i + 1; } else { assert j == |after|; }
    }
  }

  /** The thread that an event lists: the payload of `thread/started`, or the answer to the newest `startThread`. */
  function ThreadListed(s: Session, e: Event): Option<Thread> {
    if e.Notified? && Named(e.notification, "thread/started") then e.notification.thread
    else if e.StartReturned? && e.g == s.generation then e.started
    else None
  }

  /** A thread that is listed is found as it was given, first if it is new; the others stay in their order. */
  lemma StepListsThread(s: Session, e: Event, id: string)
    requires Enabled(s, e) && ThreadListed(s, e).Some?
    ensures var thread := ThreadListed(s, e).value;
            && ThreadIds(Step(s, e).threads) == First(ThreadIds(s.threads), thread.id)
            && FindThread(Step(s, e).threads, id) == if id == thread.id then Some(thread) else FindThread(s.threads, id)
  {
    var thread := ThreadListed(s, e).value;
    UpsertThreadOrder(s.threads, thread, id);
    if e.Notified? {
      NamesTellKinds(e.notification);
      ScopeExactlyWhen(s.activeThreadId, e.notification);
      ScopedIsThePattern(e.notification.kind);
    }
  }

  lemma OthersListNothing(s: Session, e: Event)
    requires Enabled(s, e) && ThreadListed(s, e).None? && !e.ThreadsListed?
    ensures ThreadIds(Step(s, e).threads) == ThreadIds(s.threads)
  {
    if e.Notified? {
      NamesTellKinds(e.notification);
      var n := e.notification;
      assert Step(s, e).threads == s.threads || (SetsStatus(n)
          && Step(s, e).threads == SetStatuses(s.threads, StringField(n.params, "threadId"), n.params["status"]));
    }
  }

  lemma MoreInFront(newer: seq<string>, id: string, ids: seq<string>)
    ensures newer + First(ids, id) == (if id in ids then newer else newer + [id]) + ids
  {
  }

  predicate NoListing(es: seq<Event>) {
    forall e :: e in es ==> !e.ThreadsListed?
  }

  /** Between two listings the threads that are listed stay in their order and new ones come in front. */
  lemma {:induction false} NewThreadsComeFirst(s: Session, es: seq<Event>)
    requires IsRun(s, es) && NoListing(es)
    ensures exists newer :: ThreadIds(Run(s, es).threads) == newer + ThreadIds(s.threads)
    decreases |es|
  {
    if es == [] {
      assert ThreadIds(Run(s, es).threads) == [] + ThreadIds(s.threads);
    } else {
      var after := Step(s, es[0]);
      NewThreadsComeFirst(after, es[1..]);
      var newer :| ThreadIds(Run(after, es[1..]).threads) == newer + ThreadIds(after.threads);
      if ThreadListed(s, es[0]).Some? {
        StepListsThread(s, es[0], "");
        MoreInFront(newer, ThreadListed(s, es[0]).value.id, ThreadIds(s.threads));
      } else {
        OthersListNothing(s, es[0]);
      }
    }
  }

  /** A listing replaces the whole list: until the next one it is what was listed, with newer threads in front. */
  lemma ListingsReplaceTheList(s: Session, listed: seq<Thread>, es: seq<Event>)
    requires IsRun(Step(s, ThreadsListed(listed)), es) && NoListing(es)
    ensures exists newer :: ThreadIds(Run(Step(s, ThreadsListed(listed)), es).threads) == newer + ThreadIds(listed)
  {
    NewThreadsComeFirst(Step(s, ThreadsListed(listed)), es);
  }
}
