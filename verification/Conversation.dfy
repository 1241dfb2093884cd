/** The turns and items of the active thread, and the writes that notifications make to them. */
module Conversation {
  import opened Wrappers

  /** A JSON value; `Undefined` is what reading a hole of a JavaScript array gives. */
  datatype Json =
    | Undefined | Null | Bool(b: bool) | Num(value: real) | Str(s: string)
    | Arr(elements: seq<Json>) | Obj(fields: map<string, Json>)

  /** A thread item: its id, if it has a string one, and its other fields. */
  datatype Item = Item(id: Option<string>, fields: map<string, Json>)

  datatype Turn = Turn(id: string, items: seq<Item>, status: string)

  const SUMMARY := "summary"
  const CONTENT := "content"
  const CHANGES := "changes"
  const TYPE := "type"
  const TEXT := "text"
  const AGGREGATED_OUTPUT := "aggregatedOutput"
  const OUTPUT := "output"

  /** The index of the first turn with this id, or the number of turns. */
  function TurnIndex(turns: seq<Turn>, id: string): (i: nat)
    ensures i <= |turns|
    ensures i < |turns| ==> turns[i].id == id
    ensures forall k :: 0 <= k < i ==> turns[k].id != id
  {
    if turns == [] || turns[0].id == id then 0 else 1 + TurnIndex(turns[1..], id)
  }

  function ItemIndex(items: seq<Item>, id: Option<string>): (i: nat)
    ensures i <= |items|
    ensures i < |items| ==> items[i].id == id
    ensures forall k :: 0 <= k < i ==> items[k].id != id
  {
    if items == [] || items[0].id == id then 0 else 1 + ItemIndex(items[1..], id)
  }

  function UpsertTurn(turns: seq<Turn>, turn: Turn): seq<Turn> {
    var i := TurnIndex(turns, turn.id);
    if i < |turns| then turns[i := turn] else turns + [turn]
  }

  /** `mergeLifecycleItem` */
  function MergeItem(items: seq<Item>, item: Item): seq<Item> {
    var i := ItemIndex(items, item.id);
    if i < |items| then items[i := item] else items + [item]
  }

  const IN_PROGRESS := "inProgress"

  function UpsertItem(turns: seq<Turn>, turnId: string, item: Item): seq<Turn> {
    var i := TurnIndex(turns, turnId);
    if i < |turns| then turns[i := turns[i].(items := MergeItem(turns[i].items, item))]
    else turns + [Turn(turnId, MergeItem([], item), IN_PROGRESS)]
  }

  function ItemsOf(turns: seq<Turn>, turnId: string): seq<Item> {
    var i := TurnIndex(turns, turnId);
    if i < |turns| then turns[i].items else []
  }

  function FindIn(items: seq<Item>, itemId: string): Option<Item> {
    var i := ItemIndex(items, Some(itemId));
    if i < |items| then Some(items[i]) else None
  }

  function FindItem(turns: seq<Turn>, turnId: string, itemId: string): Option<Item> {
    FindIn(ItemsOf(turns, turnId), itemId)
  }

  // ---------- writes ----------

  /** What a delta does to an item: append to a string field, append to one string of an array field, or
      replace the file changes. `None` stands for an index that is not an array index. */
  datatype Change =
    | AppendText(kind: string, field: string, text: string)
    | AppendIndexed(field: string, index: Option<nat>, text: string)
    | SetChanges(changes: Json)

  datatype Write = Write(turnId: string, itemId: string, change: Change)

  function StringOf(j: Json): string {
    if j.Str? then j.s else ""
  }

  function FieldOf(item: Item, field: string): Json {
    if field in item.fields then item.fields[field] else Undefined
  }

  function ElementsOf(j: Json): seq<Json> {
    if j.Arr? then j.elements else []
  }

  function Pad(values: seq<Json>, length: nat): (r: seq<Json>)
    ensures |r| == if |values| < length then length else |values|
    ensures forall k :: 0 <= k < |r| ==> r[k] == if k < |values| then values[k] else Undefined
  {
    values + if |values| < length then seq(length - |values|, _ => Undefined) else []
  }

  /** `values[index] = ...` on a copy of the array. */
  function AppendAt(values: seq<Json>, index: Option<nat>, text: string): seq<Json> {
    if index.None? then values
    else
      var padded := Pad(values, index.value + 1);
      padded[index.value := Str(StringOf(padded[index.value]) + text)]
  }

  /** The placeholder that a delta for an unknown item creates. */
  function Placeholder(itemId: string, change: Change): Item {
    match change
    case AppendText(kind, field, _) => Item(Some(itemId), map[TYPE := Str(kind)][field := Str("")])
    case _ => Item(Some(itemId), map[TYPE := Str("reasoning"), SUMMARY := Arr([]), CONTENT := Arr([])])
  }

  function Changed(item: Item, change: Change): Item {
    match change
    case AppendText(_, field, text) => item.(fields := item.fields[field := Str(StringOf(FieldOf(item, field)) + text)])
    case AppendIndexed(field, index, text) =>
      item.(fields := item.fields[field := Arr(AppendAt(ElementsOf(FieldOf(item, field)), index, text))])
    case SetChanges(changes) => item.(fields := item.fields[CHANGES := changes])
  }

  /** A write to the items of its turn. Replacing the file changes of an unknown item does nothing. */
  function PatchItems(items: seq<Item>, itemId: string, change: Change): seq<Item> {
    var found := FindIn(items, itemId);
    if found.None? && change.SetChanges? then items
    else MergeItem(items, Changed(if found.Some? then found.value else Placeholder(itemId, change), change))
  }

  function Patch(turns: seq<Turn>, w: Write): seq<Turn> {
    var i := TurnIndex(turns, w.turnId);
    if i < |turns| then turns[i := turns[i].(items := PatchItems(turns[i].items, w.itemId, w.change))]
    else if w.change.SetChanges? then turns
    else turns + [Turn(w.turnId, PatchItems([], w.itemId, w.change), IN_PROGRESS)]
  }

  // ---------- unique ids ----------

  ghost predicate DistinctItems(items: seq<Item>) {
    forall j, k :: 0 <= j < k < |items| ==> items[j].id != items[k].id
  }

  ghost predicate Distinct(turns: seq<Turn>) {
    && (forall j, k :: 0 <= j < k < |turns| ==> turns[j].id != turns[k].id)
    && (forall j :: 0 <= j < |turns| ==> DistinctItems(turns[j].items))
  }

  lemma UpsertTurnKeepsDistinct(turns: seq<Turn>, turn: Turn)
    requires Distinct(turns) && DistinctItems(turn.items)
    ensures Distinct(UpsertTurn(turns, turn))
  {
  }

  lemma MergeKeepsDistinct(items: seq<Item>, item: Item)
    requires DistinctItems(items)
    ensures DistinctItems(MergeItem(items, item))
  {
  }

  lemma UpsertItemKeepsDistinct(turns: seq<Turn>, turnId: string, item: Item)
    requires Distinct(turns)
    ensures Distinct(UpsertItem(turns, turnId, item))
  {
    MergeKeepsDistinct(ItemsOf(turns, turnId), item);
  }

  lemma PatchKeepsDistinct(turns: seq<Turn>, w: Write)
    requires Distinct(turns)
    ensures Distinct(Patch(turns, w))
  {
    var items := ItemsOf(turns, w.turnId);
    var found := FindIn(items, w.itemId);
    MergeKeepsDistinct(items, Changed(if found.Some? then found.value else Placeholder(w.itemId, w.change), w.change));
  }

  // ---------- what a slot of an item says ----------

  /** A streamed string: a text field, or one element of an array field. */
  datatype Slot = Whole(field: string) | Element(field: string, index: nat)

  /** The slots that deltas write. */
  predicate Streams(slot: Slot) {
    match slot
    case Whole(field) => field != SUMMARY && field != CONTENT && field != CHANGES && field != TYPE
    case Element(field, _) => field == SUMMARY || field == CONTENT
  }

  predicate WellFormedChange(change: Change) {
    match change
    case AppendText(_, field, _) => field != SUMMARY && field != CONTENT && field != CHANGES && field != TYPE
    case AppendIndexed(field, _, _) => field == SUMMARY || field == CONTENT
    case SetChanges(_) => true
  }

  function Read(item: Item, slot: Slot): string {
    match slot
    case Whole(field) => StringOf(FieldOf(item, field))
    case Element(field, index) =>
      var values := ElementsOf(FieldOf(item, field));
      if index < |values| then StringOf(values[index]) else ""
  }

  function ValueIn(items: seq<Item>, itemId: string, slot: Slot): string {
    var found := FindIn(items, itemId);
    if found.Some? then Read(found.value, slot) else ""
  }

  function Value(turns: seq<Turn>, turnId: string, itemId: string, slot: Slot): string {
    ValueIn(ItemsOf(turns, turnId), itemId, slot)
  }

  /** What a change appends to a slot. */
  function Piece(change: Change, slot: Slot): string {
    match (change, slot)
    case (AppendText(_, field, text), Whole(f)) => if field == f then text else ""
    case (AppendIndexed(field, Some(k), text), Element(f, i)) => if field == f && k == i then text else ""
    case _ => ""
  }

  lemma ChangeAppendsPiece(item: Item, change: Change, slot: Slot)
    requires WellFormedChange(change) && Streams(slot)
    ensures Read(Changed(item, change), slot) == Read(item, slot) + Piece(change, slot)
  {
    DistinctFieldNames();
    if change.AppendIndexed? && slot.Element? {
      AppendAtReads(ElementsOf(FieldOf(item, change.field)), change.index, change.text, slot.index);
    }
  }

  lemma AppendAtReads(values: seq<Json>, index: Option<nat>, text: string, k: nat)
    ensures var after := AppendAt(values, index, text);
            (if k < |after| then StringOf(after[k]) else "") ==
            (if k < |values| then StringOf(values[k]) else "") + if index == Some(k) then text else ""
  {
  }

  lemma DistinctFieldNames()
    ensures SUMMARY != CONTENT && SUMMARY != CHANGES && CONTENT != CHANGES
  {
    assert SUMMARY[0] == 's' && CONTENT[1] == 'o' && CHANGES[1] == 'h';
  }

  lemma PlaceholderIsEmpty(itemId: string, change: Change, slot: Slot)
    requires WellFormedChange(change) && Streams(slot)
    ensures Read(Placeholder(itemId, change), slot) == ""
  {
    DistinctFieldNames();
  }

  lemma MergeSetsValue(items: seq<Item>, item: Item, itemId: string, slot: Slot)
    ensures ValueIn(MergeItem(items, item), itemId, slot) ==
            if item.id == Some(itemId) then Read(item, slot) else ValueIn(items, itemId, slot)
  {
    MergeFinds(items, item, itemId);
  }

  lemma MergeFinds(items: seq<Item>, item: Item, itemId: string)
    ensures FindIn(MergeItem(items, item), itemId) ==
            if item.id == Some(itemId) then Some(item) else FindIn(items, itemId)
  {
    var merged := MergeItem(items, item);
    var i, j := ItemIndex(items, Some(itemId)), ItemIndex(merged, Some(itemId));
    var a := ItemIndex(items, item.id);
    if item.id == Some(itemId) {
      assert merged[a] == item;
      assert j == a;
    } else if i < |items| {
      assert merged[i] == items[i];
      assert j == i;
    } else {
      assert j == |merged|;
    }
  }

  /** Only the addressed turn changes. */
  lemma UpsertItemFinds(turns: seq<Turn>, turnId: string, item: Item, other: string)
    ensures ItemsOf(UpsertItem(turns, turnId, item), other) ==
            if other == turnId then MergeItem(ItemsOf(turns, turnId), item) else ItemsOf(turns, other)
  {
    SetTurnFinds(turns, turnId, MergeItem(ItemsOf(turns, turnId), item), other);
  }

  /** The turn's items are replaced, or the turn is appended with them. */
  function SetTurn(turns: seq<Turn>, turnId: string, items: seq<Item>): seq<Turn> {
    var i := TurnIndex(turns, turnId);
    if i < |turns| then turns[i := turns[i].(items := items)] else turns + [Turn(turnId, items, IN_PROGRESS)]
  }

  lemma SetTurnFinds(turns: seq<Turn>, turnId: string, items: seq<Item>, other: string)
    ensures ItemsOf(SetTurn(turns, turnId, items), other) == if other == turnId then items else ItemsOf(turns, other)
    ensures TurnIndex(SetTurn(turns, turnId, items), other) ==
            if TurnIndex(turns, other) < |turns| then TurnIndex(turns, other)
            else if other == turnId then |turns| else |SetTurn(turns, turnId, items)|
  {
    var after := SetTurn(turns, turnId, items);
    var i, j, a := TurnIndex(turns, other), TurnIndex(after, other), TurnIndex(turns, turnId);
    if i < |turns| {
      assert after[i].id == other;
      assert j == i;
    } else if other == turnId {
      assert after[|turns|].id == other;
      assert j == |turns|;
    } else {
      assert j == |after|;
    }
  }

  lemma PatchIsSetTurn(turns: seq<Turn>, w: Write)
    requires !w.change.SetChanges? || TurnIndex(turns, w.turnId) < |turns|
    ensures Patch(turns, w) == SetTurn(turns, w.turnId, PatchItems(ItemsOf(turns, w.turnId), w.itemId, w.change))
  {
  }

  lemma PatchSetsValue(turns: seq<Turn>, w: Write, turnId: string, itemId: string, slot: Slot)
    requires WellFormedChange(w.change) && Streams(slot)
    ensures Value(Patch(turns, w), turnId, itemId, slot) ==
            Value(turns, turnId, itemId, slot)
            + if (w.turnId, w.itemId) == (turnId, itemId) then Piece(w.change, slot) else ""
  {
    if w.change.SetChanges? && TurnIndex(turns, w.turnId) == |turns| {
    } else {
      PatchIsSetTurn(turns, w);
      SetTurnFinds(turns, w.turnId, PatchItems(ItemsOf(turns, w.turnId), w.itemId, w.change), turnId);
      if w.turnId == turnId {
        PatchItemsSetsValue(ItemsOf(turns, turnId), w.itemId, w.change, itemId, slot);
      }
    }
  }

  lemma PatchItemsSetsValue(items: seq<Item>, at: string, change: Change, itemId: string, slot: Slot)
    requires WellFormedChange(change) && Streams(slot)
    ensures ValueIn(PatchItems(items, at, change), itemId, slot) ==
            ValueIn(items, itemId, slot) + if at == itemId then Piece(change, slot) else ""
  {
    var found := FindIn(items, at);
    if found.None? && change.SetChanges? {
    } else {
      var before := if found.Some? then found.value else Placeholder(at, change);
      assert Changed(before, change).id == Some(at);
      MergeSetsValue(items, Changed(before, change), itemId, slot);
      ChangeAppendsPiece(before, change, slot);
      PlaceholderIsEmpty(at, change, slot);
    }
  }
}
