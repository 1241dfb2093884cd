/** When two deltas may be handled in either order. */
module DeltaOrder {
  import opened Wrappers
  import opened Conversation

  predicate HasItem(turns: seq<Turn>, w: Write) {
    FindItem(turns, w.turnId, w.itemId).Some?
  }

  predicate HasTurn(turns: seq<Turn>, w: Write) {
    TurnIndex(turns, w.turnId) < |turns|
  }

  lemma MergesCommuteExactlyWhen(items: seq<Item>, x: Item, y: Item)
    requires x.id != y.id
    ensures MergeItem(MergeItem(items, x), y) == MergeItem(MergeItem(items, y), x)
            <==> ItemIndex(items, x.id) < |items| || ItemIndex(items, y.id) < |items|
  {
    MergeTwice(items, x, y);
    MergeTwice(items, y, x);
    EditsCommute(items, ItemIndex(items, x.id), ItemIndex(items, y.id), x, y);
  }

  lemma EditsCommute(items: seq<Item>, a: nat, b: nat, x: Item, y: Item)
    requires a <= |items| && b <= |items| && x != y
    ensures a < |items| && b < |items| && a != b ==> items[a := x][b := y] == items[b := y][a := x]
    ensures a < |items| ==> items[a := x] + [y] == (items + [y])[a := x]
    ensures b < |items| ==> items[b := y] + [x] == (items + [x])[b := y]
    ensures items + [x] + [y] != items + [y] + [x]
  {
    assert (items + [x] + [y])[|items|] == x && (items + [y] + [x])[|items|] == y;
  }

  lemma MergeTwice(items: seq<Item>, x: Item, y: Item)
    requires x.id != y.id
    ensures var n, a, b := |items|, ItemIndex(items, x.id), ItemIndex(items, y.id);
            MergeItem(MergeItem(items, x), y) ==
              if a < n && b < n then items[a := x][b := y]
              else if a < n then items[a := x] + [y]
              else if b < n then (items + [x])[b := y]
              else items + [x] + [y]
  {
    MergeIndex(items, x, y.id);
  }

  lemma MergeIndex(items: seq<Item>, x: Item, id: Option<string>)
    requires x.id != id
    ensures ItemIndex(MergeItem(items, x), id) ==
            if ItemIndex(items, id) < |items| then ItemIndex(items, id) else |MergeItem(items, x)|
  {
    var merged := MergeItem(items, x);
    var i, j := ItemIndex(items, id), ItemIndex(merged, id);
    if i < |items| {
      assert merged[i] == items[i];
    }
  }

  lemma ItemPatchesCommuteExactlyWhen(items: seq<Item>, i: string, c: Change, j: string, d: Change)
    requires i != j
    requires (c.SetChanges? ==> FindIn(items, i).Some?) && (d.SetChanges? ==> FindIn(items, j).Some?)
    ensures PatchItems(PatchItems(items, i, c), j, d) == PatchItems(PatchItems(items, j, d), i, c)
            <==> FindIn(items, i).Some? || FindIn(items, j).Some?
  {
    var x := Changed(if FindIn(items, i).Some? then FindIn(items, i).value else Placeholder(i, c), c);
    var y := Changed(if FindIn(items, j).Some? then FindIn(items, j).value else Placeholder(j, d), d);
    assert x.id == Some(i) && y.id == Some(j);
    MergeFinds(items, x, j);
    MergeFinds(items, y, i);
    MergesCommuteExactlyWhen(items, x, y);
  }

  lemma SetTurnsCommuteExactlyWhen(turns: seq<Turn>, s: string, x: seq<Item>, t: string, y: seq<Item>)
    requires s != t
    ensures SetTurn(SetTurn(turns, s, x), t, y) == SetTurn(SetTurn(turns, t, y), s, x)
            <==> TurnIndex(turns, s) < |turns| || TurnIndex(turns, t) < |turns|
  {
    SetTurnFinds(turns, s, x, t);
    SetTurnFinds(turns, t, y, s);
    var a, b := TurnIndex(turns, s), TurnIndex(turns, t);
    if a == |turns| && b == |turns| {
      assert SetTurn(SetTurn(turns, s, x), t, y)[a].id == s;
      assert SetTurn(SetTurn(turns, t, y), s, x)[a].id == t;
    }
  }

  lemma SetTwice(turns: seq<Turn>, t: string, x: seq<Item>, y: seq<Item>)
    ensures SetTurn(SetTurn(turns, t, x), t, y) == SetTurn(turns, t, y)
    ensures ItemsOf(SetTurn(turns, t, x), t) == x
  {
    SetTurnFinds(turns, t, x, t);
  }

  /** The write does something: file changes are only set on an item that exists. */
  predicate TakesEffect(turns: seq<Turn>, w: Write) {
    w.change.SetChanges? ==> HasItem(turns, w)
  }

  lemma OtherItemStays(turns: seq<Turn>, v: Write, w: Write)
    requires (v.turnId, v.itemId) != (w.turnId, w.itemId)
    ensures HasItem(Patch(turns, w), v) <==> HasItem(turns, v)
  {
    if TakesEffect(turns, w) {
      var items := ItemsOf(turns, w.turnId);
      var found := FindIn(items, w.itemId);
      PatchIsSetTurn(turns, w);
      SetTurnFinds(turns, w.turnId, PatchItems(items, w.itemId, w.change), v.turnId);
      MergeFinds(items, Changed(if found.Some? then found.value else Placeholder(w.itemId, w.change), w.change),
          v.itemId);
    } else {
      NoEffect(turns, w);
    }
  }

  lemma NoEffect(turns: seq<Turn>, w: Write)
    requires !TakesEffect(turns, w)
    ensures Patch(turns, w) == turns
  {
    var i := TurnIndex(turns, w.turnId);
    if i < |turns| {
      assert turns[i].(items := turns[i].items) == turns[i];
    }
  }

  lemma EffectiveCommuteExactlyWhen(turns: seq<Turn>, v: Write, w: Write)
    requires (v.turnId, v.itemId) != (w.turnId, w.itemId) && TakesEffect(turns, v) && TakesEffect(turns, w)
    ensures Patch(Patch(turns, v), w) == Patch(Patch(turns, w), v)
            <==> HasItem(turns, v) || HasItem(turns, w)
                 || (v.turnId != w.turnId && (HasTurn(turns, v) || HasTurn(turns, w)))
  {
    var a, b := ItemsOf(turns, v.turnId), ItemsOf(turns, w.turnId);
    var x, y := PatchItems(a, v.itemId, v.change), PatchItems(b, w.itemId, w.change);
    OtherItemStays(turns, v, w);
    OtherItemStays(turns, w, v);
    PatchIsSetTurn(turns, v);
    PatchIsSetTurn(turns, w);
    PatchIsSetTurn(Patch(turns, v), w);
    PatchIsSetTurn(Patch(turns, w), v);
    if v.turnId != w.turnId {
      SetTurnFinds(turns, v.turnId, x, w.turnId);
      SetTurnFinds(turns, w.turnId, y, v.turnId);
      SetTurnsCommuteExactlyWhen(turns, v.turnId, x, w.turnId, y);
      assert HasItem(turns, v) ==> HasTurn(turns, v);
    } else {
      var xy, yx := PatchItems(x, w.itemId, w.change), PatchItems(y, v.itemId, v.change);
      SetTwice(turns, v.turnId, x, xy);
      SetTwice(turns, v.turnId, y, yx);
      ItemPatchesCommuteExactlyWhen(a, v.itemId, v.change, w.itemId, w.change);
      SetTwice(turns, v.turnId, xy, []);
      SetTwice(turns, v.turnId, yx, []);
    }
  }

  /** Two writes to different items commute unless both create their item and the two creations meet: in the
      same turn, or by both creating their turn. File changes create nothing, so they commute with any write. */
  lemma WritesCommuteExactlyWhen(turns: seq<Turn>, v: Write, w: Write)
    requires (v.turnId, v.itemId) != (w.turnId, w.itemId)
    ensures Patch(Patch(turns, v), w) == Patch(Patch(turns, w), v)
            <==> v.change.SetChanges? || w.change.SetChanges? || HasItem(turns, v) || HasItem(turns, w)
                 || (v.turnId != w.turnId && (HasTurn(turns, v) || HasTurn(turns, w)))
  {
    if TakesEffect(turns, v) && TakesEffect(turns, w) {
      EffectiveCommuteExactlyWhen(turns, v, w);
    } else {
      OtherItemStays(turns, v, w);
      OtherItemStays(turns, w, v);
      if !TakesEffect(turns, v) {
        NoEffect(turns, v);
        NoEffect(Patch(turns, w), v);
      } else {
        NoEffect(turns, w);
        NoEffect(Patch(turns, v), w);
      }
    }
  }
}
