/** The inventory manager: a fixed-capacity array of item references and a
    count of the slots in use. AddItem is proved to append the item's state;
    every other mutating method is proved to change the held items exactly as
    the matching function of module Inventory says. */
module ItemManagement {
  import opened Items
  import opened Inventory

  class ItemManager {
    var items: array<Item?>
    const capacity: int
    var itemCount: int

    /** The items in slots 0 .. itemCount - 1, in order. */
    ghost var Elems: seq<Item>
    /** Their states, in the same order. */
    ghost var Contents: seq<ItemValue>

    /** The object invariant: the count is within the capacity, the used
        slots hold exactly Elems, Contents is the state of those items, and
        no item sits in two slots (the manager owns each item once). */
    ghost predicate Valid()
      reads this, items, Elems
    {
      items.Length == capacity &&
      0 <= itemCount <= capacity &&
      |Elems| == itemCount && |Contents| == itemCount &&
      (forall k :: 0 <= k < itemCount ==> items[k] == Elems[k]) &&
      (forall k :: 0 <= k < itemCount ==> Contents[k] == Elems[k].View()) &&
      (forall j, k :: 0 <= j < k < |Elems| ==> Elems[j] != Elems[k])
    }

    /** An empty manager with `size` slots. */
    constructor (size: int)
      requires size >= 0
      ensures Valid() && fresh(items)
      ensures capacity == size && itemCount == 0 && Elems == [] && Contents == []
    {
      items := new Item?[size];
      capacity := size;
      itemCount := 0;
      Elems, Contents := [], [];
    }

    /** Stores `item` in the first free slot when there is one, and reports
        whether it did; when the manager is full nothing changes. */
    method AddItem(item: Item) returns (added: bool)
      requires Valid()
      requires item !in Elems
      modifies this, items
      ensures Valid() && items == old(items)
      ensures added <==> old(itemCount) < capacity
      ensures added ==> items[old(itemCount)] == item && itemCount == old(itemCount) + 1
      ensures !added ==> itemCount == old(itemCount)
      ensures Elems == if added then old(Elems) + [item] else old(Elems)
      ensures Contents == if added then old(Contents) + [item.View()] else old(Contents)
    {
      if itemCount < capacity {
        items[itemCount] := item;
        itemCount := itemCount + 1;
        Elems, Contents := Elems + [item], Contents + [item.View()];
        added := true;
      } else {
        added := false;
      }
    }

    /** Empties slot `k` by moving every later item one slot to the left, in
        order, and drops the count by one. */
    method RemoveSlot(k: int)
      requires Valid()
      requires 0 <= k < itemCount
      modifies this, items
      ensures Valid() && items == old(items)
      ensures itemCount == old(itemCount) - 1
      ensures Elems == RemoveAt(old(Elems), k)
      ensures Contents == RemoveAt(old(Contents), k)
    {
      var j := k;
      while j < itemCount - 1
        invariant k <= j <= itemCount - 1
        invariant itemCount == old(itemCount) && Elems == old(Elems) && Contents == old(Contents)
        invariant items == old(items)
        invariant forall m :: 0 <= m < k ==> items[m] == Elems[m]
        invariant forall m :: k <= m < j ==> items[m] == Elems[m + 1]
        invariant forall m :: j < m < itemCount ==> items[m] == Elems[m]
      {
        items[j] := items[j + 1];
        j := j + 1;
      }
      itemCount := itemCount - 1;
      Elems, Contents := RemoveAt(Elems, k), RemoveAt(Contents, k);
    }

    /** Removes the first item whose identifier is `id`, closing the gap;
        without such an item nothing changes. */
    method RemoveItem(id: int)
      requires Valid()
      modifies this, items
      ensures Valid() && items == old(items)
      ensures Contents == RemoveFirst(old(Contents), id)
      ensures match FirstWithId(old(Contents), id)
        case None => Elems == old(Elems)
        case Some(k) => Elems == RemoveAt(old(Elems), k)
    {
      var i := 0;
      while i < itemCount
        invariant 0 <= i <= itemCount
        invariant Valid() && items == old(items) && Elems == old(Elems) && Contents == old(Contents)
        invariant forall j :: 0 <= j < i ==> Contents[j].id != id
      {
        var current := items[i].GetId();
        if current == id {
          RemoveFirstDeletesFirstMatch(Contents, id, i);
          RemoveSlot(i);
          return;
        }
        i := i + 1;
      }
      RemoveFirstAbsent(Contents, id);
    }

    /** Gives every item whose identifier is `id` one level step; the slots,
        the count and every other item stay as they were. */
    method LevelUp(id: int)
      requires Valid()
      modifies this, Elems
      ensures Valid() && items == old(items) && Elems == old(Elems) && itemCount == old(itemCount)
      ensures Contents == LevelUpAll(old(Contents), id)
    {
      for i := 0 to itemCount
        invariant items == old(items) && itemCount == old(itemCount)
        invariant Elems == old(Elems) && Contents == old(Contents)
        invariant forall k :: 0 <= k < i ==> Elems[k].View() == LevelUpIfMatch(Contents[k], id)
        invariant forall k :: i <= k < itemCount ==> Elems[k].View() == Contents[k]
      {
        var current := items[i].GetId();
        if current == id {
          items[i].LevelUp();
        }
      }
      Contents := LevelUpAll(Contents, id);
    }

    /** The scan of ItemSynthesis: one pass over the used slots that records
        the last slot whose identifier is `targetId` and, among the others,
        the last slot whose identifier is `ingredientId`; -1 when none. */
    method LocateSynthesisPair(targetId: int, ingredientId: int)
      returns (targetIndex: int, ingredientIndex: int)
      requires Valid()
      ensures targetIndex == ScanTarget(Contents, targetId)
      ensures ingredientIndex == ScanIngredient(Contents, targetId, ingredientId)
    {
      targetIndex, ingredientIndex := -1, -1;
      for i := 0 to itemCount
        invariant targetIndex == ScanTarget(Contents[..i], targetId)
        invariant ingredientIndex == ScanIngredient(Contents[..i], targetId, ingredientId)
      {
        assert Contents[..i + 1][..i] == Contents[..i];
        var current := items[i].GetId();
        if current == targetId {
          targetIndex := i;
        } else if current == ingredientId {
          ingredientIndex := i;
        }
      }
      assert Contents[..itemCount] == Contents;
    }

    /** The accepted branch of ItemSynthesis: the item in slot `targetIndex`
        advances one rank and takes the identifier max(targetId,
        ingredientId) + 1 without moving; the item in slot `ingredientIndex`
        is removed and the later items shift left. */
    method Merge(targetIndex: int, ingredientIndex: int, targetId: int, ingredientId: int)
      requires Valid()
      requires 0 <= targetIndex < itemCount && 0 <= ingredientIndex < itemCount
      requires targetIndex != ingredientIndex
      modifies this, items, Elems
      ensures Valid() && items == old(items)
      ensures Elems == RemoveAt(old(Elems), ingredientIndex)
      ensures Contents == RemoveAt(old(Contents)[targetIndex :=
        Synthesized(old(Contents)[targetIndex], targetId, ingredientId)], ingredientIndex)
    {
      var target := items[targetIndex];
      target.RankUp();
      var nextId := Max(targetId, ingredientId) + 1;
      target.SetId(nextId);
      Contents := Contents[targetIndex := Synthesized(Contents[targetIndex], targetId, ingredientId)];
      assert forall k :: 0 <= k < itemCount && k != targetIndex ==> Elems[k] != target;
      RemoveSlot(ingredientIndex);
    }

    /** Merges the ingredient into the target: when the scan found a target
        whose identifier is not -1 and an ingredient, the target advances one
        rank, takes the identifier max(targetId, ingredientId) + 1 and stays in
        its slot, and the ingredient is removed with the later items shifted
        left; otherwise nothing changes and the call reports failure. */
    method ItemSynthesis(targetId: int, ingredientId: int) returns (merged: bool)
      requires Valid()
      modifies this, items, Elems
      ensures Valid() && items == old(items)
      ensures merged <==> Synthesize(old(Contents), targetId, ingredientId).Some?
      ensures Contents == if merged then Synthesize(old(Contents), targetId, ingredientId).value
                          else old(Contents)
      ensures merged ==> Elems == RemoveAt(old(Elems), ScanIngredient(old(Contents), targetId, ingredientId))
      ensures !merged ==> Elems == old(Elems)
    {
      var targetIndex, ingredientIndex := LocateSynthesisPair(targetId, ingredientId);
      merged := false;
      // A missing target is a null dereference in the source; here it rejects.
      if targetIndex != -1 {
        var currentId := items[targetIndex].GetId();
        if currentId != -1 && ingredientIndex != -1 {
          Merge(targetIndex, ingredientIndex, targetId, ingredientId);
          merged := true;
        }
      }
    }
  }

  /** The items the driver builds, in the order it adds them. */
  const Dagger := ItemValue(1, "단검", 1, 'A', Weapon(10))
  const Armor1 := ItemValue(2, "갑옷", 1, 'B', Armor(5))
  const Armor2 := ItemValue(3, "갑옷2", 1, 'B', Armor(3))

  /** On values, the driver's run with the inputs 1 and (2, 3) ends with the
      levelled dagger and the merged armor (identifier 4, rank A), in that
      order. */
  lemma ScenarioValues()
    ensures LevelUpAll([Dagger, Armor1, Armor2], 1) == [Dagger.(level := 2), Armor1, Armor2]
    ensures Synthesize([Dagger.(level := 2), Armor1, Armor2], 2, 3)
         == Some([Dagger.(level := 2), Armor1.(id := 4, rank := 'A')])
  {
    var s := [Dagger.(level := 2), Armor1, Armor2];
    SynthesizeUnique(s, 2, 3, 1, 2);
    assert RemoveAt(s[1 := Synthesized(s[1], 2, 3)], 2) == [Dagger.(level := 2), Armor1.(id := 4, rank := 'A')];
  }

  /** A manager with 8 slots holding the weapon and the first armor. */
  method ArmedManager() returns (manager: ItemManager)
    ensures fresh(manager) && fresh(manager.items) && fresh(manager.Elems)
    ensures manager.Valid() && manager.capacity == 8
    ensures manager.Contents == [Dagger, Armor1]
  {
    manager := new ItemManager(8);
    var dagger := new Item(1, "단검", 1, 'A', Weapon(10));
    var added := manager.AddItem(dagger);
    var armor := new Item(2, "갑옷", 1, 'B', Armor(5));
    added := manager.AddItem(armor);
  }

  /** The same manager after it has also received the second armor. */
  method StockedManager() returns (manager: ItemManager)
    ensures fresh(manager) && fresh(manager.items) && fresh(manager.Elems)
    ensures manager.Valid() && manager.capacity == 8
    ensures manager.Contents == [Dagger, Armor1, Armor2]
  {
    manager := ArmedManager();
    var armor2 := new Item(3, "갑옷2", 1, 'B', Armor(3));
    var added := manager.AddItem(armor2);
  }

  /** One run of the driver, with the inputs 1 and (2, 3): a manager with 8
      slots receives a weapon with identifier 1 and two armors with
      identifiers 2 and 3; item 1 is levelled up and item 2 is synthesized
      with item 3. Two items remain, in the order 1, 4; the weapon is at level 2 and the merged armor at rank A. */
  method Scenario() returns (count: int, ids: seq<int>, weaponLevel: int, mergedRank: char)
    ensures count == 2 && ids == [1, 4]
    ensures weaponLevel == 2 && mergedRank == 'A'
  {
    var manager := StockedManager();
    ScenarioValues();
    manager.LevelUp(1);
    var merged := manager.ItemSynthesis(2, 3);
    assert manager.Contents == [Dagger.(level := 2), Armor1.(id := 4, rank := 'A')];

    count := manager.itemCount;
    var first := manager.items[0];
    var second := manager.items[1];
    ids := [first.id, second.id];
    weaponLevel := first.level;
    mergedRank := second.rank;
  }
}
