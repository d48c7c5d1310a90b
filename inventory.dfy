/**
 * The player's bag (core/src/main/java/com/anyicomplex/unlucky/inventory/Inventory.java).
 *
 * Twenty-four slots, each empty (null) or holding an item. Slot indexes passed in by callers
 * are not checked by the source (a bad one throws), so the methods that take one require it
 * to be in range.
 */
module Inventories {
  import opened Items

  const NUM_SLOTS: int := 24

  /** The first empty slot of `s`, or -1 when every slot is taken. */
  function FirstFree(s: seq<Item?>): (r: int)
    ensures r == -1 <==> null !in s
    ensures r != -1 ==> 0 <= r < |s| && s[r] == null && null !in s[..r]
  {
    if s == [] then -1
    else if s[0] == null then 0
    else
      var r := FirstFree(s[1..]);
      if r == -1 then -1 else r + 1
  }

  /** How many slots of `s` hold an item. */
  function Occupied(s: seq<Item?>): (n: nat)
    ensures n <= |s|
  {
    if s == [] then 0 else Occupied(s[..|s| - 1]) + (if s[|s| - 1] != null then 1 else 0)
  }

  // ------------------------------------------------------------------
  // Properties
  // ------------------------------------------------------------------

  /** Filling an empty slot adds one item; emptying a taken slot removes one. */
  lemma {:induction false} OccupiedUpdate(s: seq<Item?>, i: int, x: Item?)
    requires 0 <= i < |s|
    ensures Occupied(s[i := x]) == Occupied(s) - (if s[i] != null then 1 else 0) + (if x != null then 1 else 0)
    decreases |s|
  {
    var t := s[i := x];
    if i < |s| - 1 {
      assert t[..|t| - 1] == s[..|s| - 1][i := x];
      OccupiedUpdate(s[..|s| - 1], i, x);
    } else {
      assert t[..|t| - 1] == s[..|s| - 1];
    }
  }

  /** A bag with no empty slot holds exactly as many items as it has slots, and conversely. */
  lemma {:induction false} FullIffAllOccupied(s: seq<Item?>)
    ensures null !in s <==> Occupied(s) == |s|
  {
    if s != [] {
      FullIffAllOccupied(s[..|s| - 1]);
      assert s == s[..|s| - 1] + [s[|s| - 1]];
    }
  }

  // ------------------------------------------------------------------
  // The class
  // ------------------------------------------------------------------

  class Inventory {
    const items: array<Item?>

    ghost predicate Valid()
      reads this
    {
      items.Length == NUM_SLOTS
    }

    /** A new bag is empty. */
    constructor ()
      ensures Valid() && fresh(items) && forall i :: 0 <= i < NUM_SLOTS ==> items[i] == null
    {
      items := new Item?[NUM_SLOTS](_ => null);
    }

    /** `getFirstFreeSlotIndex()`. */
    method GetFirstFreeSlotIndex() returns (i: int)
      requires Valid()
      ensures i == FirstFree(items[..])
    {
      i := 0;
      while i < NUM_SLOTS
        invariant 0 <= i <= NUM_SLOTS && null !in items[..i]
      {
        if items[i] == null {
          return i;
        }
        assert items[..i + 1] == items[..i] + [items[i]];
        i := i + 1;
      }
      assert items[..i] == items[..];
      i := -1;
    }

    /** `getItem(index)`. */
    function GetItem(index: int): (r: Item?)
      requires Valid() && 0 <= index < NUM_SLOTS
      reads this, items
      ensures r == null <==> IsFreeSlot(index)
    {
      items[index]
    }

    /** `isFreeSlot(index)`. */
    function IsFreeSlot(index: int): bool
      requires Valid() && 0 <= index < NUM_SLOTS
      reads this, items
    {
      items[index] == null
    }

    /**
     * `addItem(item)`: the item goes to the first free slot and learns its index; a full bag
     * refuses it and nothing changes.
     */
    method AddItem(item: Item) returns (ok: bool)
      requires Valid()
      modifies items, item
      ensures ok <==> null in old(items[..])
      ensures ok ==> items[..] == old(items[..])[FirstFree(old(items[..])) := item] &&
                     item.index == FirstFree(old(items[..])) &&
                     Occupied(items[..]) == Occupied(old(items[..])) + 1
      ensures !ok ==> items[..] == old(items[..]) && item.index == old(item.index)
      ensures item.equipped == old(item.equipped)
    {
      var i := GetFirstFreeSlotIndex();
      if i != -1 {
        OccupiedUpdate(items[..], i, item);
        items[i] := item;
        item.index := i;
        return true;
      }
      return false;
    }

    /** `addItemAtIndex(item, index)`: succeeds only on an empty slot. */
    method AddItemAtIndex(item: Item, index: int) returns (ok: bool)
      requires Valid() && 0 <= index < NUM_SLOTS
      modifies items, item
      ensures ok <==> old(items[index]) == null
      ensures ok ==> items[..] == old(items[..])[index := item] && item.index == index
      ensures !ok ==> items[..] == old(items[..]) && item.index == old(item.index)
      ensures item.equipped == old(item.equipped)
    {
      if IsFreeSlot(index) {
        items[index] := item;
        item.index := index;
        return true;
      }
      return false;
    }

    /** `removeItem(index)`: that slot alone becomes empty. */
    method RemoveItem(index: int)
      requires Valid() && 0 <= index < NUM_SLOTS
      modifies items
      ensures items[..] == old(items[..])[index := null]
    {
      if items[index] != null {
        items[index] := null;
      }
    }

    /** `takeItem(index)`: the slot's content (null for an empty slot), and the slot emptied. */
    method TakeItem(index: int) returns (r: Item?)
      requires Valid() && 0 <= index < NUM_SLOTS
      modifies items
      ensures r == old(items[index])
      ensures items[..] == old(items[..])[index := null]
    {
      if items[index] != null {
        r := items[index];
        items[index] := null;
        return r;
      }
      return null;
    }

    /** `isFull()`: no empty slot, which is when `getFirstFreeSlotIndex()` answers -1. */
    method IsFull() returns (b: bool)
      requires Valid()
      ensures b <==> forall k :: 0 <= k < NUM_SLOTS ==> items[k] != null
      ensures b <==> FirstFree(items[..]) == -1
      ensures b <==> Occupied(items[..]) == NUM_SLOTS
    {
      FullIffAllOccupied(items[..]);
      var i := 0;
      while i < NUM_SLOTS
        invariant 0 <= i <= NUM_SLOTS
        invariant forall k :: 0 <= k < i ==> items[k] != null
      {
        if items[i] == null {
          assert items[..][i] == null;
          return false;
        }
        i := i + 1;
      }
      assert forall k :: 0 <= k < NUM_SLOTS ==> items[..][k] == items[k];
      return true;
    }

    /** `clear()`: every slot emptied through `removeItem`. */
    method Clear()
      requires Valid()
      modifies items
      ensures forall k :: 0 <= k < NUM_SLOTS ==> items[k] == null
      ensures Occupied(items[..]) == 0
    {
      var i := 0;
      while i < NUM_SLOTS
        invariant 0 <= i <= NUM_SLOTS
        invariant forall k :: 0 <= k < i ==> items[k] == null
      {
        RemoveItem(i);
        i := i + 1;
      }
      EmptyHoldsNothing(items[..]);
    }
  }

  /**
   * `takeItem` at the index `addItem` gave the item hands that item back and leaves the bag
   * as it was before the add, every slot and the item count included.
   */
  method AddThenTake(inv: Inventory, item: Item) returns (taken: Item?)
    requires inv.Valid() && null in inv.items[..]
    modifies inv.items, item
    ensures taken == item
    ensures inv.items[..] == old(inv.items[..]) && Occupied(inv.items[..]) == Occupied(old(inv.items[..]))
  {
    var ok := inv.AddItem(item);
    taken := inv.TakeItem(item.index);
  }

  /** A bag of empty slots holds no item. */
  lemma {:induction false} EmptyHoldsNothing(s: seq<Item?>)
    requires forall k :: 0 <= k < |s| ==> s[k] == null
    ensures Occupied(s) == 0
  {
    if s != [] {
      EmptyHoldsNothing(s[..|s| - 1]);
    }
  }
}
