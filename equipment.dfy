/**
 * The equipped items (core/src/main/java/com/anyicomplex/unlucky/inventory/Equipment.java).
 *
 * Eight slots, one per equip kind: an item of type t (2..9) belongs in slot t - 2 (helmet,
 * armor, weapon, gloves, shoes, necklace, shield, ring). The slot positions on screen are
 * rendering data and are not modelled.
 */
module Equipments {
  import opened Items

  const NUM_SLOTS: int := 8

  /** The slot an equip of the given type occupies. */
  function SlotOf(itemType: int): (i: int)
    requires 2 <= itemType <= 9
    ensures 0 <= i < NUM_SLOTS
  {
    itemType - 2
  }

  class Equipment {
    const equips: array<Item?>

    ghost predicate Valid()
      reads this
    {
      equips.Length == NUM_SLOTS
    }

    constructor ()
      ensures Valid() && fresh(equips) && forall i :: 0 <= i < NUM_SLOTS ==> equips[i] == null
    {
      equips := new Item?[NUM_SLOTS](_ => null);
    }

    /**
     * `addEquip(equip)`: into the slot of its type when that slot is empty, marking it
     * equipped; refused with no change otherwise. Only types 2..9 have a slot (any other type
     * indexes outside the array).
     */
    method AddEquip(equip: Item) returns (ok: bool)
      requires Valid() && 2 <= equip.itemType <= 9
      modifies equips, equip
      ensures ok <==> old(equips[SlotOf(equip.itemType)]) == null
      ensures ok ==> equips[..] == old(equips[..])[SlotOf(equip.itemType) := equip] && equip.equipped
      ensures !ok ==> equips[..] == old(equips[..]) && equip.equipped == old(equip.equipped)
      ensures equip.index == old(equip.index)
      ensures old(WellPlaced()) ==> WellPlaced()
    {
      if equips[equip.itemType - 2] == null {
        equips[equip.itemType - 2] := equip;
        equip.equipped := true;
        return true;
      }
      return false;
    }

    /** `removeEquip(index)`: the slot's content (null when empty), and the slot emptied. */
    method RemoveEquip(index: int) returns (r: Item?)
      requires Valid() && 0 <= index < NUM_SLOTS
      modifies equips
      ensures r == old(equips[index])
      ensures equips[..] == old(equips[..])[index := null]
      ensures old(WellPlaced()) ==> WellPlaced()
    {
      if equips[index] != null {
        r := equips[index];
        equips[index] := null;
        return r;
      }
      return null;
    }

    /** `getEquipAt(index)`: a read, nothing changes. */
    function GetEquipAt(index: int): (r: Item?)
      requires Valid() && 0 <= index < NUM_SLOTS
      reads this, equips, set i | 0 <= i < equips.Length :: equips[i]
      ensures WellPlaced() && r != null ==> 2 <= r.itemType <= 9 && SlotOf(r.itemType) == index
    {
      equips[index]
    }

    /** Every equipped item sits in the slot of its own type. */
    ghost predicate WellPlaced()
      reads this, equips, set i | 0 <= i < equips.Length :: equips[i]
    {
      forall i :: 0 <= i < equips.Length && equips[i] != null ==>
        2 <= equips[i].itemType <= 9 && SlotOf(equips[i].itemType) == i
    }
  }

  /**
   * Equipping into an empty slot and then removing that slot hands the item back and leaves
   * every slot as it was; the item stays marked equipped, as the source never clears the flag.
   */
  method EquipThenRemove(eq: Equipment, item: Item) returns (removed: Item?)
    requires eq.Valid() && 2 <= item.itemType <= 9 && eq.equips[SlotOf(item.itemType)] == null
    modifies eq.equips, item
    ensures removed == item && item.equipped
    ensures eq.equips[..] == old(eq.equips[..])
  {
    var ok := eq.AddEquip(item);
    removed := eq.RemoveEquip(SlotOf(item.itemType));
  }
}
