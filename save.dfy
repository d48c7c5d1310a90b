/**
 * The save-file view of the player (core/src/main/java/com/anyicomplex/unlucky/save/PlayerAccessor.java)
 * and the special-moveset half of loading it back (core/src/main/java/com/anyicomplex/unlucky/save/Save.java).
 *
 * `load` copies the player's numbers, turns every occupied inventory and equipment slot into
 * an item record (a shop record for a shop item), and writes the special moveset as five ids
 * padded with -1. Loading a save offers every id that is not -1, in order, to `addSMove` on the
 * player's special moveset. The player object is not part of this model: its numbers arrive as
 * a `PlayerFields` value and its inventory, equipment and special moveset as the modelled
 * objects. Statistics and settings are copied by reference and are not modelled here.
 */
module Saves {
  import opened GameUtil
  import opened Items
  import opened SpecialMoves
  import Inventories
  import Equipments

  /** The atomic numbers `load` copies from the player. */
  datatype PlayerFields = PlayerFields(
    hp: int, maxHp: int, level: int, exp: int, maxExp: int, gold: int,
    minDamage: int, maxDamage: int, accuracy: int, smoveCd: int,
    maxWorld: int, maxLevel: int)

  /** An `ItemAccessor` or a `ShopItemAccessor`, reduced to the item fields this model keeps. */
  datatype ItemRecord =
    | ItemAccessor(name: string, itemType: int, index: int)
    | ShopItemAccessor(name: string, itemType: int, index: int)

  /** The record `load` stores for an item: a shop record exactly for a shop item. */
  function RecordOf(item: Item): (r: ItemRecord)
    reads item
    ensures r.ShopItemAccessor? <==> item.shop
    ensures r.name == item.name && r.itemType == item.itemType && r.index == item.index
  {
    if item.shop then ShopItemAccessor(item.name, item.itemType, item.index)
    else ItemAccessor(item.name, item.itemType, item.index)
  }

  /** A slot of the save: null for an empty slot, the item's record otherwise. */
  function SlotRecord(item: Item?): (r: Option<ItemRecord>)
    reads item
    ensures r.None? <==> item == null
    ensures item != null ==> r.value == RecordOf(item)
  {
    if item == null then None else Some(RecordOf(item))
  }

  // ------------------------------------------------------------------
  // The special moveset encoding and its replay
  // ------------------------------------------------------------------

  /** Every move is the catalogue move of its own id, as `addSMove` puts it there. */
  predicate FromCatalogue(s: seq<Option<SpecialMove>>)
  {
    forall i :: 0 <= i < |s| ==> s[i].Some? && s[i] == GetMove(s[i].value.id)
  }

  /**
   * The five saved ids: the moves' ids in order, then -1 for each empty place. None when the
   * set holds a null, whose id `load` cannot read.
   */
  function Encoded(s: seq<Option<SpecialMove>>): (r: Option<seq<int>>)
    requires |s| <= MAX_MOVES
    ensures r.Some? <==> NoNulls(s)
    ensures r.Some? ==> |r.value| == MAX_MOVES
  {
    if NoNulls(s) then
      Some(seq(MAX_MOVES, i requires 0 <= i < MAX_MOVES => if i < |s| then s[i].value.id else -1))
    else None
  }

  /** The place of the first null of the set, or its length when it has none. */
  function FirstNull(s: seq<Option<SpecialMove>>): (j: nat)
    ensures j <= |s|
    ensures forall k :: 0 <= k < j ==> s[k].Some?
    ensures j < |s| ==> s[j].None?
  {
    if s == [] || s[0].None? then 0 else 1 + FirstNull(s[1..])
  }

  /**
   * The loop of `Save.load`: every saved id other than -1 is offered to `addSMove` in turn.
   * None when one of those calls throws, which aborts the load.
   */
  function Replay(s: seq<Option<SpecialMove>>, saved: seq<int>): Option<seq<Option<SpecialMove>>>
    decreases |saved|
  {
    if saved == [] then Some(s)
    else if saved[0] == -1 then Replay(s, saved[1..])
    else if !AddReturns(s) then None
    else Replay(AfterAdd(s, saved[0]), saved[1..])
  }

  /** `addSMove` only ever appends catalogue moves, so a set built by it is from the catalogue. */
  lemma AddKeepsCatalogue(s: seq<Option<SpecialMove>>, id: int)
    requires FromCatalogue(s) && 0 <= id < NUM_SPECIAL_MOVES
    ensures FromCatalogue(AfterAdd(s, id))
  {
  }

  /** A catalogue set shows -1 exactly at the places past its end. */
  lemma EncodedPadding(s: seq<Option<SpecialMove>>)
    requires FromCatalogue(s) && |s| <= MAX_MOVES
    ensures Encoded(s).Some?
    ensures forall i :: 0 <= i < MAX_MOVES ==> (Encoded(s).value[i] == -1 <==> i >= |s|)
    ensures forall i :: 0 <= i < |s| ==> GetMove(Encoded(s).value[i]) == s[i]
  {
  }

  /** The move at place `k` of a set within the limits is admitted again after `s[..k]`. */
  lemma PrefixAdmitsNext(s: seq<Option<SpecialMove>>, k: int)
    requires WithinLimits(s) && NoNulls(s) && 0 <= k < |s|
    ensures Admits(s[..k], s[k].value.id)
  {
    var id := s[k].value.id;
    assert s[..k + 1] == s[..k] + [s[k]];
    assert s == s[..k + 1] + s[k + 1..];
    CountIdConcat(s[..k + 1], s[k + 1..], id);
    CountIdConcat(s[..k], [s[k]], id);
    assert [s[k]][..0] == [];
  }

  /** Replaying the rest of the save after the first `k` moves rebuilds the whole set. */
  lemma {:induction false} ReplayRestores(s: seq<Option<SpecialMove>>, k: int)
    requires FromCatalogue(s) && WithinLimits(s) && 0 <= k <= MAX_MOVES
    ensures Encoded(s).Some? && Replay(s[..if k < |s| then k else |s|], Encoded(s).value[k..]) == Some(s)
    decreases MAX_MOVES - k
  {
    var e := Encoded(s).value;
    if k == MAX_MOVES {
      assert e[k..] == [];
      assert s[..|s|] == s;
    } else {
      assert e[k..][1..] == e[k + 1..];
      if k < |s| {
        PrefixAdmitsNext(s, k);
        assert s[..k] + [GetMove(e[k])] == s[..k + 1];
      }
      ReplayRestores(s, k + 1);
    }
  }

  /**
   * The round trip of a save: a special moveset that `addSMove` built, written by `load` and
   * replayed by `Save.load` on an empty set, comes back move for move.
   */
  lemma SaveLoadRoundTrip(s: seq<Option<SpecialMove>>)
    requires FromCatalogue(s) && WithinLimits(s)
    ensures Encoded(s).Some? && Replay([], Encoded(s).value) == Some(s)
  {
    ReplayRestores(s, 0);
  }

  /**
   * Whatever a save holds, a load that completes leaves a special moveset within the limits;
   * a save of catalogue ids and -1 padding always loads, and lets no null in.
   */
  lemma {:induction false} ReplayKeepsLimits(s: seq<Option<SpecialMove>>, saved: seq<int>)
    requires WithinLimits(s)
    ensures Replay(s, saved).Some? ==> WithinLimits(Replay(s, saved).value)
    ensures NoNulls(s) && (forall k :: 0 <= k < |saved| ==> saved[k] == -1 || 0 <= saved[k] < NUM_SPECIAL_MOVES) ==>
      Replay(s, saved).Some? && NoNulls(Replay(s, saved).value)
    decreases |saved|
  {
    if saved != [] {
      if saved[0] == -1 {
        ReplayKeepsLimits(s, saved[1..]);
      } else if AddReturns(s) {
        AddKeepsLimits(s, saved[0]);
        if NoNulls(s) && 0 <= saved[0] < NUM_SPECIAL_MOVES {
          AddKeepsNoNulls(s, saved[0]);
        }
        ReplayKeepsLimits(AfterAdd(s, saved[0]), saved[1..]);
      }
    }
  }

  /**
   * A saved id outside the catalogue loads as a null. Followed by another id, the load throws;
   * as the last id of a set of five, it loads and leaves the null in the set.
   */
  lemma ReplayOfUnknownId()
    ensures Replay([], [9, 0, -1, -1, -1]) == None
    ensures Replay([], [0, 1, 2, 3, 9]) == Some([GetMove(0), GetMove(1), GetMove(2), GetMove(3), None])
  {
    var withNull: seq<Option<SpecialMove>> := [None];
    assert AfterAdd([], 9) == withNull;
    assert !NoNulls(withNull) by { assert withNull[0].None?; }
    var s4 := [GetMove(0), GetMove(1), GetMove(2), GetMove(3)];
    CountIdAbsent(s4[..1], 1);
    CountIdAbsent(s4[..2], 2);
    CountIdAbsent(s4[..3], 3);
    CountIdAbsent(s4, 9);
    assert AfterAdd([], 0) == s4[..1];
    assert AfterAdd(s4[..1], 1) == s4[..2];
    assert AfterAdd(s4[..2], 2) == s4[..3];
    assert AfterAdd(s4[..3], 3) == s4;
    assert AfterAdd(s4, 9) == s4 + [None];
    var saved := [0, 1, 2, 3, 9];
    assert saved[1..] == [1, 2, 3, 9] && saved[1..][1..] == [2, 3, 9];
    assert saved[1..][1..][1..] == [3, 9] && saved[1..][1..][1..][1..] == [9];
    assert Replay(s4, [9]) == Some(s4 + [None]);
    assert Replay(s4[..3], [3, 9]) == Replay(s4, [9]);
    assert Replay(s4[..2], [2, 3, 9]) == Replay(s4[..3], [3, 9]);
    assert Replay(s4[..1], [1, 2, 3, 9]) == Replay(s4[..2], [2, 3, 9]);
    assert Replay([], saved) == Replay(s4[..1], [1, 2, 3, 9]);
    assert s4 + [None] == [GetMove(0), GetMove(1), GetMove(2), GetMove(3), None];
  }

  /**
   * A loaded null survives to the next save: the set that [0, 1, 2, 3, 9] loads into cannot
   * be written back, because `load` reads the id of its fifth move.
   */
  lemma NullMoveBreaksSave()
    ensures Replay([], [0, 1, 2, 3, 9]).Some?
    ensures Encoded(Replay([], [0, 1, 2, 3, 9]).value).None?
  {
    ReplayOfUnknownId();
    var loaded: seq<Option<SpecialMove>> := [GetMove(0), GetMove(1), GetMove(2), GetMove(3), None];
    assert loaded[4].None?;
  }

  /**
   * The special-move loop of `Save.load`: each saved id other than -1 is offered to
   * `addSMove` in turn. `ok` is false when one of those calls throws, which is exactly when
   * `Replay` answers None; the loop then stops.
   */
  method LoadSpecialMoves(sm: SpecialMoveset, saved: seq<int>) returns (ok: bool)
    requires |saved| == MAX_MOVES
    modifies sm
    ensures ok <==> Replay(old(sm.smoveset), saved).Some?
    ensures ok ==> sm.smoveset == Replay(old(sm.smoveset), saved).value
  {
    var i := 0;
    while i < MAX_MOVES
      invariant 0 <= i <= MAX_MOVES
      invariant Replay(sm.smoveset, saved[i..]) == Replay(old(sm.smoveset), saved)
    {
      assert saved[i..][1..] == saved[i + 1..];
      if saved[i] != -1 {
        var added := sm.AddSMove(saved[i]);
        if !added {
          return false;
        }
      }
      i := i + 1;
    }
    assert saved[i..] == [];
    return true;
  }

  // ------------------------------------------------------------------
  // The class
  // ------------------------------------------------------------------

  class PlayerAccessor {
    var hp: int
    var maxHp: int
    var level: int
    var exp: int
    var maxExp: int
    var gold: int
    var minDamage: int
    var maxDamage: int
    var accuracy: int
    var smoveCd: int
    var maxWorld: int
    var maxLevel: int

    const inventory: array<Option<ItemRecord>>
    const equips: array<Option<ItemRecord>>
    const smoveset: array<int>

    ghost predicate Valid()
      reads this
    {
      inventory.Length == Inventories.NUM_SLOTS && equips.Length == Equipments.NUM_SLOTS
      && smoveset.Length == MAX_MOVES
    }

    function Fields(): PlayerFields
      reads this
    {
      PlayerFields(hp, maxHp, level, exp, maxExp, gold, minDamage, maxDamage, accuracy, smoveCd,
                   maxWorld, maxLevel)
    }

    /** 24 empty inventory slots, 8 empty equipment slots and five -1 move ids. */
    constructor ()
      ensures Valid() && fresh(inventory) && fresh(equips) && fresh(smoveset)
      ensures forall i :: 0 <= i < inventory.Length ==> inventory[i].None?
      ensures forall i :: 0 <= i < equips.Length ==> equips[i].None?
      ensures forall i :: 0 <= i < smoveset.Length ==> smoveset[i] == -1
    {
      inventory := new Option<ItemRecord>[Inventories.NUM_SLOTS](_ => None);
      equips := new Option<ItemRecord>[Equipments.NUM_SLOTS](_ => None);
      smoveset := new int[MAX_MOVES](_ => -1);
    }

    /**
     * `load(player)`. `ok` is false when the player's special moveset holds a null: the
     * special-move loop then throws after the fields, the slots and the ids before the null
     * are written.
     */
    method Load(f: PlayerFields, inv: Inventories.Inventory, eq: Equipments.Equipment, sm: SpecialMoveset)
      returns (ok: bool)
      requires Valid() && inv.Valid() && eq.Valid() && |sm.smoveset| <= MAX_MOVES
      modifies this, inventory, equips, smoveset
      ensures Valid() && Fields() == f
      ensures forall i :: 0 <= i < Inventories.NUM_SLOTS ==> inventory[i] == SlotRecord(inv.items[i])
      ensures forall i :: 0 <= i < Equipments.NUM_SLOTS ==> equips[i] == SlotRecord(eq.equips[i])
      ensures ok <==> NoNulls(sm.smoveset)
      ensures ok ==> smoveset[..] == Encoded(sm.smoveset).value
      ensures forall k :: 0 <= k < MAX_MOVES ==>
        smoveset[k] == if k < FirstNull(sm.smoveset) then sm.smoveset[k].value.id else -1
    {
      LoadFields(f);
      LoadInventory(inv);
      LoadEquips(eq);
      ok := LoadSmoveset(sm.smoveset);
    }

    /** The atomic fields of `load`, copied verbatim. */
    method LoadFields(f: PlayerFields)
      modifies this
      ensures Fields() == f
    {
      hp, maxHp, level, exp, maxExp, gold := f.hp, f.maxHp, f.level, f.exp, f.maxExp, f.gold;
      minDamage, maxDamage, accuracy, smoveCd := f.minDamage, f.maxDamage, f.accuracy, f.smoveCd;
      maxWorld, maxLevel := f.maxWorld, f.maxLevel;
    }

    /** The inventory loop of `load`. */
    method LoadInventory(inv: Inventories.Inventory)
      requires Valid() && inv.Valid()
      modifies inventory
      ensures forall i :: 0 <= i < Inventories.NUM_SLOTS ==> inventory[i] == SlotRecord(inv.items[i])
    {
      for i := 0 to Inventories.NUM_SLOTS
        invariant forall k :: 0 <= k < i ==> inventory[k] == SlotRecord(inv.items[k])
      {
        if !inv.IsFreeSlot(i) {
          var item := inv.GetItem(i);
          inventory[i] := Some(RecordOf(item));
        } else {
          inventory[i] := None;
        }
      }
    }

    /** The equipment loop of `load`. */
    method LoadEquips(eq: Equipments.Equipment)
      requires Valid() && eq.Valid()
      modifies equips
      ensures forall i :: 0 <= i < Equipments.NUM_SLOTS ==> equips[i] == SlotRecord(eq.equips[i])
    {
      for i := 0 to Equipments.NUM_SLOTS
        invariant forall k :: 0 <= k < i ==> equips[k] == SlotRecord(eq.equips[k])
      {
        var equip := eq.GetEquipAt(i);
        if equip != null {
          equips[i] := Some(RecordOf(equip));
        } else {
          equips[i] := None;
        }
      }
    }

    /**
     * The special-moveset part of `load`: fill with -1, then write the ids in order. `ok` is
     * false when the loop reaches a null, whose id it cannot read; the ids before it are
     * written by then.
     */
    method LoadSmoveset(s: seq<Option<SpecialMove>>) returns (ok: bool)
      requires Valid() && |s| <= MAX_MOVES
      modifies smoveset
      ensures ok <==> NoNulls(s)
      ensures ok ==> smoveset[..] == Encoded(s).value
      ensures forall k :: 0 <= k < MAX_MOVES ==>
        smoveset[k] == if k < FirstNull(s) then s[k].value.id else -1
    {
      for i := 0 to MAX_MOVES
        invariant forall k :: 0 <= k < i ==> smoveset[k] == -1
      {
        smoveset[i] := -1;
      }
      for i := 0 to |s|
        invariant i <= FirstNull(s)
        invariant forall k :: 0 <= k < i ==> smoveset[k] == s[k].value.id
        invariant forall k :: i <= k < MAX_MOVES ==> smoveset[k] == -1
      {
        if s[i].None? {
          return false;
        }
        smoveset[i] := s[i].value.id;
      }
      ok := true;
    }
  }
}
