/**
 * The player's special moves (core/src/main/java/com/anyicomplex/unlucky/battle/SpecialMoveset.java).
 *
 * A special moveset holds at most MAX_MOVES = 5 moves and at most two copies of any move.
 * `getMove` answers null for an id outside 0..7 and `addSMove` appends that null as it is,
 * so an element is an `Option<SpecialMove>`. Reading the id or name of a null element throws:
 * `canAdd` reads the id of every element unless the set is full, so once a null is in a set
 * that is not full, the next `addSMove` throws. `AddReturns` names the sets on which it
 * returns normally; the functions that replay several additions answer None where a call
 * would throw.
 */
module SpecialMoves {
  import opened GameUtil

  const MAX_MOVES: int := 5

  /** `getMove(id)`: the catalogue move with that id, or null. */
  function GetMove(id: int): (r: Option<SpecialMove>)
    ensures r.Some? <==> 0 <= id < NUM_SPECIAL_MOVES
    ensures r.Some? ==> r.value == SMOVES_ORDER_BY_ID[id] && r.value.id == id
  {
    match id
    case 0 => Some(S_DISTRACT)
    case 1 => Some(S_FOCUS)
    case 2 => Some(S_INTIMIDATE)
    case 3 => Some(S_REFLECT)
    case 4 => Some(S_STUN)
    case 5 => Some(S_INVERT)
    case 6 => Some(S_SACRIFICE)
    case 7 => Some(S_SHIELD)
    case _ => None
  }

  /** Every element is a real move (no null was ever added). */
  predicate NoNulls(s: seq<Option<SpecialMove>>)
  {
    forall i :: 0 <= i < |s| ==> s[i].Some?
  }

  /** How many moves of the list have the given id. */
  function CountId(s: seq<Option<SpecialMove>>, id: int): (c: nat)
    ensures c <= |s|
  {
    if s == [] then 0
    else CountId(s[..|s| - 1], id) + (if s[|s| - 1].Some? && s[|s| - 1].value.id == id then 1 else 0)
  }

  /** The two limits of a special moveset. */
  ghost predicate WithinLimits(s: seq<Option<SpecialMove>>)
  {
    |s| <= MAX_MOVES && forall id :: CountId(s, id) <= 2
  }

  /** What `canAdd(id)` decides. */
  predicate Admits(s: seq<Option<SpecialMove>>, id: int)
  {
    |s| != MAX_MOVES && CountId(s, id) < 2
  }

  /**
   * `addSMove` returns normally on `s`: either the set is full, and `canAdd` answers false
   * before reading any element, or no element is null.
   */
  predicate AddReturns(s: seq<Option<SpecialMove>>)
  {
    |s| == MAX_MOVES || NoNulls(s)
  }

  /** `addSMove(id)`: the move is appended when admitted and silently dropped otherwise. */
  function AfterAdd(s: seq<Option<SpecialMove>>, id: int): seq<Option<SpecialMove>>
    requires AddReturns(s)
  {
    if Admits(s, id) then s + [GetMove(id)] else s
  }

  /** `remove(i)`. */
  function AfterRemove(s: seq<Option<SpecialMove>>, i: int): seq<Option<SpecialMove>>
    requires 0 <= i < |s|
  {
    s[..i] + s[i + 1..]
  }

  /** The names joined by ", ". */
  function Join(names: seq<string>): string
  {
    if |names| == 0 then ""
    else if |names| == 1 then names[0]
    else Join(names[..|names| - 1]) + ", " + names[|names| - 1]
  }

  function Names(s: seq<Option<SpecialMove>>): (r: seq<string>)
    requires NoNulls(s)
    ensures |r| == |s| && forall i :: 0 <= i < |s| ==> r[i] == s[i].value.name
  {
    if s == [] then [] else Names(s[..|s| - 1]) + [s[|s| - 1].value.name]
  }

  // ------------------------------------------------------------------
  // Properties
  // ------------------------------------------------------------------

  lemma {:induction false} CountIdConcat(a: seq<Option<SpecialMove>>, b: seq<Option<SpecialMove>>, id: int)
    ensures CountId(a + b, id) == CountId(a, id) + CountId(b, id)
    decreases |b|
  {
    if b == [] {
      assert a + b == a;
    } else {
      assert (a + b)[..|a + b| - 1] == a + b[..|b| - 1];
      CountIdConcat(a, b[..|b| - 1], id);
    }
  }

  /**
   * `canAdd` refuses exactly the catalogue moves whose addition would break a limit: on a set
   * within limits, an id is admitted if and only if the set with that move appended is still
   * within limits.
   */
  lemma AdmitsExactlyWithinLimits(s: seq<Option<SpecialMove>>, id: int)
    requires WithinLimits(s) && 0 <= id < NUM_SPECIAL_MOVES
    ensures Admits(s, id) <==> WithinLimits(s + [GetMove(id)])
  {
    CountIdConcat(s, [GetMove(id)], id);
    assert [GetMove(id)][..0] == [];
    if Admits(s, id) {
      forall other
        ensures CountId(s + [GetMove(id)], other) <= 2
      {
        CountIdConcat(s, [GetMove(id)], other);
      }
    }
  }

  /** A list in which no move has the id counts none of it. */
  lemma {:induction false} CountIdAbsent(s: seq<Option<SpecialMove>>, id: int)
    requires forall i :: 0 <= i < |s| && s[i].Some? ==> s[i].value.id != id
    ensures CountId(s, id) == 0
  {
    if s != [] {
      CountIdAbsent(s[..|s| - 1], id);
    }
  }

  /**
   * `addSMove` keeps both limits: the set never grows past five moves and no id gets a third
   * copy.
   */
  lemma AddKeepsLimits(s: seq<Option<SpecialMove>>, id: int)
    requires WithinLimits(s) && AddReturns(s)
    ensures WithinLimits(AfterAdd(s, id))
    ensures |AfterAdd(s, id)| == |s| + (if Admits(s, id) then 1 else 0)
  {
    if Admits(s, id) {
      forall other
        ensures CountId(s + [GetMove(id)], other) <= 2
      {
        CountIdConcat(s, [GetMove(id)], other);
        assert [GetMove(id)][..0] == [];
      }
    }
  }

  /** `remove` keeps both limits and the order of the remaining moves. */
  lemma RemoveKeepsLimits(s: seq<Option<SpecialMove>>, i: int)
    requires WithinLimits(s) && 0 <= i < |s|
    ensures WithinLimits(AfterRemove(s, i))
    ensures forall k :: 0 <= k < |s| - 1 ==> AfterRemove(s, i)[k] == (if k < i then s[k] else s[k + 1])
  {
    forall id
      ensures CountId(AfterRemove(s, i), id) <= CountId(s, id)
    {
      RemoveCount(s, i, id);
    }
  }

  /** Removing one element removes at most one occurrence of any id. */
  lemma RemoveCount(s: seq<Option<SpecialMove>>, i: int, id: int)
    requires 0 <= i < |s|
    ensures CountId(AfterRemove(s, i), id) <= CountId(s, id)
  {
    var a, b := s[..i], s[i + 1..];
    assert s == a + ([s[i]] + b);
    CountIdConcat(a, [s[i]] + b, id);
    CountIdConcat([s[i]], b, id);
    CountIdConcat(a, b, id);
  }

  /** Adding a catalogue move to a set without nulls leaves it without nulls. */
  lemma AddKeepsNoNulls(s: seq<Option<SpecialMove>>, id: int)
    requires NoNulls(s) && 0 <= id < NUM_SPECIAL_MOVES
    ensures NoNulls(AfterAdd(s, id))
  {
  }

  /**
   * A set within limits stays within limits whatever ids are offered to it, as long as no
   * call throws; offering only catalogue ids to a set without nulls never throws and never
   * lets a null in.
   */
  lemma {:induction false} AddAllKeepsLimits(s: seq<Option<SpecialMove>>, ids: seq<int>)
    requires WithinLimits(s)
    ensures AddAll(s, ids).Some? ==> WithinLimits(AddAll(s, ids).value)
    ensures NoNulls(s) && (forall k :: 0 <= k < |ids| ==> 0 <= ids[k] < NUM_SPECIAL_MOVES) ==>
      AddAll(s, ids).Some? && NoNulls(AddAll(s, ids).value)
    decreases |ids|
  {
    if ids != [] && AddReturns(s) {
      AddKeepsLimits(s, ids[0]);
      if NoNulls(s) && 0 <= ids[0] < NUM_SPECIAL_MOVES {
        AddKeepsNoNulls(s, ids[0]);
      }
      AddAllKeepsLimits(AfterAdd(s, ids[0]), ids[1..]);
    }
  }

  /** Offering each id of `ids` in turn to `addSMove`; None when one of the calls throws. */
  function AddAll(s: seq<Option<SpecialMove>>, ids: seq<int>): Option<seq<Option<SpecialMove>>>
    decreases |ids|
  {
    if ids == [] then Some(s)
    else if !AddReturns(s) then None
    else AddAll(AfterAdd(s, ids[0]), ids[1..])
  }

  /**
   * An id outside the catalogue lets a null into the set, and the next `addSMove` throws in
   * `canAdd`.
   */
  lemma NullThenAddThrows()
    ensures AddAll([], [9]) == Some([None])
    ensures AddAll([], [9, 0]) == None
  {
    var withNull: seq<Option<SpecialMove>> := [None];
    assert AfterAdd([], 9) == withNull;
    assert !NoNulls(withNull) by { assert withNull[0].None?; }
  }

  /** Each name contributes its own characters plus a two-character separator between names. */
  lemma {:induction false} JoinLength(names: seq<string>)
    requires |names| > 0
    ensures |Join(names)| == TotalLength(names) + 2 * (|names| - 1)
  {
    if |names| > 1 {
      JoinLength(names[..|names| - 1]);
    }
  }

  /** What the rendering loop has built after i of the names: the separator waits for a next name. */
  function Rendering(names: seq<string>, i: int): string
    requires 0 <= i <= |names|
  {
    "[ " + Join(names[..i]) + (if 0 < i < |names| then ", " else "")
  }

  /** One pass of the rendering loop: the name, then ", " unless it is the last. */
  lemma RenderingStep(names: seq<string>, i: int)
    requires 0 <= i < |names|
    ensures Rendering(names, i + 1) == Rendering(names, i) + names[i] + (if i == |names| - 1 then "" else ", ")
  {
    assert names[..i + 1][..i] == names[..i];
  }

  function TotalLength(names: seq<string>): nat
  {
    if names == [] then 0 else TotalLength(names[..|names| - 1]) + |names[|names| - 1]|
  }

  // ------------------------------------------------------------------
  // The class
  // ------------------------------------------------------------------

  class SpecialMoveset {
    var smoveset: seq<Option<SpecialMove>>

    constructor ()
      ensures smoveset == []
    {
      smoveset := [];
    }

    /**
     * `addSMove(id)`. `ok` is false when `canAdd` throws on a null element; the set is then
     * left as it was.
     */
    method AddSMove(id: int) returns (ok: bool)
      modifies this
      ensures ok <==> AddReturns(old(smoveset))
      ensures ok ==> smoveset == AfterAdd(old(smoveset), id)
      ensures !ok ==> smoveset == old(smoveset)
    {
      var admitted := CanAdd(id);
      if admitted.None? {
        return false;
      }
      if admitted.value {
        smoveset := smoveset + [GetMove(id)];
      }
      return true;
    }

    method GetMoveAt(i: int) returns (m: Option<SpecialMove>)
      requires 0 <= i < |smoveset|
      ensures m == smoveset[i]
    {
      m := smoveset[i];
    }

    method Clear()
      modifies this
      ensures smoveset == []
    {
      smoveset := [];
    }

    function IsFull(): (b: bool)
      reads this
      ensures b <==> |smoveset| == MAX_MOVES
    {
      |smoveset| == MAX_MOVES
    }

    /** `remove(i)`: the index is not checked, so a bad one throws; callers pass 0 <= i < size. */
    method Remove(i: int)
      requires 0 <= i < |smoveset|
      modifies this
      ensures smoveset == AfterRemove(old(smoveset), i)
    {
      smoveset := smoveset[..i] + smoveset[i + 1..];
    }

    /** `toString()`, or None when the loop reaches a null element and throws. */
    method ToString() returns (r: Option<string>)
      ensures r.None? <==> !NoNulls(smoveset)
      ensures r.Some? ==> r.value == "[ " + Join(Names(smoveset)) + " ]"
    {
      var text := "[ ";
      var i := 0;
      while i < |smoveset|
        invariant 0 <= i <= |smoveset|
        invariant forall k :: 0 <= k < i ==> smoveset[k].Some?
        invariant NoNulls(smoveset) ==> text == Rendering(Names(smoveset), i)
      {
        if smoveset[i].None? {
          return None;
        }
        if NoNulls(smoveset) {
          RenderingStep(Names(smoveset), i);
        }
        text := text + smoveset[i].value.name + (if i == |smoveset| - 1 then "" else ", ");
        i := i + 1;
      }
      assert Names(smoveset)[..i] == Names(smoveset);
      return Some(text + " ]");
    }

    /**
     * `canAdd(id)`: there is room, and the id is not already present twice. None when the set
     * is not full and the loop reaches a null element, which throws.
     */
    method CanAdd(id: int) returns (r: Option<bool>)
      ensures r.None? <==> !AddReturns(smoveset)
      ensures r.Some? ==> (r.value <==> Admits(smoveset, id))
    {
      if |smoveset| == MAX_MOVES {
        return Some(false);
      }
      var count := 0;
      var i := 0;
      while i < |smoveset|
        invariant 0 <= i <= |smoveset|
        invariant forall k :: 0 <= k < i ==> smoveset[k].Some?
        invariant count == CountId(smoveset[..i], id)
      {
        assert smoveset[..i + 1][..i] == smoveset[..i];
        if smoveset[i].None? {
          return None;
        }
        if smoveset[i].value.id == id {
          count := count + 1;
        }
        i := i + 1;
      }
      assert smoveset[..i] == smoveset;
      return Some(count < 2);
    }
  }
}
