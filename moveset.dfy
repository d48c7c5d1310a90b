/**
 * The four moves of a combatant (core/src/main/java/com/anyicomplex/unlucky/battle/Moveset.java).
 *
 * The move pools (accurate, wide, crit and heal templates, and one pool per boss) are values:
 * a slot never shares an object with a pool, because every drawn template is copied into a
 * new `Move` through the constructor of its kind. Each `MathUtils.random` index is a
 * parameter; `MathUtils.random(n - 1)` lies in [0, n - 1] and throws for an empty pool.
 */
module Movesets {
  import opened GameUtil
  import opened Moves

  const NUM_SLOTS: int := 4

  /** Every template has one of the four kinds, so the copy is never null. */
  predicate ValidTemplates(pool: seq<MoveData>)
  {
    forall k :: 0 <= k < |pool| ==> pool[k].mtype <= HEALING && Scalable(pool[k])
  }

  /** The copy `getRandomMoves` and `getBossMoves` make of a template, by its kind. */
  function Copied(t: MoveData): MoveData
  {
    if t.mtype < 2 then RangedMove(t.mtype, t.name, t.minDamage, t.maxDamage)
    else if t.mtype == 2 then CritMove(t.name, t.minDamage, t.crit)
    else HealMove(t.name, t.minHeal, t.maxHeal, t.dmgReduction)
  }

  /** A copy keeps the kind, the name and the fields its kind uses. */
  lemma CopyKeepsTemplate(t: MoveData)
    requires t.mtype <= HEALING
    ensures Copied(t).mtype == t.mtype && Copied(t).name == t.name
    ensures t.mtype != HEALING ==> Copied(t).minDamage == t.minDamage
    ensures t.mtype < CRIT ==> Copied(t).maxDamage == t.maxDamage
    ensures t.mtype == CRIT ==> Copied(t).crit == t.crit
    ensures t.mtype == HEALING ==>
      Copied(t).minHeal == t.minHeal && Copied(t).maxHeal == t.maxHeal && Copied(t).dmgReduction == t.dmgReduction
    ensures Copied(Copied(t)) == Copied(t)
  {
  }

  /** The index draws of a draw without replacement: the k-th one is below n - k. */
  predicate ValidDraws(n: int, idx: seq<int>)
  {
    |idx| <= n && forall k :: 0 <= k < |idx| ==> 0 <= idx[k] < n - k
  }

  function RemoveAt(s: seq<MoveData>, i: int): seq<MoveData>
    requires 0 <= i < |s|
  {
    s[..i] + s[i + 1..]
  }

  /** The templates `getRandomMoves` picks: each draw indexes the pool left by the earlier ones. */
  function Draw(pool: seq<MoveData>, idx: seq<int>): (r: seq<MoveData>)
    requires ValidDraws(|pool|, idx)
    ensures |r| == |idx|
    ensures ValidTemplates(pool) ==> ValidTemplates(r)
    decreases |idx|
  {
    if idx == [] then []
    else
      RemoveAtKeepsValid(pool, idx[0]);
      [pool[idx[0]]] + Draw(RemoveAt(pool, idx[0]), idx[1..])
  }

  /** The templates `getBossMoves` picks: every draw indexes the whole pool. */
  function BossDraw(pool: seq<MoveData>, idx: seq<int>): (r: seq<MoveData>)
    requires forall k :: 0 <= k < |idx| ==> 0 <= idx[k] < |pool|
    ensures |r| == |idx| && forall k :: 0 <= k < |idx| ==> r[k] == pool[idx[k]]
  {
    seq(|idx|, k requires 0 <= k < |idx| => pool[idx[k]])
  }

  /** How `reset` scales a slot: a heal move by the hp, any other by its own damage seed. */
  function ScaledSlot(m: MoveData, seed: int, hp: int): MoveData
    requires Scalable(m)
  {
    if m.mtype == HEALING then ScaledHeal(m, hp) else ScaledDamage(m, seed as real)
  }

  // ------------------------------------------------------------------
  // Properties of the draws
  // ------------------------------------------------------------------

  /**
   * The normal draw is without replacement: as a multiset the picked templates are contained
   * in the pool, so a template occurring once in the pool fills at most one slot.
   */
  lemma {:induction false} DrawWithoutReplacement(pool: seq<MoveData>, idx: seq<int>)
    requires ValidDraws(|pool|, idx)
    ensures |Draw(pool, idx)| == |idx|
    ensures multiset(Draw(pool, idx)) <= multiset(pool)
    decreases |idx|
  {
    if idx != [] {
      var i := idx[0];
      var rest := RemoveAt(pool, i);
      DrawWithoutReplacement(rest, idx[1..]);
      RemoveAtMultiset(pool, i);
      assert Draw(pool, idx) == [pool[i]] + Draw(rest, idx[1..]);
      assert multiset(Draw(pool, idx)) == multiset{pool[i]} + multiset(Draw(rest, idx[1..]));
    }
  }

  lemma RemoveAtMultiset(s: seq<MoveData>, i: int)
    requires 0 <= i < |s|
    ensures multiset(s) == multiset(RemoveAt(s, i)) + multiset{s[i]}
  {
    assert s == s[..i] + [s[i]] + s[i + 1..];
  }

  /** One step of the normal draw: the first index picks, the rest draw from what remains. */
  lemma DrawStep(all: seq<MoveData>, idx: seq<int>, i: int)
    requires 0 <= i < |idx| && ValidDraws(|all|, idx[i..])
    ensures 0 <= idx[i] < |all| && ValidDraws(|all| - 1, idx[i + 1..])
    ensures Draw(all, idx[i..]) == [all[idx[i]]] + Draw(RemoveAt(all, idx[i]), idx[i + 1..])
  {
    assert idx[i..][0] == idx[i];
    assert idx[i..][1..] == idx[i + 1..];
  }

  /** The loop step of `getRandomMoves`: the picked prefix grows by the template just drawn. */
  lemma DrawAdvance(all: seq<MoveData>, idx: seq<int>, i: int, picked: seq<MoveData>)
    requires 0 <= i < |idx| && ValidDraws(|all|, idx[i..])
    ensures 0 <= idx[i] < |all| && ValidDraws(|all| - 1, idx[i + 1..])
    ensures picked + Draw(all, idx[i..]) == (picked + [all[idx[i]]]) + Draw(RemoveAt(all, idx[i]), idx[i + 1..])
  {
    DrawStep(all, idx, i);
  }

  lemma RemoveAtKeepsValid(s: seq<MoveData>, i: int)
    requires 0 <= i < |s|
    ensures ValidTemplates(s) ==> ValidTemplates(RemoveAt(s, i))
  {
    forall k | ValidTemplates(s) && 0 <= k < |RemoveAt(s, i)|
      ensures RemoveAt(s, i)[k].mtype <= HEALING && Scalable(RemoveAt(s, i)[k])
    {
      assert RemoveAt(s, i)[k] == if k < i then s[k] else s[k + 1];
    }
  }

  /** A copy of a valid template is valid. */
  lemma CopyKeepsValid(s: seq<MoveData>)
    requires ValidTemplates(s)
    ensures forall k :: 0 <= k < |s| ==> Copied(s[k]).mtype <= HEALING && Scalable(Copied(s[k]))
  {
  }

  /** The boss draw is with replacement: one template can fill all four slots. */
  lemma BossDrawRepeats(pool: seq<MoveData>)
    requires |pool| > 0
    ensures BossDraw(pool, [0, 0, 0, 0]) == [pool[0], pool[0], pool[0], pool[0]]
  {
  }

  /** The whole candidate pool of a normal draw: the four template lists, in this order. */
  function AllMoves(accurate: seq<MoveData>, wide: seq<MoveData>, crit: seq<MoveData>, heal: seq<MoveData>): seq<MoveData>
  {
    accurate + wide + crit + heal
  }

  // ------------------------------------------------------------------
  // The class
  // ------------------------------------------------------------------

  class Moveset {
    var moveset: array<Move?>
    const names: array<Option<string>>

    ghost predicate Valid()
      reads this
    {
      moveset.Length == NUM_SLOTS && names.Length == NUM_SLOTS
    }

    /** All four slots hold a move, as after a reset. */
    predicate Filled()
      reads this, moveset
    {
      moveset.Length == NUM_SLOTS && forall i :: 0 <= i < NUM_SLOTS ==> moveset[i] != null
    }

    constructor ()
      ensures Valid() && fresh(moveset) && fresh(names)
      ensures forall i :: 0 <= i < NUM_SLOTS ==> moveset[i] == null && names[i] == None
    {
      moveset := new Move?[NUM_SLOTS](_ => null);
      names := new Option<string>[NUM_SLOTS](_ => None);
    }

    /** A new move built from a template by the constructor of its kind. */
    static method CopyOf(t: MoveData) returns (m: Move)
      requires t.mtype <= HEALING
      ensures fresh(m) && m.Data() == Copied(t)
    {
      if t.mtype < 2 {
        m := new Move.Ranged(t.mtype, t.name, t.minDamage, t.maxDamage);
      } else if t.mtype == 2 {
        m := new Move.Crit(t.name, t.minDamage, t.crit);
      } else {
        m := new Move.Healing(t.name, t.minHeal, t.maxHeal, t.dmgReduction);
      }
    }

    /** One slot of a draw: a new copy of the template goes into `ret[i]`. */
    static method Place(ret: array<Move?>, i: int, t: MoveData, ghost made: seq<Move>) returns (ghost made2: seq<Move>)
      requires 0 <= i < ret.Length && |made| == i && t.mtype <= HEALING
      requires forall k :: 0 <= k < i ==> ret[k] == made[k]
      requires forall k, j :: 0 <= k < j < i ==> made[k] != made[j]
      modifies ret
      ensures |made2| == i + 1 && forall k :: 0 <= k < i ==> made2[k] == made[k]
      ensures forall k :: 0 <= k < i ==> made[k].Data() == old(made[k].Data())
      ensures fresh(made2[i]) && made2[i].Data() == Copied(t)
      ensures forall k :: 0 <= k <= i ==> ret[k] == made2[k]
      ensures forall k, j :: 0 <= k < j <= i ==> made2[k] != made2[j]
    {
      var temp := CopyOf(t);
      ret[i] := temp;
      made2 := made + [temp];
    }

    /** `getRandomMoves`: four copies drawn without replacement from all the templates. */
    static method GetRandomMoves(pool: seq<MoveData>, idx: seq<int>) returns (ret: array<Move?>)
      requires ValidTemplates(pool) && |idx| == NUM_SLOTS && ValidDraws(|pool|, idx)
      ensures fresh(ret) && ret.Length == NUM_SLOTS
      ensures forall i :: 0 <= i < NUM_SLOTS ==> ret[i] != null && fresh(ret[i])
      ensures forall i, j :: 0 <= i < j < NUM_SLOTS ==> ret[i] != ret[j]
      ensures forall i :: 0 <= i < NUM_SLOTS ==> ret[i].Data() == Copied(Draw(pool, idx)[i])
    {
      ret := new Move?[NUM_SLOTS](_ => null);
      var all := pool;
      ghost var picked: seq<MoveData> := [];
      ghost var made: seq<Move> := [];
      var i := 0;
      while i < NUM_SLOTS
        modifies ret
        invariant 0 <= i <= NUM_SLOTS && |picked| == i && |made| == i
        invariant ValidTemplates(all) && ValidDraws(|all|, idx[i..])
        invariant picked + Draw(all, idx[i..]) == Draw(pool, idx)
        invariant forall k :: 0 <= k < i ==> ret[k] == made[k]
        invariant forall k :: 0 <= k < i ==> fresh(made[k]) && made[k].Data() == Copied(picked[k])
        invariant forall k, j :: 0 <= k < j < i ==> made[k] != made[j]
      {
        var index := idx[i];
        DrawAdvance(all, idx, i, picked);
        made := Place(ret, i, all[index], made);
        RemoveAtKeepsValid(all, index);
        picked := picked + [all[index]];
        all := RemoveAt(all, index);
        i := i + 1;
      }
      assert idx[i..] == [];
    }

    /** `getBossMoves`: four copies drawn with replacement from the boss's pool. */
    static method GetBossMoves(pool: seq<MoveData>, idx: seq<int>) returns (ret: array<Move?>)
      requires ValidTemplates(pool) && |idx| == NUM_SLOTS
      requires forall k :: 0 <= k < NUM_SLOTS ==> 0 <= idx[k] < |pool|
      ensures fresh(ret) && ret.Length == NUM_SLOTS
      ensures forall i :: 0 <= i < NUM_SLOTS ==> ret[i] != null && fresh(ret[i])
      ensures forall i, j :: 0 <= i < j < NUM_SLOTS ==> ret[i] != ret[j]
      ensures forall i :: 0 <= i < NUM_SLOTS ==> ret[i].Data() == Copied(BossDraw(pool, idx)[i])
    {
      ret := new Move?[NUM_SLOTS](_ => null);
      ghost var made: seq<Move> := [];
      var i := 0;
      while i < NUM_SLOTS
        modifies ret
        invariant 0 <= i <= NUM_SLOTS && |made| == i
        invariant forall k :: 0 <= k < i ==> ret[k] == made[k]
        invariant forall k :: 0 <= k < i ==> fresh(made[k]) && made[k].Data() == Copied(pool[idx[k]])
        invariant forall k, j :: 0 <= k < j < i ==> made[k] != made[j]
      {
        made := Place(ret, i, pool[idx[i]], made);
        i := i + 1;
      }
    }

    /** Scales each fresh slot: heal moves by the hp, the others by their own damage seed. */
    static method ScaleSlots(slots: array<Move?>, seeds: seq<int>, hp: int)
      requires slots.Length == NUM_SLOTS && |seeds| == NUM_SLOTS
      requires forall i :: 0 <= i < NUM_SLOTS ==> slots[i] != null && Scalable(slots[i].Data())
      requires forall i, j :: 0 <= i < j < NUM_SLOTS ==> slots[i] != slots[j]
      modifies set i | 0 <= i < NUM_SLOTS :: slots[i]
      ensures forall i :: 0 <= i < NUM_SLOTS ==> slots[i] == old(slots[i])
      ensures forall i :: 0 <= i < NUM_SLOTS ==> slots[i].Data() == ScaledSlot(old(slots[i].Data()), seeds[i], hp)
    {
      var i := 0;
      while i < NUM_SLOTS
        invariant 0 <= i <= NUM_SLOTS
        invariant forall k :: 0 <= k < NUM_SLOTS ==> slots[k] == old(slots[k])
        invariant forall k :: 0 <= k < i ==> slots[k].Data() == ScaledSlot(old(slots[k].Data()), seeds[k], hp)
        invariant forall k :: i <= k < NUM_SLOTS ==> slots[k].Data() == old(slots[k].Data())
      {
        if slots[i].mtype == HEALING {
          slots[i].SetHeal(hp);
        } else {
          slots[i].SetDamage(seeds[i] as real);
        }
        i := i + 1;
      }
    }

    /**
     * `reset(min, max, hp)`: four fresh copies drawn without replacement from all the
     * templates, each scaled by `hp` (heal) or by its own seed drawn from [min, max], and the
     * slot names recorded.
     */
    method Reset(min: int, max: int, hp: int, pool: seq<MoveData>, idx: seq<int>, seeds: seq<int>)
      requires Valid()
      requires ValidTemplates(pool) && |idx| == NUM_SLOTS && ValidDraws(|pool|, idx)
      requires |seeds| == NUM_SLOTS && forall k :: 0 <= k < NUM_SLOTS ==> min <= seeds[k] <= max
      modifies this, names
      ensures Valid() && fresh(moveset) && Filled()
      ensures forall i :: 0 <= i < NUM_SLOTS ==> fresh(moveset[i])
      ensures forall i :: 0 <= i < NUM_SLOTS ==>
        moveset[i].Data() == ScaledSlot(Copied(Draw(pool, idx)[i]), seeds[i], hp) &&
        names[i] == Some(moveset[i].name)
    {
      var slots := GetRandomMoves(pool, idx);
      CopyKeepsValid(Draw(pool, idx));
      ScaleSlots(slots, seeds, hp);
      moveset := slots;
      RecordNames();
    }

    /** The naming loop of `reset`: each slot's name is recorded beside it. */
    method RecordNames()
      requires Valid() && Filled()
      modifies names
      ensures forall i :: 0 <= i < NUM_SLOTS ==> names[i] == Some(moveset[i].name)
    {
      for i := 0 to NUM_SLOTS
        invariant forall k :: 0 <= k < i ==> names[k] == Some(moveset[k].name)
      {
        names[i] := Some(moveset[i].name);
      }
    }

    /** `reset(min, max, hp, bossId)`: as above from the boss pool, with replacement; names stay. */
    method ResetBoss(min: int, max: int, hp: int, pool: seq<MoveData>, idx: seq<int>, seeds: seq<int>)
      requires Valid()
      requires ValidTemplates(pool) && |idx| == NUM_SLOTS
      requires forall k :: 0 <= k < NUM_SLOTS ==> 0 <= idx[k] < |pool|
      requires |seeds| == NUM_SLOTS && forall k :: 0 <= k < NUM_SLOTS ==> min <= seeds[k] <= max
      modifies this
      ensures Valid() && fresh(moveset) && Filled()
      ensures forall i :: 0 <= i < NUM_SLOTS ==> fresh(moveset[i])
      ensures forall i :: 0 <= i < NUM_SLOTS ==>
        moveset[i].Data() == ScaledSlot(Copied(BossDraw(pool, idx)[i]), seeds[i], hp)
      ensures names[..] == old(names[..])
    {
      var slots := GetBossMoves(pool, idx);
      CopyKeepsValid(BossDraw(pool, idx));
      ScaleSlots(slots, seeds, hp);
      moveset := slots;
    }

    /** `getDamagePriority`: the first non-heal move, else the slot picked by `draw`. */
    method GetDamagePriority(draw: int) returns (m: Move)
      requires Filled() && 0 <= draw < NUM_SLOTS
      ensures (exists i :: 0 <= i < NUM_SLOTS && moveset[i].mtype != HEALING) ==>
        exists i :: 0 <= i < NUM_SLOTS && m == moveset[i] && m.mtype != HEALING &&
          forall j :: 0 <= j < i ==> moveset[j].mtype == HEALING
      ensures (forall i :: 0 <= i < NUM_SLOTS ==> moveset[i].mtype == HEALING) ==> m == moveset[draw]
    {
      var i := 0;
      while i < moveset.Length
        invariant 0 <= i <= NUM_SLOTS
        invariant forall j :: 0 <= j < i ==> moveset[j].mtype == HEALING
      {
        if moveset[i].mtype != HEALING {
          return moveset[i];
        }
        i := i + 1;
      }
      m := moveset[draw];
    }

    /** `getHealPriority`: the first heal move, else the slot picked by `draw` (then not a heal). */
    method GetHealPriority(draw: int) returns (m: Move)
      requires Filled() && 0 <= draw < NUM_SLOTS
      ensures (exists i :: 0 <= i < NUM_SLOTS && moveset[i].mtype == HEALING) ==>
        exists i :: 0 <= i < NUM_SLOTS && m == moveset[i] && m.mtype == HEALING &&
          forall j :: 0 <= j < i ==> moveset[j].mtype != HEALING
      ensures (forall i :: 0 <= i < NUM_SLOTS ==> moveset[i].mtype != HEALING) ==>
        m == moveset[draw] && m.mtype != HEALING
    {
      var i := 0;
      while i < moveset.Length
        invariant 0 <= i <= NUM_SLOTS
        invariant forall j :: 0 <= j < i ==> moveset[j].mtype != HEALING
      {
        if moveset[i].mtype == HEALING {
          return moveset[i];
        }
        i := i + 1;
      }
      m := moveset[draw];
    }
  }
}
