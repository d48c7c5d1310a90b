/**
 * Battle moves (core/src/main/java/com/anyicomplex/unlucky/battle/Move.java).
 *
 * A move is accurate (type 0), wide (1), crit (2) or healing (3). Its float fields are reals
 * here. The pools hold templates; a battle copies a template and rescales the copy with the
 * entity's damage seed (`setDamage`) or max hp (`setHeal`).
 */
module Moves {
  import opened GameUtil

  const ACCURATE: int := 0
  const WIDE: int := 1
  const CRIT: int := 2
  const HEALING: int := 3

  /** The public fields of a move. */
  datatype MoveData = MoveData(
    name: string,
    mtype: int,
    minDamage: real,
    maxDamage: real,
    minHeal: real,
    maxHeal: real,
    crit: int,
    dmgReduction: int)

  /** What the accurate/wide constructor builds: no heal range and no crit chance. */
  function RangedMove(mtype: int, name: string, min: real, max: real): MoveData
  {
    MoveData(name, mtype, min, max, -1.0, -1.0, -1, 0)
  }

  /** What the crit constructor builds: a fixed damage and a crit chance, no heal range. */
  function CritMove(name: string, damage: real, crit: int): MoveData
  {
    MoveData(name, CRIT, damage, damage, -1.0, -1.0, crit, 0)
  }

  /** What the heal constructor builds: a heal range and a damage reduction, no damage range. */
  function HealMove(name: string, min: real, max: real, dmgReduction: int): MoveData
  {
    MoveData(name, HEALING, -1.0, -1.0, min, max, -1, dmgReduction)
  }

  /** A crit move divides by its damage when scaled, so that damage must not be 0. */
  predicate Scalable(m: MoveData)
  {
    m.mtype == CRIT ==> m.minDamage != 0.0
  }

  /** `setDamage(seed)`. */
  function ScaledDamage(m: MoveData, seed: real): MoveData
    requires Scalable(m)
  {
    if m.mtype == HEALING then m
    else if m.mtype == ACCURATE then
      m.(minDamage := seed - m.minDamage * (seed / 24.0), maxDamage := seed + m.maxDamage * (seed / 24.0))
    else if m.mtype == WIDE then
      m.(minDamage := seed - m.minDamage * (seed / 2.0), maxDamage := seed + m.maxDamage * (seed / 12.0))
    else if m.mtype == CRIT then
      var d := seed - seed / m.minDamage;
      m.(minDamage := d, maxDamage := d)
    else m
  }

  /** `setHeal(hpSeed)`: both bounds are multiplied by the integer quotient hpSeed / 16. */
  function ScaledHeal(m: MoveData, hpSeed: int): MoveData
  {
    if m.mtype != HEALING then m
    else
      var q := JavaDiv(hpSeed, 16) as real;
      m.(minHeal := q * m.minHeal, maxHeal := q * m.maxHeal)
  }

  // ------------------------------------------------------------------
  // Properties of the scaling
  // ------------------------------------------------------------------

  /** Damage scaling leaves a heal move alone, and heal scaling leaves every other move alone. */
  lemma ScalingTouchesOwnKindOnly(m: MoveData, seed: real, hpSeed: int)
    requires Scalable(m)
    ensures m.mtype == HEALING ==> ScaledDamage(m, seed) == m
    ensures m.mtype != HEALING ==> ScaledHeal(m, hpSeed) == m
    ensures ScaledDamage(m, seed).(minDamage := m.minDamage, maxDamage := m.maxDamage) == m
    ensures ScaledHeal(m, hpSeed).(minHeal := m.minHeal, maxHeal := m.maxHeal) == m
  {
  }

  /**
   * An accurate move's range surrounds the seed, and its width is (min + max) / 24 of the
   * seed, for non-negative template bounds and seed.
   */
  lemma AccurateRangeAroundSeed(m: MoveData, seed: real)
    requires m.mtype == ACCURATE && m.minDamage >= 0.0 && m.maxDamage >= 0.0 && seed >= 0.0
    ensures ScaledDamage(m, seed).minDamage <= seed <= ScaledDamage(m, seed).maxDamage
    ensures ScaledDamage(m, seed).maxDamage - ScaledDamage(m, seed).minDamage ==
            (m.minDamage + m.maxDamage) * seed / 24.0
  {
    var r := ScaledDamage(m, seed);
    assert m.minDamage * (seed / 24.0) >= 0.0 by { NonNegProduct(m.minDamage, seed / 24.0); }
    assert m.maxDamage * (seed / 24.0) >= 0.0 by { NonNegProduct(m.maxDamage, seed / 24.0); }
  }

  lemma NonNegProduct(a: real, b: real)
    requires a >= 0.0 && b >= 0.0
    ensures a * b >= 0.0
  {
  }

  /** The lower bound of a wide move is not clamped: it can fall below zero. */
  lemma WideMinimumCanBeNegative()
    ensures ScaledDamage(RangedMove(WIDE, "wide", 4.0, 1.0), 10.0).minDamage == -10.0
  {
  }

  /**
   * A crit move deals the fixed damage seed - seed / d, where d is its template damage: below
   * the seed for d > 1 and a positive seed, and nothing at all for d == 1.
   */
  lemma CritFixedDamage(m: MoveData, seed: real)
    requires m.mtype == CRIT && m.minDamage != 0.0
    ensures ScaledDamage(m, seed).minDamage == ScaledDamage(m, seed).maxDamage
    ensures m.minDamage == 1.0 ==> ScaledDamage(m, seed).minDamage == 0.0
    ensures m.minDamage > 1.0 && seed > 0.0 ==> 0.0 < ScaledDamage(m, seed).minDamage < seed
  {
    if m.minDamage > 1.0 && seed > 0.0 {
      assert seed / m.minDamage < seed by { DivShrinks(seed, m.minDamage); }
    }
  }

  lemma DivShrinks(a: real, d: real)
    requires a > 0.0 && d > 1.0
    ensures 0.0 < a / d < a
  {
    assert a == (a / d) * d;
  }

  /**
   * The heal quotient is an integer division truncated toward zero, so any hp seed strictly
   * between -16 and 16 scales the heal range to nothing.
   */
  lemma HealVanishesBelowSixteen(m: MoveData, hpSeed: int)
    requires m.mtype == HEALING && -16 < hpSeed < 16
    ensures ScaledHeal(m, hpSeed).minHeal == 0.0 && ScaledHeal(m, hpSeed).maxHeal == 0.0
  {
    assert JavaDiv(hpSeed, 16) == 0;
  }

  /** A bigger hp seed never gives a smaller heal range, for non-negative template bounds. */
  lemma {:induction false} HealGrowsWithHp(m: MoveData, h1: int, h2: int)
    requires m.mtype == HEALING && m.minHeal >= 0.0 && m.maxHeal >= 0.0 && 0 <= h1 <= h2
    ensures ScaledHeal(m, h1).minHeal <= ScaledHeal(m, h2).minHeal
    ensures ScaledHeal(m, h1).maxHeal <= ScaledHeal(m, h2).maxHeal
  {
    var q1, q2 := JavaDiv(h1, 16), JavaDiv(h2, 16);
    assert q1 <= q2;
    MulMonotone(q1 as real, q2 as real, m.minHeal);
    MulMonotone(q1 as real, q2 as real, m.maxHeal);
  }

  lemma MulMonotone(x: real, y: real, c: real)
    requires x <= y && c >= 0.0
    ensures x * c <= y * c
  {
  }

  // ------------------------------------------------------------------
  // The class
  // ------------------------------------------------------------------

  class Move {
    var name: string
    var mtype: int
    var minDamage: real
    var maxDamage: real
    var minHeal: real
    var maxHeal: real
    var crit: int
    var dmgReduction: int

    function Data(): MoveData
      reads this
    {
      MoveData(name, mtype, minDamage, maxDamage, minHeal, maxHeal, crit, dmgReduction)
    }

    /** The accurate/wide constructor. */
    constructor Ranged(mtype: int, name: string, min: real, max: real)
      ensures Data() == RangedMove(mtype, name, min, max)
    {
      this.mtype := mtype;
      this.name := name;
      this.minDamage := min;
      this.maxDamage := max;
      minHeal, maxHeal, crit := -1.0, -1.0, -1;
      dmgReduction := 0;
    }

    /** The crit constructor. */
    constructor Crit(name: string, damage: real, crit: int)
      ensures Data() == CritMove(name, damage, crit)
    {
      mtype := CRIT;
      this.name := name;
      minDamage, maxDamage := damage, damage;
      minHeal, maxHeal := -1.0, -1.0;
      this.crit := crit;
      dmgReduction := 0;
    }

    /** The heal constructor. */
    constructor Healing(name: string, min: real, max: real, dmgReduction: int)
      ensures Data() == HealMove(name, min, max, dmgReduction)
    {
      mtype := HEALING;
      this.name := name;
      minHeal, maxHeal := min, max;
      minDamage, maxDamage, crit := -1.0, -1.0, -1;
      this.dmgReduction := dmgReduction;
    }

    method SetDamage(seed: real)
      requires Scalable(Data())
      modifies this
      ensures Data() == ScaledDamage(old(Data()), seed)
    {
      if mtype == HEALING {
        return;
      }
      var lo, hi := minDamage, maxDamage;
      if mtype == ACCURATE {
        minDamage := seed - lo * (seed / 24.0);
        maxDamage := seed + hi * (seed / 24.0);
      } else if mtype == WIDE {
        minDamage := seed - lo * (seed / 2.0);
        maxDamage := seed + hi * (seed / 12.0);
      } else if mtype == CRIT {
        var d := seed - seed / lo;
        minDamage, maxDamage := d, d;
      }
    }

    method SetHeal(hpSeed: int)
      modifies this
      ensures Data() == ScaledHeal(old(Data()), hpSeed)
    {
      if mtype != HEALING {
        return;
      }
      minHeal := (JavaDiv(hpSeed, 16) as real) * minHeal;
      maxHeal := (JavaDiv(hpSeed, 16) as real) * maxHeal;
    }
  }
}
