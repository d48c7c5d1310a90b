/**
 * Combatants (core/src/main/java/com/anyicomplex/unlucky/entity/Entity.java).
 *
 * An entity stages the damage or healing of a move (`hit`, `heal`) and applies it later
 * (`applyDamage`, `applyHeal`), once the battle dialogue has been shown. A shield absorbs
 * damage before the hp bar does. `EntityState` is the value of all combat fields; each
 * operation of the class is specified by a function on that value.
 */
module Entities {

  /** The combat fields of an entity, with the defaults of a freshly built one. */
  datatype EntityState = EntityState(
    id: string,
    dead: bool,
    hp: int,
    maxHp: int,
    previousHp: int,
    damage: int,
    healing: int,
    accuracy: int,
    minDamage: int,
    maxDamage: int,
    hasShield: bool,
    shield: int,
    maxShield: int,
    prevShield: int,
    level: int,
    prevMoveUsed: int,
    moveUsed: int)

  function Initial(id: string): EntityState
  {
    EntityState(id, false, 0, 0, 0, 0, 0, 0, 0, 0, false, 0, 0, 0, 0, -1, -1)
  }

  function Max0(x: int): int
  {
    if x <= 0 then 0 else x
  }

  /** Java's `Math.abs` on int (overflow at the minimum int is not modelled). */
  function Abs(x: int): int
  {
    if x < 0 then -x else x
  }

  // ------------------------------------------------------------------
  // Specification of the operations
  // ------------------------------------------------------------------

  /** `hit(d)` only stages the damage; nothing is applied yet. */
  function AfterHit(s: EntityState, d: int): (r: EntityState)
    ensures r.damage == d
    ensures r.(damage := s.damage) == s
  {
    s.(damage := d)
  }

  /** `heal(h)` only stages the healing. */
  function AfterHeal(s: EntityState, h: int): (r: EntityState)
    ensures r.healing == h
    ensures r.(healing := s.healing) == s
  {
    s.(healing := h)
  }

  function AfterSetShield(s: EntityState, m: int): EntityState
  {
    s.(hasShield := true, shield := m, maxShield := m, prevShield := m)
  }

  function AfterResetShield(s: EntityState): EntityState
  {
    s.(hasShield := false, shield := 0, maxShield := 0, prevShield := 0)
  }

  /** `damageHp`: the pending damage is taken off the hp bar, which stops at 0 and kills. */
  function AfterDamageHp(s: EntityState): EntityState
  {
    var h := s.hp - s.damage;
    s.(previousHp := s.hp, hp := Max0(h), damage := 0, dead := if h <= 0 then true else s.dead)
  }

  /** The move markers shift when a staged move takes effect. */
  function ShiftMove(s: EntityState): EntityState
  {
    s.(moveUsed := s.prevMoveUsed, prevMoveUsed := -1)
  }

  /** `applyDamage`. */
  function AfterApplyDamage(s: EntityState): EntityState
  {
    if s.hasShield then
      if s.damage == 0 then
        s.(hasShield := false)
      else
        var t := ShiftMove(s.(prevShield := s.shield));
        if s.shield - s.damage < 0 then
          AfterDamageHp(t.(damage := Abs(s.shield - s.damage), shield := 0))
        else if s.shield - s.damage == 0 then
          t.(shield := 0)
        else
          t.(shield := s.shield - s.damage, damage := 0)
    else
      AfterDamageHp(ShiftMove(s))
  }

  /** `applyHeal`: the staged healing is added to hp, which stops at maxHp. */
  function AfterApplyHeal(s: EntityState): EntityState
  {
    var h := s.hp + s.healing;
    ShiftMove(s).(previousHp := s.hp, hp := if h > s.maxHp then s.maxHp else h, healing := 0)
  }

  /** The hp clamp done by `update` at every frame. */
  function AfterClamp(s: EntityState): EntityState
  {
    var h := if s.hp > s.maxHp then s.maxHp else s.hp;
    s.(hp := if h <= 0 then 0 else h)
  }

  // ------------------------------------------------------------------
  // Properties of applyDamage and applyHeal
  // ------------------------------------------------------------------

  /** A shielded entity hit for 0 loses the shield flag and nothing else. */
  lemma ShieldedMissDropsShieldOnly(s: EntityState)
    requires s.hasShield && s.damage == 0
    ensures AfterApplyDamage(s) == s.(hasShield := false)
  {
  }

  /** Damage below the shield only wears the shield down. */
  lemma ShieldAbsorbsSmallHit(s: EntityState)
    requires s.hasShield && 0 < s.damage < s.shield
    ensures var r := AfterApplyDamage(s);
      r.hp == s.hp && r.dead == s.dead && r.shield == s.shield - s.damage &&
      r.prevShield == s.shield && r.damage == 0 && r.hasShield
  {
  }

  /**
   * Damage equal to the shield breaks it without touching hp; the pending damage is left
   * staged (it is not reset on this branch).
   */
  lemma ShieldBrokenExactly(s: EntityState)
    requires s.hasShield && s.damage != 0 && s.damage == s.shield
    ensures var r := AfterApplyDamage(s);
      r.hp == s.hp && r.dead == s.dead && r.shield == 0 && r.damage == s.damage
  {
  }

  /** Damage beyond the shield breaks it and the excess, exactly, reaches the hp bar. */
  lemma ShieldBrokenThrough(s: EntityState)
    requires s.hasShield && 0 <= s.shield < s.damage
    ensures AfterApplyDamage(s).shield == 0 && AfterApplyDamage(s).damage == 0
    ensures AfterApplyDamage(s).previousHp == s.hp
    ensures AfterApplyDamage(s).hp == Max0(s.hp - (s.damage - s.shield))
    ensures AfterApplyDamage(s).dead <==> s.dead || s.hp <= s.damage - s.shield
  {
  }

  /** Without a shield the whole damage reaches the hp bar. */
  lemma UnshieldedHit(s: EntityState)
    requires !s.hasShield
    ensures var r := AfterApplyDamage(s);
      r.previousHp == s.hp && r.hp == Max0(s.hp - s.damage) && r.damage == 0 &&
      (r.dead <==> s.dead || s.hp <= s.damage) &&
      r.moveUsed == s.prevMoveUsed && r.prevMoveUsed == -1
  {
  }

  /** Hp lies within [0, maxHp]. */
  predicate HpInRange(s: EntityState)
  {
    0 <= s.hp <= s.maxHp
  }

  /**
   * The hp bar stays within [0, maxHp] through the clamp of `update`, through any
   * non-negative damage and through any non-negative healing.
   */
  lemma HpInRangePreserved(s: EntityState)
    ensures s.maxHp >= 0 ==> HpInRange(AfterClamp(s))
    ensures HpInRange(s) && s.damage >= 0 ==> HpInRange(AfterApplyDamage(s))
    ensures HpInRange(s) && s.healing >= 0 ==> HpInRange(AfterApplyHeal(s))
  {
  }

  /** Healing restores exactly the staged amount, up to maxHp, and is then consumed. */
  lemma HealCapped(s: EntityState)
    requires HpInRange(s) && s.healing >= 0
    ensures var r := AfterApplyHeal(s);
      r.previousHp == s.hp && r.healing == 0 && r.hp - s.hp == (if s.healing < s.maxHp - s.hp then s.healing else s.maxHp - s.hp)
  {
  }

  // ------------------------------------------------------------------
  // A sequence of attacks
  // ------------------------------------------------------------------

  /** Each amount in `ds` is staged with `hit` and then applied with `applyDamage`. */
  function TakeHits(s: EntityState, ds: seq<int>): EntityState
    decreases |ds|
  {
    if ds == [] then s else TakeHits(AfterApplyDamage(AfterHit(s, ds[0])), ds[1..])
  }

  function Sum(ds: seq<int>): int
  {
    if ds == [] then 0 else ds[0] + Sum(ds[1..])
  }

  predicate AllPositive(ds: seq<int>)
  {
    forall i :: 0 <= i < |ds| ==> ds[i] > 0
  }

  /**
   * Against an unshielded entity, hits add up: hp drops by the total, stopping at 0, and the
   * entity is dead exactly when the total reaches its hp.
   */
  lemma {:induction false} UnshieldedHitsAddUp(s: EntityState, ds: seq<int>)
    requires !s.hasShield && s.hp > 0 && AllPositive(ds)
    ensures TakeHits(s, ds).hp == Max0(s.hp - Sum(ds))
    ensures TakeHits(s, ds).dead <==> s.dead || Sum(ds) >= s.hp
    ensures !TakeHits(s, ds).hasShield
    decreases |ds|
  {
    if ds != [] {
      var t := AfterApplyDamage(AfterHit(s, ds[0]));
      if t.hp > 0 {
        UnshieldedHitsAddUp(t, ds[1..]);
      } else {
        SumPositive(ds[1..]);
        DeadStaysAtZero(t, ds[1..]);
      }
    }
  }

  /** Once hp is 0 and the shield is gone, further positive hits keep hp at 0 and the entity dead. */
  lemma {:induction false} DeadStaysAtZero(s: EntityState, ds: seq<int>)
    requires !s.hasShield && s.hp == 0 && s.dead && AllPositive(ds)
    ensures TakeHits(s, ds).hp == 0 && TakeHits(s, ds).dead && !TakeHits(s, ds).hasShield
    decreases |ds|
  {
    if ds != [] {
      DeadStaysAtZero(AfterApplyDamage(AfterHit(s, ds[0])), ds[1..]);
    }
  }

  lemma {:induction false} SumPositive(ds: seq<int>)
    requires AllPositive(ds)
    ensures Sum(ds) >= |ds|
    decreases |ds|
  {
    if ds != [] {
      SumPositive(ds[1..]);
    }
  }

  /**
   * A shield absorbs the first `shield` points of a run of positive hits: hp only loses what
   * the hits total beyond the shield, and the shield is worn down by the total.
   */
  lemma {:induction false} ShieldedHitsAbsorbed(s: EntityState, ds: seq<int>)
    requires s.hasShield && s.shield >= 0 && s.hp > 0 && AllPositive(ds)
    ensures TakeHits(s, ds).hp == Max0(s.hp - Max0(Sum(ds) - s.shield))
    ensures TakeHits(s, ds).shield == Max0(s.shield - Sum(ds))
    ensures TakeHits(s, ds).dead <==> s.dead || Sum(ds) - s.shield >= s.hp
    decreases |ds|
  {
    if ds != [] {
      var t := AfterApplyDamage(AfterHit(s, ds[0]));
      assert t.hasShield;
      SumPositive(ds[1..]);
      if t.hp > 0 {
        ShieldedHitsAbsorbed(t, ds[1..]);
      } else {
        ShieldedDeadStaysAtZero(t, ds[1..]);
      }
    }
  }

  lemma {:induction false} ShieldedDeadStaysAtZero(s: EntityState, ds: seq<int>)
    requires s.hasShield && s.shield == 0 && s.hp == 0 && s.dead && AllPositive(ds)
    ensures TakeHits(s, ds).hp == 0 && TakeHits(s, ds).shield == 0 && TakeHits(s, ds).dead
    decreases |ds|
  {
    if ds != [] {
      ShieldedDeadStaysAtZero(AfterApplyDamage(AfterHit(s, ds[0])), ds[1..]);
    }
  }

  // ------------------------------------------------------------------
  // The class
  // ------------------------------------------------------------------

  class Entity {
    var id: string
    var dead: bool
    var hp: int
    var maxHp: int
    var previousHp: int
    var damage: int
    var healing: int
    var accuracy: int
    var minDamage: int
    var maxDamage: int
    var hasShield: bool
    var shield: int
    var maxShield: int
    var prevShield: int
    var level: int
    var prevMoveUsed: int
    var moveUsed: int

    function State(): EntityState
      reads this
    {
      EntityState(id, dead, hp, maxHp, previousHp, damage, healing, accuracy, minDamage, maxDamage,
                  hasShield, shield, maxShield, prevShield, level, prevMoveUsed, moveUsed)
    }

    constructor (id: string)
      ensures State() == Initial(id)
    {
      this.id := id;
      dead, hp, maxHp, previousHp := false, 0, 0, 0;
      damage, healing := 0, 0;
      accuracy, minDamage, maxDamage := 0, 0, 0;
      hasShield, shield, maxShield, prevShield := false, 0, 0, 0;
      level := 0;
      prevMoveUsed, moveUsed := -1, -1;
    }

    method Hit(d: int)
      modifies this
      ensures State() == AfterHit(old(State()), d)
    {
      damage := d;
    }

    method Heal(h: int)
      modifies this
      ensures State() == AfterHeal(old(State()), h)
    {
      healing := h;
    }

    method SetShield(m: int)
      modifies this
      ensures State() == AfterSetShield(old(State()), m)
    {
      hasShield := true;
      shield, maxShield, prevShield := m, m, m;
    }

    method ResetShield()
      modifies this
      ensures State() == AfterResetShield(old(State()))
    {
      hasShield := false;
      shield, maxShield, prevShield := 0, 0, 0;
    }

    method ApplyDamage()
      modifies this
      ensures State() == AfterApplyDamage(old(State()))
    {
      if hasShield {
        if damage == 0 {
          hasShield := false;
          return;
        }
        prevShield := shield;
        moveUsed := prevMoveUsed;
        prevMoveUsed := -1;
        if shield - damage < 0 {
          damage := Abs(shield - damage);
          shield := 0;
          DamageHp();
        } else if shield - damage == 0 {
          shield := 0;
        } else {
          shield := shield - damage;
          damage := 0;
        }
      } else {
        moveUsed := prevMoveUsed;
        prevMoveUsed := -1;
        DamageHp();
      }
    }

    method DamageHp()
      modifies this
      ensures State() == AfterDamageHp(old(State()))
    {
      previousHp := hp;
      hp := hp - damage;
      damage := 0;
      if hp <= 0 {
        hp := 0;
        dead := true;
      }
    }

    method ApplyHeal()
      modifies this
      ensures State() == AfterApplyHeal(old(State()))
    {
      previousHp := hp;
      moveUsed := prevMoveUsed;
      prevMoveUsed := -1;
      hp := hp + healing;
      healing := 0;
      if hp > maxHp {
        hp := maxHp;
      }
    }

    /** The rpg part of `update`: hp is clamped into [0, maxHp]. */
    method ClampHp()
      modifies this
      ensures State() == AfterClamp(old(State()))
    {
      if hp > maxHp {
        hp := maxHp;
      }
      if hp <= 0 {
        hp := 0;
      }
    }

    /** `useMove`: the move type is staged until the next applyDamage or applyHeal. */
    method UseMove(move: int)
      modifies this
      ensures State() == old(State()).(prevMoveUsed := move)
    {
      prevMoveUsed := move;
    }

    method SetDead(d: bool)
      modifies this
      ensures State() == old(State()).(dead := d)
    {
      dead := d;
    }

    /** Entity's own `setMaxHp`: only maxHp changes. */
    method SetMaxHp(m: int)
      modifies this
      ensures State() == old(State()).(maxHp := m)
    {
      maxHp := m;
    }

    method SetHp(h: int)
      modifies this
      ensures State() == old(State()).(hp := h)
    {
      hp := h;
    }

    method SetMinDamage(d: int)
      modifies this
      ensures State() == old(State()).(minDamage := d)
    {
      minDamage := d;
    }

    method SetMaxDamage(d: int)
      modifies this
      ensures State() == old(State()).(maxDamage := d)
    {
      maxDamage := d;
    }

    method SetAccuracy(a: int)
      modifies this
      ensures State() == old(State()).(accuracy := a)
    {
      accuracy := a;
    }

    method SetLevel(l: int)
      modifies this
      ensures State() == old(State()).(level := l)
    {
      level := l;
    }
  }
}
