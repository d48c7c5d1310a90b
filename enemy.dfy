/**
 * Enemies (core/src/main/java/com/anyicomplex/unlucky/entity/enemy/Enemy.java, Normal.java and
 * Boss.java).
 *
 * An enemy is an entity with a status set, a moveset, a battle sprite size and a respawn
 * counter. `Normal` and `Boss` differ in how `setStats` rolls the level-scaled hp, damage range
 * and accuracy; the subclass is the `kind` of an enemy here, and the entity part is the `body`.
 * Every `MathUtils.random` draw is a parameter whose precondition is the draw's range, and
 * `Math.pow(level, e)` with a non-integer exponent is the real parameter `pow`.
 */
module Enemies {
  import opened GameUtil
  import opened Entities
  import opened Status
  import opened Movesets

  datatype EnemyKind = NormalKind(isElite: bool) | BossKind(bossId: int)

  /** The sprite size of every new enemy in battle. */
  const BATTLE_SIZE: int := 48

  function IsElite(k: EnemyKind): bool
  {
    k.NormalKind? && k.isElite
  }

  function IsBoss(k: EnemyKind): bool
  {
    k.BossKind?
  }

  /** No enemy is both: a boss is never elite, and only a normal enemy can be. */
  lemma EliteAndBossExclusive(k: EnemyKind)
    ensures !(IsElite(k) && IsBoss(k))
    ensures IsElite(k) ==> k.NormalKind?
  {
  }

  /** The id a normal enemy ends up with: elites carry the "[ELITE] " prefix. */
  function NormalId(id: string, elite: bool): (r: string)
    ensures elite ==> |r| == |id| + 8 && r[..8] == "[ELITE] " && r[8..] == id
    ensures !elite ==> r == id
  {
    if elite then "[ELITE] " + id else id
  }

  // ------------------------------------------------------------------
  // Stat rolls
  // ------------------------------------------------------------------

  /** The stats `setStats` writes. */
  datatype Stats = Stats(maxHp: int, minDamage: int, maxDamage: int, accuracy: int)

  /**
   * The draws of one pass of a per-level damage loop: the minimum grows by
   * `minBase - minJitter` and the maximum by `maxBase + maxJitter`.
   */
  datatype PassDraw = PassDraw(minBase: int, minJitter: int, maxBase: int, maxJitter: int)

  function MinIncrease(p: PassDraw): int
  {
    p.minBase - p.minJitter
  }

  function MaxIncrease(p: PassDraw): int
  {
    p.maxBase + p.maxJitter
  }

  function SumMin(ps: seq<PassDraw>): int
  {
    if ps == [] then 0 else SumMin(ps[..|ps| - 1]) + MinIncrease(ps[|ps| - 1])
  }

  function SumMax(ps: seq<PassDraw>): int
  {
    if ps == [] then 0 else SumMax(ps[..|ps| - 1]) + MaxIncrease(ps[|ps| - 1])
  }

  /** The loop `for (i = 0; i < level - 1; i++)` runs this many times. */
  function Passes(level: int): nat
  {
    if level <= 1 then 0 else level - 1
  }

  /** A pass of `Normal.setStats`: one shared mean in [1, 4], jitters `MathUtils.random(2)`. */
  predicate NormalPass(p: PassDraw)
  {
    ENEMY_MIN_DMG_INCREASE <= p.minBase <= ENEMY_MAX_DMG_INCREASE && p.maxBase == p.minBase &&
    0 <= p.minJitter <= 2 && 0 <= p.maxJitter <= 2
  }

  /**
   * A pass of `Boss.setStats`: two `random(2, 4)` and `random(1)` for boss 0, two
   * `random(1, 2)` and `random(2)` for boss 1, two `random(1, 2)` and a fixed 1 for boss 2.
   */
  predicate BossPass(bossId: int, p: PassDraw)
  {
    if bossId == 0 then
      2 <= p.minBase <= 4 && 2 <= p.maxBase <= 4 && 0 <= p.minJitter <= 1 && 0 <= p.maxJitter <= 1
    else if bossId == 1 then
      1 <= p.minBase <= 2 && 1 <= p.maxBase <= 2 && 0 <= p.minJitter <= 2 && 0 <= p.maxJitter <= 2
    else
      1 <= p.minBase <= 2 && 1 <= p.maxBase <= 2 && p.minJitter == 1 && p.maxJitter == 1
  }

  /** The draws `Normal.setStats` makes, each within its range (the float multiplier excludes its upper end). */
  predicate NormalDraws(level: int, mult: real, hpDraw: int, min0: int, max0: int, passes: seq<PassDraw>, acc: int)
  {
    MIN_ELITE_MULTIPLIER <= mult < MAX_ELITE_MULTIPLIER &&
    0 <= hpDraw <= 8 &&
    ENEMY_INIT_MIN_MINDMG <= min0 <= ENEMY_INIT_MAX_MINDMG &&
    ENEMY_INIT_MIN_MAXDMG <= max0 <= ENEMY_INIT_MAX_MAXDMG &&
    |passes| == Passes(level) && (forall k :: 0 <= k < |passes| ==> NormalPass(passes[k])) &&
    ENEMY_MIN_ACCURACY <= acc <= ENEMY_MAX_ACCURACY
  }

  /** An elite's stat: the float product truncated toward zero by the `(int)` cast. */
  function EliteScaled(mult: real, x: int): int
  {
    Trunc(mult * x as real)
  }

  /** What `Normal.setStats` computes; the hp seed `(int) (Math.pow(level, 2) + 25)` is exact. */
  function NormalStats(level: int, elite: bool, mult: real, hpDraw: int, min0: int, max0: int,
                       passes: seq<PassDraw>, acc: int): Stats
    requires NormalDraws(level, mult, hpDraw, min0, max0, passes, acc)
  {
    var mhp := DeviatedRandomValue(level * level + 25, 4, hpDraw);
    var minDmg := min0 + SumMin(passes);
    var maxDmg := max0 + SumMax(passes);
    if elite then Stats(EliteScaled(mult, mhp), EliteScaled(mult, minDmg), EliteScaled(mult, maxDmg), acc)
    else Stats(mhp, minDmg, maxDmg, acc)
  }

  /** The draws `Boss.setStats` makes for its boss id; an unknown id draws nothing. */
  predicate BossDraws(bossId: int, level: int, hpDraw: int, min0: int, max0: int, passes: seq<PassDraw>, acc: int)
  {
    (bossId == 0 ==> 0 <= hpDraw <= 2 && 5 <= min0 <= 9 && 10 <= max0 <= 15) &&
    (bossId == 1 ==> 0 <= hpDraw <= 6 && 3 <= min0 <= 8 && 9 <= max0 <= 15) &&
    (bossId == 2 ==> 0 <= hpDraw <= 300 && 1 <= min0 <= 4 && 5 <= max0 <= 8) &&
    (0 <= bossId <= 2 ==> |passes| == Passes(level) && forall k :: 0 <= k < |passes| ==> BossPass(bossId, passes[k])) &&
    ENEMY_MIN_ACCURACY <= acc <= ENEMY_MAX_ACCURACY
  }

  /**
   * What `Boss.setStats` computes. `pow` is `Math.pow(level, 2.1)` for boss 0 and
   * `Math.pow(level, 2.3)` for boss 2; boss 1 uses the exact `level * level`.
   */
  function BossStats(bossId: int, level: int, pow: real, hpDraw: int, min0: int, max0: int,
                     passes: seq<PassDraw>, acc: int): Stats
    requires BossDraws(bossId, level, hpDraw, min0, max0, passes, acc)
  {
    if bossId == 0 then
      Stats(DeviatedRandomValue(Trunc(pow + 15.0), 1, hpDraw), min0 + SumMin(passes), max0 + SumMax(passes), acc)
    else if bossId == 1 then
      Stats(DeviatedRandomValue(level * level + 14, 3, hpDraw), min0 + SumMin(passes), max0 + SumMax(passes), acc)
    else if bossId == 2 then
      Stats(DeviatedRandomValue(Trunc(pow + 25.0), 150, hpDraw), min0 + SumMin(passes), max0 + SumMax(passes), acc)
    else
      Stats(0, 0, 0, acc)
  }

  /** The entity after `setStats`: the Enemy `setMaxHp` puts hp and previousHp at the new max. */
  function WithStats(s: EntityState, st: Stats): EntityState
  {
    s.(maxHp := st.maxHp, hp := st.maxHp, previousHp := st.maxHp,
       minDamage := st.minDamage, maxDamage := st.maxDamage, accuracy := st.accuracy)
  }

  /** `getPassiveDescription()`. */
  const SLIME_PASSIVE: string := "Slime Revival (Respawns after death with half health points up to 4 times)."
  const PHANTOM_PASSIVE: string := "Phantom Presence (Causes the player's accuracy to be decreased by 40% for all attacks)."
  const LIFESTEAL_PASSIVE: string := "Lifesteal (Heals for 20% of damage from each attack)."

  function PassiveDescription(bossId: int): string
  {
    match bossId
    case 0 => SLIME_PASSIVE
    case 1 => PHANTOM_PASSIVE
    case 2 => LIFESTEAL_PASSIVE
    case _ => ""
  }

  // ------------------------------------------------------------------
  // Properties of the rolls
  // ------------------------------------------------------------------

  /** Summed per-pass increments stay between the per-pass bounds times the number of passes. */
  lemma {:induction false} SumMinBounds(ps: seq<PassDraw>, lo: int, hi: int)
    requires forall k :: 0 <= k < |ps| ==> lo <= MinIncrease(ps[k]) <= hi
    ensures lo * |ps| <= SumMin(ps) <= hi * |ps|
  {
    if ps != [] {
      SumMinBounds(ps[..|ps| - 1], lo, hi);
    }
  }

  lemma {:induction false} SumMaxBounds(ps: seq<PassDraw>, lo: int, hi: int)
    requires forall k :: 0 <= k < |ps| ==> lo <= MaxIncrease(ps[k]) <= hi
    ensures lo * |ps| <= SumMax(ps) <= hi * |ps|
  {
    if ps != [] {
      SumMaxBounds(ps[..|ps| - 1], lo, hi);
    }
  }

  /** When every pass widens the range by at least g, the passes widen it by g per pass. */
  lemma {:induction false} GapGrows(ps: seq<PassDraw>, g: int)
    requires forall k :: 0 <= k < |ps| ==> MaxIncrease(ps[k]) - MinIncrease(ps[k]) >= g
    ensures SumMax(ps) - SumMin(ps) >= g * |ps|
  {
    if ps != [] {
      GapGrows(ps[..|ps| - 1], g);
    }
  }

  /** A non-elite normal enemy's max hp lies in [level^2 + 21, level^2 + 29]. */
  lemma NormalHpBand(level: int, mult: real, hpDraw: int, min0: int, max0: int, passes: seq<PassDraw>, acc: int)
    requires NormalDraws(level, mult, hpDraw, min0, max0, passes, acc)
    ensures level * level + 21 <= NormalStats(level, false, mult, hpDraw, min0, max0, passes, acc).maxHp <= level * level + 29
  {
  }

  /**
   * A non-elite normal enemy's damage range is never empty: the initial ranges [2, 4] and
   * [5, 7] leave a gap of at least 1, and each pass adds at least as much to the maximum as to
   * the minimum.
   */
  lemma NormalDamageOrdered(level: int, mult: real, hpDraw: int, min0: int, max0: int, passes: seq<PassDraw>, acc: int)
    requires NormalDraws(level, mult, hpDraw, min0, max0, passes, acc)
    ensures NormalStats(level, false, mult, hpDraw, min0, max0, passes, acc).maxDamage >
            NormalStats(level, false, mult, hpDraw, min0, max0, passes, acc).minDamage
  {
    GapGrows(passes, 0);
  }

  /**
   * A normal enemy's minimum damage is not kept positive: a pass can lower it by 1 (mean 1,
   * jitter 2), so it lies in [min0 - (level - 1), min0 + 4 (level - 1)] and the maximum in
   * [max0 + (level - 1), max0 + 6 (level - 1)].
   */
  lemma NormalDamageBands(level: int, mult: real, hpDraw: int, min0: int, max0: int, passes: seq<PassDraw>, acc: int)
    requires NormalDraws(level, mult, hpDraw, min0, max0, passes, acc)
    ensures var st := NormalStats(level, false, mult, hpDraw, min0, max0, passes, acc);
            min0 - Passes(level) <= st.minDamage <= min0 + 4 * Passes(level) &&
            max0 + Passes(level) <= st.maxDamage <= max0 + 6 * Passes(level)
  {
    SumMinBounds(passes, -1, 4);
    SumMaxBounds(passes, 1, 6);
  }

  /** At level 5 the four weakest passes take a minimum damage of 2 down to -2. */
  lemma NormalMinDamageCanBeNegative()
    ensures var ps := [PassDraw(1, 2, 1, 0), PassDraw(1, 2, 1, 0), PassDraw(1, 2, 1, 0), PassDraw(1, 2, 1, 0)];
            NormalDraws(5, 1.3, 0, 2, 5, ps, 75) && NormalStats(5, false, 1.3, 0, 2, 5, ps, 75).minDamage == -2
  {
    var ps := [PassDraw(1, 2, 1, 0), PassDraw(1, 2, 1, 0), PassDraw(1, 2, 1, 0), PassDraw(1, 2, 1, 0)];
    SumMinBounds(ps, -1, -1);
  }

  /**
   * A negative minimum damage is scaled away from zero: at level 7 with the weakest passes the
   * plain minimum is -4, while the elite one with multiplier 1.5 is -6.
   */
  lemma EliteCanLowerNegativeMinimum()
    ensures var ps := [PassDraw(1, 2, 1, 0), PassDraw(1, 2, 1, 0), PassDraw(1, 2, 1, 0),
                       PassDraw(1, 2, 1, 0), PassDraw(1, 2, 1, 0), PassDraw(1, 2, 1, 0)];
            NormalDraws(7, 1.5, 0, 2, 5, ps, 75) &&
            NormalStats(7, false, 1.5, 0, 2, 5, ps, 75).minDamage == -4 &&
            NormalStats(7, true, 1.5, 0, 2, 5, ps, 75).minDamage == -6
  {
    var ps := [PassDraw(1, 2, 1, 0), PassDraw(1, 2, 1, 0), PassDraw(1, 2, 1, 0),
               PassDraw(1, 2, 1, 0), PassDraw(1, 2, 1, 0), PassDraw(1, 2, 1, 0)];
    SumMinBounds(ps, -1, -1);
  }

  /** Scaling by an elite multiplier (at least 1) never lowers a non-negative stat. */
  lemma EliteAtLeastBase(mult: real, x: int)
    requires mult >= 1.0 && x >= 0
    ensures x <= EliteScaled(mult, x)
  {
    MulAtLeast(mult, x as real);
  }

  lemma MulAtLeast(mult: real, y: real)
    requires mult >= 1.0 && y >= 0.0
    ensures mult * y >= y
  {
    assert mult * y - y == (mult - 1.0) * y;
  }

  /** Scaling keeps the order of two stats, so an elite's damage range is not inverted. */
  lemma EliteKeepsOrder(mult: real, x: int, y: int)
    requires mult >= 1.0 && x <= y
    ensures EliteScaled(mult, x) <= EliteScaled(mult, y)
  {
    assert mult * y as real - mult * x as real == mult * (y - x) as real;
    MulAtLeast(mult, (y - x) as real);
  }

  /** An elite's stats are at least those of the same draws without the elite flag. */
  lemma EliteNotWeaker(level: int, mult: real, hpDraw: int, min0: int, max0: int, passes: seq<PassDraw>, acc: int)
    requires NormalDraws(level, mult, hpDraw, min0, max0, passes, acc)
    ensures var e := NormalStats(level, true, mult, hpDraw, min0, max0, passes, acc);
            var n := NormalStats(level, false, mult, hpDraw, min0, max0, passes, acc);
            n.maxHp <= e.maxHp && n.maxDamage <= e.maxDamage && e.minDamage <= e.maxDamage &&
            (n.minDamage >= 0 ==> n.minDamage <= e.minDamage) && e.accuracy == n.accuracy
  {
    var n := NormalStats(level, false, mult, hpDraw, min0, max0, passes, acc);
    EliteAtLeastBase(mult, n.maxHp);
    if n.minDamage >= 0 {
      EliteAtLeastBase(mult, n.minDamage);
    }
    NormalDamageOrdered(level, mult, hpDraw, min0, max0, passes, acc);
    SumMaxBounds(passes, 1, 6);
    EliteAtLeastBase(mult, n.maxDamage);
    EliteKeepsOrder(mult, n.minDamage, n.maxDamage);
  }

  /** Boss 1's max hp lies in [level^2 + 11, level^2 + 17]. */
  lemma RedReaperHpBand(level: int, pow: real, hpDraw: int, min0: int, max0: int, passes: seq<PassDraw>, acc: int)
    requires BossDraws(1, level, hpDraw, min0, max0, passes, acc)
    ensures level * level + 11 <= BossStats(1, level, pow, hpDraw, min0, max0, passes, acc).maxHp <= level * level + 17
  {
  }

  /**
   * Boss 0's passes each add 1 to 4 to the minimum and 2 to 5 to the maximum damage, so after
   * the level - 1 passes both lie in the corresponding bands.
   */
  lemma KingSlimeDamageBands(level: int, pow: real, hpDraw: int, min0: int, max0: int, passes: seq<PassDraw>, acc: int)
    requires BossDraws(0, level, hpDraw, min0, max0, passes, acc)
    ensures var st := BossStats(0, level, pow, hpDraw, min0, max0, passes, acc);
            5 + Passes(level) <= st.minDamage <= 9 + 4 * Passes(level) &&
            10 + 2 * Passes(level) <= st.maxDamage <= 15 + 5 * Passes(level)
  {
    SumMinBounds(passes, 1, 4);
    SumMaxBounds(passes, 2, 5);
  }

  /**
   * Boss 2's passes add 0 or 1 to the minimum and 2 or 3 to the maximum damage, so its range
   * widens by at least 1 per level and is never empty.
   */
  lemma IceGolemGapGrows(level: int, pow: real, hpDraw: int, min0: int, max0: int, passes: seq<PassDraw>, acc: int)
    requires BossDraws(2, level, hpDraw, min0, max0, passes, acc)
    ensures var st := BossStats(2, level, pow, hpDraw, min0, max0, passes, acc);
            st.maxDamage - st.minDamage >= 1 + Passes(level) && st.maxDamage > st.minDamage
  {
    GapGrows(passes, 1);
  }

  /** A boss id outside 0..2 matches no case of the switch: all three stats are 0. */
  lemma UnknownBossHasNoStats(bossId: int, level: int, pow: real, hpDraw: int, min0: int, max0: int,
                              passes: seq<PassDraw>, acc: int)
    requires BossDraws(bossId, level, hpDraw, min0, max0, passes, acc)
    requires bossId < 0 || bossId > 2
    ensures var st := BossStats(bossId, level, pow, hpDraw, min0, max0, passes, acc);
            st.maxHp == 0 && st.minDamage == 0 && st.maxDamage == 0
  {
  }

  /** Only the three known bosses have a passive to describe. */
  lemma PassiveDescribedExactlyForKnownBosses(bossId: int)
    ensures |PassiveDescription(bossId)| > 0 <==> 0 <= bossId <= 2
  {
    PassivesNonEmpty();
  }

  lemma PassivesNonEmpty()
    ensures |SLIME_PASSIVE| > 0 && |PHANTOM_PASSIVE| > 0 && |LIFESTEAL_PASSIVE| > 0
  {
  }

  // ------------------------------------------------------------------
  // The class
  // ------------------------------------------------------------------

  class Enemy {
    /** The entity fields an enemy inherits. */
    const body: Entity
    /** `Normal` with its elite flag, or `Boss` with its boss id. */
    const kind: EnemyKind
    const statusEffects: StatusSet
    const moveset: Moveset
    var battleSize: int
    var numRespawn: int

    /**
     * The `Normal` constructor: the elite flag is `isSuccess(ELITE_CHANCE)` for the draw
     * `eliteDraw`, and an elite's id gets the "[ELITE] " prefix.
     */
    constructor Normal(id: string, eliteDraw: int)
      requires 0 <= eliteDraw <= 99
      ensures kind == NormalKind(IsSuccess(ELITE_CHANCE, eliteDraw))
      ensures fresh(body) && body.State() == Initial(NormalId(id, kind.isElite))
      ensures fresh(statusEffects) && !statusEffects.player && statusEffects.effects == []
      ensures fresh(moveset) && moveset.Valid()
      ensures battleSize == BATTLE_SIZE && numRespawn == 0
    {
      var e := new Entity(id);
      var elite := IsSuccess(ELITE_CHANCE, eliteDraw);
      if elite {
        e.id := "[ELITE] " + id;
      }
      body := e;
      kind := NormalKind(elite);
      statusEffects := new StatusSet(false);
      moveset := new Moveset();
      battleSize := BATTLE_SIZE;
      numRespawn := 0;
    }

    /** The `Boss` constructor. */
    constructor Boss(id: string, bossId: int)
      ensures kind == BossKind(bossId)
      ensures fresh(body) && body.State() == Initial(id)
      ensures fresh(statusEffects) && !statusEffects.player && statusEffects.effects == []
      ensures fresh(moveset) && moveset.Valid()
      ensures battleSize == BATTLE_SIZE && numRespawn == 0
    {
      body := new Entity(id);
      kind := BossKind(bossId);
      statusEffects := new StatusSet(false);
      moveset := new Moveset();
      battleSize := BATTLE_SIZE;
      numRespawn := 0;
    }

    /** The Enemy override of `setMaxHp`: hp and previousHp follow the new maximum. */
    method SetMaxHp(m: int)
      modifies body
      ensures body.State() == old(body.State()).(maxHp := m, hp := m, previousHp := m)
    {
      body.maxHp := m;
      body.hp := m;
      body.previousHp := m;
    }

    /** `setOnlyMaxHp`: the maximum alone changes. */
    method SetOnlyMaxHp(m: int)
      modifies body
      ensures body.State() == old(body.State()).(maxHp := m)
    {
      body.SetMaxHp(m);
    }

    /** The per-level damage loop of `setStats`. */
    static method AccumulatePasses(level: int, min0: int, max0: int, passes: seq<PassDraw>)
      returns (minDmg: int, maxDmg: int)
      requires |passes| == Passes(level)
      ensures minDmg == min0 + SumMin(passes) && maxDmg == max0 + SumMax(passes)
    {
      minDmg, maxDmg := min0, max0;
      var i := 0;
      while i < level - 1
        invariant 0 <= i <= |passes|
        invariant minDmg == min0 + SumMin(passes[..i]) && maxDmg == max0 + SumMax(passes[..i])
      {
        assert passes[..i + 1][..i] == passes[..i];
        minDmg := minDmg + (passes[i].minBase - passes[i].minJitter);
        maxDmg := maxDmg + (passes[i].maxBase + passes[i].maxJitter);
        i := i + 1;
      }
      assert passes[..i] == passes;
    }

    /** `Normal.setStats`: full health at the rolled max hp, elites scaled by `mult`. */
    method SetNormalStats(mult: real, hpDraw: int, min0: int, max0: int, passes: seq<PassDraw>, acc: int)
      requires kind.NormalKind?
      requires NormalDraws(body.level, mult, hpDraw, min0, max0, passes, acc)
      modifies body
      ensures body.State() ==
        WithStats(old(body.State()), NormalStats(old(body.level), kind.isElite, mult, hpDraw, min0, max0, passes, acc))
    {
      var level := body.level;
      var mhp := DeviatedRandomValue(level * level + 25, 4, hpDraw);
      var minDmg, maxDmg := AccumulatePasses(level, min0, max0, passes);
      body.SetAccuracy(acc);
      if kind.isElite {
        mhp, minDmg, maxDmg := EliteScaled(mult, mhp), EliteScaled(mult, minDmg), EliteScaled(mult, maxDmg);
      }
      SetMaxHp(mhp);
      body.SetMinDamage(minDmg);
      body.SetMaxDamage(maxDmg);
    }

    /** `Boss.setStats`: one hp curve and damage loop per boss id, then the accuracy. */
    method SetBossStats(pow: real, hpDraw: int, min0: int, max0: int, passes: seq<PassDraw>, acc: int)
      requires kind.BossKind?
      requires BossDraws(kind.bossId, body.level, hpDraw, min0, max0, passes, acc)
      modifies body
      ensures body.State() ==
        WithStats(old(body.State()), BossStats(kind.bossId, old(body.level), pow, hpDraw, min0, max0, passes, acc))
    {
      var mhp, minDmg, maxDmg := 0, 0, 0;
      if kind.bossId == 0 {
        mhp := DeviatedRandomValue(Trunc(pow + 15.0), 1, hpDraw);
        minDmg, maxDmg := AccumulatePasses(body.level, min0, max0, passes);
      } else if kind.bossId == 1 {
        mhp := DeviatedRandomValue(body.level * body.level + 14, 3, hpDraw);
        minDmg, maxDmg := AccumulatePasses(body.level, min0, max0, passes);
      } else if kind.bossId == 2 {
        mhp := DeviatedRandomValue(Trunc(pow + 25.0), 150, hpDraw);
        minDmg, maxDmg := AccumulatePasses(body.level, min0, max0, passes);
      }
      SetMaxHp(mhp);
      body.SetMinDamage(minDmg);
      body.SetMaxDamage(maxDmg);
      body.SetAccuracy(acc);
    }
  }
}
