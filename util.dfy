/**
 * Constants, random helpers and lookup tables of the game
 * (core/src/main/java/com/anyicomplex/unlucky/resource/Util.java).
 *
 * Every `MathUtils.random` draw of the source is a parameter here: `MathUtils.random(n)`
 * yields an integer in [0, n] and `MathUtils.random(a, b)` one in [a, b], so each drawn
 * value comes with a requires clause stating that range.
 */
module GameUtil {

  datatype Option<T> = None | Some(value: T)

  // Probabilities, percentages and multipliers
  const SAVED_FROM_BATTLE: int := 1
  const ELITE_CHANCE: int := 5
  const ENEMY_MIN_ACCURACY: int := 75
  const ENEMY_MAX_ACCURACY: int := 95
  const CRIT_MULTIPLIER: int := 3
  const MIN_ELITE_MULTIPLIER: real := 1.3
  const MAX_ELITE_MULTIPLIER: real := 1.6

  // Enemy damage scaling
  const ENEMY_INIT_MIN_MINDMG: int := 2
  const ENEMY_INIT_MAX_MINDMG: int := 4
  const ENEMY_INIT_MIN_MAXDMG: int := 5
  const ENEMY_INIT_MAX_MAXDMG: int := 7
  const ENEMY_MIN_DMG_INCREASE: int := 1
  const ENEMY_MAX_DMG_INCREASE: int := 4

  // Special move ids
  const NUM_SPECIAL_MOVES: int := 8
  const DISTRACT: int := 0
  const FOCUS: int := 1
  const INTIMIDATE: int := 2
  const REFLECT: int := 3
  const STUN: int := 4
  const INVERT: int := 5
  const SACRIFICE: int := 6
  const SHIELD: int := 7

  // Percentages quoted by the special move descriptions
  const P_DISTRACT: int := 50
  const P_INTIMIDATE: int := 40
  const P_FOCUS_CRIT: int := 30
  const P_STUN: int := 60
  const P_SHIELD: int := 20

  /** Java's `/` on int by a positive divisor: the quotient is truncated toward zero. */
  function JavaDiv(a: int, b: int): (q: int)
    requires b > 0
    ensures a >= 0 ==> q * b <= a < q * b + b
    ensures a <= 0 ==> q * b - b < a <= q * b
  {
    if a >= 0 then a / b else -((-a) / b)
  }

  /** Truncation is symmetric around zero, unlike Dafny's Euclidean division. */
  lemma JavaDivOdd(a: int, b: int)
    requires b > 0
    ensures JavaDiv(-a, b) == -JavaDiv(a, b)
  {
  }

  /** Java's `(int)` cast of a float: truncation toward zero (overflow saturation is not modelled). */
  function Trunc(x: real): (n: int)
    ensures x >= 0.0 ==> n as real <= x < n as real + 1.0
    ensures x < 0.0 ==> n as real - 1.0 < x <= n as real
  {
    if x >= 0.0 then x.Floor else -((-x).Floor)
  }

  // ------------------------------------------------------------------
  // Random helpers
  // ------------------------------------------------------------------

  /**
   * `isSuccess(p)`: the event succeeds when the draw `k = MathUtils.random(99)` is below `p`.
   */
  function IsSuccess(p: int, k: int): (r: bool)
    requires 0 <= k <= 99
    ensures p <= 0 ==> !r
    ensures p >= 100 ==> r
    ensures r ==> 0 < p
  {
    k < p
  }

  /** The number of draws in [0, n) for which `isSuccess(p)` holds. */
  function SuccessCount(p: int, n: nat): (c: nat)
    requires n <= 100
    ensures c <= n
  {
    if n == 0 then 0 else SuccessCount(p, n - 1) + (if IsSuccess(p, n - 1) then 1 else 0)
  }

  lemma {:induction false} SuccessCountPrefix(p: int, n: nat)
    requires 0 <= p <= n <= 100
    ensures SuccessCount(p, n) == p
  {
    if n > p {
      SuccessCountPrefix(p, n - 1);
    } else {
      SuccessCountAll(p, n);
    }
  }

  lemma {:induction false} SuccessCountAll(p: int, n: nat)
    requires n <= p && n <= 100
    ensures SuccessCount(p, n) == n
  {
    if n > 0 {
      SuccessCountAll(p, n - 1);
    }
  }

  /**
   * `isSuccess(p)` holds for exactly `p` of the 100 equally likely draws when 0 <= p <= 100,
   * so its probability of success is p/100.
   */
  lemma IsSuccessProbability(p: int)
    requires 0 <= p <= 100
    ensures SuccessCount(p, 100) == p
  {
    SuccessCountPrefix(p, 100);
  }

  /**
   * `getDeviatedRandomValue(mu, sigma)`: `MathUtils.random(mu - sigma, mu + sigma)`, which is
   * `(mu - sigma) + k` for a draw `k = MathUtils.random(2 * sigma)`.
   */
  function DeviatedRandomValue(mu: int, sigma: int, k: int): (r: int)
    requires 0 <= k <= 2 * sigma
    ensures mu - sigma <= r <= mu + sigma
  {
    (mu - sigma) + k
  }

  /** Every value of the band [mu - sigma, mu + sigma] is produced by exactly one draw. */
  lemma DeviatedRandomValueCoversBand(mu: int, sigma: int, v: int)
    requires mu - sigma <= v <= mu + sigma
    ensures exists k :: 0 <= k <= 2 * sigma && DeviatedRandomValue(mu, sigma, k) == v
    ensures forall k1, k2 ::
              (0 <= k1 <= 2 * sigma && 0 <= k2 <= 2 * sigma &&
               DeviatedRandomValue(mu, sigma, k1) == v && DeviatedRandomValue(mu, sigma, k2) == v) ==> k1 == k2
  {
    var k := v - (mu - sigma);
    assert DeviatedRandomValue(mu, sigma, k) == v;
  }

  // ------------------------------------------------------------------
  // Blocked tiles
  // ------------------------------------------------------------------

  /** All blocked static tile ids, as listed in the source (unsorted, with 130 twice). */
  const BLOCKED_TILE_IDS: seq<int> := [
    5, 6, 7, 9, 10, 11, 12, 13, 14, 15, 25, 26, 27, 28, 29, 30, 31, 36,
    38, 41, 42, 48, 49, 50, 51, 54, 55, 64, 65, 66, 67, 70, 84, 85, 86,
    87, 88, 91, 92, 96, 97, 98, 99, 100, 101, 102, 103, 104, 105, 106, 107, 112,
    113, 114, 115, 116, 117, 118, 120, 121, 123, 128, 129, 130, 130, 131, 132,
    133, 134, 135, 136, 137, 138, 139, 144, 145, 146, 147, 156, 157, 165, 166,
    151, 152, 167, 168, 169, 170, 184, 185, 186, 197, 198, 199, 200, 201, 202,
    215, 216, 217, 218, 227, 228, 229, 230, 231, 232, 233, 234, 235, 243, 244,
    247, 249, 263, 264, 265, 266, 267, 268, 269
  ]

  const BLOCKED_ANIMATED_TILE_IDS: seq<int> := [96, 109]

  /** Linear search of `table` for `id`, as `isBlockedTile` and `isBlockedAnimatedTile` do. */
  method Occurs(table: seq<int>, id: int) returns (found: bool)
    ensures found <==> id in table
  {
    var i := 0;
    while i < |table|
      invariant 0 <= i <= |table|
      invariant id !in table[..i]
    {
      if id == table[i] {
        return true;
      }
      i := i + 1;
    }
    return false;
  }

  method IsBlockedTile(id: int) returns (blocked: bool)
    ensures blocked <==> id in BLOCKED_TILE_IDS
  {
    blocked := Occurs(BLOCKED_TILE_IDS, id);
  }

  method IsBlockedAnimatedTile(id: int) returns (blocked: bool)
    ensures blocked <==> id == 96 || id == 109
  {
    blocked := Occurs(BLOCKED_ANIMATED_TILE_IDS, id);
  }

  // ------------------------------------------------------------------
  // Special move catalogue
  // ------------------------------------------------------------------

  /** A special move of the catalogue: id, name, description and cooldown in turns. */
  datatype SpecialMove = SpecialMove(id: int, name: string, desc: string, cooldown: int)

  const S_DISTRACT: SpecialMove := SpecialMove(DISTRACT, "Distract", "Next enemy attack\n-50% ACC", 1)
  const S_FOCUS: SpecialMove := SpecialMove(FOCUS, "Focus", "Next attack 100% ACC\nand +30% crit chance", 7)
  const S_INTIMIDATE: SpecialMove := SpecialMove(INTIMIDATE, "Intimidate", "Next attack is\namplified by 40%", 3)
  const S_REFLECT: SpecialMove := SpecialMove(REFLECT, "Reflect", "Next enemy attack\nis reflected back", 23)
  const S_STUN: SpecialMove := SpecialMove(STUN, "Stun", "60% chance to\nstun enemy", 5)
  const S_INVERT: SpecialMove := SpecialMove(INVERT, "Invert", "Heal moves damage\nDamage moves heal", 13)
  const S_SACRIFICE: SpecialMove := SpecialMove(SACRIFICE, "Sacrifice", "Sacrifice all but 1 hp\nfor increased dmg", 10)
  const S_SHIELD: SpecialMove := SpecialMove(SHIELD, "Shield", "Summon a shield that\nabsorbs 20% max hp", 17)

  const SMOVES_ORDER_BY_LVL: seq<SpecialMove> :=
    [S_DISTRACT, S_INTIMIDATE, S_STUN, S_FOCUS, S_SACRIFICE, S_INVERT, S_SHIELD, S_REFLECT]

  const SMOVES_ORDER_BY_ID: seq<SpecialMove> :=
    [S_DISTRACT, S_FOCUS, S_INTIMIDATE, S_REFLECT, S_STUN, S_INVERT, S_SACRIFICE, S_SHIELD]

  /**
   * The by-id table is indexed by id, and the by-level table is a reordering of it: each of its
   * entries is the by-id entry for its own id, and no id occurs twice.
   */
  lemma CatalogueIndexedById()
    ensures |SMOVES_ORDER_BY_ID| == |SMOVES_ORDER_BY_LVL| == NUM_SPECIAL_MOVES
    ensures forall i :: 0 <= i < |SMOVES_ORDER_BY_ID| ==> SMOVES_ORDER_BY_ID[i].id == i
    ensures forall i :: 0 <= i < |SMOVES_ORDER_BY_LVL| ==>
      0 <= SMOVES_ORDER_BY_LVL[i].id < NUM_SPECIAL_MOVES && SMOVES_ORDER_BY_LVL[i] == SMOVES_ORDER_BY_ID[SMOVES_ORDER_BY_LVL[i].id]
    ensures forall i, j :: 0 <= i < j < |SMOVES_ORDER_BY_LVL| ==> SMOVES_ORDER_BY_LVL[i].id != SMOVES_ORDER_BY_LVL[j].id
  {
  }

  // ------------------------------------------------------------------
  // Entity id table
  // ------------------------------------------------------------------

  /**
   * What `getEntity` constructs for a map entity id: a normal enemy or a boss with its name and
   * sprite coordinates (the animation delay is always 1/3 and the frame count 2).
   */
  datatype EntitySpec =
    | NormalSpec(name: string, worldIndex: int, startIndex: int)
    | BossSpec(name: string, bossId: int, worldIndex: int, startIndex: int)

  function GetEntity(id: int): (r: Option<EntitySpec>)
    ensures r.Some? && r.value.BossSpec? <==> id == 5 || id == 10 || id == 15
    ensures r.Some? && r.value.BossSpec? ==> r.value.bossId == (id - 5) / 5
    ensures r.Some? && r.value.NormalSpec? <==> 2 <= id <= 14 && id % 5 != 0
    ensures r.None? <==> id < 2 || id > 15
  {
    match id
    case 2 => Some(NormalSpec("slime", 1, 0))
    case 3 => Some(NormalSpec("blue slime", 1, 2))
    case 4 => Some(NormalSpec("blast slime", 1, 4))
    case 5 => Some(BossSpec("slime king", 0, 1, 6))
    case 6 => Some(NormalSpec("ghost", 2, 0))
    case 7 => Some(NormalSpec("zombie", 2, 2))
    case 8 => Some(NormalSpec("skeleton", 2, 4))
    case 9 => Some(NormalSpec("witch", 2, 6))
    case 10 => Some(BossSpec("red reaper", 1, 2, 8))
    case 11 => Some(NormalSpec("snow puff", 3, 0))
    case 12 => Some(NormalSpec("angry penguin", 3, 2))
    case 13 => Some(NormalSpec("yeti", 3, 4))
    case 14 => Some(NormalSpec("ice bat", 3, 6))
    case 15 => Some(BossSpec("ice golem", 2, 3, 8))
    case _ => None
  }
}
