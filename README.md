# Unlucky: combat arithmetic and game-flow state machine in Dafny

Unlucky is a turn-based dungeon crawler. This project models the core of its game logic:

- **Combatants.** The entity record with staged damage and healing, and the shield that is used up before hp. Normal, elite and boss enemies and their stat formulas.
- **Moves.** The four move kinds and their damage and heal scaling. The moveset draws: four distinct templates for a normal enemy, repeats allowed for a boss. The player's special moveset, with its limit of five moves and at most two copies of one move.
- **Status effects, inventory and saving.** The status-effect set and its two partial clears. The inventory and the equipment slots. The shop's buckets. The player save record and its replay on load.
- **Screens.** The game screen's event state machine, with update and render routing and key handling. The transition, level-up, dialog, battle-intro and level-select screens.

How the source is mapped:

- Objects whose fields the Java code updates in place are Dafny classes, for example `Entity`, `StatusSet`, `Moveset` and the screens. Their methods are proved against pure specification functions, such as `AfterApplyDamage` or `SkipRemove`, and lemmas state what the game promises about those functions.
- Java's `Array` and fixed arrays become `seq` fields or Dafny `array`s, as the source uses them.
- Random draws become parameters with the range the source draws from. Timers that open after an elapsed time become boolean "gate" parameters.
- Java `float` arithmetic is modelled with `real`. The `(int)` cast is modelled by `GameUtil.Trunc` and Java's truncating integer division by `GameUtil.JavaDiv`.

Three behaviours of the code differ from what one might expect, and the model follows the code:

- **Elite minimum damage.** One might expect an elite's minimum damage never to fall below that of a normal enemy with the same draws. In the code the elite multiplier scales a *negative* minimum damage further below zero (Normal.java:114-116). `Enemies.EliteCanLowerNegativeMinimum` shows level 7 going from -4 to -6. A normal enemy's minimum damage can itself be negative (`Enemies.NormalMinDamageCanBeNegative`), because each per-level increase can be negative. So `Enemies.EliteNotWeaker` promises a higher minimum only for a non-negative baseline.
- **A shield hit exactly to zero.** One might expect such a hit to leave hp untouched and clear the staged damage. The code does leave hp untouched, but it keeps the staged damage instead of clearing it (Entity.java:193-195, `Entities.ShieldBrokenExactly`).
- **The two partial clears of a status set.** Both clears remove elements while walking forward, which can skip the element that slides into place. Only `clearAllButMultiTurnEffects` loses effects (see Findings). `clearAllButSingleTurnEffects` removes the one `DMG_RED` effect. A set never holds two effects of one type, so that clear is exact (`Status.SingleTurnClearExact`).

## Model

| member | source | states |
|---|---|---|
| GameUtil.JavaDiv | core/src/main/java/com/anyicomplex/unlucky/battle/Move.java:168-169 | the quotient truncates toward zero: for a non-negative dividend it is the floor, for a non-positive one the ceiling of the exact quotient |
| GameUtil.Trunc | core/src/main/java/com/anyicomplex/unlucky/entity/enemy/Normal.java:114-116 | the `(int)` cast drops the fraction toward zero on both signs |
| GameUtil.IsSuccess | core/src/main/java/com/anyicomplex/unlucky/resource/Util.java:219-222 | a chance of 0 or less never succeeds, a chance of 100 or more always does, and success needs a positive chance |
| GameUtil.IsSuccessProbability | core/src/main/java/com/anyicomplex/unlucky/resource/Util.java:219-222 | of the 100 equally likely draws exactly `p` succeed, so the chance really is p percent |
| GameUtil.DeviatedRandomValue | core/src/main/java/com/anyicomplex/unlucky/resource/Util.java:231-235 | the value always lies in the band `[mu - sigma, mu + sigma]` |
| GameUtil.DeviatedRandomValueCoversBand | core/src/main/java/com/anyicomplex/unlucky/resource/Util.java:231-235 | every value of the band comes from exactly one draw, so the band is uniform |
| GameUtil.Occurs | core/src/main/java/com/anyicomplex/unlucky/resource/Util.java:263-268 | the linear scan answers true exactly when the id is in the table |
| GameUtil.IsBlockedTile | core/src/main/java/com/anyicomplex/unlucky/resource/Util.java:248-268 | a static tile blocks exactly when its id is in the blocked-id table |
| GameUtil.IsBlockedAnimatedTile | core/src/main/java/com/anyicomplex/unlucky/resource/Util.java:261-275 | an animated tile blocks exactly for ids 96 and 109 |
| GameUtil.CatalogueIndexedById | core/src/main/java/com/anyicomplex/unlucky/resource/Util.java:96-119 | the by-id catalogue holds move i at index i, and the by-level order lists the same eight moves, each once |
| GameUtil.GetEntity | core/src/main/java/com/anyicomplex/unlucky/resource/Util.java:286-304 | ids 5, 10 and 15 are bosses with boss id (id-5)/5; the other ids from 2 to 14 are normal enemies; ids below 2 or above 15 give nothing |
| Entities.AfterHit | core/src/main/java/com/anyicomplex/unlucky/entity/Entity.java:141-143 | `hit` only stages the damage; hp, shield and every other field are unchanged |
| Entities.AfterHeal | core/src/main/java/com/anyicomplex/unlucky/entity/Entity.java:150-152 | `heal` only stages the healing; nothing else changes |
| Entities.ShieldedMissDropsShieldOnly | core/src/main/java/com/anyicomplex/unlucky/entity/Entity.java:177-181 | a miss on a shielded entity removes the shield flag and changes nothing else |
| Entities.ShieldAbsorbsSmallHit | core/src/main/java/com/anyicomplex/unlucky/entity/Entity.java:196-200 | a hit smaller than the shield only lowers the shield by the damage; hp and death are unchanged |
| Entities.ShieldBrokenExactly | core/src/main/java/com/anyicomplex/unlucky/entity/Entity.java:193-195 | a hit equal to the shield empties the shield, leaves hp and death alone and keeps the damage staged |
| Entities.ShieldBrokenThrough | core/src/main/java/com/anyicomplex/unlucky/entity/Entity.java:187-191 | a hit larger than the shield empties it and carries only the excess through to hp (floored at 0), with death exactly when the excess reaches hp |
| Entities.UnshieldedHit | core/src/main/java/com/anyicomplex/unlucky/entity/Entity.java:203-218 | without a shield the whole damage comes off hp (floored at 0), previousHp keeps the old hp, death comes exactly when the damage reaches hp, and the move history shifts |
| Entities.HpInRangePreserved | core/src/main/java/com/anyicomplex/unlucky/entity/Entity.java:119-124 | clamping puts hp in `[0, maxHp]`, and applying non-negative damage or healing keeps it there |
| Entities.AfterClamp | core/src/main/java/com/anyicomplex/unlucky/entity/Entity.java:119-124 | the clamp `update` applies: hp cut to maxHp, then raised to 0; its range is stated by HpInRangePreserved |
| Entities.AfterDamageHp | core/src/main/java/com/anyicomplex/unlucky/entity/Entity.java:210-218 | `damageHp`: the staged damage comes off hp, which stops at 0 and marks death, with previousHp keeping the old hp and the damage cleared |
| Entities.AfterApplyDamage | core/src/main/java/com/anyicomplex/unlucky/entity/Entity.java:175-208 | `applyDamage`: a zero hit drops the shield flag; otherwise the shield absorbs first and only the excess goes through `damageHp`; without a shield the whole hit does; each branch is a lemma beside it |
| Entities.AfterApplyHeal | core/src/main/java/com/anyicomplex/unlucky/entity/Entity.java:220-227 | `applyHeal`: the staged healing is added to hp, capped at maxHp, and cleared |
| Entities.HealCapped | core/src/main/java/com/anyicomplex/unlucky/entity/Entity.java:220-227 | applying a heal raises hp by the healing or by the missing hp, whichever is smaller, and clears the staged healing |
| Entities.UnshieldedHitsAddUp | core/src/main/java/com/anyicomplex/unlucky/entity/Entity.java:175-218 | a sequence of positive hits on an unshielded entity takes exactly their sum off hp (floored at 0), with death exactly when the sum reaches hp |
| Entities.DeadStaysAtZero | core/src/main/java/com/anyicomplex/unlucky/entity/Entity.java:210-218 | a dead entity at 0 hp stays dead at 0 hp whatever hits follow |
| Entities.ShieldedHitsAbsorbed | core/src/main/java/com/anyicomplex/unlucky/entity/Entity.java:175-218 | over a sequence of positive hits the shield absorbs the first `shield` points, and only the remainder reaches hp |
| Entities.ShieldedDeadStaysAtZero | core/src/main/java/com/anyicomplex/unlucky/entity/Entity.java:187-195 | a dead entity with an empty shield stays dead at 0 hp and 0 shield |
| Entities.Entity.constructor | core/src/main/java/com/anyicomplex/unlucky/entity/Entity.java:78-117 | a new entity has the field defaults: alive, no staged damage, no shield, moves -1 |
| Entities.Entity.Hit | core/src/main/java/com/anyicomplex/unlucky/entity/Entity.java:141-143 | the new state is the old one with the damage staged |
| Entities.Entity.Heal | core/src/main/java/com/anyicomplex/unlucky/entity/Entity.java:150-152 | the new state is the old one with the healing staged |
| Entities.Entity.SetShield | core/src/main/java/com/anyicomplex/unlucky/entity/Entity.java:159-162 | the shield is raised to the given maximum and flagged |
| Entities.Entity.ResetShield | core/src/main/java/com/anyicomplex/unlucky/entity/Entity.java:167-170 | the shield is dropped and emptied |
| Entities.Entity.ApplyDamage | core/src/main/java/com/anyicomplex/unlucky/entity/Entity.java:175-208 | the new state is the shield-first damage application of the old one, branch for branch |
| Entities.Entity.DamageHp | core/src/main/java/com/anyicomplex/unlucky/entity/Entity.java:210-218 | hp drops by the staged damage, floored at 0 with death, and previousHp keeps the old hp |
| Entities.Entity.ApplyHeal | core/src/main/java/com/anyicomplex/unlucky/entity/Entity.java:220-227 | hp rises by the staged healing, capped at maxHp, and previousHp keeps the old hp |
| Entities.Entity.ClampHp | core/src/main/java/com/anyicomplex/unlucky/entity/Entity.java:119-124 | hp is cut to maxHp, then raised to 0; nothing else changes |
| Entities.Entity.UseMove | core/src/main/java/com/anyicomplex/unlucky/entity/Entity.java:306 | only the previously used move changes |
| Entities.Entity.SetDead | core/src/main/java/com/anyicomplex/unlucky/entity/Entity.java:302 | only the dead flag changes |
| Entities.Entity.SetMaxHp | core/src/main/java/com/anyicomplex/unlucky/entity/Entity.java:268 | only maxHp changes |
| Entities.Entity.SetHp | core/src/main/java/com/anyicomplex/unlucky/entity/Entity.java:264 | only hp changes |
| Entities.Entity.SetMinDamage | core/src/main/java/com/anyicomplex/unlucky/entity/Entity.java:290 | only minDamage changes |
| Entities.Entity.SetMaxDamage | core/src/main/java/com/anyicomplex/unlucky/entity/Entity.java:294 | only maxDamage changes |
| Entities.Entity.SetAccuracy | core/src/main/java/com/anyicomplex/unlucky/entity/Entity.java:234 | only accuracy changes |
| Entities.Entity.SetLevel | core/src/main/java/com/anyicomplex/unlucky/entity/Entity.java:280 | only the level changes |
| Enemies.EliteAndBossExclusive | core/src/main/java/com/anyicomplex/unlucky/entity/enemy/Normal.java:79-87 | no enemy is both elite and a boss, and only a normal enemy can be elite |
| Enemies.NormalId | core/src/main/java/com/anyicomplex/unlucky/entity/enemy/Normal.java:75-76 | an elite's name is "[ELITE] " followed by the given id; a plain enemy keeps the id |
| Enemies.NormalHpBand | core/src/main/java/com/anyicomplex/unlucky/entity/enemy/Normal.java:95-96 | a normal enemy's max hp lies within 4 of level squared plus 25 |
| Enemies.NormalStats | core/src/main/java/com/anyicomplex/unlucky/entity/enemy/Normal.java:90-117 | the stats `setStats` gives from its draws: hp deviated by up to 4 around level squared plus 25, each damage bound its initial draw plus the per-level increases, and for an elite hp and both bounds scaled by the multiplier and truncated; its bands and orderings are the Enemies lemmas below |
| Enemies.SumMinBounds | core/src/main/java/com/anyicomplex/unlucky/entity/enemy/Normal.java:101-108 | the per-level minimum-damage increases summed over n passes lie between n times the smallest and n times the largest single increase |
| Enemies.SumMaxBounds | core/src/main/java/com/anyicomplex/unlucky/entity/enemy/Normal.java:101-108 | the same bounds for the summed maximum-damage increases |
| Enemies.NormalDamageOrdered | core/src/main/java/com/anyicomplex/unlucky/entity/enemy/Normal.java:98-108 | a normal enemy's max damage is always above its min damage |
| Enemies.NormalDamageBands | core/src/main/java/com/anyicomplex/unlucky/entity/enemy/Normal.java:101-108 | after level-1 passes the min damage lies in `[min0 - n, min0 + 4n]` and the max damage in `[max0 + n, max0 + 6n]` |
| Enemies.NormalMinDamageCanBeNegative | core/src/main/java/com/anyicomplex/unlucky/entity/enemy/Normal.java:101-104 | at level 5 the weakest allowed draws give a min damage of -2 |
| Enemies.EliteCanLowerNegativeMinimum | core/src/main/java/com/anyicomplex/unlucky/entity/enemy/Normal.java:114-116 | with multiplier 1.5 at level 7 the elite min damage is -6 where the plain one is -4 |
| Enemies.EliteAtLeastBase | core/src/main/java/com/anyicomplex/unlucky/entity/enemy/Normal.java:114-116 | scaling a non-negative stat by a multiplier of at least 1 never lowers it |
| Enemies.EliteKeepsOrder | core/src/main/java/com/anyicomplex/unlucky/entity/enemy/Normal.java:114-116 | elite scaling is monotone, so it keeps min damage at most max damage |
| Enemies.EliteNotWeaker | core/src/main/java/com/anyicomplex/unlucky/entity/enemy/Normal.java:92-116 | with the same draws an elite has at least the plain max hp and max damage, the same accuracy, ordered damage, and at least the plain min damage when that is non-negative |
| Enemies.RedReaperHpBand | core/src/main/java/com/anyicomplex/unlucky/entity/enemy/Boss.java:108-109 | the Red Reaper's max hp lies within 3 of level squared plus 14 |
| Enemies.BossStats | core/src/main/java/com/anyicomplex/unlucky/entity/enemy/Boss.java:90-133 | the stats `setStats` gives each boss from its draws: its own hp curve and deviation, damage bounds grown by its own per-level increases, and no hp or damage for an unknown boss id |
| Enemies.KingSlimeDamageBands | core/src/main/java/com/anyicomplex/unlucky/entity/enemy/Boss.java:100-105 | the King Slime's damage bands grow between 1 and 4 (min) and 2 and 5 (max) per level pass |
| Enemies.IceGolemGapGrows | core/src/main/java/com/anyicomplex/unlucky/entity/enemy/Boss.java:120-125 | the Ice Golem's damage gap grows by at least 1 per level pass, so max stays above min |
| Enemies.GapGrows | core/src/main/java/com/anyicomplex/unlucky/entity/enemy/Boss.java:120-125 | when every level pass raises the maximum damage by at least g more than the minimum, n passes widen the gap by at least g times n |
| Enemies.UnknownBossHasNoStats | core/src/main/java/com/anyicomplex/unlucky/entity/enemy/Boss.java:91-131 | a boss id outside 0..2 matches no case and leaves hp and damage at 0 |
| Enemies.PassiveDescribedExactlyForKnownBosses | core/src/main/java/com/anyicomplex/unlucky/entity/enemy/Boss.java:140-150 | the passive description is non-empty exactly for boss ids 0, 1 and 2 |
| Enemies.PassiveDescription | core/src/main/java/com/anyicomplex/unlucky/entity/enemy/Boss.java:140-150 | `getPassiveDescription`: the slime revival, phantom presence and lifesteal texts for boss ids 0, 1 and 2, and the empty string for any other id |
| Enemies.Enemy.Normal | core/src/main/java/com/anyicomplex/unlucky/entity/enemy/Normal.java:65-77 | a new normal enemy is elite exactly when the 5% draw succeeds, carries the elite name, and has an empty status set and a fresh moveset |
| Enemies.Enemy.Boss | core/src/main/java/com/anyicomplex/unlucky/entity/enemy/Boss.java:65-74 | a new boss has its boss id, a fresh entity, an empty status set and a fresh moveset |
| Enemies.Enemy.SetMaxHp | core/src/main/java/com/anyicomplex/unlucky/entity/enemy/Enemy.java:87-90 | maxHp, hp and previousHp all take the new value; nothing else changes |
| Enemies.Enemy.SetOnlyMaxHp | core/src/main/java/com/anyicomplex/unlucky/entity/enemy/Enemy.java:92-94 | only maxHp changes |
| Enemies.Enemy.AccumulatePasses | core/src/main/java/com/anyicomplex/unlucky/entity/enemy/Normal.java:101-108 | the level loop adds up exactly the per-pass increases of min and max damage |
| Enemies.Enemy.SetNormalStats | core/src/main/java/com/anyicomplex/unlucky/entity/enemy/Normal.java:89-117 | the entity takes the normal-enemy stats of its level and elite flag for the given draws |
| Enemies.Enemy.SetBossStats | core/src/main/java/com/anyicomplex/unlucky/entity/enemy/Boss.java:90-133 | the entity takes the stats of its boss id's curve for the given draws |
| Moves.ScalingTouchesOwnKindOnly | core/src/main/java/com/anyicomplex/unlucky/battle/Move.java:142-170 | damage scaling leaves heal moves alone and heal scaling leaves damage moves alone; each changes only its own two bounds |
| Moves.ScaledDamage | core/src/main/java/com/anyicomplex/unlucky/battle/Move.java:142-159 | `setDamage(seed)`: an accurate move spreads by 1/24 of the seed, a wide one by 1/2 below and 1/12 above, a crit move takes the fixed damage seed - seed / its divisor, and a heal move is unchanged; its properties are the Moves lemmas beside it |
| Moves.ScaledHeal | core/src/main/java/com/anyicomplex/unlucky/battle/Move.java:166-170 | `setHeal(hpSeed)`: a heal move's bounds are multiplied by the truncating quotient hpSeed / 16, and any other move is unchanged |
| Moves.AccurateRangeAroundSeed | core/src/main/java/com/anyicomplex/unlucky/battle/Move.java:146-149 | an accurate move's range contains the seed, and its width is `(min + max) * seed / 24` |
| Moves.WideMinimumCanBeNegative | core/src/main/java/com/anyicomplex/unlucky/battle/Move.java:151-154 | a wide move with min 4 and seed 10 has a minimum of -10 |
| Moves.CritFixedDamage | core/src/main/java/com/anyicomplex/unlucky/battle/Move.java:156-158 | a crit move has one fixed damage: zero for divisor 1, strictly between 0 and the seed for a divisor above 1 |
| Moves.HealVanishesBelowSixteen | core/src/main/java/com/anyicomplex/unlucky/battle/Move.java:168-169 | a heal seed of magnitude below 16 scales both heal bounds to 0 |
| Moves.HealGrowsWithHp | core/src/main/java/com/anyicomplex/unlucky/battle/Move.java:166-170 | heal bounds never shrink as the hp seed grows |
| Moves.Move.Ranged | core/src/main/java/com/anyicomplex/unlucky/battle/Move.java:94-101 | an accurate or wide move holds its kind, name and damage bounds |
| Moves.Move.Crit | core/src/main/java/com/anyicomplex/unlucky/battle/Move.java:110-117 | a crit move holds its damage and crit chance |
| Moves.Move.Healing | core/src/main/java/com/anyicomplex/unlucky/battle/Move.java:127-135 | a heal move holds its heal bounds and damage reduction |
| Moves.Move.SetDamage | core/src/main/java/com/anyicomplex/unlucky/battle/Move.java:142-159 | the move becomes its damage-scaled form for the seed |
| Moves.Move.SetHeal | core/src/main/java/com/anyicomplex/unlucky/battle/Move.java:166-170 | the move becomes its heal-scaled form for the hp seed |
| Movesets.CopyKeepsTemplate | core/src/main/java/com/anyicomplex/unlucky/battle/Moveset.java:168-173 | a copy keeps the kind, name and the fields its kind uses, and copying twice gives the same as copying once |
| Movesets.Draw | core/src/main/java/com/anyicomplex/unlucky/battle/Moveset.java:163-177 | drawing with removal yields one move per draw, all valid templates |
| Movesets.DrawWithoutReplacement | core/src/main/java/com/anyicomplex/unlucky/battle/Moveset.java:163-177 | the drawn moves form a sub-multiset of the pool, so no template is drawn twice |
| Movesets.BossDraw | core/src/main/java/com/anyicomplex/unlucky/battle/Moveset.java:192-206 | boss draws pick the pool entry at each draw index |
| Movesets.BossDrawRepeats | core/src/main/java/com/anyicomplex/unlucky/battle/Moveset.java:192-206 | a boss can draw the same template for all four slots |
| Movesets.Moveset.constructor | core/src/main/java/com/anyicomplex/unlucky/battle/Moveset.java:68-74 | four empty slots and no recorded names |
| Movesets.Moveset.CopyOf | core/src/main/java/com/anyicomplex/unlucky/battle/Moveset.java:168-173 | a fresh move holding the copy of the template |
| Movesets.Moveset.GetRandomMoves | core/src/main/java/com/anyicomplex/unlucky/battle/Moveset.java:153-180 | four fresh, distinct moves copied from the draw without replacement |
| Movesets.Moveset.GetBossMoves | core/src/main/java/com/anyicomplex/unlucky/battle/Moveset.java:188-209 | four fresh, distinct moves copied from the boss draw |
| Movesets.Moveset.ScaleSlots | core/src/main/java/com/anyicomplex/unlucky/battle/Moveset.java:83-87 | each slot is scaled with its own seed and the hp seed, and the slots stay the same objects |
| Movesets.Moveset.Reset | core/src/main/java/com/anyicomplex/unlucky/battle/Moveset.java:79-103 | the four slots hold the scaled copies of the drawn templates, and the recorded names match them |
| Movesets.Moveset.RecordNames | core/src/main/java/com/anyicomplex/unlucky/battle/Moveset.java:89 | each name slot records its move's name |
| Movesets.Moveset.ResetBoss | core/src/main/java/com/anyicomplex/unlucky/battle/Moveset.java:108-116 | the slots hold the scaled boss draws and the recorded names are left as they were |
| Movesets.Moveset.GetDamagePriority | core/src/main/java/com/anyicomplex/unlucky/battle/Moveset.java:124-131 | the first non-heal move in slot order, or the randomly drawn slot when every move heals |
| Movesets.Moveset.GetHealPriority | core/src/main/java/com/anyicomplex/unlucky/battle/Moveset.java:139-146 | the first heal move in slot order, or the randomly drawn slot, which is then a damage move |
| SpecialMoves.GetMove | core/src/main/java/com/anyicomplex/unlucky/battle/SpecialMoveset.java:131-143 | ids 0..7 give the catalogue move with that id, and any other id gives null |
| SpecialMoves.AdmitsExactlyWithinLimits | core/src/main/java/com/anyicomplex/unlucky/battle/SpecialMoveset.java:116-123 | on a set within both limits, `canAdd` admits a catalogue move if and only if appending it keeps the set within both limits, so it refuses no addition the limits allow |
| SpecialMoves.AddKeepsLimits | core/src/main/java/com/anyicomplex/unlucky/battle/SpecialMoveset.java:70-74 | adding keeps at most five moves and at most two of each id, and grows the set exactly when admitted |
| SpecialMoves.RemoveKeepsLimits | core/src/main/java/com/anyicomplex/unlucky/battle/SpecialMoveset.java:95-97 | removing keeps both limits and the order of the remaining moves |
| SpecialMoves.AfterRemove | core/src/main/java/com/anyicomplex/unlucky/battle/SpecialMoveset.java:95-97 | `remove(i)`: the set without its i-th move, the rest in order |
| SpecialMoves.RemoveCount | core/src/main/java/com/anyicomplex/unlucky/battle/SpecialMoveset.java:95-97 | removing one move never raises the count of any id |
| SpecialMoves.AddAllKeepsLimits | core/src/main/java/com/anyicomplex/unlucky/battle/SpecialMoveset.java:70-74 | whatever ids are offered in turn, a run that does not throw leaves the set within both limits; offering only catalogue ids to a set without nulls never throws and lets no null in |
| SpecialMoves.AddKeepsNoNulls | core/src/main/java/com/anyicomplex/unlucky/battle/SpecialMoveset.java:131-142 | adding a catalogue id to a set without nulls leaves it without nulls |
| SpecialMoves.NullThenAddThrows | core/src/main/java/com/anyicomplex/unlucky/battle/SpecialMoveset.java:116-123 | an id outside the catalogue appends a null, and the next `addSMove` then throws in `canAdd` |
| SpecialMoves.JoinLength | core/src/main/java/com/anyicomplex/unlucky/battle/SpecialMoveset.java:99-106 | the joined names are as long as the names plus two separator characters between each pair |
| SpecialMoves.RenderingStep | core/src/main/java/com/anyicomplex/unlucky/battle/SpecialMoveset.java:101-104 | each pass of the rendering loop appends the name, then ", " unless it is the last |
| SpecialMoves.SpecialMoveset.constructor | core/src/main/java/com/anyicomplex/unlucky/battle/SpecialMoveset.java:60-62 | a new set is empty |
| SpecialMoves.SpecialMoveset.AddSMove | core/src/main/java/com/anyicomplex/unlucky/battle/SpecialMoveset.java:70-74 | returns normally exactly when `canAdd` does, and then appends the move when admitted and drops it otherwise; a throw leaves the set as it was |
| SpecialMoves.SpecialMoveset.GetMoveAt | core/src/main/java/com/anyicomplex/unlucky/battle/SpecialMoveset.java:76-78 | the move at the index |
| SpecialMoves.SpecialMoveset.Clear | core/src/main/java/com/anyicomplex/unlucky/battle/SpecialMoveset.java:83-85 | the set becomes empty |
| SpecialMoves.SpecialMoveset.IsFull | core/src/main/java/com/anyicomplex/unlucky/battle/SpecialMoveset.java:87-89 | true exactly when the set holds five moves |
| SpecialMoves.SpecialMoveset.Remove | core/src/main/java/com/anyicomplex/unlucky/battle/SpecialMoveset.java:95-97 | the move at the index is taken out and the rest keep their order |
| SpecialMoves.SpecialMoveset.ToString | core/src/main/java/com/anyicomplex/unlucky/battle/SpecialMoveset.java:99-106 | "[ ", the names joined by ", ", then " ]"; None, for the throw, exactly when some move is null |
| SpecialMoves.SpecialMoveset.CanAdd | core/src/main/java/com/anyicomplex/unlucky/battle/SpecialMoveset.java:116-123 | None, for the throw, exactly when the set is not full and holds a null; otherwise true exactly when the set is not full and holds the id fewer than twice |
| SpecialMoves.CountId | core/src/main/java/com/anyicomplex/unlucky/battle/SpecialMoveset.java:118-121 | the count that the loop of `canAdd` makes of the moves with the given id |
| SpecialMoves.Admits | core/src/main/java/com/anyicomplex/unlucky/battle/SpecialMoveset.java:116-123 | what `canAdd` answers: the set is not full and holds the id fewer than twice |
| SpecialMoves.AfterAdd | core/src/main/java/com/anyicomplex/unlucky/battle/SpecialMoveset.java:70-74 | `addSMove(id)` on a set where it returns: the catalogue move (null outside 0..7) appended when admitted, the set unchanged otherwise |
| SpecialMoves.AddAll | core/src/main/java/com/anyicomplex/unlucky/battle/SpecialMoveset.java:70-74 | the set after offering each id in turn to `addSMove`, or None when one of the calls throws |
| Status.AddedKeepsTypesDistinct | core/src/main/java/com/anyicomplex/unlucky/battle/StatusSet.java:76-80 | adding keeps the types distinct, contains the effect afterwards, is idempotent, and changes nothing for an effect already there |
| Status.Added | core/src/main/java/com/anyicomplex/unlucky/battle/StatusSet.java:76-80 | `addEffect`: the effect is appended unless `findEffect` finds it |
| Status.SkipRemoveOnlyDeletes | core/src/main/java/com/anyicomplex/unlucky/battle/StatusSet.java:89-106 | the forward-removal loop only deletes: what it leaves is a subsequence of the old list |
| Status.SkipRemove | core/src/main/java/com/anyicomplex/unlucky/battle/StatusSet.java:89-106 | the list the two clearing loops leave: an element to be removed is deleted and the element that slides into its place is skipped unexamined |
| Status.Filter | core/src/main/java/com/anyicomplex/unlucky/battle/StatusSet.java:100-106 | the intended partial clear: every effect to be removed is gone and the others stay in their order |
| Status.SkipRemoveKeepsKept | core/src/main/java/com/anyicomplex/unlucky/battle/StatusSet.java:89-106 | every effect type the clear should keep keeps all its occurrences |
| Status.SingleTurnClearExact | core/src/main/java/com/anyicomplex/unlucky/battle/StatusSet.java:89-95 | on a set with distinct types the single-turn clear equals the filter that drops `DMG_RED`, so no `DMG_RED` is left |
| Status.FilterRemovesAll | core/src/main/java/com/anyicomplex/unlucky/battle/StatusSet.java:100-106 | the intended filter leaves no effect that the clear should remove |
| Status.MultiTurnClearMissesEffect | core/src/main/java/com/anyicomplex/unlucky/battle/StatusSet.java:100-106 | on [DISTRACT, FOCUS] the multi-turn clear as written leaves [FOCUS], where the filter leaves [] |
| Status.ForwardRemoveStep | core/src/main/java/com/anyicomplex/unlucky/battle/StatusSet.java:90-94 | one loop step keeps the already-scanned prefix plus the skipping removal of the rest equal to its specification |
| Status.StatusSet.constructor | core/src/main/java/com/anyicomplex/unlucky/battle/StatusSet.java:65-69 | an empty set for the given side |
| Status.StatusSet.FindEffect | core/src/main/java/com/anyicomplex/unlucky/battle/StatusSet.java:125-131 | the type itself when present, -1 otherwise |
| Status.StatusSet.Contains | core/src/main/java/com/anyicomplex/unlucky/battle/StatusSet.java:114-116 | true exactly when the type is present, with -1 never reported present |
| Status.StatusSet.AddEffect | core/src/main/java/com/anyicomplex/unlucky/battle/StatusSet.java:76-80 | the effect is added unless already present |
| Status.StatusSet.Clear | core/src/main/java/com/anyicomplex/unlucky/battle/StatusSet.java:82-84 | the set becomes empty |
| Status.StatusSet.ClearAllButSingleTurnEffects | core/src/main/java/com/anyicomplex/unlucky/battle/StatusSet.java:89-95 | the list the forward loop leaves when removing `DMG_RED` |
| Status.StatusSet.ClearAllButMultiTurnEffects | core/src/main/java/com/anyicomplex/unlucky/battle/StatusSet.java:100-106 | the list the forward loop leaves when removing every other type, skipping the element after each removal |
| Status.StatusSet.ForwardRemove | core/src/main/java/com/anyicomplex/unlucky/battle/StatusSet.java:90-94 | the index loop that removes at i and then moves on computes exactly the skipping removal |
| Status.StatusSet.ClearAllButMultiTurnEffectsCorrected | core/src/main/java/com/anyicomplex/unlucky/battle/StatusSet.java:100-106 | every type other than `DMG_RED` is removed and the rest keep their order |
| Stats.MaxStat.constructor | core/src/main/java/com/anyicomplex/unlucky/resource/Statistics.java:126-130 | a new record starts at 0 |
| Stats.ConsideredIsMax | core/src/main/java/com/anyicomplex/unlucky/resource/Statistics.java:139-143 | considering a candidate gives the larger of the record and the candidate |
| Stats.ConsideredAllConcat | core/src/main/java/com/anyicomplex/unlucky/resource/Statistics.java:139-143 | tracking a record over one run of updates and then another gives the same value as tracking it over both runs at once |
| Stats.ConsideredAllIsMax | core/src/main/java/com/anyicomplex/unlucky/resource/Statistics.java:139-143 | after any run of candidates the record is the maximum of the start value and all candidates |
| Stats.Digits | core/src/main/java/com/anyicomplex/unlucky/resource/Statistics.java:192-229 | a natural number renders as decimal digits with no leading zero |
| Stats.DecimalString | core/src/main/java/com/anyicomplex/unlucky/resource/Statistics.java:192-229 | an integer renders as a non-empty string |
| Stats.DigitsRoundTrip | core/src/main/java/com/anyicomplex/unlucky/resource/Statistics.java:192-229 | parsing the digits of n gives n back |
| Stats.DecimalRoundTrip | core/src/main/java/com/anyicomplex/unlucky/resource/Statistics.java:192-229 | parsing the rendering of any integer, negative ones included, gives it back |
| Stats.DescriptionHeaders | core/src/main/java/com/anyicomplex/unlucky/resource/Statistics.java:149-190 | 34 entries: section headers at 0, 8 and 20, and labels everywhere else |
| Stats.PlayerSectionLabels | core/src/main/java/com/anyicomplex/unlucky/resource/Statistics.java:152-158 | entries 1 to 7 are labels |
| Stats.MapSectionLabels | core/src/main/java/com/anyicomplex/unlucky/resource/Statistics.java:160-170 | entries 9 to 19 are labels |
| Stats.BattleSectionLabels | core/src/main/java/com/anyicomplex/unlucky/resource/Statistics.java:172-184 | entries 21 to 33 are labels |
| Stats.Rendered | core/src/main/java/com/anyicomplex/unlucky/resource/Statistics.java:192-229 | one string per value |
| Stats.RenderedAligned | core/src/main/java/com/anyicomplex/unlucky/resource/Statistics.java:192-229 | header rows render empty, and every other row parses back to its value |
| Stats.Statistics.constructor | core/src/main/java/com/anyicomplex/unlucky/resource/Statistics.java:125-131 | five fresh records and every statistic at 0 |
| Stats.Statistics.UpdateMax | core/src/main/java/com/anyicomplex/unlucky/resource/Statistics.java:139-143 | the record becomes the larger of itself and the candidate |
| Stats.Statistics.Values | core/src/main/java/com/anyicomplex/unlucky/resource/Statistics.java:192-229 | 34 values, one per description line |
| Stats.Statistics.StatsListAligned | core/src/main/java/com/anyicomplex/unlucky/resource/Statistics.java:149-229 | the values list lines up with the description list: empty at the headers, the parsed value elsewhere |
| Stats.Statistics.StatsList | core/src/main/java/com/anyicomplex/unlucky/resource/Statistics.java:192-229 | one string per description line, empty exactly at the three headers |
| Inventories.FirstFree | core/src/main/java/com/anyicomplex/unlucky/inventory/Inventory.java:67-72 | -1 exactly when no slot is free; otherwise a free slot with none free before it |
| Inventories.OccupiedUpdate | core/src/main/java/com/anyicomplex/unlucky/inventory/Inventory.java:102-136 | writing one slot changes the occupied count by the difference between the old and new contents |
| Inventories.FullIffAllOccupied | core/src/main/java/com/anyicomplex/unlucky/inventory/Inventory.java:159-164 | no free slot exactly when every slot is occupied |
| Inventories.AddThenTake | core/src/main/java/com/anyicomplex/unlucky/inventory/Inventory.java:102-152 | on a bag with a free slot, `takeItem` at the index `addItem` gave the item returns that item and leaves every slot and the item count as before the add |
| Inventories.EmptyHoldsNothing | core/src/main/java/com/anyicomplex/unlucky/inventory/Inventory.java:169-173 | all-empty slots hold no item |
| Inventories.Inventory.constructor | core/src/main/java/com/anyicomplex/unlucky/inventory/Inventory.java:57-59 | a fresh inventory of empty slots |
| Inventories.Inventory.GetFirstFreeSlotIndex | core/src/main/java/com/anyicomplex/unlucky/inventory/Inventory.java:67-72 | the first free slot, or -1 |
| Inventories.Inventory.GetItem | core/src/main/java/com/anyicomplex/unlucky/inventory/Inventory.java:81-83 | null exactly when `isFreeSlot` holds for the index |
| Inventories.Inventory.AddItem | core/src/main/java/com/anyicomplex/unlucky/inventory/Inventory.java:102-110 | succeeds exactly when a slot is free; then the item is in the first free slot, knows its index, and one more slot is occupied; otherwise nothing changes |
| Inventories.Inventory.AddItemAtIndex | core/src/main/java/com/anyicomplex/unlucky/inventory/Inventory.java:120-127 | succeeds exactly when that slot is free, placing the item there; otherwise nothing changes |
| Inventories.Inventory.RemoveItem | core/src/main/java/com/anyicomplex/unlucky/inventory/Inventory.java:134-136 | only that slot is emptied |
| Inventories.Inventory.TakeItem | core/src/main/java/com/anyicomplex/unlucky/inventory/Inventory.java:144-152 | returns the slot's content and empties only that slot |
| Inventories.Inventory.IsFull | core/src/main/java/com/anyicomplex/unlucky/inventory/Inventory.java:159-164 | true exactly when every slot is occupied, when there is no first free slot, and when the count of occupied slots is the capacity |
| Inventories.Inventory.Clear | core/src/main/java/com/anyicomplex/unlucky/inventory/Inventory.java:169-173 | every slot is empty and none is occupied |
| Equipments.SlotOf | core/src/main/java/com/anyicomplex/unlucky/inventory/Equipment.java:91-98 | an equipment type maps to a valid slot |
| Equipments.EquipThenRemove | core/src/main/java/com/anyicomplex/unlucky/inventory/Equipment.java:91-114 | equipping into the empty slot of the item's type and then removing that slot returns the item and leaves every slot as before; the item stays marked equipped |
| Equipments.Equipment.constructor | core/src/main/java/com/anyicomplex/unlucky/inventory/Equipment.java:70-82 | a fresh set of empty equipment slots |
| Equipments.Equipment.AddEquip | core/src/main/java/com/anyicomplex/unlucky/inventory/Equipment.java:91-98 | succeeds exactly when the type's slot is empty, placing and flagging the item; otherwise nothing changes; every item stays in its type's slot |
| Equipments.Equipment.GetEquipAt | core/src/main/java/com/anyicomplex/unlucky/inventory/Equipment.java:122-124 | in a well-placed equipment, the item at a slot is of that slot's type |
| Equipments.Equipment.RemoveEquip | core/src/main/java/com/anyicomplex/unlucky/inventory/Equipment.java:106-114 | returns the slot's item and empties only that slot, keeping every item in its type's slot |
| Saves.RecordOf | core/src/main/java/com/anyicomplex/unlucky/save/PlayerAccessor.java:122-131 | a shop item gets a shop record, and the record keeps the name, type and index |
| Saves.SlotRecord | core/src/main/java/com/anyicomplex/unlucky/save/PlayerAccessor.java:119-154 | an empty slot saves as nothing, and a held item saves as its record |
| Saves.Encoded | core/src/main/java/com/anyicomplex/unlucky/save/PlayerAccessor.java:156-160 | the saved special moves are always five entries; None, for the throw, exactly when a move is null |
| Saves.EncodedPadding | core/src/main/java/com/anyicomplex/unlucky/save/PlayerAccessor.java:156-160 | entry i is -1 exactly past the end of the set, and every other entry looks up to the move it came from |
| Saves.AddKeepsCatalogue | core/src/main/java/com/anyicomplex/unlucky/battle/SpecialMoveset.java:70-74 | adding a catalogue id keeps every move a catalogue move |
| Saves.PrefixAdmitsNext | core/src/main/java/com/anyicomplex/unlucky/save/Save.java:148-152 | during replay, each saved move is admitted by the moves replayed before it |
| Saves.Replay | core/src/main/java/com/anyicomplex/unlucky/save/Save.java:148-152 | the special moveset after the load loop, or None when one of its `addSMove` calls throws on a null already in the set |
| Saves.ReplayRestores | core/src/main/java/com/anyicomplex/unlucky/save/Save.java:148-152 | replaying the saved ids from any point on the prefix saved so far restores the whole set |
| Saves.SaveLoadRoundTrip | core/src/main/java/com/anyicomplex/unlucky/save/Save.java:148-152 | saving a valid special moveset and loading it back gives the same moves in the same order |
| Saves.ReplayKeepsLimits | core/src/main/java/com/anyicomplex/unlucky/save/Save.java:148-152 | whatever ids a save holds, a load that completes never breaks the five-move and two-copy limits; a save of catalogue ids and -1 padding always loads, with no null |
| Saves.ReplayOfUnknownId | core/src/main/java/com/anyicomplex/unlucky/save/Save.java:148-152 | the saved ids [9, 0, -1, -1, -1] make the load throw; [0, 1, 2, 3, 9] load and leave a null as the fifth move |
| Saves.NullMoveBreaksSave | core/src/main/java/com/anyicomplex/unlucky/save/PlayerAccessor.java:156-160 | the set that [0, 1, 2, 3, 9] loads into cannot be saved again: `load` throws on its null fifth move |
| Saves.LoadSpecialMoves | core/src/main/java/com/anyicomplex/unlucky/save/Save.java:148-152 | the loop offering each saved id other than -1 to `addSMove` completes exactly when `Replay` gives a set, and then leaves exactly that set |
| Saves.PlayerAccessor.constructor | core/src/main/java/com/anyicomplex/unlucky/save/PlayerAccessor.java:92-97 | fresh inventory and equipment record arrays, all empty, and a special move record of five -1 |
| Saves.PlayerAccessor.Load | core/src/main/java/com/anyicomplex/unlucky/save/PlayerAccessor.java:103-160 | the fields and every inventory and equipment slot are saved exactly; the special moves are saved exactly when none is null, and otherwise the ids before the first null are written, the rest left at -1, and the call throws |
| Saves.PlayerAccessor.LoadFields | core/src/main/java/com/anyicomplex/unlucky/save/PlayerAccessor.java:105-116 | the plain player fields are copied |
| Saves.PlayerAccessor.LoadInventory | core/src/main/java/com/anyicomplex/unlucky/save/PlayerAccessor.java:119-136 | every inventory slot gets its item's record |
| Saves.PlayerAccessor.LoadEquips | core/src/main/java/com/anyicomplex/unlucky/save/PlayerAccessor.java:137-154 | every equipment slot gets its item's record |
| Saves.PlayerAccessor.LoadSmoveset | core/src/main/java/com/anyicomplex/unlucky/save/PlayerAccessor.java:156-160 | the special move ids padded with -1; on a null the loop stops there, having written the ids before it, and throws |
| Saves.FirstNull | core/src/main/java/com/anyicomplex/unlucky/save/PlayerAccessor.java:157-159 | how far the id loop of `load` gets: every earlier move is present, and the move there is null unless it is the end |
| Shops.SelectConcat | core/src/main/java/com/anyicomplex/unlucky/inventory/Shop.java:64-92 | sorting a concatenation into a bucket gives the two sortings one after the other, so stock order is kept |
| Shops.SelectMembers | core/src/main/java/com/anyicomplex/unlucky/inventory/Shop.java:68-91 | an item is in a bucket exactly when it is in stock and its type belongs to that bucket |
| Shops.BucketOf | core/src/main/java/com/anyicomplex/unlucky/inventory/Shop.java:68-91 | the bucket each item type is sold in: potions and enchant scrolls, equipment of types 2..6, accessories of types 7..9, and none for any other type |
| Shops.Select | core/src/main/java/com/anyicomplex/unlucky/inventory/Shop.java:68-91 | the items of the stock sold in one bucket, in stock order |
| Shops.BucketsPartition | core/src/main/java/com/anyicomplex/unlucky/inventory/Shop.java:68-91 | every stock item lands in exactly one bucket or is dropped |
| Shops.Shop.constructor | core/src/main/java/com/anyicomplex/unlucky/inventory/Shop.java:59-94 | three buckets, each holding that bucket's items from all rarities in stock order |
| Tiles.StaticClassification | core/src/main/java/com/anyicomplex/unlucky/map/Tile.java:114-128 | a static tile is blocked exactly for the blocked ids, ice exactly for the ice ids not blocked, and normal otherwise |
| Tiles.StaticTileType | core/src/main/java/com/anyicomplex/unlucky/map/Tile.java:114-128 | the type the static-tile constructor gives an id: blocked, ice or normal |
| Tiles.AnimatedClassification | core/src/main/java/com/anyicomplex/unlucky/map/Tile.java:137-159 | ids 99..108 take their special type in order, 96 and 109 block, 110 is the end, no animated tile is ice, and the rest are normal |
| Tiles.AnimatedTileType | core/src/main/java/com/anyicomplex/unlucky/map/Tile.java:137-159 | the type the animated-tile constructor gives an id: a special type for 99..108, blocked for 96 and 109, the end for 110, normal otherwise |
| Tiles.MovingTypes | core/src/main/java/com/anyicomplex/unlucky/map/Tile.java:208-219 | the moving types are exactly change, in-and-out, the four arrows and ice; each is special; stop, question mark, teleport, exclamation mark and end are special but not moving |
| Tiles.Tile.Static | core/src/main/java/com/anyicomplex/unlucky/map/Tile.java:114-128 | a static tile with its classified type, holding nothing |
| Tiles.Tile.Animated | core/src/main/java/com/anyicomplex/unlucky/map/Tile.java:137-159 | an animated tile with its classified type, holding nothing |
| Tiles.Tile.AddEntity | core/src/main/java/com/anyicomplex/unlucky/map/Tile.java:161-163 | an empty tile takes the entity; an occupied one keeps what it holds |
| Tiles.Tile.ContainsEntity | core/src/main/java/com/anyicomplex/unlucky/map/Tile.java:170-172 | true exactly when the tile holds an entity, which is when `addEntity` keeps what it holds |
| Tiles.Tile.RemoveEntity | core/src/main/java/com/anyicomplex/unlucky/map/Tile.java:165-167 | the tile holds nothing |
| GameScreens.UpdateRoutingDisjoint | core/src/main/java/com/anyicomplex/unlucky/screen/GameScreen.java:349-374 | two different event states update disjoint subsystems, and only pause, death and none update nothing |
| GameScreens.UpdatedIn | core/src/main/java/com/anyicomplex/unlucky/screen/GameScreen.java:355-373 | the subsystems `update` reaches in each event state |
| GameScreens.RenderedIn | core/src/main/java/com/anyicomplex/unlucky/screen/GameScreen.java:382-416 | the layers `render` draws for the event state and the transition's snapshot flags, with the battle backgrounds and the map drawn only while `renderBatch` is set |
| GameScreens.TransitionRendersSnapshot | core/src/main/java/com/anyicomplex/unlucky/screen/GameScreen.java:382-416 | during a transition the overlay draws; the battle and level-up views draw exactly as their snapshot flags say; the map and the battle backgrounds draw exactly when their flag and `renderBatch` are both set; the HUD does not |
| GameScreens.MapUnderOverlays | core/src/main/java/com/anyicomplex/unlucky/screen/GameScreen.java:382-416 | tile events, the inventory, pause and death draw over the map exactly when `renderBatch` is set, never over the battle; with `renderBatch` off neither the map nor the battle backgrounds are drawn in any state |
| GameScreens.KeyConsumption | core/src/main/java/com/anyicomplex/unlucky/screen/GameScreen.java:125-233 | no key is taken while unclickable or while the inventory slides; battle, tile event and death take every key; moving takes exactly back, escape, E and the direction keys; the other states take none |
| GameScreens.KeyDownOutcome | core/src/main/java/com/anyicomplex/unlucky/screen/GameScreen.java:125-233 | what `keyDown` does for the event state and the key: whether the key is consumed, and the call it makes |
| GameScreens.BattleMoveKeys | core/src/main/java/com/anyicomplex/unlucky/screen/GameScreen.java:143-158 | exactly the keys 1 to 4 and numpad 1 to 4 pick a move, the two spellings of a number picking the same slot |
| GameScreens.KeyEventChanges | core/src/main/java/com/anyicomplex/unlucky/screen/GameScreen.java:125-233 | a key press changes the event state only while moving, and then only to pause or the inventory |
| GameScreens.EventAfterKey | core/src/main/java/com/anyicomplex/unlucky/screen/GameScreen.java:172-196 | the event a key press leaves: pause after the pause keys, the inventory after E, the same event otherwise |
| GameScreens.DirectionsDistinct | core/src/main/java/com/anyicomplex/unlucky/screen/GameScreen.java:197-220 | two direction keys steer the same way exactly when they are the letter and arrow of one direction |
| GameScreens.DirectionOf | core/src/main/java/com/anyicomplex/unlucky/screen/GameScreen.java:197-220 | the hud direction each direction key sets: up 1, left 3, down 0, right 2 |
| GameScreens.GameScreen.constructor | core/src/main/java/com/anyicomplex/unlucky/screen/GameScreen.java:97-102 | a new game screen starts moving, set to reset the map, with `renderBatch` off as its field default (AbstractScreen.java:74) |
| GameScreens.GameScreen.SetCurrentEvent | core/src/main/java/com/anyicomplex/unlucky/screen/GameScreen.java:430-432 | only the event state changes |
| GameScreens.GameScreen.Init | core/src/main/java/com/anyicomplex/unlucky/screen/GameScreen.java:267-270 | the world and level indices are set and the event state is kept |
| GameScreens.GameScreen.Show | core/src/main/java/com/anyicomplex/unlucky/screen/GameScreen.java:273-300 | `renderBatch` is set; with a pending reset the screen goes back to moving with no key held; otherwise the event state is kept |
| GameScreens.GameScreen.SetRenderBatch | core/src/main/java/com/anyicomplex/unlucky/screen/AbstractScreen.java:184-186 | `renderBatch` takes the given value and the rest of the screen is unchanged |
| GameScreens.GameScreen.Update | core/src/main/java/com/anyicomplex/unlucky/screen/GameScreen.java:349-374 | time advances except in pause, and the subsystems of the current event state are updated |
| GameScreens.GameScreen.KeyDown | core/src/main/java/com/anyicomplex/unlucky/screen/GameScreen.java:125-233 | the key's outcome for the clickable flag and event state, the event change it causes, and steering records the direction with a fresh hold timer |
| GameScreens.GameScreen.KeyUp | core/src/main/java/com/anyicomplex/unlucky/screen/GameScreen.java:236-250 | a direction key is taken and releases the hold; any other key passes on |
| GameScreens.GameScreen.Die | core/src/main/java/com/anyicomplex/unlucky/screen/GameScreen.java:320-326 | the event state becomes death and the player is restored to full hp |
| GameScreens.SteerThenRelease | core/src/main/java/com/anyicomplex/unlucky/screen/GameScreen.java:195-250 | pressing and releasing a direction key while moving leaves the screen moving, in that direction, with no key held |
| Transitions.EndTargets | core/src/main/java/com/anyicomplex/unlucky/screen/game/TransitionScreen.java:151-208 | the end of a transition only ever moves to battle, moving or death; into a battle, onto the map and into death it reaches the target; out of battle or level-up it leaves the state to the next screen |
| Transitions.SnapshotFor | core/src/main/java/com/anyicomplex/unlucky/screen/game/TransitionScreen.java:122-146 | the snapshot flag `start` raises for the pair of events: the map when leaving it for a battle or a teleport, the battle when leaving a battle, the level-up screen when returning from it to the map, and none otherwise |
| Transitions.EndActionFor | core/src/main/java/com/anyicomplex/unlucky/screen/game/TransitionScreen.java:151-208 | the call `end` makes for the pair of events: enter a battle, teleport, leave a battle, leave the level-up screen, or die, and nothing for any other pair |
| Transitions.SnapshotIsPrevious | core/src/main/java/com/anyicomplex/unlucky/screen/game/TransitionScreen.java:122-146 | the snapshot kept during a transition is always of the screen being left, and every transition with an end action has one |
| Transitions.TransitionScreen.constructor | core/src/main/java/com/anyicomplex/unlucky/screen/game/TransitionScreen.java:103-114 | no snapshot, not started, and the drawn wipe pattern |
| Transitions.TransitionScreen.Start | core/src/main/java/com/anyicomplex/unlucky/screen/game/TransitionScreen.java:122-146 | the transition starts with its endpoints and pattern and turns on the snapshot of the screen being left |
| Transitions.TransitionScreen.End | core/src/main/java/com/anyicomplex/unlucky/screen/game/TransitionScreen.java:151-208 | the snapshots are cleared, the end action and new event state follow from the endpoints, and only a death restores the player |
| Transitions.EventAfterEnd | core/src/main/java/com/anyicomplex/unlucky/screen/game/TransitionScreen.java:151-208 | the event `end` leaves the game screen in: battling, moving or death for the three pairs that set one, the current event otherwise |
| Transitions.TransitionScreen.Update | core/src/main/java/com/anyicomplex/unlucky/screen/game/TransitionScreen.java:210-249 | the transition ends exactly when it was started and the wipe is done; otherwise nothing changes |
| LevelUps.Stepped | core/src/main/java/com/anyicomplex/unlucky/screen/game/LevelUpScreen.java:279-292 | one counter tick keeps one entry per stat |
| LevelUps.StepN | core/src/main/java/com/anyicomplex/unlucky/screen/game/LevelUpScreen.java:279-292 | n ticks keep one entry per stat |
| LevelUps.SteppedNeverOvershoots | core/src/main/java/com/anyicomplex/unlucky/screen/game/LevelUpScreen.java:279-292 | a tick raises each stat below its target by one without passing it, and leaves the others alone |
| LevelUps.StepNValue | core/src/main/java/com/anyicomplex/unlucky/screen/game/LevelUpScreen.java:279-292 | after n ticks each stat is its start plus n, capped at its target |
| LevelUps.FinishesAfterLargestIncrease | core/src/main/java/com/anyicomplex/unlucky/screen/game/LevelUpScreen.java:279-292 | the counters reach their targets exactly when n is at least the largest increase |
| LevelUps.LevelUpScreen.constructor | core/src/main/java/com/anyicomplex/unlucky/screen/game/LevelUpScreen.java:92-98 | not started and not touchable |
| LevelUps.LevelUpScreen.Reset | core/src/main/java/com/anyicomplex/unlucky/screen/game/LevelUpScreen.java:262-267 | back to not started, not touchable |
| LevelUps.LevelUpScreen.Start | core/src/main/java/com/anyicomplex/unlucky/screen/game/LevelUpScreen.java:176-220 | the counters show the current stats, the targets are current plus increase, and the screen takes clicks |
| LevelUps.LevelUpScreen.PerformClick | core/src/main/java/com/anyicomplex/unlucky/screen/game/LevelUpScreen.java:231-257 | a click starts the count and applies the level-up, then skips to the targets, then starts the transition back to the map; an untouchable screen ignores it; only the last click touches the game screen or the transition, and the targets never change |
| LevelUps.LevelUpScreen.Update | core/src/main/java/com/anyicomplex/unlucky/screen/game/LevelUpScreen.java:269-293 | while counting, an opened gate ticks every counter once, and the animation is finished exactly when the counters reach their targets |
| Dialogs.Pieces | core/src/main/java/com/anyicomplex/unlucky/screen/game/DialogScreen.java:146-173 | a line splits into one piece per character, or one empty piece for an empty line |
| Dialogs.PiecesPrefix | core/src/main/java/com/anyicomplex/unlucky/screen/game/DialogScreen.java:204-217 | revealing the first k pieces shows exactly the first k characters |
| Dialogs.WholeLine | core/src/main/java/com/anyicomplex/unlucky/screen/game/DialogScreen.java:204-217 | revealing every piece shows the whole line |
| Dialogs.DialogScreen.ShownIsPrefix | core/src/main/java/com/anyicomplex/unlucky/screen/game/DialogScreen.java:204-217 | the text shown is always a prefix of the current line, and all of it once every piece is out |
| Dialogs.DialogScreen.constructor | core/src/main/java/com/anyicomplex/unlucky/screen/game/DialogScreen.java:80-90 | no dialog, no line, no reveal and events none |
| Dialogs.DialogScreen.Reset | core/src/main/java/com/anyicomplex/unlucky/screen/game/DialogScreen.java:193-202 | the line, reveal and cycle flags are cleared; the dialog and its position are kept |
| Dialogs.DialogScreen.StartDialog | core/src/main/java/com/anyicomplex/unlucky/screen/game/DialogScreen.java:165-178 | the box shows, takes the dialog, and starts revealing its first line, keeping the line index |
| Dialogs.DialogScreen.EndDialog | core/src/main/java/com/anyicomplex/unlucky/screen/game/DialogScreen.java:180-188 | the box hides and forgets its lines |
| Dialogs.DialogScreen.Update | core/src/main/java/com/anyicomplex/unlucky/screen/game/DialogScreen.java:204-217 | during a reveal an opened gate shows one more piece, and the cycle ends once every piece is out |
| Dialogs.DialogScreen.HandleEvent | core/src/main/java/com/anyicomplex/unlucky/screen/game/DialogScreen.java:240-257 | returning to the map with no hp means death with full hp restored; otherwise the map with the player unchanged; other events change nothing |
| Dialogs.DialogScreen.PerformClick | core/src/main/java/com/anyicomplex/unlucky/screen/game/DialogScreen.java:133-156 | a click on the finished last line ends the dialog and hands back its next event: MOVING returns to the map, or to the death screen with hp restored when hp is 0 or less, and any other event leaves the game as it was; a click on a finished line shows the next, and during a reveal shows the rest of the line at once; both stored events are kept |
| Dialogs.DialogScreen.NextLine | core/src/main/java/com/anyicomplex/unlucky/screen/game/DialogScreen.java:141-148 | the next line starts revealing from nothing |
| Dialogs.DialogScreen.RevealLine | core/src/main/java/com/anyicomplex/unlucky/screen/game/DialogScreen.java:150-155 | the whole current line is shown and the cycle ends; `animIndex` stays where the reveal was cut short |
| BattleUi.IntroOutcome | core/src/main/java/com/anyicomplex/unlucky/ui/battleui/BattleUIHandler.java:114-162 | a boss always fights; a normal enemy ends the battle exactly when the player is saved; otherwise the player moves first exactly when the coin says so |
| BattleUi.IntroFor | core/src/main/java/com/anyicomplex/unlucky/ui/battleui/BattleUIHandler.java:106-165 | the intro lines `engage` shows for the enemy and the event that follows them, given the 1% escape draw and the first-turn coin |
| BattleUi.IntroLines | core/src/main/java/com/anyicomplex/unlucky/ui/battleui/BattleUIHandler.java:119-162 | the enemy moves first exactly when the intro has 3 lines, or 4 for a boss; a boss's third line states its passive; the enemy-first line starts with the enemy's name |
| BattleUi.SavedOnlyOnZero | core/src/main/java/com/anyicomplex/unlucky/ui/battleui/BattleUIHandler.java:114 | the 1% escape succeeds exactly on draw 0 |
| BattleUi.BattleUIHandler.constructor | core/src/main/java/com/anyicomplex/unlucky/ui/battleui/BattleUIHandler.java:71-82 | the battle UI starts in no state |
| BattleUi.BattleUIHandler.Update | core/src/main/java/com/anyicomplex/unlucky/ui/battleui/BattleUIHandler.java:84-88 | the scene always updates, the move UI exactly in the move state, the event handler exactly in the dialog state |
| BattleUi.UpdatedIn | core/src/main/java/com/anyicomplex/unlucky/ui/battleui/BattleUIHandler.java:84-88 | the parts `update` reaches in each battle state |
| BattleUi.BattleUIHandler.Engage | core/src/main/java/com/anyicomplex/unlucky/ui/battleui/BattleUIHandler.java:106-165 | the UI enters the dialog state, the player is alive again, the elite and boss counters grow by one for their kind only, and the intro follows from the enemy and the draws |
| LevelSelects.SelectKey | core/src/main/java/com/anyicomplex/unlucky/screen/LevelSelectScreen.java:136-152 | back and escape return to the worlds, enter and numpad enter start the level, and nothing is taken while unclickable |
| LevelSelects.EnabledLevels | core/src/main/java/com/anyicomplex/unlucky/screen/LevelSelectScreen.java:266-277 | one flag per level of the world |
| LevelSelects.UnlockRule | core/src/main/java/com/anyicomplex/unlucky/screen/LevelSelectScreen.java:103-117 | in the furthest world the levels up to the furthest level are open and it is selected; earlier worlds are all open from level 0; later worlds are all locked |
| LevelSelects.UnlockFor | core/src/main/java/com/anyicomplex/unlucky/screen/LevelSelectScreen.java:103-117 | the selected level and the last open level `show` sets for the world against the furthest world and level reached |
| LevelSelects.OpenLevelsArePrefix | core/src/main/java/com/anyicomplex/unlucky/screen/LevelSelectScreen.java:237-297 | the open levels are always a prefix, and a button exists exactly for each open level, in order |
| LevelSelects.SelectionIsOpen | core/src/main/java/com/anyicomplex/unlucky/screen/LevelSelectScreen.java:103-117 | in a reachable world the selected level exists and is open |
| LevelSelects.LevelSelectScreen.constructor | core/src/main/java/com/anyicomplex/unlucky/screen/LevelSelectScreen.java:81-87 | no levels and no buttons yet |
| LevelSelects.LevelSelectScreen.SetWorld | core/src/main/java/com/anyicomplex/unlucky/screen/LevelSelectScreen.java:193-196 | the world and its level count are set; the selection is kept |
| LevelSelects.LevelSelectScreen.CreateScrollPane | core/src/main/java/com/anyicomplex/unlucky/screen/LevelSelectScreen.java:224-309 | one flag per level, open for the first levels to show, and one button per open level |
| LevelSelects.LevelSelectScreen.Show | core/src/main/java/com/anyicomplex/unlucky/screen/LevelSelectScreen.java:89-155 | the selection and open levels follow the unlock rule, the buttons match them, and the world is masked exactly when it is beyond the furthest |
| LevelSelects.LevelSelectScreen.SelectLevel | core/src/main/java/com/anyicomplex/unlucky/screen/LevelSelectScreen.java:280-288 | clicking an open level selects it |
| LevelSelects.LevelSelectScreen.EnterGame | core/src/main/java/com/anyicomplex/unlucky/screen/LevelSelectScreen.java:216-222 | the game screen takes the world and level, and is set to reset its map |
| LevelSelects.LevelSelectScreen.PerformEnter | core/src/main/java/com/anyicomplex/unlucky/screen/LevelSelectScreen.java:157-186 | the game is entered exactly for a reachable world when the inventory has room or the player accepts; otherwise the game screen is left as it was |

## Left out

- Rendering, audio, fonts, widgets, tweens, camera updates and input multiplexing are not modelled. Only the game state they read or set is.
- Frame timers that advance by a `float` delta (text speed, level-up counter speed, the transition wipe) are boolean gate parameters. Their geometry and timing are not modelled.
- Random draws (`MathUtils.random`, `Util.isSuccess`) are parameters whose range is fixed by a requires clause. Only the draw's range is modelled, not the generator.
- Java's 32-bit `int` overflow is not modelled. Every value here is far from the limit.
- `Math.pow` with a non-integer exponent in the boss 0 and 2 hp seeds is a `real` parameter `pow` of `Enemies.BossStats`. It is not computed.
- Item.java, Player.java, MaxStat.java, Battle.java, MoveUI.java, BattleEventHandler.java and ItemAccessor.java are not part of this model. `Items.Item` is a stand-in with only the fields the inventory, equipment and save code read.
- `Player.applyLevelUp` is not part of this model. `LevelUps.LevelUpScreen.PerformClick` reports that it would be called, as a boolean.
- In `TransitionScreen.end`, the calls to `battle.begin`, `battle.end` and `battleUIHandler.engage` are reported as an end action and are not performed.
- Moveset description strings built with `Math.round`, and `healthBelow`, are not modelled. Neither are experience formulas (`calculateMaxExp`, `calculateExpEarned`).
- Shop item images and `ShopItem` construction are not modelled. Only the bucket each stock item lands in is.
- Tile replacement in `DialogScreen.handleEvent` and `finishTileInteraction` are not modelled. Only the event-state change and the death check are.
- The level-select back-key fade animation is not modelled. Only the key's action is. The level-name lookup, the button's `checked` state and the scroll position are not modelled either.
- Statistics and settings copied by `PlayerAccessor` are not modelled. Only the player fields, items, equipment and special moves are.
- Dialogs.DialogScreen.StartDialog: requires an idle box (`Idle()`, no reveal running and no line waiting for a click). The source sets the dialog, the first line, its pieces, both events and `beginCycle`, but never touches `animIndex`, `resultingText` or `endCycle` (DialogScreen.java:165-178), so a box started mid-dialog would keep its old reveal state. The model does not cover that case, because the requires excludes it. The game only starts a dialog on an idle box.
- GameScreens.GameScreen.Update: reports only the routing for the event state on entry. The routed updates are not performed here. Their event changes are modelled in `Transitions.TransitionScreen.Update`, whose `end` can move a transition frame into battling, moving or death. `update` tests each state in a separate `if`, so such a change within one frame could also run a later-tested group (the level-up, dialog or inventory update). The ensures `currentEvent == old(currentEvent)` holds only because the routed updates are left out.
- SpecialMoves.AfterAdd: a null in a special moveset that is not full makes `addSMove` throw, because `canAdd` reads every element's id (SpecialMoveset.java:116-123). `AfterAdd` requires that the call returns (`AddReturns`). The members that can meet a null model the throw instead: `Replay` and `AddAll` answer None, `CanAdd`, `ToString` and `Encoded` answer None, and `AddSMove`, `LoadSpecialMoves`, `PlayerAccessor.Load` and `PlayerAccessor.LoadSmoveset` report it with `ok` false. The exception itself, and what the callers of `Save.load` and `LevelSelectScreen.show` do when it escapes, is not modelled.
- Enemies.EliteNotWeaker: promises a higher elite minimum damage only for a non-negative baseline, because the code lowers a negative one (`Enemies.EliteCanLowerNegativeMinimum`).
- GameUtil.CatalogueIndexedById: states the by-level catalogue is a reordering of the by-id one through distinct ids, not as a multiset permutation.

## Findings

| source | as written | input that shows it | evidently intended | confidence | as-written member | corrected member |
|---|---|---|---|---|---|---|
| core/src/main/java/com/anyicomplex/unlucky/battle/StatusSet.java:100-106 | the forward loop calls `removeIndex(i)` and then increments `i`, so the element that slides into place `i` is never examined | effects [DISTRACT, FOCUS]: DISTRACT is removed, FOCUS slides to index 0 and the loop ends, leaving [FOCUS] | remove every effect other than `DMG_RED` and keep the rest in order | not executed | Status.MultiTurnClearMissesEffect | Status.StatusSet.ClearAllButMultiTurnEffectsCorrected |
