/**
 * How a battle opens (core/src/main/java/com/anyicomplex/unlucky/ui/battleui/BattleUIHandler.java).
 *
 * `engage` revives the player, counts elite and boss encounters, and picks the intro dialog
 * and the battle event that follows it: a boss always fights, a plain enemy flees on the 1%
 * "saved" roll, and otherwise a coin decides who strikes first. The move interface, the battle
 * scene and the battle event handler are not part of this model: the intro lines and the
 * follow-up event that `engage` hands to the handler's `startDialog` are returned instead.
 */
module BattleUi {
  import opened GameUtil
  import opened Events
  import opened Entities
  import opened Enemies
  import Stats

  const BOSS_GREETING: string := "you encountered the boss "
  const BOSS_POWER: string := "its power is far greater than any regular enemy."
  const PASSIVE_LABEL: string := "Passive: "
  const BOSS_FIRST: string := " strikes first!"
  const GREETING: string := "you encountered "
  const MAYBE_FLEE: string := "maybe there's a chance it doesn't want to fight..."
  const FLEE_LINE: string := "the enemy stares at you and decides to flee the battle."
  const ENGAGE_LINE: string := "the enemy glares at you and decides to engage in battle!"
  const ENEMY_FIRST: string := " attacks first!"

  /** The intro dialog and the event that follows it. */
  datatype Intro = Intro(lines: seq<string>, next: BattleEvent)

  /** The intro `engage` starts for an enemy, given the saved roll and the coin. */
  function IntroFor(kind: EnemyKind, id: string, saved: bool, coin: bool): Intro
  {
    if IsBoss(kind) then
      var opening := [BOSS_GREETING + id + "!",
                      BOSS_POWER,
                      PASSIVE_LABEL + PassiveDescription(kind.bossId)];
      if coin then Intro(opening, PLAYER_TURN)
      else Intro(opening + [id + BOSS_FIRST], ENEMY_TURN)
    else
      var greeting := GREETING + id + "! " + MAYBE_FLEE;
      if saved then Intro([greeting, FLEE_LINE], END_BATTLE)
      else if coin then Intro([greeting, ENGAGE_LINE], PLAYER_TURN)
      else Intro([greeting, ENGAGE_LINE, id + ENEMY_FIRST], ENEMY_TURN)
  }

  /**
   * A boss never flees, whatever the saved roll; a battle ends before it starts exactly when a
   * plain enemy is saved; otherwise the coin alone decides who moves first.
   */
  lemma IntroOutcome(kind: EnemyKind, id: string, saved: bool, coin: bool)
    ensures IsBoss(kind) ==> IntroFor(kind, id, saved, coin).next != END_BATTLE
    ensures IntroFor(kind, id, saved, coin).next == END_BATTLE <==> !IsBoss(kind) && saved
    ensures IntroFor(kind, id, saved, coin).next != END_BATTLE ==>
      (IntroFor(kind, id, saved, coin).next == PLAYER_TURN <==> coin)
  {
  }

  /**
   * The intro announces a first strike by the enemy exactly when the enemy moves first: one
   * line more than the player-first intro. A boss's third line names its passive.
   */
  lemma IntroLines(kind: EnemyKind, id: string, saved: bool, coin: bool)
    ensures var i := IntroFor(kind, id, saved, coin);
      i.next == ENEMY_TURN <==> |i.lines| == (if IsBoss(kind) then 4 else 3)
    ensures IsBoss(kind) ==> IntroFor(kind, id, saved, coin).lines[2] == PASSIVE_LABEL + PassiveDescription(kind.bossId)
    ensures var i := IntroFor(kind, id, saved, coin);
      i.next == ENEMY_TURN ==> i.lines[|i.lines| - 1][..|id|] == id
  {
  }

  /** Only the draw 0 of 0..99 saves the player: the roll succeeds one time in a hundred. */
  lemma SavedOnlyOnZero(k: int)
    requires 0 <= k <= 99
    ensures IsSuccess(SAVED_FROM_BATTLE, k) <==> k == 0
  {
  }

  /** The parts of the battle interface `update` reaches. */
  datatype BattlePart = MoveUi | EventHandler | Scene

  function UpdatedIn(s: BattleState): set<BattlePart>
  {
    (if s == BS_MOVE then {MoveUi} else {}) + (if s == BS_DIALOG then {EventHandler} else {}) + {Scene}
  }

  class BattleUIHandler {
    var currentState: BattleState
    const player: Entity
    const stats: Stats.Statistics

    constructor (player: Entity, stats: Stats.Statistics)
      ensures currentState == BS_NONE && this.player == player && this.stats == stats
    {
      currentState := BS_NONE;
      this.player := player;
      this.stats := stats;
    }

    /** `update(dt)`: the scene always, the move interface or the dialog only in its own state. */
    method Update() returns (updated: set<BattlePart>)
      ensures updated == UpdatedIn(currentState)
      ensures Scene in updated && (MoveUi in updated <==> currentState == BS_MOVE)
      ensures EventHandler in updated <==> currentState == BS_DIALOG
    {
      updated := {};
      if currentState == BS_MOVE { updated := updated + {MoveUi}; }
      if currentState == BS_DIALOG { updated := updated + {EventHandler}; }
      updated := updated + {Scene};
    }

    /** `engage(enemy)`, with `savedDraw` the saved roll's draw and `coin` the coin flip. */
    method Engage(enemy: Enemy, savedDraw: int, coin: bool) returns (intro: Intro)
      requires 0 <= savedDraw <= 99
      requires player != enemy.body
      modifies this, player, stats
      ensures currentState == BS_DIALOG
      ensures player.State() == old(player.State()).(dead := false)
      ensures stats.eliteEncountered == old(stats.eliteEncountered) + (if IsElite(enemy.kind) then 1 else 0)
      ensures stats.bossEncountered == old(stats.bossEncountered) + (if IsBoss(enemy.kind) then 1 else 0)
      ensures stats.Values()[..32] == old(stats.Values()[..32])
      ensures intro == IntroFor(enemy.kind, enemy.body.id, IsSuccess(SAVED_FROM_BATTLE, savedDraw), coin)
    {
      player.SetDead(false);
      currentState := BS_DIALOG;
      var saved := IsSuccess(SAVED_FROM_BATTLE, savedDraw);
      if IsElite(enemy.kind) {
        stats.eliteEncountered := stats.eliteEncountered + 1;
      } else if IsBoss(enemy.kind) {
        stats.bossEncountered := stats.bossEncountered + 1;
      }
      intro := IntroFor(enemy.kind, enemy.body.id, saved, coin);
    }
  }
}
