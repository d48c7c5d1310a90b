/**
 * The wipe between scenes (core/src/main/java/com/anyicomplex/unlucky/screen/game/TransitionScreen.java).
 *
 * `start(prev, next)` arms the wipe, chooses its pattern and raises the flag for the scene to
 * keep drawing underneath; `end()` drops the flags and moves the game screen on. The wipe
 * geometry is float animation: `update` is modelled by whether the wipe reached its end during
 * this frame. Calls into the battle, the hud, audio and the player's teleport (none of which
 * are part of this model) are reported as an `EndAction`.
 */
module Transitions {
  import opened Events
  import opened Entities
  import opened GameScreens

  const NUM_TRANSITIONS: int := 6

  /** The snapshot flag `start` raises for a pair of events. */
  datatype Snapshot = MapSnapshot | BattleSnapshot | LevelUpSnapshot | NoSnapshot

  function SnapshotFor(prev: EventState, next: EventState): Snapshot
  {
    if prev == MOVING && next == BATTLING then MapSnapshot
    else if prev == MOVING && next == MOVING then MapSnapshot
    else if prev == BATTLING then BattleSnapshot
    else if prev == LEVEL_UP && next == MOVING then LevelUpSnapshot
    else NoSnapshot
  }

  /** The range `start` draws the wipe pattern from: strips only for a teleport. */
  predicate PatternAllowed(prev: EventState, next: EventState, index: int)
  {
    if prev == MOVING && next == MOVING then 2 <= index <= 3 else 0 <= index < NUM_TRANSITIONS
  }

  /** What `end()` sets off besides the event change. */
  datatype EndAction =
    | EnterBattle    // battle.begin, battle music, uiHandler.engage, hud hidden
    | Teleport       // player.teleport, camera, hud shown, finishTeleporting
    | LeaveBattle    // battle.end, map music and weather sounds
    | LeaveLevelUp   // battle.end, map music and weather sounds
    | EnterDeath     // battle.end, then die()
    | NoEndAction

  function EndActionFor(prev: EventState, next: EventState): EndAction
  {
    if prev == MOVING && next == BATTLING then EnterBattle
    else if prev == MOVING && next == MOVING then Teleport
    else if prev == BATTLING && next == MOVING then LeaveBattle
    else if prev == LEVEL_UP && next == MOVING then LeaveLevelUp
    else if prev == BATTLING && next == DEATH then EnterDeath
    else NoEndAction
  }

  /** The event `end()` leaves the game screen in, from the one it was in. */
  function EventAfterEnd(prev: EventState, next: EventState, current: EventState): EventState
  {
    match EndActionFor(prev, next)
    case EnterBattle => BATTLING
    case Teleport => MOVING
    case EnterDeath => DEATH
    case _ => current
  }

  /**
   * The wipe re-enters one of battling, moving and death, and it does so exactly for the
   * three pairs that ask for it; leaving a battle or a level-up waits for the battle's own end.
   */
  lemma EndTargets(prev: EventState, next: EventState, current: EventState)
    ensures EventAfterEnd(prev, next, current) != current ==> EventAfterEnd(prev, next, current) in {BATTLING, MOVING, DEATH}
    ensures EventAfterEnd(prev, next, current) == next <== (prev, next) in {(MOVING, BATTLING), (MOVING, MOVING), (BATTLING, DEATH)}
    ensures (prev, next) in {(BATTLING, MOVING), (LEVEL_UP, MOVING)} ==> EventAfterEnd(prev, next, current) == current
  {
  }

  /** The snapshot under the wipe is the scene the game is leaving. */
  lemma SnapshotIsPrevious(prev: EventState, next: EventState)
    ensures SnapshotFor(prev, next) == MapSnapshot ==> prev == MOVING
    ensures SnapshotFor(prev, next) == BattleSnapshot <==> prev == BATTLING
    ensures SnapshotFor(prev, next) == LevelUpSnapshot ==> prev == LEVEL_UP
    ensures EndActionFor(prev, next) != NoEndAction ==> SnapshotFor(prev, next) != NoSnapshot
  {
  }

  class TransitionScreen {
    var renderMap: bool
    var renderBattle: bool
    var renderLevelUp: bool
    var prev: EventState
    var next: EventState
    var shouldStart: bool
    var transitionIndex: int
    const gameScreen: GameScreen
    const player: Entity

    /** No flag raised and a pattern drawn from all six. */
    constructor (gameScreen: GameScreen, player: Entity, draw: int)
      requires 0 <= draw < NUM_TRANSITIONS
      ensures this.gameScreen == gameScreen && this.player == player
      ensures !renderMap && !renderBattle && !renderLevelUp && !shouldStart
      ensures transitionIndex == draw
    {
      this.gameScreen := gameScreen;
      this.player := player;
      renderMap, renderBattle, renderLevelUp := false, false, false;
      prev, next := NONE, NONE;
      shouldStart := false;
      transitionIndex := draw;
    }

    /**
     * `start(prev, next)`, with the pattern drawn as `draw`. Each call raises at most the one
     * flag `SnapshotFor` names; flags a previous call raised stay up until `end`.
     */
    method Start(prev: EventState, next: EventState, draw: int)
      requires PatternAllowed(prev, next, draw)
      modifies this
      ensures shouldStart && this.prev == prev && this.next == next && transitionIndex == draw
      ensures renderMap == (old(renderMap) || SnapshotFor(prev, next) == MapSnapshot)
      ensures renderBattle == (old(renderBattle) || SnapshotFor(prev, next) == BattleSnapshot)
      ensures renderLevelUp == (old(renderLevelUp) || SnapshotFor(prev, next) == LevelUpSnapshot)
    {
      shouldStart := true;
      this.prev := prev;
      this.next := next;
      if prev == MOVING && next == BATTLING { renderMap := true; }
      else if prev == MOVING && next == MOVING { renderMap := true; }
      else if prev == BATTLING { renderBattle := true; }
      else if prev == LEVEL_UP && next == MOVING { renderLevelUp := true; }
      transitionIndex := draw;
    }

    /** `end()`. */
    method End() returns (action: EndAction)
      modifies this, gameScreen, player
      ensures !shouldStart && !renderMap && !renderBattle && !renderLevelUp
      ensures prev == old(prev) && next == old(next)
      ensures action == EndActionFor(prev, next)
      ensures gameScreen.currentEvent == EventAfterEnd(prev, next, old(gameScreen.currentEvent))
      ensures action == EnterDeath ==> player.State() == old(player.State()).(hp := old(player.maxHp))
      ensures action != EnterDeath ==> player.State() == old(player.State())
    {
      shouldStart := false;
      renderMap, renderBattle, renderLevelUp := false, false, false;
      if prev == MOVING && next == BATTLING {
        gameScreen.SetCurrentEvent(BATTLING);
        action := EnterBattle;
      } else if prev == MOVING && next == MOVING {
        gameScreen.SetCurrentEvent(MOVING);
        action := Teleport;
      } else if prev == BATTLING && next == MOVING {
        action := LeaveBattle;
      } else if prev == LEVEL_UP && next == MOVING {
        action := LeaveLevelUp;
      } else if prev == BATTLING && next == DEATH {
        gameScreen.Die(player);
        action := EnterDeath;
      } else {
        action := NoEndAction;
      }
    }

    /** `update(dt)`: nothing happens unless a wipe is running; a finished wipe ends. */
    method Update(wipeDone: bool) returns (ended: bool)
      modifies this, gameScreen, player
      ensures ended <==> old(shouldStart) && wipeDone
      ensures !ended ==> (shouldStart == old(shouldStart) && renderMap == old(renderMap)
                          && renderBattle == old(renderBattle) && renderLevelUp == old(renderLevelUp)
                          && gameScreen.currentEvent == old(gameScreen.currentEvent))
      ensures ended ==> !shouldStart && gameScreen.currentEvent == EventAfterEnd(prev, next, old(gameScreen.currentEvent))
    {
      ended := false;
      if shouldStart && wipeDone {
        var a := End();
        ended := true;
      }
    }
  }
}
