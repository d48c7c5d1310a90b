/**
 * The game screen's event machine (core/src/main/java/com/anyicomplex/unlucky/screen/GameScreen.java).
 *
 * The screen holds the current `EventState`, routes each frame's update and each key press by
 * it, and draws the layers that state (and the transition's snapshot flags) call for. The
 * subsystems it drives (map, hud, battle interface, dialog, level-up, inventory) are not part
 * of this file: routing names them with `Subsystem` and a key press names the call it makes
 * with `KeyAction`. Of the hud, only the direction fields that a key press writes are kept.
 */
module GameScreens {
  import opened Events
  import opened Entities

  /** The parts of the game an update or a render call reaches. */
  datatype Subsystem =
    | Camera | GameMap | Hud | Backgrounds | BattleUi | TransitionUi | LevelUpUi | DialogUi | InventoryUi

  /** `update(dt)`'s routing: the subsystems updated in each event state. */
  function UpdatedIn(e: EventState): set<Subsystem>
  {
    match e
    case MOVING => {Camera, GameMap, Hud}
    case BATTLING => {Backgrounds, BattleUi}
    case TRANSITION => {TransitionUi}
    case LEVEL_UP => {LevelUpUi}
    case TILE_EVENT => {DialogUi}
    case INVENTORY => {InventoryUi}
    case _ => {}
  }

  /**
   * `render(dt)`'s routing: the layers drawn, given the screen's `renderBatch` flag and the
   * transition's three snapshot flags. The battle backgrounds and the map go through the sprite
   * batch, so they are drawn only while `renderBatch` is set; the stages on top are not.
   */
  function RenderedIn(renderBatch: bool, e: EventState, renderMap: bool, renderBattle: bool, renderLevelUp: bool): set<Subsystem>
  {
    (if renderBatch && (e == BATTLING || renderBattle) then {Backgrounds} else {})
    + (if renderBatch && (e in {MOVING, INVENTORY, TILE_EVENT, DEATH, PAUSE} || renderMap) then {GameMap} else {})
    + (if e == BATTLING || renderBattle then {BattleUi} else {})
    + (if e in {MOVING, DEATH, PAUSE} then {Hud} else {})
    + (if e == LEVEL_UP || renderLevelUp then {LevelUpUi} else {})
    + (if e == TILE_EVENT then {DialogUi} else {})
    + (if e == INVENTORY then {InventoryUi} else {})
    + (if e == TRANSITION then {TransitionUi} else {})
  }

  /** The call a key press makes besides its effect on the event and the hud direction. */
  datatype KeyAction =
    | NoAction
    | DialogClick                 // dialog.performClick()
    | BattleClick                 // battleEventHandler.performClick()
    | PerformMove(index: int)     // moveUI.performMove(index)
    | PerformSpecialMove
    | PerformEscape
    | BackToMenu                  // hud.backToMenu()
    | OpenPause                   // event PAUSE, settings dialog shown
    | OpenInventory               // event INVENTORY, inventory opened
    | Steer(dirIndex: int)        // hud.dirIndex := dirIndex, dirTime := 0, touchDown := true

  datatype KeyOutcome = KeyOutcome(consumed: bool, action: KeyAction)

  predicate IsDirectionKey(k: Key)
  {
    k in {KEY_W, KEY_A, KEY_S, KEY_D, UP, LEFT, DOWN, RIGHT}
  }

  /** The hud direction index of a direction key: up 1, left 3, down 0, right 2. */
  function DirectionOf(k: Key): int
    requires IsDirectionKey(k)
  {
    if k == KEY_W || k == UP then 1
    else if k == KEY_A || k == LEFT then 3
    else if k == KEY_S || k == DOWN then 0
    else 2
  }

  /** The battle keys: enter clicks, 1..4 pick a move, M the special move, escape/back flee. */
  function BattleAction(k: Key): KeyAction
  {
    match k
    case ENTER => BattleClick
    case NUMPAD_ENTER => BattleClick
    case NUM_1 => PerformMove(0)
    case NUMPAD_1 => PerformMove(0)
    case NUM_2 => PerformMove(1)
    case NUMPAD_2 => PerformMove(1)
    case NUM_3 => PerformMove(2)
    case NUMPAD_3 => PerformMove(2)
    case NUM_4 => PerformMove(3)
    case NUMPAD_4 => PerformMove(3)
    case KEY_M => PerformSpecialMove
    case BACK => PerformEscape
    case ESCAPE => PerformEscape
    case _ => NoAction
  }

  /** `keyDown(keycode)`: whether the press is consumed and what it does. */
  function KeyDownOutcome(clickable: bool, inventorySliding: bool, e: EventState, k: Key): KeyOutcome
  {
    if !clickable || inventorySliding then KeyOutcome(false, NoAction)
    else match e
      case TILE_EVENT => KeyOutcome(true, if k == ENTER || k == NUMPAD_ENTER then DialogClick else NoAction)
      case BATTLING => KeyOutcome(true, BattleAction(k))
      case DEATH => KeyOutcome(true, BackToMenu)
      case MOVING =>
        if k == BACK || k == ESCAPE then KeyOutcome(true, OpenPause)
        else if k == KEY_E then KeyOutcome(true, OpenInventory)
        else if IsDirectionKey(k) then KeyOutcome(true, Steer(DirectionOf(k)))
        else KeyOutcome(false, NoAction)
      case _ => KeyOutcome(false, NoAction)
  }

  /** The event state a key action leaves behind. */
  function EventAfterKey(e: EventState, a: KeyAction): EventState
  {
    match a
    case OpenPause => PAUSE
    case OpenInventory => INVENTORY
    case _ => e
  }

  // ------------------------------------------------------------------
  // Properties of the routing
  // ------------------------------------------------------------------

  /**
   * At most one gameplay state is hot: two different states update disjoint sets of
   * subsystems, and pause, death and none update nothing.
   */
  lemma UpdateRoutingDisjoint(e1: EventState, e2: EventState)
    ensures e1 != e2 ==> UpdatedIn(e1) !! UpdatedIn(e2)
    ensures UpdatedIn(e1) == {} <==> e1 in {PAUSE, DEATH, NONE}
  {
  }

  /**
   * During a transition the wipe is drawn over exactly the snapshot its flags ask for; outside
   * a battle or level-up, those scenes are drawn only through the flags, and the map and the
   * battle backgrounds only while the batch is on.
   */
  lemma TransitionRendersSnapshot(batch: bool, rm: bool, rb: bool, rl: bool)
    ensures TransitionUi in RenderedIn(batch, TRANSITION, rm, rb, rl)
    ensures GameMap in RenderedIn(batch, TRANSITION, rm, rb, rl) <==> batch && rm
    ensures Backgrounds in RenderedIn(batch, TRANSITION, rm, rb, rl) <==> batch && rb
    ensures BattleUi in RenderedIn(batch, TRANSITION, rm, rb, rl) <==> rb
    ensures LevelUpUi in RenderedIn(batch, TRANSITION, rm, rb, rl) <==> rl
    ensures Hud !in RenderedIn(batch, TRANSITION, rm, rb, rl)
  {
  }

  /**
   * With the batch on, the map stays visible under the dialog, the inventory, the pause menu and
   * the death screen; with it off, neither the map nor the battle backgrounds are drawn at all.
   */
  lemma MapUnderOverlays(batch: bool, e: EventState, rm: bool, rb: bool, rl: bool)
    ensures e in {TILE_EVENT, INVENTORY, PAUSE, DEATH} ==>
      (GameMap in RenderedIn(batch, e, false, false, false) <==> batch)
      && BattleUi !in RenderedIn(batch, e, false, false, false)
    ensures !batch ==> GameMap !in RenderedIn(batch, e, rm, rb, rl) && Backgrounds !in RenderedIn(batch, e, rm, rb, rl)
  {
  }

  /**
   * Key dispatch: a blocked screen consumes nothing; a battle, a tile event and the death
   * screen consume every key; moving consumes exactly escape, back, E and the direction keys;
   * the other states consume none.
   */
  lemma KeyConsumption(clickable: bool, sliding: bool, e: EventState, k: Key)
    ensures !clickable || sliding ==> KeyDownOutcome(clickable, sliding, e, k) == KeyOutcome(false, NoAction)
    ensures clickable && !sliding && e in {BATTLING, TILE_EVENT, DEATH} ==>
      KeyDownOutcome(clickable, sliding, e, k).consumed
    ensures clickable && !sliding && e == MOVING ==>
      (KeyDownOutcome(clickable, sliding, e, k).consumed <==> k in {BACK, ESCAPE, KEY_E} || IsDirectionKey(k))
    ensures e in {PAUSE, LEVEL_UP, TRANSITION, INVENTORY, NONE} ==> !KeyDownOutcome(clickable, sliding, e, k).consumed
  {
  }

  /** In battle the four move keys (main row or keypad) pick moves 0..3 in order. */
  lemma BattleMoveKeys(k: Key)
    ensures BattleAction(k).PerformMove? <==> k in {NUM_1, NUM_2, NUM_3, NUM_4, NUMPAD_1, NUMPAD_2, NUMPAD_3, NUMPAD_4}
    ensures BattleAction(k).PerformMove? ==> 0 <= BattleAction(k).index <= 3
    ensures BattleAction(NUM_1) == BattleAction(NUMPAD_1) == PerformMove(0)
    ensures BattleAction(NUM_4) == BattleAction(NUMPAD_4) == PerformMove(3)
  {
  }

  /**
   * A key press changes the event only when moving, and then only to pause or the inventory:
   * the pause state is entered from moving alone.
   */
  lemma KeyEventChanges(clickable: bool, sliding: bool, e: EventState, k: Key)
    ensures EventAfterKey(e, KeyDownOutcome(clickable, sliding, e, k).action) != e ==>
      e == MOVING && EventAfterKey(e, KeyDownOutcome(clickable, sliding, e, k).action) in {PAUSE, INVENTORY}
  {
  }

  /** Each direction key steers its own way, and the letter and the arrow of one way agree. */
  lemma DirectionsDistinct(k1: Key, k2: Key)
    requires IsDirectionKey(k1) && IsDirectionKey(k2)
    ensures 0 <= DirectionOf(k1) <= 3
    ensures DirectionOf(k1) == DirectionOf(k2) <==>
      ({k1, k2} <= {KEY_W, UP} || {k1, k2} <= {KEY_A, LEFT} || {k1, k2} <= {KEY_S, DOWN} || {k1, k2} <= {KEY_D, RIGHT})
  {
  }

  // ------------------------------------------------------------------
  // The class
  // ------------------------------------------------------------------

  class GameScreen {
    var currentEvent: EventState
    /** `gameMap.time`. */
    var time: real
    var resetGame: bool
    var worldIndex: int
    var levelIndex: int
    /** Whether the screen accepts input (cleared while it fades). */
    var clickable: bool
    /** Whether the sprite batch (map, battle backgrounds) is drawn; off until the screen is shown. */
    var renderBatch: bool
    // the hud's direction pad
    var dirIndex: int
    var dirTime: real
    var touchDown: bool

    /** The screen opens on the map, and the next `show` resets the game. */
    constructor ()
      ensures currentEvent == MOVING && resetGame && clickable && !touchDown && !renderBatch
    {
      currentEvent := MOVING;
      renderBatch := false;
      time := 0.0;
      resetGame := true;
      worldIndex, levelIndex := 0, 0;
      clickable := true;
      dirIndex, dirTime, touchDown := -1, 0.0, false;
    }

    method SetCurrentEvent(e: EventState)
      modifies this
      ensures currentEvent == e
      ensures time == old(time) && resetGame == old(resetGame) && touchDown == old(touchDown)
      ensures dirIndex == old(dirIndex) && dirTime == old(dirTime) && clickable == old(clickable)
      ensures worldIndex == old(worldIndex) && levelIndex == old(levelIndex) && renderBatch == old(renderBatch)
    {
      currentEvent := e;
    }

    /** `init(worldIndex, levelIndex)`: the map the next reset loads. */
    method Init(w: int, l: int)
      modifies this
      ensures worldIndex == w && levelIndex == l
      ensures currentEvent == old(currentEvent) && resetGame == old(resetGame) && time == old(time)
      ensures clickable == old(clickable) && renderBatch == old(renderBatch)
      ensures dirIndex == old(dirIndex) && dirTime == old(dirTime) && touchDown == old(touchDown)
    {
      worldIndex := w;
      levelIndex := l;
    }

    /**
     * `show()`: the batch is drawn from now on; with `resetGame` set the game restarts on the
     * map with the pad released.
     */
    method Show()
      modifies this
      ensures renderBatch
      ensures old(resetGame) ==> currentEvent == MOVING && !touchDown
      ensures !old(resetGame) ==> currentEvent == old(currentEvent) && touchDown == old(touchDown)
      ensures resetGame == old(resetGame) && time == old(time) && clickable == old(clickable)
      ensures worldIndex == old(worldIndex) && levelIndex == old(levelIndex)
      ensures dirIndex == old(dirIndex) && dirTime == old(dirTime)
    {
      renderBatch := true;
      if resetGame {
        SetCurrentEvent(MOVING);
        touchDown := false;
      }
    }

    /** `setRenderBatch(b)`: switches the batch layers on or off; nothing else changes. */
    method SetRenderBatch(b: bool)
      modifies this
      ensures renderBatch == b
      ensures currentEvent == old(currentEvent) && time == old(time) && resetGame == old(resetGame)
      ensures clickable == old(clickable) && touchDown == old(touchDown) && dirIndex == old(dirIndex)
      ensures worldIndex == old(worldIndex) && levelIndex == old(levelIndex) && dirTime == old(dirTime)
    {
      renderBatch := b;
    }

    /** `update(dt)`: game time runs except while paused; returns the subsystems updated. */
    method Update(dt: real) returns (updated: set<Subsystem>)
      modifies this
      ensures time == if old(currentEvent) == PAUSE then old(time) else old(time) + dt
      ensures updated == UpdatedIn(currentEvent) && currentEvent == old(currentEvent)
    {
      if currentEvent != PAUSE {
        time := time + dt;
      }
      updated := {};
      if currentEvent == MOVING {
        updated := updated + {Camera, GameMap, Hud};
      }
      if currentEvent == BATTLING {
        updated := updated + {Backgrounds, BattleUi};
      }
      if currentEvent == TRANSITION { updated := updated + {TransitionUi}; }
      if currentEvent == LEVEL_UP { updated := updated + {LevelUpUi}; }
      if currentEvent == TILE_EVENT { updated := updated + {DialogUi}; }
      if currentEvent == INVENTORY { updated := updated + {InventoryUi}; }
    }

    /** `keyDown(keycode)`, given whether the inventory is sliding in or out. */
    method KeyDown(k: Key, inventorySliding: bool) returns (consumed: bool, action: KeyAction)
      modifies this
      ensures KeyOutcome(consumed, action) == KeyDownOutcome(old(clickable), inventorySliding, old(currentEvent), k)
      ensures currentEvent == EventAfterKey(old(currentEvent), action)
      ensures action.Steer? ==> dirIndex == action.dirIndex && dirTime == 0.0 && touchDown
      ensures !action.Steer? ==> dirIndex == old(dirIndex) && dirTime == old(dirTime) && touchDown == old(touchDown)
      ensures time == old(time) && clickable == old(clickable) && resetGame == old(resetGame)
    {
      consumed, action := false, NoAction;
      if !clickable || inventorySliding {
        return;
      }
      match currentEvent
      case TILE_EVENT =>
        if k == ENTER || k == NUMPAD_ENTER {
          action := DialogClick;
        }
        consumed := true;
      case BATTLING =>
        action := BattleAction(k);
        consumed := true;
      case DEATH =>
        action := BackToMenu;
        consumed := true;
      case MOVING =>
        if k == BACK || k == ESCAPE {
          SetCurrentEvent(PAUSE);
          consumed, action := true, OpenPause;
        } else if k == KEY_E {
          SetCurrentEvent(INVENTORY);
          consumed, action := true, OpenInventory;
        } else if IsDirectionKey(k) {
          dirIndex := DirectionOf(k);
          dirTime := 0.0;
          touchDown := true;
          consumed, action := true, Steer(dirIndex);
        }
      case _ =>
    }

    /** `keyUp(keycode)`: releasing a direction key lifts the pad; nothing else is consumed. */
    method KeyUp(k: Key) returns (consumed: bool)
      modifies this
      ensures consumed <==> IsDirectionKey(k)
      ensures consumed ==> !touchDown
      ensures !consumed ==> touchDown == old(touchDown)
      ensures currentEvent == old(currentEvent) && dirIndex == old(dirIndex) && time == old(time)
    {
      if IsDirectionKey(k) {
        touchDown := false;
        return true;
      }
      return false;
    }

    /** `die()`: the player is healed to full and the death screen shows. */
    method Die(player: Entity)
      modifies this, player
      ensures currentEvent == DEATH
      ensures player.State() == old(player.State()).(hp := old(player.maxHp))
      ensures time == old(time) && resetGame == old(resetGame) && touchDown == old(touchDown)
    {
      player.SetHp(player.maxHp);
      SetCurrentEvent(DEATH);
    }
  }

  /** Steering then releasing the same key while moving leaves the pad released and the event alone. */
  method SteerThenRelease(g: GameScreen, k: Key)
    requires g.clickable && g.currentEvent == MOVING && IsDirectionKey(k)
    modifies g
    ensures g.currentEvent == MOVING && !g.touchDown && g.dirIndex == DirectionOf(k)
  {
    var c, a := g.KeyDown(k, false);
    c := g.KeyUp(k);
  }
}
