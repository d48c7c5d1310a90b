/**
 * Choosing a level of a world (core/src/main/java/com/anyicomplex/unlucky/screen/LevelSelectScreen.java).
 *
 * Which levels are open follows from the world shown and the player's progress (`maxWorld`,
 * `maxLevel`): in the world the player is working through, the levels up to the current one;
 * in a completed world, all of them; in a world not reached yet, none, with the description
 * masked. The scroll pane holds one button per level, and only the open ones take clicks.
 * Labels, styles, scrolling and sounds are drawing only; the player's progress and the world's
 * level count are parameters, and the player's `inMap` flag is kept here as `playerInMap`.
 */
module LevelSelects {
  import opened Events
  import opened GameScreens

  /** What a key press on the level list does. */
  datatype SelectKeyAction = BackToWorlds | Enter | PassOn

  /** The key handler `show` installs: back keys leave, enter keys enter, only while clickable. */
  function SelectKey(clickable: bool, k: Key): (r: SelectKeyAction)
    ensures r == BackToWorlds <==> clickable && (k == BACK || k == ESCAPE)
    ensures r == Enter <==> clickable && (k == ENTER || k == NUMPAD_ENTER)
    ensures !clickable ==> r == PassOn
  {
    if !clickable then PassOn
    else match k
      case BACK => BackToWorlds
      case ESCAPE => BackToWorlds
      case ENTER => Enter
      case NUMPAD_ENTER => Enter
      case _ => PassOn
  }

  /** The selected level and the last level shown open, as `show` sets them. */
  datatype Unlock = Unlock(current: int, toShow: int)

  function UnlockFor(world: int, maxWorld: int, maxLevel: int, numLevels: int): Unlock
  {
    if world == maxWorld then Unlock(maxLevel, maxLevel)
    else if world < maxWorld then Unlock(0, numLevels - 1)
    else Unlock(0, -1)
  }

  /** The buttons `createScrollPane` enables: exactly the levels up to `toShow`. */
  function EnabledLevels(numLevels: int, toShow: int): (r: seq<bool>)
    requires numLevels >= 0
    ensures |r| == numLevels
  {
    seq(numLevels, i requires 0 <= i < numLevels => i <= toShow)
  }

  /** The level index behind each button of `scrollButtons`, in order. */
  function ButtonLevels(numLevels: int, toShow: int): (r: seq<int>)
    requires numLevels >= 0
  {
    var n := if toShow + 1 < 0 then 0 else if toShow + 1 > numLevels then numLevels else toShow + 1;
    seq(n, i requires 0 <= i < n => i)
  }

  /**
   * The unlock rule: in the current world the open levels are 0..maxLevel and the selection
   * is maxLevel; in a completed world every level is open and the selection is the first; in
   * a world ahead of the player none is open.
   */
  lemma UnlockRule(world: int, maxWorld: int, maxLevel: int, numLevels: int)
    requires numLevels >= 0
    ensures var u := UnlockFor(world, maxWorld, maxLevel, numLevels);
      world == maxWorld ==>
        u.current == maxLevel && forall i :: 0 <= i < numLevels ==> (EnabledLevels(numLevels, u.toShow)[i] <==> i <= maxLevel)
    ensures var u := UnlockFor(world, maxWorld, maxLevel, numLevels);
      world < maxWorld ==> u.current == 0 && forall i :: 0 <= i < numLevels ==> EnabledLevels(numLevels, u.toShow)[i]
    ensures var u := UnlockFor(world, maxWorld, maxLevel, numLevels);
      world > maxWorld ==> u.current == 0 && forall i :: 0 <= i < numLevels ==> !EnabledLevels(numLevels, u.toShow)[i]
  {
  }

  /** The open levels form a prefix, and the i-th button in the scroll list is level i. */
  lemma OpenLevelsArePrefix(numLevels: int, toShow: int)
    requires numLevels >= 0
    ensures forall i, j :: 0 <= i <= j < numLevels && EnabledLevels(numLevels, toShow)[j] ==> EnabledLevels(numLevels, toShow)[i]
    ensures forall k :: 0 <= k < |ButtonLevels(numLevels, toShow)| ==> ButtonLevels(numLevels, toShow)[k] == k
    ensures forall i :: 0 <= i < numLevels ==> (EnabledLevels(numLevels, toShow)[i] <==> i < |ButtonLevels(numLevels, toShow)|)
  {
  }

  /** In a world the player has reached, the level selected on opening is an open one. */
  lemma SelectionIsOpen(world: int, maxWorld: int, maxLevel: int, numLevels: int)
    requires numLevels > 0 && world <= maxWorld && (world == maxWorld ==> 0 <= maxLevel < numLevels)
    ensures var u := UnlockFor(world, maxWorld, maxLevel, numLevels);
      0 <= u.current < numLevels && EnabledLevels(numLevels, u.toShow)[u.current]
  {
  }

  class LevelSelectScreen {
    var worldIndex: int
    var numLevels: int
    var currentLevelIndex: int
    var numLevelsToShow: int
    /** Per level: whether its button takes clicks. */
    var enabled: seq<bool>
    /** The level of each button in `scrollButtons`. */
    var scrollButtons: seq<int>
    /** Whether the description is masked (a world not reached yet). */
    var masked: bool
    var playerInMap: bool
    const gameScreen: GameScreen

    constructor (gameScreen: GameScreen)
      ensures this.gameScreen == gameScreen && numLevels == 0 && enabled == [] && scrollButtons == []
    {
      this.gameScreen := gameScreen;
      worldIndex, numLevels, currentLevelIndex, numLevelsToShow := 0, 0, 0, 0;
      enabled, scrollButtons := [], [];
      masked, playerInMap := false, false;
    }

    /** `setWorld(worldIndex)`, given that world's level count. */
    method SetWorld(w: int, levels: nat)
      modifies this
      ensures worldIndex == w && numLevels == levels
      ensures currentLevelIndex == old(currentLevelIndex) && numLevelsToShow == old(numLevelsToShow)
    {
      worldIndex := w;
      numLevels := levels;
    }

    /** `createScrollPane()`: one button per level, the open ones listed in `scrollButtons`. */
    method CreateScrollPane()
      requires numLevels >= 0
      modifies this
      ensures worldIndex == old(worldIndex) && numLevels == old(numLevels)
      ensures enabled == EnabledLevels(numLevels, numLevelsToShow)
      ensures scrollButtons == ButtonLevels(numLevels, numLevelsToShow)
      ensures currentLevelIndex == old(currentLevelIndex) && numLevelsToShow == old(numLevelsToShow)
      ensures masked == old(masked) && playerInMap == old(playerInMap)
    {
      enabled := [];
      scrollButtons := [];
      for i := 0 to numLevels
        invariant enabled == EnabledLevels(i, numLevelsToShow)
        invariant scrollButtons == ButtonLevels(i, numLevelsToShow)
        invariant worldIndex == old(worldIndex) && numLevels == old(numLevels)
        invariant currentLevelIndex == old(currentLevelIndex) && numLevelsToShow == old(numLevelsToShow)
        invariant masked == old(masked) && playerInMap == old(playerInMap)
      {
        if i > numLevelsToShow {
          enabled := enabled + [false];
        } else {
          enabled := enabled + [true];
          scrollButtons := scrollButtons + [i];
        }
      }
    }

    /**
     * `show()`, given the player's progress. The selected level's name is read from the
     * world's table, so it must exist.
     */
    method Show(maxWorld: int, maxLevel: int)
      requires numLevels > 0 && (worldIndex == maxWorld ==> 0 <= maxLevel < numLevels)
      modifies this
      ensures worldIndex == old(worldIndex) && numLevels == old(numLevels)
      ensures Unlock(currentLevelIndex, numLevelsToShow) == UnlockFor(worldIndex, maxWorld, maxLevel, numLevels)
      ensures enabled == EnabledLevels(numLevels, numLevelsToShow)
      ensures scrollButtons == ButtonLevels(numLevels, numLevelsToShow)
      ensures masked <==> worldIndex > maxWorld
      ensures !playerInMap
    {
      playerInMap := false;
      if worldIndex == maxWorld {
        currentLevelIndex := maxLevel;
        numLevelsToShow := maxLevel;
      } else if worldIndex < maxWorld {
        currentLevelIndex := 0;
        numLevelsToShow := numLevels - 1;
      } else {
        currentLevelIndex := 0;
        numLevelsToShow := -1;
      }
      masked := worldIndex > maxWorld;
      CreateScrollPane();
    }

    /** Clicking an open level's button selects it. */
    method SelectLevel(index: int)
      requires 0 <= index < |enabled| && enabled[index]
      modifies this
      ensures currentLevelIndex == index && enabled == old(enabled) && worldIndex == old(worldIndex)
    {
      currentLevelIndex := index;
    }

    /** `enterGame()`: the game screen is pointed at the selected level and told to reset. */
    method EnterGame()
      modifies this, gameScreen
      ensures gameScreen.worldIndex == worldIndex && gameScreen.levelIndex == currentLevelIndex
      ensures gameScreen.resetGame && playerInMap
      ensures gameScreen.currentEvent == old(gameScreen.currentEvent)
      ensures worldIndex == old(worldIndex) && currentLevelIndex == old(currentLevelIndex)
    {
      gameScreen.Init(worldIndex, currentLevelIndex);
      gameScreen.resetGame := true;
      playerInMap := true;
    }

    /**
     * `performEnter()`: only a world the player has reached can be entered, and with a full
     * inventory only after the warning is answered "yes".
     */
    method PerformEnter(maxWorld: int, inventoryFull: bool, answeredYes: bool) returns (entered: bool)
      modifies this, gameScreen
      ensures entered <==> worldIndex <= maxWorld && (!inventoryFull || answeredYes)
      ensures entered ==>
        gameScreen.worldIndex == worldIndex && gameScreen.levelIndex == currentLevelIndex
        && gameScreen.resetGame && playerInMap
      ensures !entered ==>
        gameScreen.resetGame == old(gameScreen.resetGame) && playerInMap == old(playerInMap)
        && gameScreen.worldIndex == old(gameScreen.worldIndex) && gameScreen.levelIndex == old(gameScreen.levelIndex)
      ensures worldIndex == old(worldIndex) && currentLevelIndex == old(currentLevelIndex)
    {
      entered := false;
      if worldIndex <= maxWorld {
        if inventoryFull {
          if answeredYes {
            EnterGame();
            entered := true;
          }
        } else {
          EnterGame();
          entered := true;
        }
      }
    }
  }
}
