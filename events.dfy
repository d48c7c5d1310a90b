/**
 * The enumerations the screens share. `EventState`, `BattleState` and `BattleEvent` live in
 * files that are not part of this model; their constants are the ones the screens name.
 */
module Events {

  /** The top-level state of the game screen. */
  datatype EventState =
    | MOVING | BATTLING | TRANSITION | LEVEL_UP | TILE_EVENT | INVENTORY | PAUSE | DEATH | NONE

  /** Which part of the battle interface is active. */
  datatype BattleState = BS_NONE | BS_MOVE | BS_DIALOG

  /** What the battle does once the dialog on screen is over (the events the intro uses). */
  datatype BattleEvent = BE_NONE | PLAYER_TURN | ENEMY_TURN | END_BATTLE

  /** The keys the screens react to; every other key code is `OtherKey`. */
  datatype Key =
    | ENTER | NUMPAD_ENTER
    | NUM_1 | NUM_2 | NUM_3 | NUM_4 | NUMPAD_1 | NUMPAD_2 | NUMPAD_3 | NUMPAD_4
    | KEY_M | KEY_E | BACK | ESCAPE
    | KEY_W | KEY_A | KEY_S | KEY_D | UP | LEFT | DOWN | RIGHT
    | OtherKey(code: int)
}
