/**
 * Map tiles (core/src/main/java/com/anyicomplex/unlucky/map/Tile.java).
 *
 * A tile's type follows from its id, by one rule for static tiles and another for animated
 * ones (whose ids start at 96). A tile holds at most one entity. Sprites, animations and
 * positions are rendering data and are not modelled.
 */
module Tiles {
  import opened GameUtil
  import opened Entities

  const NORMAL: int := 0
  const BLOCKED: int := 1
  const CHANGE: int := 2
  const IN_AND_OUT: int := 3
  const STOP: int := 4
  const DOWN: int := 5
  const UP: int := 6
  const RIGHT: int := 7
  const LEFT: int := 8
  const QUESTION_MARK: int := 9
  const ICE: int := 10
  const TELEPORT: int := 11
  const EXCLAMATION_MARK: int := 12
  const END: int := 13

  /** The static tile ids drawn as ice. */
  predicate IsIceId(id: int)
  {
    (171 <= id <= 173) || (187 <= id <= 189) || (203 <= id <= 205) ||
    id == 220 || id == 221 || id == 236 || id == 237
  }

  /** The type the static-tile constructor gives an id. */
  function StaticTileType(id: int): int
  {
    if id in BLOCKED_TILE_IDS then BLOCKED
    else if IsIceId(id) then ICE
    else NORMAL
  }

  /** The special animated tiles 99..108, in id order. */
  const ANIMATED_SPECIALS: seq<int> :=
    [CHANGE, IN_AND_OUT, STOP, DOWN, UP, RIGHT, LEFT, QUESTION_MARK, TELEPORT, EXCLAMATION_MARK]

  /** The type the animated-tile constructor gives an id. */
  function AnimatedTileType(id: int): int
  {
    if id == 96 || id == 109 then BLOCKED
    else if id == 99 then CHANGE
    else if id == 100 then IN_AND_OUT
    else if id == 101 then STOP
    else if id == 102 then DOWN
    else if id == 103 then UP
    else if id == 104 then RIGHT
    else if id == 105 then LEFT
    else if id == 106 then QUESTION_MARK
    else if id == 107 then TELEPORT
    else if id == 108 then EXCLAMATION_MARK
    else if id == 110 then END
    else NORMAL
  }

  /** `isSpecial()`. */
  function IsSpecial(tileType: int): bool
  {
    tileType != NORMAL && tileType != BLOCKED
  }

  /** `isMoving()`, as written: types 2, 3, 5..8 and ice. */
  function IsMoving(tileType: int): bool
  {
    tileType == 2 || tileType == 3 || (tileType > 4 && tileType < 9) || tileType == ICE
  }

  // ------------------------------------------------------------------
  // Properties of the classification
  // ------------------------------------------------------------------

  /**
   * The blocked table wins over the ice ranges, and a static tile is never of any type other
   * than normal, blocked and ice.
   */
  lemma StaticClassification(id: int)
    ensures StaticTileType(id) == BLOCKED <==> id in BLOCKED_TILE_IDS
    ensures StaticTileType(id) == ICE <==> IsIceId(id) && id !in BLOCKED_TILE_IDS
    ensures StaticTileType(id) in {NORMAL, BLOCKED, ICE}
    ensures !IsMoving(StaticTileType(id)) || StaticTileType(id) == ICE
  {
  }

  /** The animated ids 99..108 take the ten special types in order; 110 is the end tile. */
  lemma AnimatedClassification(id: int)
    ensures 99 <= id <= 108 ==> AnimatedTileType(id) == ANIMATED_SPECIALS[id - 99]
    ensures AnimatedTileType(id) == BLOCKED <==> id in BLOCKED_ANIMATED_TILE_IDS
    ensures AnimatedTileType(id) == END <==> id == 110
    ensures AnimatedTileType(id) != ICE
    ensures AnimatedTileType(id) == NORMAL <==> !(id == 96 || 99 <= id <= 110)
  {
  }

  /**
   * A moving tile is one of change, in-and-out, down, up, right, left and ice; stop, question
   * mark, teleport, exclamation mark and end are special but not moving.
   */
  lemma MovingTypes(tileType: int)
    ensures IsMoving(tileType) <==> tileType in {CHANGE, IN_AND_OUT, DOWN, UP, RIGHT, LEFT, ICE}
    ensures IsMoving(tileType) ==> IsSpecial(tileType)
    ensures tileType in {STOP, QUESTION_MARK, TELEPORT, EXCLAMATION_MARK, END} ==> IsSpecial(tileType) && !IsMoving(tileType)
  {
  }

  // ------------------------------------------------------------------
  // The class
  // ------------------------------------------------------------------

  class Tile {
    const id: int
    const tileType: int
    const animated: bool
    /** The entity standing on the tile, if any. */
    var hold: Entity?

    /** The static-tile constructor. */
    constructor Static(id: int)
      ensures this.id == id && tileType == StaticTileType(id) && !animated && hold == null
    {
      this.id := id;
      hold := null;
      animated := false;
      var blocked := IsBlockedTile(id);
      if blocked {
        tileType := BLOCKED;
      } else if (id >= 171 && id <= 173) || (id >= 187 && id <= 189) || (id >= 203 && id <= 205)
             || id == 220 || id == 221 || id == 236 || id == 237 {
        tileType := ICE;
      } else {
        tileType := NORMAL;
      }
    }

    /** The animated-tile constructor. */
    constructor Animated(id: int)
      ensures this.id == id && tileType == AnimatedTileType(id) && animated && hold == null
    {
      this.id := id;
      hold := null;
      animated := true;
      var blocked := IsBlockedAnimatedTile(id);
      if blocked { tileType := BLOCKED; }
      else if id == 99 { tileType := CHANGE; }
      else if id == 100 { tileType := IN_AND_OUT; }
      else if id == 101 { tileType := STOP; }
      else if id == 102 { tileType := DOWN; }
      else if id == 103 { tileType := UP; }
      else if id == 104 { tileType := RIGHT; }
      else if id == 105 { tileType := LEFT; }
      else if id == 106 { tileType := QUESTION_MARK; }
      else if id == 107 { tileType := TELEPORT; }
      else if id == 108 { tileType := EXCLAMATION_MARK; }
      else if id == 110 { tileType := END; }
      else { tileType := NORMAL; }
    }

    /** `containsEntity()`: whether the tile holds an entity, which makes `addEntity` refuse. */
    function ContainsEntity(): (b: bool)
      reads this
      ensures b <==> hold != null
    {
      hold != null
    }

    /** `addEntity(e)`: an empty tile takes the entity; an occupied one keeps what it holds. */
    method AddEntity(e: Entity?)
      modifies this
      ensures !old(ContainsEntity()) ==> hold == e
      ensures old(ContainsEntity()) ==> hold == old(hold)
    {
      if !ContainsEntity() {
        hold := e;
      }
    }

    /** `removeEntity()`: the tile is left empty. */
    method RemoveEntity()
      modifies this
      ensures hold == null
    {
      if hold != null {
        hold := null;
      }
    }
  }
}
