// One cell of the level grid: its id, grid position, pixel box and the
// solidity that is fixed when the tile is made.

module Tiles {

  const TILE_SIZE: int := 32

  // Tile ids.
  const AIR: int := 0
  const GROUND: int := 1
  const GROUND_TOP: int := 2
  const PLATFORM: int := 3
  const BRICK: int := 4
  const STONE: int := 5
  const SPIKE: int := 10
  const BREAKABLE: int := 11

  datatype Tile = Tile(id: int, col: int, row: int, x: int, y: int,
                       width: int, height: int, solid: bool)

  /** Ground, ground top, platform, brick and stone block movement. */
  predicate IsSolidId(id: int)
  {
    id == GROUND || id == GROUND_TOP || id == PLATFORM || id == BRICK || id == STONE
  }

  lemma SolidIds(id: int)
    ensures IsSolidId(id) <==> 1 <= id <= 5
    ensures id == AIR || id == SPIKE || id == BREAKABLE ==> !IsSolidId(id)
  {
  }

  /** The tile constructor: pixel box from the grid cell, solidity from the id. */
  function MakeTile(id: int, col: int, row: int): (t: Tile)
    ensures t.id == id && t.col == col && t.row == row
    ensures t.x == col * TILE_SIZE && t.y == row * TILE_SIZE
    ensures t.width == TILE_SIZE && t.height == TILE_SIZE
    ensures t.solid <==> 1 <= id <= 5
  {
    Tile(id, col, row, col * TILE_SIZE, row * TILE_SIZE, TILE_SIZE, TILE_SIZE, IsSolidId(id))
  }

  /** Only spikes hurt. */
  predicate IsDamage(t: Tile)
  {
    t.id == SPIKE
  }

  /** A constructed tile hurts iff it is a spike, and a spike never blocks. */
  lemma DamageTilesAreNotSolid(id: int, col: int, row: int)
    ensures IsDamage(MakeTile(id, col, row)) <==> id == 10
    ensures IsDamage(MakeTile(id, col, row)) ==> !MakeTile(id, col, row).solid
  {
  }
}
