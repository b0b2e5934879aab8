// A level built from its configuration: the tile grid plus the spawn
// points, checkpoints and exit converted from grid cells to pixels.

module Levels {
  import opened Wrappers
  import opened Tiles
  import opened TileMaps

  datatype GridPos = GridPos(x: int, y: int)
  datatype EnemySpawn = EnemySpawn(kind: string, x: int, y: int)
  datatype ItemSpawn = ItemSpawn(item: string, x: int, y: int)

  /**
   * Level configuration. Optional lists are `None` when absent; a spawn
   * coordinate of 0 stands both for 0 and for a missing one (both are
   * falsy in the source), and the empty theme for a missing theme.
   */
  datatype LevelConfig = LevelConfig(
    name: string,
    theme: string,
    tiles: seq<seq<int>>,
    playerSpawn: GridPos,
    enemies: Option<seq<EnemySpawn>>,
    collectibles: Option<seq<ItemSpawn>>,
    checkpoints: Option<seq<GridPos>>,
    exit: Option<GridPos>,
    boss: Option<EnemySpawn>)

  datatype Checkpoint = Checkpoint(x: int, y: int, activated: bool)
  datatype PixelPos = PixelPos(x: int, y: int)

  datatype Level = Level(
    name: string,
    theme: string,
    tileMap: TileMap,
    playerSpawn: PixelPos,
    widthPx: int,
    heightPx: int,
    enemySpawns: seq<EnemySpawn>,
    collectibleSpawns: seq<ItemSpawn>,
    checkpoints: seq<Checkpoint>,
    exit: Option<PixelPos>)

  /** `(v || d) * TILE_SIZE`. */
  function SpawnPixel(v: int, d: int): int
  {
    (if v == 0 then d else v) * TILE_SIZE
  }

  function ListOrEmpty<T>(o: Option<seq<T>>): (s: seq<T>)
    ensures o.None? ==> s == []
    ensures o.Some? ==> s == o.value
  {
    if o.Some? then o.value else []
  }

  /** The Level constructor. The tile grid must have a first row to read. */
  function MakeLevel(cfg: LevelConfig): (lv: Level)
    requires |cfg.tiles| > 0
    ensures WellFormed(lv.tileMap) && lv.tileMap == TileMapOf(cfg.tiles, ThemeOrDefault(cfg.theme))
    ensures lv.theme == ThemeOrDefault(cfg.theme) && lv.name == cfg.name
    ensures lv.playerSpawn.x == (if cfg.playerSpawn.x == 0 then 2 else cfg.playerSpawn.x) * 32
    ensures lv.playerSpawn.y == (if cfg.playerSpawn.y == 0 then 12 else cfg.playerSpawn.y) * 32
    ensures lv.widthPx == lv.tileMap.widthPx && lv.heightPx == lv.tileMap.heightPx
    ensures cfg.enemies.None? ==> lv.enemySpawns == []
    ensures cfg.enemies.Some? ==> lv.enemySpawns == cfg.enemies.value
    ensures cfg.collectibles.None? ==> lv.collectibleSpawns == []
    ensures cfg.collectibles.Some? ==> lv.collectibleSpawns == cfg.collectibles.value
    ensures cfg.checkpoints.None? ==> lv.checkpoints == []
    ensures cfg.checkpoints.Some? ==> |lv.checkpoints| == |cfg.checkpoints.value|
    ensures cfg.checkpoints.Some? ==> forall i :: 0 <= i < |lv.checkpoints| ==>
      lv.checkpoints[i] == Checkpoint(cfg.checkpoints.value[i].x * 32, cfg.checkpoints.value[i].y * 32, false)
    ensures lv.exit.None? <==> cfg.exit.None?
    ensures cfg.exit.Some? ==> lv.exit == Some(PixelPos(cfg.exit.value.x * 32, cfg.exit.value.y * 32))
  {
    var theme := ThemeOrDefault(cfg.theme);
    var tm := TileMapOf(cfg.tiles, theme);
    var cps := ListOrEmpty(cfg.checkpoints);
    Level(
      cfg.name,
      theme,
      tm,
      PixelPos(SpawnPixel(cfg.playerSpawn.x, 2), SpawnPixel(cfg.playerSpawn.y, 12)),
      tm.widthPx,
      tm.heightPx,
      ListOrEmpty(cfg.enemies),
      ListOrEmpty(cfg.collectibles),
      seq(|cps|, i requires 0 <= i < |cps| => Checkpoint(cps[i].x * TILE_SIZE, cps[i].y * TILE_SIZE, false)),
      if cfg.exit.Some? then Some(PixelPos(cfg.exit.value.x * TILE_SIZE, cfg.exit.value.y * TILE_SIZE)) else None)
  }
}
