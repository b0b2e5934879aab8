// The orchestrator: the screen-state machine, level loading, and the fixed
// order in which one PLAYING frame updates the player, the enemies, the
// boss, projectiles, particles, pickups and popups.

module Games {
  import opened Wrappers
  import opened Lists
  import opened MathUtil
  import opened Entities
  import opened Tiles
  import opened TileMaps
  import opened Levels
  import opened Collision
  import opened EnemyData
  import opened Projectiles
  import opened Particles
  import opened Enemies
  import opened Bosses
  import opened PowerUps
  import opened Collectibles
  import opened Items
  import opened Input
  import opened Players
  import opened Cameras
  import opened Physics
  import opened Combat

  datatype Screen = Loading | Menu | TitleScreen | LevelIntro | BossIntro | Playing | Paused
                  | LevelComplete | GameOver | Victory

  /** The grave left where the player died, with the frames until the respawn decision. */
  datatype Grave = Grave(x: real, y: real, timer: int)

  /** A popup rising from a picked-up supplement. */
  datatype FloatingText = FloatingText(text: string, x: real, y: real, timer: int, maxTimer: int,
                                       color: string)

  /**
   * The host-supplied values one frame consumes in place of `Math.random`:
   * the boss's action roll, taunt pick and hurt-line chance, and the rolls
   * particle bursts draw from.
   */
  datatype FrameRolls = FrameRolls(bossRoll: real, bossPick: nat, bossChance: real,
                                   burst: seq<BurstRoll>, scatter: seq<real>)

  const INTRO_DELAY: int := 30
  const OVERLAY_DELAY: int := 60
  const GRAVE_FRAMES: int := 90
  const RESPAWN_INVINCIBILITY: nat := 90
  const START_LIVES: int := 3
  const PIT_MARGIN: int := 64
  const DEATH_Y: real := -200.0
  const ACTIVATION_MARGIN: real := 100.0
  const BOSS_INTRO_DISTANCE: real := 300.0
  const FLOAT_TEXT_FRAMES: int := 60
  const SPACE: string := "Space"
  const COIN: string := "coin"
  const HEALTH: string := "health"
  const POWERUP: string := "powerup"
  const WHITE: string := "#FFFFFF"
  const DEFAULT_TEXT_COLOR: string := "#FFF"

  /** `EnemyClasses[type]`: the four known enemy types. */
  function KindOf(name: string): (k: Option<EnemyKind>)
    ensures k.Some? <==> name in {"candy", "chips", "soda", "cake"}
    ensures name == "candy" ==> k == Some(Candy)
  {
    match name
    case "candy" => Some(Candy)
    case "chips" => Some(Chips)
    case "soda" => Some(Soda)
    case "cake" => Some(Cake)
    case _ => None
  }

  /**
   * The elements of `s` that pass `p`, in list order: the shape of every
   * spawn loop that skips an entry it does not know.
   */
  function Filter<T>(s: seq<T>, p: T -> bool): (r: seq<T>)
    ensures |r| <= |s|
    ensures forall i :: 0 <= i < |r| ==> p(r[i]) && r[i] in s
    ensures forall x {:trigger x in r} :: x in s && p(x) ==> x in r
  {
    if s == [] then []
    else Filter(s[..|s| - 1], p) + (if p(s[|s| - 1]) then [s[|s| - 1]] else [])
  }

  predicate KnownSpawn(sp: EnemySpawn)
  {
    KindOf(sp.kind).Some?
  }

  /** The spawns whose type names a known enemy class, in list order. */
  function KnownSpawns(s: seq<EnemySpawn>): (r: seq<EnemySpawn>)
    ensures |r| <= |s|
    ensures forall i :: 0 <= i < |r| ==> KindOf(r[i].kind).Some? && r[i] in s
    ensures forall sp {:trigger sp in r} :: sp in s && KindOf(sp.kind).Some? ==> sp in r
  {
    Filter(s, KnownSpawn)
  }

  predicate KnownItem(name: string)
  {
    ItemConfigOf(name).Some?
  }

  predicate KnownItemSpawn(sp: ItemSpawn)
  {
    KnownItem(sp.item)
  }

  /** The item spawns whose name is in the item table, in list order. */
  function KnownItems(s: seq<ItemSpawn>): (r: seq<ItemSpawn>)
    ensures |r| <= |s|
    ensures forall i :: 0 <= i < |r| ==> KnownItem(r[i].item) && r[i] in s
    ensures forall sp {:trigger sp in r} :: sp in s && KnownItem(sp.item) ==> sp in r
  {
    Filter(s, KnownItemSpawn)
  }

  // ---- collectible spawn rows ----

  /**
   * Whether the spawn loop keeps moving up from `row`: the row exists and
   * the cell in column `col` is not air (a missing cell is `undefined`,
   * which is not 0 either).
   */
  predicate Blocked(tiles: seq<seq<int>>, row: int, col: int)
  {
    0 <= row < |tiles| && !(0 <= col < |tiles[row]| && tiles[row][col] == AIR)
  }

  /**
   * The row a collectible finally spawns in: the nearest row at or above
   * `row` that is not blocked. Every row skipped on the way is blocked,
   * and the row reached is above the grid, below it, or an air cell.
   */
  function SpawnRow(tiles: seq<seq<int>>, col: int, row: int): (r: int)
    decreases if row < 0 then 0 else row + 1
    ensures r <= row && !Blocked(tiles, r, col)
    ensures forall k :: r < k <= row ==> Blocked(tiles, k, col)
  {
    if Blocked(tiles, row, col) then SpawnRow(tiles, col, row - 1) else row
  }

  /** A spawn inside the grid always lands on an air cell of its column. */
  lemma SpawnRowIsAir(tiles: seq<seq<int>>, col: int, row: int)
    requires 0 <= SpawnRow(tiles, col, row) < |tiles|
    ensures var r := SpawnRow(tiles, col, row);
      0 <= col < |tiles[r]| && tiles[r][col] == AIR
  {
  }

  /** A spawn already on air, or outside the grid, does not move. */
  lemma SpawnRowKeepsFreeCell(tiles: seq<seq<int>>, col: int, row: int)
    requires !Blocked(tiles, row, col)
    ensures SpawnRow(tiles, col, row) == row
  {
  }

  /** `while (spawnY >= 0 && tiles[spawnY] && tiles[spawnY][x] !== 0) spawnY--`. */
  method FindSpawnRow(tiles: seq<seq<int>>, col: int, row: int) returns (spawnY: int)
    ensures spawnY == SpawnRow(tiles, col, row)
  {
    spawnY := row;
    while spawnY >= 0 && spawnY < |tiles| && !(0 <= col < |tiles[spawnY]| && tiles[spawnY][col] == 0)
      invariant spawnY <= row
      invariant SpawnRow(tiles, col, spawnY) == SpawnRow(tiles, col, row)
      decreases spawnY + 1
    {
      spawnY := spawnY - 1;
    }
  }

  // ---- the clamp to the level's width ----

  /**
   * Position and horizontal speed after the clamp to [0, widthPx]: a box
   * past the left edge goes to 0, one past the right edge against it, and
   * either way stops; a box inside the level keeps both.
   */
  function Clamped(x: real, vx: real, width: real, widthPx: real): (r: (real, real))
    ensures 0.0 <= x && x + width <= widthPx ==> r == (x, vx)
    ensures x < 0.0 && width <= widthPx ==> r == (0.0, 0.0)
    ensures Max(x, 0.0) + width > widthPx ==> r == (widthPx - width, 0.0)
    ensures r.0 + width <= widthPx && (width <= widthPx ==> 0.0 <= r.0)
  {
    var (x1, v1) := if x < 0.0 then (0.0, 0.0) else (x, vx);
    if x1 + width > widthPx then (widthPx - width, 0.0) else (x1, v1)
  }

  // ---- the last checkpoint ----

  /** The index of the last activated checkpoint, if any. */
  function LastActivated(cps: seq<Checkpoint>): (r: Option<nat>)
    ensures r.Some? ==> r.value < |cps| && cps[r.value].activated &&
                        forall j :: r.value < j < |cps| ==> !cps[j].activated
    ensures r.None? ==> forall j :: 0 <= j < |cps| ==> !cps[j].activated
  {
    if cps == [] then None
    else if cps[|cps| - 1].activated then Some(|cps| - 1)
    else LastActivated(cps[..|cps| - 1])
  }

  /** Where the player respawns: the last activated checkpoint, else the level's spawn. */
  function RespawnPoint(lv: Level): (p: PixelPos)
    ensures LastActivated(lv.checkpoints).None? ==> p == lv.playerSpawn
    ensures LastActivated(lv.checkpoints).Some? ==>
      var cp := lv.checkpoints[LastActivated(lv.checkpoints).value];
      p == PixelPos(cp.x, cp.y)
  {
    match LastActivated(lv.checkpoints)
    case None => lv.playerSpawn
    case Some(i) => PixelPos(lv.checkpoints[i].x, lv.checkpoints[i].y)
  }

  /** Whether a centre point is close enough to a marker at (mx, my) to touch it. */
  predicate NearMarker(cx: real, cy: real, mx: int, my: int)
  {
    Abs(cx - mx as real - 16.0) < 24.0 && Abs(cy - my as real) < 48.0
  }

  /** The checkpoint list after the player, centred at (cx, cy), walks by. */
  function TouchCheckpoints(cps: seq<Checkpoint>, cx: real, cy: real): (r: seq<Checkpoint>)
    ensures |r| == |cps|
    ensures forall i :: 0 <= i < |r| ==>
      r[i].x == cps[i].x && r[i].y == cps[i].y &&
      r[i].activated == (cps[i].activated || NearMarker(cx, cy, cps[i].x, cps[i].y))
  {
    seq(|cps|, i requires 0 <= i < |cps| =>
      cps[i].(activated := cps[i].activated || NearMarker(cx, cy, cps[i].x, cps[i].y)))
  }

  /** Activation is one-way: once a checkpoint is activated it stays so. */
  lemma TouchKeepsActivated(cps: seq<Checkpoint>, cx: real, cy: real, i: int)
    requires 0 <= i < |cps| && cps[i].activated
    ensures TouchCheckpoints(cps, cx, cy)[i].activated
  {
  }

  /**
   * Touching checkpoints never moves the respawn point to an earlier
   * checkpoint: the last activated index can only grow.
   */
  lemma TouchAdvancesRespawn(cps: seq<Checkpoint>, cx: real, cy: real)
    requires LastActivated(cps).Some?
    ensures LastActivated(TouchCheckpoints(cps, cx, cy)).Some?
    ensures LastActivated(TouchCheckpoints(cps, cx, cy)).value >= LastActivated(cps).value
  {
    var i := LastActivated(cps).value;
    TouchKeepsActivated(cps, cx, cy, i);
  }

  // ---- per-frame list filters ----

  /** The shape of item values the item table produces for each type. */
  predicate ShapeOk(kind: string, value: ItemValue)
  {
    (kind == HEALTH ==> value.Amount? && value.n >= 0) && (kind == POWERUP ==> value.PowerType?)
  }

  /**
   * One frame of a popup list, walked from the end: every popup rises one
   * pixel and loses a frame, and those whose time is up are removed.
   */
  function TickTexts(s: seq<FloatingText>): (r: seq<FloatingText>)
    ensures |r| <= |s|
    ensures forall i :: 0 <= i < |r| ==> r[i].timer >= 1
  {
    if s == [] then []
    else
      var ft := s[0].(timer := s[0].timer - 1, y := s[0].y - 1.0);
      (if ft.timer <= 0 then [] else [ft]) + TickTexts(s[1..])
  }

  /** `after` is `before` one frame older: a frame less to live and one pixel higher. */
  predicate Aged(after: FloatingText, before: FloatingText)
  {
    after == before.(timer := before.timer - 1, y := before.y - 1.0)
  }

  /** Popups are never created by a tick: each survivor is some old popup, one frame older. */
  lemma {:induction false} TickTextsFromOld(s: seq<FloatingText>)
    ensures forall i :: 0 <= i < |TickTexts(s)| ==> exists j :: 0 <= j < |s| && Aged(TickTexts(s)[i], s[j])
  {
    if s != [] {
      TickTextsFromOld(s[1..]);
      var ft := s[0].(timer := s[0].timer - 1, y := s[0].y - 1.0);
      var head := if ft.timer <= 0 then [] else [ft];
      assert TickTexts(s) == head + TickTexts(s[1..]);
      forall i | 0 <= i < |TickTexts(s)|
        ensures exists j :: 0 <= j < |s| && Aged(TickTexts(s)[i], s[j])
      {
        if i < |head| {
          assert Aged(TickTexts(s)[i], s[0]);
        } else {
          var k := i - |head|;
          assert TickTexts(s)[i] == TickTexts(s[1..])[k];
          var j :| 0 <= j < |s[1..]| && Aged(TickTexts(s[1..])[k], s[1..][j]);
          assert s[1..][j] == s[j + 1];
        }
      }
    }
  }

  /** A popup created with 60 frames survives 59 ticks and is removed by the 60th. */
  lemma PopupLifetime(ft: FloatingText, n: nat)
    requires ft.timer == FLOAT_TEXT_FRAMES
    ensures n < 59 ==> |TickTexts([ft.(timer := ft.timer - n)])| == 1
    ensures n >= 59 ==> TickTexts([ft.(timer := ft.timer - n)]) == []
  {
    assert [ft.(timer := ft.timer - n)][1..] == [];
  }

  /** Whether `Game.update` should leave an intro or overlay screen this frame. */
  function Confirmed(input: InputState): bool
    reads input
  {
    input.WasPressed(SPACE) || input.WasPressed(ENTER)
  }

  /** A freshly spawned enemy for spawn `sp`, numbered `id`. */
  ghost predicate SpawnedFrom(e: Enemy, sp: EnemySpawn, id: nat)
    reads e
  {
    e.Valid() && e.id == id && KindOf(sp.kind) == Some(e.kind) && !e.activated &&
    e.x == (sp.x * TILE_SIZE) as real && e.y == (sp.y * TILE_SIZE) as real &&
    e.pendingProjectile == null && e.pendingMinions.None?
  }

  predicate KnownMinion(ms: MinionSpawn)
  {
    KindOf(ms.kind).Some?
  }

  /** The minion requests whose type names a known enemy class, in list order. */
  function KnownMinions(s: seq<MinionSpawn>): (r: seq<MinionSpawn>)
    ensures |r| <= |s|
    ensures forall i :: 0 <= i < |r| ==> KindOf(r[i].kind).Some? && r[i] in s
    ensures forall ms {:trigger ms in r} :: ms in s && KindOf(ms.kind).Some? ==> ms in r
  {
    Filter(s, KnownMinion)
  }

  /** An enemy between frames: consistent, numbered below `n`, with nothing waiting to be drained. */
  ghost predicate Ready(e: Enemy, n: nat)
    reads e
  {
    1 <= e.id < n && e.Valid() && e.pendingProjectile == null && e.pendingMinions.None?
  }

  /** An enemy after its turn in the walk: ready, and dead exactly when `d` says so. */
  ghost predicate Walked(e: Enemy, n: nat, d: bool)
    reads e
  {
    Ready(e, n) && e.dead == d
  }

  /** A minion numbered `id`: consistent, awake at once, alive and with nothing pending. */
  ghost predicate Minion(e: Enemy, id: nat)
    reads e
  {
    e.Valid() && e.id == id && e.activated && !e.dead &&
    e.pendingProjectile == null && e.pendingMinions.None?
  }

  /** The minion made for request `ms`: of the named class, at the requested spot. */
  ghost predicate MinionFrom(e: Enemy, ms: MinionSpawn, id: nat)
    reads e
  {
    Minion(e, id) && KindOf(ms.kind) == Some(e.kind) && e.x == ms.x && e.y == ms.y
  }

  /** A fresh pickup for spawn `sp`, moved up to its spawn row in `tiles`. */
  predicate PlacedFrom(c: Collectible, tiles: seq<seq<int>>, sp: ItemSpawn)
    reads c
  {
    !c.collected && c.configName == sp.item && ShapeOk(c.kind, c.value) &&
    c.x == (sp.x * TILE_SIZE) as real && c.y == (SpawnRow(tiles, sp.x, sp.y) * TILE_SIZE) as real
  }

  /** A pickup for a spawn of a known item, moved up out of solid ground; nothing for an unknown one. */
  method PlaceCollectible(tiles: seq<seq<int>>, sp: ItemSpawn) returns (c: Collectible?)
    ensures c == null <==> !KnownItem(sp.item)
    ensures c != null ==> fresh(c) && PlacedFrom(c, tiles, sp)
  {
    var spawnY := FindSpawnRow(tiles, sp.x, sp.y);
    c := CreateCollectible(sp.item, (sp.x * TILE_SIZE) as real, (spawnY * TILE_SIZE) as real, 0.0);
    if c != null {
      ItemShape(sp.item);
    }
  }

  /** The collectibles of a known item, in list order, each moved up out of solid ground. */
  method SpawnCollectibles(tiles: seq<seq<int>>, spawns: seq<ItemSpawn>) returns (cs: seq<Collectible>)
    ensures |cs| == |KnownItems(spawns)|
    ensures forall i :: 0 <= i < |cs| ==> fresh(cs[i])
    ensures forall i :: 0 <= i < |cs| ==> PlacedFrom(cs[i], tiles, KnownItems(spawns)[i])
    ensures Distinct(cs)
  {
    cs := [];
    ghost var known: seq<ItemSpawn> := [];
    var i := 0;
    while i < |spawns|
      invariant 0 <= i <= |spawns| && known == KnownItems(spawns[..i]) && |cs| == |known|
      invariant forall k :: 0 <= k < |cs| ==> fresh(cs[k]) && PlacedFrom(cs[k], tiles, known[k])
      invariant Distinct(cs)
    {
      var sp := spawns[i];
      assert KnownItems(spawns[..i + 1]) == known + (if KnownItem(sp.item) then [sp] else []) by {
        assert spawns[..i + 1][..i] == spawns[..i];
      }
      var c := PlaceCollectible(tiles, sp);
      if c != null {
        cs, known := cs + [c], known + [sp];
      }
      i := i + 1;
    }
    assert spawns[..|spawns|] == spawns;
  }

  /** The loaded level's tile map, if any. */
  function LevelMap(l: Option<Level>): Option<TileMap>
  {
    if l.Some? then Some(l.value.tileMap) else None
  }

  class Game {
    const levelData: seq<LevelConfig>
    const width: real
    const height: real
    const input: InputState
    const camera: Camera
    const player: Player

    var state: Screen
    var currentLevelIndex: int
    var level: Option<Level>
    var enemies: seq<Enemy>
    var projectiles: seq<Projectile>
    var particles: seq<Particle>
    var collectibles: seq<Collectible>
    var boss: BossCosti?
    var bossIntroShown: bool
    var deathGrave: Option<Grave>
    var screenTimer: int
    var floatingTexts: seq<FloatingText>
    var titleAnimTimer: real
    /** Picked-up items whose deferred removal (a 100 ms timer in the source) is still due. */
    var scheduledRemovals: seq<Collectible>
    /** The id the next enemy gets; ids identify enemies in the swing's hit set. */
    var nextId: nat

    // ---- what holds between frames ----

    /** Every level in the table has a first tile row. */
    predicate LevelsReady()
    {
      forall i :: 0 <= i < |levelData| ==> |levelData[i].tiles| > 0
    }

    /** Past the title screen there is always a loaded level, over a well-formed grid. */
    predicate LevelReady()
      reads this`state, this`level
    {
      (state != TitleScreen ==> level.Some?) && (level.Some? ==> WellFormed(level.value.tileMap))
    }

    /**
     * Enemies are in a consistent state, have nothing waiting to be drained,
     * and carry distinct ids from 1 up to `nextId`.
     */
    ghost predicate EnemiesReady()
      reads this`enemies, this`nextId, enemies
    {
      nextId >= 1 &&
      (forall i :: 0 <= i < |enemies| ==>
         enemies[i].Valid() && 1 <= enemies[i].id < nextId &&
         enemies[i].pendingProjectile == null && enemies[i].pendingMinions.None?) &&
      Distinct(Ids(enemies))
    }

    ghost predicate BossReady()
      reads this`boss, boss
    {
      boss != null ==> boss.Valid() && boss.pendingProjectile == null && boss.pendingShockwave.None?
    }

    /** Every pickup has a value of its type's shape, and none is listed twice. */
    predicate CollectiblesReady()
      reads this`collectibles
    {
      (forall i :: 0 <= i < |collectibles| ==> ShapeOk(collectibles[i].kind, collectibles[i].value)) &&
      Distinct(collectibles)
    }

    ghost predicate Valid()
      reads this`state, this`level, this`enemies, this`nextId, this`boss, this`projectiles,
            this`particles, this`collectibles, enemies, boss, player.powerUps
    {
      LevelsReady() && LevelReady() && EnemiesReady() && BossReady() &&
      Distinct(projectiles) && Distinct(particles) && CollectiblesReady() && player.powerUps.Valid()
    }

    /** A game on the title screen, with the player at (100, 300) and no level loaded. */
    constructor (levels: seq<LevelConfig>, w: real, h: real)
      requires forall i :: 0 <= i < |levels| ==> |levels[i].tiles| > 0
      ensures Valid() && fresh(player) && fresh(player.powerUps) && fresh(camera) && fresh(input)
      ensures levelData == levels && width == w && height == h
      ensures state == TitleScreen && currentLevelIndex == 0 && level.None? && boss == null
      ensures enemies == [] && projectiles == [] && particles == [] && collectibles == []
      ensures floatingTexts == [] && scheduledRemovals == [] && deathGrave.None?
      ensures !bossIntroShown && screenTimer == 0 && titleAnimTimer == 0.0
      ensures player.x == 100.0 && player.y == 300.0 && player.powerUps.activePowerUps == []
      ensures camera.x == 0.0 && camera.y == 0.0 && camera.viewportWidth == w && camera.viewportHeight == h
    {
      var manager := new PowerUpManager();
      levelData, width, height := levels, w, h;
      input := new InputState();
      camera := new Camera(w, h);
      player := new Player(100.0, 300.0, manager);
      state, currentLevelIndex, level := TitleScreen, 0, None;
      enemies, projectiles, particles, collectibles := [], [], [], [];
      boss, bossIntroShown, deathGrave := null, false, None;
      screenTimer, floatingTexts, titleAnimTimer := 0, [], 0.0;
      scheduledRemovals, nextId := [], 1;
    }

    // ---- loading a level ----

    /** A fresh enemy for a spawn of known type, numbered `id`. */
    static method SpawnEnemy(sp: EnemySpawn, id: nat) returns (e: Enemy)
      requires KindOf(sp.kind).Some?
      ensures fresh(e) && SpawnedFrom(e, sp, id)
    {
      e := new Enemy(KindOf(sp.kind).value, (sp.x * TILE_SIZE) as real, (sp.y * TILE_SIZE) as real, id);
    }

    /** One enemy per spawn of a known type, in list order, with fresh ids. */
    method SpawnEnemies(spawns: seq<EnemySpawn>) returns (es: seq<Enemy>)
      modifies this`nextId
      ensures nextId == old(nextId) + |es| && |es| == |KnownSpawns(spawns)|
      ensures forall i :: 0 <= i < |es| ==> fresh(es[i])
      ensures forall i :: 0 <= i < |es| ==> SpawnedFrom(es[i], KnownSpawns(spawns)[i], old(nextId) + i)
    {
      es := [];
      ghost var known: seq<EnemySpawn> := [];
      var i := 0;
      while i < |spawns|
        invariant 0 <= i <= |spawns| && known == KnownSpawns(spawns[..i])
        invariant nextId == old(nextId) + |es| && |es| == |known|
        invariant forall k :: 0 <= k < |es| ==> fresh(es[k]) && SpawnedFrom(es[k], known[k], old(nextId) + k)
      {
        var sp := spawns[i];
        assert KnownSpawns(spawns[..i + 1]) == known + (if KnownSpawn(sp) then [sp] else []) by {
          assert spawns[..i + 1][..i] == spawns[..i];
        }
        if KindOf(sp.kind).Some? {
          var e := SpawnEnemy(sp, nextId);
          es, known := es + [e], known + [sp];
          nextId := nextId + 1;
        }
        i := i + 1;
      }
      assert spawns[..|spawns|] == spawns;
    }

    /**
     * `loadLevel`: an index with no level data changes nothing. Otherwise
     * the level is built, the player is put at its spawn at rest with full
     * health, the camera follows the player from a clamped snap position,
     * every list is rebuilt (enemies of unknown types skipped, the boss
     * only for a `costi` entry, pickups moved up out of the ground) and the
     * level intro starts.
     */
    method LoadLevel(index: int)
      requires LevelsReady() && LevelReady() && EnemiesReady() && BossReady() && Distinct(projectiles) &&
               Distinct(particles) && CollectiblesReady()
      modifies this`currentLevelIndex, this`level, this`enemies, this`projectiles, this`particles,
               this`collectibles, this`floatingTexts, this`boss, this`bossIntroShown, this`deathGrave,
               this`state, this`screenTimer, this`nextId,
               player`x, player`y, player`vx, player`vy, player`health,
               camera`levelWidth, camera`levelHeight, camera`target, camera`x, camera`y
      ensures !(0 <= index < |levelData|) ==> unchanged(this) && unchanged(player) && unchanged(camera)
      ensures 0 <= index < |levelData| ==>
        var cfg := levelData[index];
        var lv := MakeLevel(cfg);
        currentLevelIndex == index && level == Some(lv) && PlayerPlaced(lv) &&
        projectiles == [] && particles == [] && floatingTexts == [] &&
        !bossIntroShown && deathGrave.None? && state == LevelIntro && screenTimer == 0 &&
        |enemies| == |KnownSpawns(lv.enemySpawns)| && |collectibles| == |KnownItems(lv.collectibleSpawns)| &&
        (boss != null <==> cfg.boss.Some? && cfg.boss.value.kind == "costi")
      ensures 0 <= index < |levelData| ==>
        var lv := MakeLevel(levelData[index]);
        forall i :: 0 <= i < |enemies| ==>
          fresh(enemies[i]) && SpawnedFrom(enemies[i], KnownSpawns(lv.enemySpawns)[i], old(nextId) + i)
      ensures 0 <= index < |levelData| ==>
        var lv := MakeLevel(levelData[index]);
        forall i :: 0 <= i < |collectibles| ==>
          fresh(collectibles[i]) &&
          PlacedFrom(collectibles[i], levelData[index].tiles, KnownItems(lv.collectibleSpawns)[i])
      ensures 0 <= index < |levelData| && boss != null ==>
        var b := levelData[index].boss.value;
        fresh(boss) && !boss.activated && boss.x == (b.x * TILE_SIZE) as real &&
        boss.y == (b.y * TILE_SIZE) as real
      ensures LevelReady() && EnemiesReady() && BossReady() && Distinct(projectiles) &&
              Distinct(particles) && CollectiblesReady()
    {
      if 0 <= index < |levelData| {
        Enter(index);
      }
    }

    /** `loadLevel` for an index that has level data. */
    method Enter(index: int)
      requires LevelsReady() && nextId >= 1 && 0 <= index < |levelData|
      modifies this`currentLevelIndex, this`level, this`enemies, this`projectiles, this`particles,
               this`collectibles, this`floatingTexts, this`boss, this`bossIntroShown, this`deathGrave,
               this`state, this`screenTimer, this`nextId,
               player`x, player`y, player`vx, player`vy, player`health,
               camera`levelWidth, camera`levelHeight, camera`target, camera`x, camera`y
      ensures
        var cfg := levelData[index];
        var lv := MakeLevel(cfg);
        Cleared(index, lv) && PlayerPlaced(lv) &&
        |enemies| == |KnownSpawns(lv.enemySpawns)| && |collectibles| == |KnownItems(lv.collectibleSpawns)| &&
        (boss != null <==> cfg.boss.Some? && cfg.boss.value.kind == "costi")
      ensures
        var lv := MakeLevel(levelData[index]);
        forall i :: 0 <= i < |enemies| ==>
          fresh(enemies[i]) && SpawnedFrom(enemies[i], KnownSpawns(lv.enemySpawns)[i], old(nextId) + i)
      ensures
        var lv := MakeLevel(levelData[index]);
        forall i :: 0 <= i < |collectibles| ==>
          fresh(collectibles[i]) &&
          PlacedFrom(collectibles[i], levelData[index].tiles, KnownItems(lv.collectibleSpawns)[i])
      ensures boss != null ==>
        var b := levelData[index].boss.value;
        fresh(boss) && !boss.activated && boss.x == (b.x * TILE_SIZE) as real &&
        boss.y == (b.y * TILE_SIZE) as real
      ensures LevelReady() && EnemiesReady() && BossReady() && Distinct(projectiles) &&
              Distinct(particles) && CollectiblesReady()
    {
      var data := levelData[index];
      var lv := MakeLevel(data);
      PlacePlayer(lv);
      ClearLevelState(index, lv);
      Populate(data, lv);
    }

    /**
     * The per-level state right after `loadLevel`: the level is current,
     * no shots, particles or popups remain, and the level intro is showing.
     */
    predicate Cleared(index: int, lv: Level)
      reads this`currentLevelIndex, this`level, this`projectiles, this`particles, this`floatingTexts,
            this`bossIntroShown, this`deathGrave, this`state, this`screenTimer
    {
      currentLevelIndex == index && level == Some(lv) &&
      projectiles == [] && particles == [] && floatingTexts == [] &&
      !bossIntroShown && deathGrave.None? && state == LevelIntro && screenTimer == 0
    }

    method ClearLevelState(index: int, lv: Level)
      modifies this`currentLevelIndex, this`level, this`projectiles, this`particles, this`floatingTexts,
               this`bossIntroShown, this`deathGrave, this`state, this`screenTimer
      ensures Cleared(index, lv)
    {
      currentLevelIndex, level := index, Some(lv);
      projectiles, particles, floatingTexts := [], [], [];
      bossIntroShown, deathGrave := false, None;
      state, screenTimer := LevelIntro, 0;
    }

    /**
     * The player stands at the level's spawn, at rest and at full health,
     * and the camera follows it, snapped to centre it within the level.
     */
    predicate PlayerPlaced(lv: Level)
      reads player, camera
    {
      player.x == lv.playerSpawn.x as real && player.y == lv.playerSpawn.y as real &&
      player.vx == 0.0 && player.vy == 0.0 && player.health == player.maxHealth &&
      camera.levelWidth == lv.widthPx as real && camera.levelHeight == lv.heightPx as real &&
      camera.target == player &&
      camera.x == Clamp(player.CenterX() - width / 2.0, 0.0, Max(0.0, lv.widthPx as real - width)) &&
      camera.y == Clamp(player.CenterY() - height / 2.0, 0.0, Max(0.0, lv.heightPx as real - height))
    }

    /** The player at the level's spawn, at rest and healed, with the camera snapped onto it. */
    method PlacePlayer(lv: Level)
      modifies player`x, player`y, player`vx, player`vy, player`health,
               camera`levelWidth, camera`levelHeight, camera`target, camera`x, camera`y
      ensures PlayerPlaced(lv)
    {
      player.x := lv.playerSpawn.x as real;
      player.y := lv.playerSpawn.y as real;
      player.vx := 0.0;
      player.vy := 0.0;
      player.health := player.maxHealth;
      camera.SetLevelBounds(lv.widthPx as real, lv.heightPx as real);
      camera.Follow(player);
      camera.x := Clamp(player.CenterX() - width / 2.0, 0.0, Max(0.0, lv.widthPx as real - width));
      camera.y := Clamp(player.CenterY() - height / 2.0, 0.0, Max(0.0, lv.heightPx as real - height));
    }

    /** The enemies, the boss and the pickups of a freshly built level. */
    method Populate(data: LevelConfig, lv: Level)
      requires nextId >= 1
      modifies this`enemies, this`boss, this`collectibles, this`nextId
      ensures |enemies| == |KnownSpawns(lv.enemySpawns)| && |collectibles| == |KnownItems(lv.collectibleSpawns)|
      ensures forall i :: 0 <= i < |enemies| ==>
        fresh(enemies[i]) && SpawnedFrom(enemies[i], KnownSpawns(lv.enemySpawns)[i], old(nextId) + i)
      ensures forall i :: 0 <= i < |collectibles| ==>
        fresh(collectibles[i]) && PlacedFrom(collectibles[i], data.tiles, KnownItems(lv.collectibleSpawns)[i])
      ensures boss != null <==> data.boss.Some? && data.boss.value.kind == "costi"
      ensures boss != null ==>
        fresh(boss) && boss.Valid() && !boss.activated && boss.pendingProjectile == null &&
        boss.pendingShockwave.None? &&
        boss.x == (data.boss.value.x * TILE_SIZE) as real && boss.y == (data.boss.value.y * TILE_SIZE) as real
      ensures EnemiesReady() && BossReady() && CollectiblesReady()
    {
      enemies := SpawnEnemies(lv.enemySpawns);
      boss := null;
      if data.boss.Some? && data.boss.value.kind == "costi" {
        boss := new BossCosti((data.boss.value.x * TILE_SIZE) as real, (data.boss.value.y * TILE_SIZE) as real);
      }
      collectibles := SpawnCollectibles(data.tiles, lv.collectibleSpawns);
    }

    // ---- screens ----

    /** `_nextLevel`: past the last level is VICTORY, otherwise the next level loads. */
    method NextLevel()
      requires LevelsReady() && LevelReady() && EnemiesReady() && BossReady() && Distinct(projectiles) &&
               Distinct(particles) && CollectiblesReady() && level.Some?
      modifies this`currentLevelIndex, this`level, this`enemies, this`projectiles, this`particles,
               this`collectibles, this`floatingTexts, this`boss, this`bossIntroShown, this`deathGrave,
               this`state, this`screenTimer, this`nextId,
               player`x, player`y, player`vx, player`vy, player`health,
               camera`levelWidth, camera`levelHeight, camera`target, camera`x, camera`y
      ensures old(currentLevelIndex) + 1 >= |levelData| ==>
        state == Victory && screenTimer == 0 && level == old(level) && enemies == old(enemies)
      ensures 0 <= old(currentLevelIndex) + 1 < |levelData| ==>
        state == LevelIntro && screenTimer == 0 && currentLevelIndex == old(currentLevelIndex) + 1 &&
        level == Some(MakeLevel(levelData[currentLevelIndex]))
      ensures LevelReady() && EnemiesReady() && BossReady() && Distinct(projectiles) &&
              Distinct(particles) && CollectiblesReady()
    {
      var nextIndex := currentLevelIndex + 1;
      if nextIndex >= |levelData| {
        state := Victory;
        screenTimer := 0;
      } else {
        LoadLevel(nextIndex);
      }
    }

    /**
     * `_restart`: three lives, no score, full health, IDLE, no power-ups,
     * and the first level loads.
     */
    method Restart()
      requires LevelsReady() && LevelReady() && EnemiesReady() && BossReady() && Distinct(projectiles) &&
               Distinct(particles) && CollectiblesReady() && player.powerUps.Valid()
      modifies this`currentLevelIndex, this`level, this`enemies, this`projectiles, this`particles,
               this`collectibles, this`floatingTexts, this`boss, this`bossIntroShown, this`deathGrave,
               this`state, this`screenTimer, this`nextId,
               player`x, player`y, player`vx, player`vy, player`health, player`lives, player`score,
               player`state, player.powerUps,
               camera`levelWidth, camera`levelHeight, camera`target, camera`x, camera`y
      ensures player.lives == START_LIVES && player.score == 0 && player.health == player.maxHealth
      ensures player.state == PlayerState.Idle && player.powerUps.activePowerUps == []
      ensures player.powerUps.Valid()
      ensures |levelData| > 0 ==>
        currentLevelIndex == 0 && level == Some(MakeLevel(levelData[0])) &&
        state == LevelIntro && screenTimer == 0
      ensures |levelData| == 0 ==> state == old(state) && level == old(level)
      ensures LevelReady() && EnemiesReady() && BossReady() && Distinct(projectiles) &&
              Distinct(particles) && CollectiblesReady()
    {
      player.lives := START_LIVES;
      player.health := player.maxHealth;
      player.score := 0;
      player.state := PlayerState.Idle;
      player.powerUps.Clear();
      LoadFirstLevel();
    }

    /** `_loadLevel(0)`, with what the restart needs to know of it. */
    method LoadFirstLevel()
      requires LevelsReady() && LevelReady() && EnemiesReady() && BossReady() && Distinct(projectiles) &&
               Distinct(particles) && CollectiblesReady()
      modifies this`currentLevelIndex, this`level, this`enemies, this`projectiles, this`particles,
               this`collectibles, this`floatingTexts, this`boss, this`bossIntroShown, this`deathGrave,
               this`state, this`screenTimer, this`nextId,
               player`x, player`y, player`vx, player`vy, player`health,
               camera`levelWidth, camera`levelHeight, camera`target, camera`x, camera`y
      ensures |levelData| > 0 ==>
        currentLevelIndex == 0 && level == Some(MakeLevel(levelData[0])) &&
        state == LevelIntro && screenTimer == 0 && player.health == player.maxHealth
      ensures |levelData| == 0 ==> state == old(state) && level == old(level) && player.health == old(player.health)
      ensures LevelReady() && EnemiesReady() && BossReady() && Distinct(projectiles) &&
              Distinct(particles) && CollectiblesReady()
    {
      LoadLevel(0);
    }

    // ---- respawning and the death grave ----

    /** `_getLastCheckpoint`: the last activated checkpoint in list order, else the level's spawn. */
    method GetLastCheckpoint() returns (p: PixelPos)
      requires level.Some?
      ensures p == RespawnPoint(level.value)
    {
      var cps := level.value.checkpoints;
      var last: Option<nat> := None;
      var i := 0;
      while i < |cps|
        invariant 0 <= i <= |cps|
        invariant last == LastActivated(cps[..i])
      {
        assert cps[..i + 1][..i] == cps[..i];
        if cps[i].activated {
          last := Some(i);
        }
        i := i + 1;
      }
      assert cps[..|cps|] == cps;
      if last.Some? {
        p := PixelPos(cps[last.value].x, cps[last.value].y);
      } else {
        p := level.value.playerSpawn;
      }
    }

    /** The checkpoint pass of a PLAYING frame: every checkpoint near the player's centre is activated. */
    method TouchCheckpointsStep()
      requires Valid() && level.Some?
      modifies this`level
      ensures level == Some(old(level.value).(checkpoints :=
                TouchCheckpoints(old(level.value.checkpoints), player.CenterX(), player.CenterY())))
      ensures Valid()
    {
      var lv := level.value;
      var cps := lv.checkpoints;
      var cx, cy := player.CenterX(), player.CenterY();
      ghost var goal := TouchCheckpoints(lv.checkpoints, cx, cy);
      var i := 0;
      while i < |cps|
        invariant 0 <= i <= |cps| && |cps| == |lv.checkpoints|
        invariant forall k :: 0 <= k < i ==> cps[k] == goal[k]
        invariant forall k :: i <= k < |cps| ==> cps[k] == lv.checkpoints[k]
      {
        if !cps[i].activated && NearMarker(cx, cy, cps[i].x, cps[i].y) {
          cps := cps[i := cps[i].(activated := true)];
        }
        i := i + 1;
      }
      assert cps == goal;
      level := Some(lv.(checkpoints := cps));
    }

    /** Touching the exit portal completes the level; otherwise nothing changes. */
    method CheckExit()
      requires Valid() && level.Some?
      modifies this`state, this`screenTimer
      ensures var ex := level.value.exit;
        if ex.Some? && NearMarker(player.CenterX(), player.CenterY(), ex.value.x, ex.value.y)
        then state == LevelComplete && screenTimer == 0
        else state == old(state) && screenTimer == old(screenTimer)
      ensures Valid()
    {
      var ex := level.value.exit;
      if ex.Some? && NearMarker(player.CenterX(), player.CenterY(), ex.value.x, ex.value.y) {
        state := LevelComplete;
        screenTimer := 0;
      }
    }

    /** Appends a fresh particle burst; the particle list keeps no object twice. */
    method EmitBurst(x: real, y: real, color: string, count: int, rolls: seq<BurstRoll>)
      requires Distinct(particles)
      modifies this`particles
      ensures |particles| == |old(particles)| + BurstSize(count)
      ensures particles[..|old(particles)|] == old(particles) && Distinct(particles)
      ensures forall i :: |old(particles)| <= i < |particles| ==>
        fresh(particles[i]) && particles[i].x == x && particles[i].y == y && !particles[i].dead
    {
      var ps := SpawnParticleBurst(x, y, color, count, rolls);
      particles := particles + ps;
    }

    /**
     * `_playerDeath`: a 12-particle white burst, a 90-frame grave at the
     * player's feet, and the player parked at y = -200, DEAD and at rest.
     * Lives are untouched: a pit death costs no life.
     */
    method PlayerDeath(rolls: seq<BurstRoll>)
      requires Distinct(particles)
      modifies this`particles, this`deathGrave, player`state, player`vx, player`vy, player`y
      ensures deathGrave == Some(Grave(old(player.CenterX()), old(player.y) + player.height, GRAVE_FRAMES))
      ensures player.state == PlayerState.Dead && player.vx == 0.0 && player.vy == 0.0 && player.y == DEATH_Y
      ensures player.lives == old(player.lives) && player.x == old(player.x)
      ensures |particles| == |old(particles)| + 12 && particles[..|old(particles)|] == old(particles)
      ensures forall k :: |old(particles)| <= k < |particles| ==> fresh(particles[k])
      ensures Distinct(particles)
    {
      EmitBurst(player.CenterX(), player.CenterY(), WHITE, 12, rolls);
      deathGrave := Some(Grave(player.CenterX(), player.y + player.height, GRAVE_FRAMES));
      player.state := PlayerState.Dead;
      player.vx := 0.0;
      player.vy := 0.0;
      player.y := DEATH_Y;
    }

    /**
     * `_updateParticles`: every particle steps once; the dead ones leave
     * the list, the others keep their order.
     */
    method UpdateParticles()
      requires Distinct(particles)
      modifies this`particles, particles
      ensures particles == LiveParticles(old(particles)) && Distinct(particles)
      ensures forall k :: 0 <= k < |old(particles)| ==>
        MotionOf(old(particles)[k]) == Advance(old(Motions(particles))[k], old(particles)[k].gravity)
    {
      particles := StepParticles(particles);
    }

    // ---- the enemies' part of a PLAYING frame ----

    /**
     * The enemies' turns and the splice: the enemies that died on their
     * turn (`gone`) leave the list and score, the rest keep their order,
     * and the minions called up follow them, awake.
     */
    method MoveEnemies(sqrt: real -> real) returns (shots: seq<Projectile>, blasts: seq<Blast>, ghost gone: seq<bool>)
      requires EnemiesReady() && level.Some? && WellFormed(level.value.tileMap)
      modifies this`enemies, enemies, this`nextId, player`score
      ensures EnemiesReady()
      ensures |gone| == |old(enemies)| && forall k :: 0 <= k < |gone| ==> old(enemies)[k].dead == gone[k]
      ensures var live := Keep(old(enemies), gone);
        |live| <= |enemies| && enemies[..|live|] == live &&
        forall k :: |live| <= k < |enemies| ==> fresh(enemies[k]) && enemies[k].activated && !enemies[k].dead
      ensures player.score == old(player.score) + GoneScore(old(enemies), gone)
      ensures Distinct(shots) && forall p :: p in shots ==> fresh(p)
    {
      var next, n, gained;
      next, n, gained, shots, blasts, gone :=
        EnemyPass(enemies, nextId, level.value.tileMap, camera, player.CenterX(), player.CenterY(), sqrt);
      enemies, nextId := next, n;
      player.score := player.score + gained;
    }

    /**
     * `_updateEnemies`: the enemies move, and the shots and bursts of the
     * frame are appended to the projectile and particle lists.
     */
    method UpdateEnemies(sqrt: real -> real, rolls: seq<BurstRoll>) returns (ghost gone: seq<bool>)
      requires EnemiesReady() && Distinct(projectiles) && Distinct(particles)
      requires level.Some? && WellFormed(level.value.tileMap)
      modifies this`enemies, enemies, this`projectiles, this`particles, this`nextId, player`score
      ensures EnemiesReady() && Distinct(projectiles) && Distinct(particles)
      ensures |gone| == |old(enemies)| && forall k :: 0 <= k < |gone| ==> old(enemies)[k].dead == gone[k]
      ensures var live := Keep(old(enemies), gone);
        |live| <= |enemies| && enemies[..|live|] == live &&
        forall k :: |live| <= k < |enemies| ==> fresh(enemies[k]) && enemies[k].activated && !enemies[k].dead
      ensures player.score == old(player.score) + GoneScore(old(enemies), gone)
      ensures |old(projectiles)| <= |projectiles| && projectiles[..|old(projectiles)|] == old(projectiles)
      ensures |old(particles)| <= |particles| && particles[..|old(particles)|] == old(particles)
      ensures forall k :: |old(particles)| <= k < |particles| ==> fresh(particles[k])
      ensures forall k :: |old(projectiles)| <= k < |projectiles| ==> fresh(projectiles[k])
    {
      var shots, blasts;
      shots, blasts, gone := MoveEnemies(sqrt);
      var bursts := SpawnBlasts(blasts, 10, rolls);
      DistinctAppend(projectiles, shots);
      DistinctAppend(particles, bursts);
      ghost var n := |projectiles|;
      projectiles, particles := projectiles + shots, particles + bursts;
      forall k | n <= k < |projectiles|
        ensures fresh(projectiles[k])
      {
        assert projectiles[k] == shots[k - n] && shots[k - n] in shots;
      }
    }

    // ---- the fights of a PLAYING frame ----

    /**
     * `_checkPlayerAttack`: while a swing is out, every live enemy its box
     * lands on that this swing has not hit yet takes the attack damage
     * times the damage modifier, joins the swing's hit set and gives off a
     * white 5-particle burst. `landed` flags the enemies hit.
     */
    method CheckPlayerAttack(rolls: seq<BurstRoll>) returns (ghost landed: seq<bool>)
      requires EnemiesReady() && Distinct(particles)
      modifies enemies, player`hitEnemies, this`particles
      ensures EnemiesReady() && Distinct(particles)
      ensures |landed| == |enemies|
      ensures var hb := old(player.GetAttackHitbox());
        forall k :: 0 <= k < |enemies| ==>
          landed[k] == (hb.Some? && old(Struck(enemies[k], hb.value, player.hitEnemies)))
      ensures forall k :: 0 <= k < |enemies| && landed[k] ==>
        Damaged(enemies[k], old(enemies[k].hp), old(player.attackDamage as real * ModOf(player.powerUps, "damage"))) &&
        enemies[k].id in player.hitEnemies
      ensures forall k :: 0 <= k < |enemies| && !landed[k] ==> unchanged(enemies[k])
      ensures player.hitEnemies == AddAll(old(player.hitEnemies), Ids(Chosen(enemies, landed)))
      ensures |particles| == |old(particles)| + BurstSize(5) * |Chosen(enemies, landed)|
      ensures |old(particles)| <= |particles| && particles[..|old(particles)|] == old(particles)
      ensures forall k :: |old(particles)| <= k < |particles| ==> fresh(particles[k])
    {
      var hb := player.GetAttackHitbox();
      if hb.None? {
        landed := seq(|enemies|, k => false);
        ChosenNone(enemies, landed);
        return;
      }
      var struck;
      struck, landed := SwingEnemies(hb.value, player.attackDamage as real * ModOf(player.powerUps, "damage"));
      var bursts := SpawnBlasts(HitBlasts(struck), 5, rolls);
      DistinctAppend(particles, bursts);
      particles := particles + bursts;
    }

    /** The enemy side of a swing with box `box` and damage `dmg`. */
    method SwingEnemies(box: Rect, dmg: real) returns (struck: seq<Enemy>, ghost landed: seq<bool>)
      requires EnemiesReady()
      modifies enemies, player`hitEnemies
      ensures EnemiesReady()
      ensures |landed| == |enemies| && struck == Chosen(enemies, landed)
      ensures forall k :: 0 <= k < |enemies| ==> landed[k] == old(Struck(enemies[k], box, player.hitEnemies))
      ensures forall k :: 0 <= k < |enemies| && landed[k] ==>
        Damaged(enemies[k], old(enemies[k].hp), dmg) && enemies[k].id in player.hitEnemies
      ensures forall k :: 0 <= k < |enemies| && !landed[k] ==> unchanged(enemies[k])
      ensures player.hitEnemies == AddAll(old(player.hitEnemies), Ids(Chosen(enemies, landed)))
    {
      IdsDistinct(enemies);
      struck, landed := SwingThrough(enemies, player, box, dmg);
    }

    /**
     * `_checkPlayerAttackBoss`: a swing that lands on the live boss for the
     * first time deals the same damage, puts the boss in the hit set and
     * gives off a white 5-particle burst, even when the boss's own
     * invincibility frames make it shrug the damage off.
     */
    method CheckPlayerAttackBoss(rolls: FrameRolls) returns (land: bool)
      requires BossReady() && Distinct(particles)
      modifies boss, player`hitEnemies, this`particles
      ensures BossReady() && Distinct(particles)
      ensures |old(particles)| <= |particles| && particles[..|old(particles)|] == old(particles)
      ensures forall k :: |old(particles)| <= k < |particles| ==> fresh(particles[k])
      ensures land == (boss != null && old(player.GetAttackHitbox()).Some? &&
                       old(StruckBoss(boss, player.GetAttackHitbox().value, player.hitEnemies)))
      ensures land ==> player.hitEnemies == old(player.hitEnemies) + {BOSS_ID} &&
                       |particles| == |old(particles)| + BurstSize(5)
      ensures !land ==> player.hitEnemies == old(player.hitEnemies) && particles == old(particles)
      ensures boss != null && (!land || old(boss.invincibleTimer) > 0) ==> unchanged(boss)
      ensures land && old(boss.invincibleTimer) == 0 ==>
        var left := old(boss.hp) - old(player.attackDamage as real * ModOf(player.powerUps, "damage"));
        boss.hp == (if left <= 0.0 then 0.0 else left) && boss.dead == (left <= 0.0)
    {
      if boss == null || boss.dead {
        return false;
      }
      var hb := player.GetAttackHitbox();
      if hb.None? || BOSS_ID in player.hitEnemies {
        return false;
      }
      var dmg := player.attackDamage as real * ModOf(player.powerUps, "damage");
      land := SwingAtBoss(boss, hb.value, player.hitEnemies, dmg, player.CenterX(), rolls.bossChance, rolls.bossPick);
      if land {
        player.hitEnemies := player.hitEnemies + {BOSS_ID};
        EmitBurst(boss.CenterX(), boss.CenterY(), HIT_WHITE, 5, rolls.burst);
      }
    }

    /**
     * `_checkBossDeath`: the first frame that finds the boss dead scores
     * its bounty, sets off five gold 8-particle bursts around it and goes
     * to VICTORY; once in VICTORY nothing more happens, so the bounty is
     * paid once.
     */
    method CheckBossDeath(rolls: FrameRolls)
      requires Distinct(particles)
      modifies this`particles, player`score, this`state, this`screenTimer
      ensures Distinct(particles)
      ensures |old(particles)| <= |particles| && particles[..|old(particles)|] == old(particles)
      ensures forall k :: |old(particles)| <= k < |particles| ==> fresh(particles[k])
      ensures var fires := boss != null && boss.dead && old(state) != Victory;
        (fires ==> state == Victory && screenTimer == 0 && player.score == old(player.score) + boss.scoreValue &&
                   |particles| == |old(particles)| + DEATH_BURSTS * BurstSize(8)) &&
        (!fires ==> state == old(state) && screenTimer == old(screenTimer) &&
                    player.score == old(player.score) && particles == old(particles))
    {
      if boss == null || !boss.dead || state == Victory {
        return;
      }
      player.score := player.score + boss.scoreValue;
      var bursts := SpawnBlasts(DeathBlasts(boss.CenterX(), boss.CenterY(), rolls.scatter), 8, rolls.burst);
      DistinctAppend(particles, bursts);
      particles := particles + bursts;
      state, screenTimer := Victory, 0;
    }

    /**
     * The sleeping boss: the first time the player comes within 300 px of
     * it across, the boss intro starts.
     */
    method BossIntroCheck()
      requires boss != null
      modifies this`bossIntroShown, this`state, this`screenTimer
      ensures var near := !old(bossIntroShown) && Abs(player.CenterX() - boss.CenterX()) < BOSS_INTRO_DISTANCE;
        (near ==> bossIntroShown && state == BossIntro && screenTimer == 0) &&
        (!near ==> bossIntroShown == old(bossIntroShown) && state == old(state) && screenTimer == old(screenTimer))
    {
      if !bossIntroShown && Abs(player.CenterX() - boss.CenterX()) < BOSS_INTRO_DISTANCE {
        bossIntroShown := true;
        state := BossIntro;
        screenTimer := 0;
      }
    }

    /** The awake boss's turn; a shot it throws is moved over to the projectile list. */
    method BossTurn(rolls: FrameRolls, sqrt: real -> real) returns (act: Option<Action>)
      requires boss != null && boss.Valid() && boss.pendingProjectile == null && Distinct(projectiles)
      requires level.Some? && WellFormed(level.value.tileMap)
      modifies boss, this`projectiles
      ensures boss.Valid() && boss.pendingProjectile == null && Distinct(projectiles)
      ensures |old(projectiles)| <= |projectiles| <= |old(projectiles)| + 1
      ensures projectiles[..|old(projectiles)|] == old(projectiles)
      ensures forall k :: |old(projectiles)| <= k < |projectiles| ==> fresh(projectiles[k])
      ensures act.Some? ==> act == Some(ChooseAction(boss.phase, rolls.bossRoll)) && boss.actionTimer == 0
      ensures old(boss.activated) && !old(boss.dead) ==>
        act == old(boss.NextPlan(player.CenterX(), rolls.bossRoll, rolls.bossPick)).act
    {
      act := boss.Update(level.value.tileMap, player.CenterX(), player.CenterY(), rolls.bossRoll, rolls.bossPick, sqrt);
      if boss.pendingProjectile != null {
        var p := boss.pendingProjectile;
        DistinctAppend(projectiles, [p]);
        projectiles := projectiles + [p];
        boss.pendingProjectile := null;
      }
    }

    /**
     * A shockwave set off this frame: the player strictly inside its
     * radius takes its damage from its centre, and a ring of gold
     * 2-particle bursts goes off along the ground.
     */
    method ShockwaveHit(sw: Shockwave, burst: seq<BurstRoll>) returns (ring: seq<Blast>)
      requires Distinct(particles)
      modifies this`particles, player`health, player`hurtTimer, player`invincibilityTimer, player`state,
               player`attackTimer, player`vx, player`vy, player`lives
      ensures Distinct(particles)
      ensures |old(particles)| <= |particles| && particles[..|old(particles)|] == old(particles)
      ensures forall k :: |old(particles)| <= k < |particles| ==> fresh(particles[k])
      ensures |particles| == |old(particles)| + BurstSize(2) * |ring|
      ensures sw.radius > 0.0 ==> (|ring| - 1) as real * 10.0 < sw.radius <= |ring| as real * 10.0
      ensures sw.radius <= 0.0 ==> ring == []
      ensures InReach(sw, old(player.CenterX()), old(player.CenterY())) ==>
        VitalsOf(player) == Harm(old(VitalsOf(player)), sw.damage, sw.x)
      ensures !InReach(sw, old(player.CenterX()), old(player.CenterY())) ==> unchanged(player)
    {
      if InReach(sw, player.CenterX(), player.CenterY()) {
        HurtPlayer(player, sw.damage, sw.x);
      }
      ring := ShockwaveRing(sw);
      var bursts := SpawnBlasts(ring, 2, burst);
      DistinctAppend(particles, bursts);
      particles := particles + bursts;
    }

    /**
     * `_updateBoss`: nothing happens without a live boss; a sleeping boss
     * only watches for the player to come near; an awake one takes its
     * turn, and a shockwave it set off (`wave`) hits the player inside its
     * radius, leaves a ring of bursts and is spent.
     */
    method UpdateBoss(rolls: FrameRolls, sqrt: real -> real) returns (ghost wave: Option<Shockwave>)
      requires BossReady() && Distinct(projectiles) && Distinct(particles)
      requires level.Some? && WellFormed(level.value.tileMap)
      modifies boss, this`bossIntroShown, this`state, this`screenTimer, this`projectiles, this`particles,
               player`health, player`hurtTimer, player`invincibilityTimer, player`state, player`attackTimer,
               player`vx, player`vy, player`lives
      ensures BossReady() && Distinct(projectiles) && Distinct(particles)
      ensures |old(projectiles)| <= |projectiles| && projectiles[..|old(projectiles)|] == old(projectiles)
      ensures |old(particles)| <= |particles| && particles[..|old(particles)|] == old(particles)
      ensures forall k :: |old(particles)| <= k < |particles| ==> fresh(particles[k])
      ensures forall k :: |old(projectiles)| <= k < |projectiles| ==> fresh(projectiles[k])
      ensures boss == null || old(boss.dead) ==>
        (boss != null ==> unchanged(boss)) && unchanged(this) && wave.None?
      ensures boss != null && !old(boss.dead) && !old(boss.activated) ==>
        unchanged(boss) && projectiles == old(projectiles) && particles == old(particles) && wave.None? &&
        var near := !old(bossIntroShown) && Abs(player.CenterX() - boss.CenterX()) < BOSS_INTRO_DISTANCE;
        (near ==> bossIntroShown && state == BossIntro && screenTimer == 0) &&
        (!near ==> bossIntroShown == old(bossIntroShown) && state == old(state))
      ensures wave.None? ==> unchanged(player) && particles == old(particles)
      ensures wave.Some? ==>
        (InReach(wave.value, old(player.CenterX()), old(player.CenterY())) ==>
           VitalsOf(player) == Harm(old(VitalsOf(player)), wave.value.damage, wave.value.x)) &&
        (!InReach(wave.value, old(player.CenterX()), old(player.CenterY())) ==> unchanged(player))
      ensures state == old(state) || state == BossIntro
    {
      wave := None;
      if boss == null || boss.dead {
        return;
      }
      if !boss.activated {
        BossIntroCheck();
        return;
      }
      var act := BossTurn(rolls, sqrt);
      if boss.pendingShockwave.Some? {
        wave := boss.pendingShockwave;
        var ring := ShockwaveHit(boss.pendingShockwave.value, rolls.burst);
        boss.pendingShockwave := None;
      }
    }

    /**
     * `_updateProjectiles`: every projectile steps once and, in a loaded
     * level, dies on a solid tile under its centre; the dead ones leave the
     * list and the others keep their order.
     */
    method UpdateProjectiles()
      requires Distinct(projectiles) && (level.Some? ==> WellFormed(level.value.tileMap))
      modifies this`projectiles, projectiles
      ensures projectiles == LiveProjectiles(old(projectiles)) && Distinct(projectiles)
      ensures forall k :: 0 <= k < |old(projectiles)| ==>
        var p := old(projectiles)[k];
        FlightOf(p) == Fly(old(Flights(projectiles))[k], p.gravity, p.width, p.height, LevelMap(level))
    {
      projectiles := StepProjectiles(projectiles, LevelMap(level));
    }

    // ---- pickups and popups of a PLAYING frame ----

    /** `_updateCollectibles`: every item not yet collected advances its animation clocks. */
    method UpdateCollectibles(dt: real)
      requires Distinct(collectibles)
      modifies collectibles
      ensures forall k :: 0 <= k < |collectibles| && old(collectibles[k].collected) ==> unchanged(collectibles[k])
      ensures forall k :: 0 <= k < |collectibles| && !old(collectibles[k].collected) ==>
                Bobbed(collectibles[k], old(collectibles[k].bobTime), old(collectibles[k].pulseTime),
                       old(collectibles[k].sparkleTime))
      ensures forall k :: 0 <= k < |collectibles| ==>
                collectibles[k].GetBounds() == old(collectibles[k].GetBounds()) &&
                PickupOf(collectibles[k]) == old(PickupOf(collectibles[k])) &&
                collectibles[k].collected == old(collectibles[k].collected)
    {
      for i := 0 to |collectibles|
        invariant forall k :: 0 <= k < i && old(collectibles[k].collected) ==> unchanged(collectibles[k])
        invariant forall k :: 0 <= k < i && !old(collectibles[k].collected) ==>
                    Bobbed(collectibles[k], old(collectibles[k].bobTime), old(collectibles[k].pulseTime),
                           old(collectibles[k].sparkleTime)) &&
                    collectibles[k].GetBounds() == old(collectibles[k].GetBounds()) &&
                    PickupOf(collectibles[k]) == old(PickupOf(collectibles[k])) &&
                    collectibles[k].collected == old(collectibles[k].collected)
        invariant forall k :: i <= k < |collectibles| ==> unchanged(collectibles[k])
      {
        var c := collectibles[i];
        if !c.collected {
          c.Update(dt);
        }
      }
    }

    /**
     * `_checkCollectibleCollection`: the walk of `CollectAll` over the
     * items; what it takes is queued for removal, in the order taken (the
     * source's 100 ms timers, which fire in the order they were set), and
     * the popups it raises join the popup list.
     */
    method CheckCollectibleCollection() returns (ghost took: seq<bool>, ghost scales: seq<real>)
      requires CollectiblesReady() && player.powerUps.Valid()
      modifies collectibles, player`score, player`health, player.powerUps, this`floatingTexts,
               this`scheduledRemovals
      ensures forall i :: 0 <= i < |player.powerUps.activePowerUps| ==>
              player.powerUps.activePowerUps[i] in old(player.powerUps.activePowerUps) || fresh(player.powerUps.activePowerUps[i])
      ensures CollectiblesReady() && player.powerUps.Valid() && |took| == |collectibles|
      ensures |scales| == |collectibles|
      ensures forall k :: 0 <= k < |collectibles| ==>
                GatheredAt(collectibles[k], player.GetBounds(), old(collectibles[k].GetBounds()),
                           old(PickupOf(collectibles[k])), old(collectibles[k].collected), took[k], scales[k])
      ensures Purse(player.score, player.health) ==
                GainAll(Purse(old(player.score), old(player.health)), old(Pickups(collectibles)), took, player.maxHealth)
      ensures floatingTexts == old(floatingTexts) + PopupsAll(old(Pickups(collectibles)), took, player.powerUps)
      ensures scheduledRemovals == old(scheduledRemovals) + Taken(collectibles, took)
      ensures ScaleWalk(collectibles, took, scales, old(ScaleOf(player.powerUps)), ScaleOf(player.powerUps))
    {
      ghost var ps := Pickups(collectibles);
      var taken, popups;
      ghost var boxes, was := Boxes(collectibles), CollectedFlags(collectibles);
      taken, popups, took, scales := CollectAll(collectibles, ps, player, player.GetBounds(), ScaleOf(player.powerUps));
      GatheredAllEach(collectibles, player.GetBounds(), boxes, ps, was, took, scales);
      floatingTexts := floatingTexts + popups;
      scheduledRemovals := scheduledRemovals + taken;
    }

    /**
     * The oldest pending removal timer fires: its item leaves the list if
     * it is still there (`indexOf` and `splice`), and nothing else does.
     */
    method FireRemoval()
      requires |scheduledRemovals| > 0 && CollectiblesReady()
      modifies this`collectibles, this`scheduledRemovals
      ensures scheduledRemovals == old(scheduledRemovals[1..]) && CollectiblesReady()
      ensures old(scheduledRemovals[0]) !in collectibles
      ensures forall c :: c in collectibles <==> c in old(collectibles) && c != old(scheduledRemovals[0])
      ensures old(scheduledRemovals[0]) !in old(collectibles) ==> collectibles == old(collectibles)
    {
      var c := scheduledRemovals[0];
      scheduledRemovals := scheduledRemovals[1..];
      var idx := IndexOf(collectibles, c);
      if idx != -1 {
        SpliceOut(collectibles, idx);
        collectibles := collectibles[..idx] + collectibles[idx + 1..];
      }
    }

    /**
     * `_updateFloatingTexts`: the walk from the end that ages every popup
     * and splices out those whose time is up, as `TickTexts` states.
     */
    method UpdateFloatingTexts()
      modifies this`floatingTexts
      ensures floatingTexts == TickTexts(old(floatingTexts))
    {
      var s := floatingTexts;
      var kept: seq<FloatingText> := [];
      var i := |s|;
      while i > 0
        invariant 0 <= i <= |s| && kept == TickTexts(s[i..])
      {
        i := i - 1;
        var ft := s[i].(timer := s[i].timer - 1, y := s[i].y - 1.0);
        assert s[i..][1..] == s[i + 1..];
        if ft.timer > 0 {
          kept := [ft] + kept;
        }
      }
      assert s[0..] == s;
      floatingTexts := kept;
    }

    // ---- the screens around play ----

    /** The title screen: the banner animates, and Space or Enter loads the first level. */
    method TitleStep()
      requires Valid() && state == TitleScreen
      modifies this`titleAnimTimer,
               this`currentLevelIndex, this`level, this`enemies, this`projectiles, this`particles,
               this`collectibles, this`floatingTexts, this`boss, this`bossIntroShown, this`deathGrave,
               this`state, this`screenTimer, this`nextId,
               player`x, player`y, player`vx, player`vy, player`health,
               camera`levelWidth, camera`levelHeight, camera`target, camera`x, camera`y
      ensures titleAnimTimer == old(titleAnimTimer) + 0.02
      ensures old(Confirmed(input)) && |levelData| > 0 ==>
        currentLevelIndex == 0 && level == Some(MakeLevel(levelData[0])) &&
        state == LevelIntro && screenTimer == 0
      ensures !old(Confirmed(input)) || |levelData| == 0 ==> state == TitleScreen && level == old(level)
      ensures Valid()
    {
      titleAnimTimer := titleAnimTimer + 0.02;
      if Confirmed(input) {
        LoadLevel(0);
      }
    }

    /**
     * The level and boss intros: the timer runs, and once it is past 30
     * frames Space or Enter starts play; leaving the boss intro wakes the boss.
     */
    method IntroStep()
      requires Valid() && (state == LevelIntro || state == BossIntro)
      modifies this`screenTimer, this`state, boss
      ensures screenTimer == old(screenTimer) + 1
      ensures var go := screenTimer > INTRO_DELAY && old(Confirmed(input));
        state == (if go then Playing else old(state)) &&
        (boss != null ==> boss.activated == (old(boss.activated) || (go && old(state) == BossIntro)))
      ensures Valid()
    {
      screenTimer := screenTimer + 1;
      if screenTimer > INTRO_DELAY && Confirmed(input) {
        if state == BossIntro && boss != null {
          boss.Activate();
        }
        state := Playing;
      }
    }

    /**
     * LEVEL_COMPLETE, GAME_OVER and VICTORY: the timer runs, and once it is
     * past 60 frames Space or Enter moves on: to the next level after a
     * completed one, otherwise to a fresh game.
     */
    method OverlayStep()
      requires Valid() && (state == LevelComplete || state == GameOver || state == Victory)
      modifies this`currentLevelIndex, this`level, this`enemies, this`projectiles, this`particles,
               this`collectibles, this`floatingTexts, this`boss, this`bossIntroShown, this`deathGrave,
               this`state, this`screenTimer, this`nextId,
               player`x, player`y, player`vx, player`vy, player`health, player`lives, player`score,
               player`state, player.powerUps,
               camera`levelWidth, camera`levelHeight, camera`target, camera`x, camera`y
      ensures var go := old(screenTimer) + 1 > OVERLAY_DELAY && old(Confirmed(input));
        (!go ==> state == old(state) && screenTimer == old(screenTimer) + 1 && level == old(level)) &&
        (go && old(state) == LevelComplete && old(currentLevelIndex) + 1 >= |levelData| ==>
           state == Victory && screenTimer == 0) &&
        (go && old(state) == LevelComplete && 0 <= old(currentLevelIndex) + 1 < |levelData| ==>
           state == LevelIntro && currentLevelIndex == old(currentLevelIndex) + 1) &&
        (go && old(state) != LevelComplete ==>
           player.lives == START_LIVES && player.score == 0 && player.powerUps.activePowerUps == [] &&
           (|levelData| > 0 ==> state == LevelIntro && currentLevelIndex == 0))
      ensures Valid()
    {
      screenTimer := screenTimer + 1;
      if screenTimer > OVERLAY_DELAY && Confirmed(input) {
        if state == LevelComplete {
          NextLevel();
        } else {
          Restart();
        }
      }
    }

    // ---- the player's part of a PLAYING frame ----

    /**
     * A PLAYING frame while the death grave is up: only the grave timer,
     * the particles and the camera advance. When the timer runs out the
     * game is over if no lives are left; otherwise the player comes back at
     * the last activated checkpoint, at rest, healed, IDLE and invincible
     * for 90 frames.
     */
    method GraveStep()
      requires Valid() && deathGrave.Some? && level.Some?
      modifies this`deathGrave, this`state, this`screenTimer, this`particles, particles,
               camera`x, camera`y, player`x, player`y, player`vx, player`vy, player`health,
               player`state, player`invincibilityTimer
      ensures var g := old(deathGrave.value);
        var spawn := RespawnPoint(level.value);
        if g.timer - 1 > 0 then
          deathGrave == Some(g.(timer := g.timer - 1)) && state == old(state) &&
          player.x == old(player.x) && player.y == old(player.y) && player.state == old(player.state)
        else if player.lives <= 0 then
          deathGrave.None? && state == GameOver && screenTimer == 0
        else
          deathGrave.None? && state == old(state) &&
          player.x == spawn.x as real && player.y == spawn.y as real &&
          player.vx == 0.0 && player.vy == 0.0 && player.health == player.maxHealth &&
          player.state == PlayerState.Idle && player.invincibilityTimer == RESPAWN_INVINCIBILITY
      ensures level == old(level) && player.lives == old(player.lives)
      ensures Valid()
    {
      TickGrave();
      if deathGrave.value.timer <= 0 {
        GraveExpiry();
      }
    }

    /** The grave loses a frame, the particles step and the camera follows. */
    method TickGrave()
      requires Valid() && deathGrave.Some?
      modifies this`deathGrave, this`particles, particles, camera`x, camera`y
      ensures deathGrave == Some(old(deathGrave.value).(timer := old(deathGrave.value.timer) - 1))
      ensures particles == LiveParticles(old(particles)) && Valid()
    {
      var g := deathGrave.value;
      deathGrave := Some(g.(timer := g.timer - 1));
      ParticlesStep();
      camera.Update();
    }

    /** The end of the grave: GAME_OVER without lives, else the respawn. */
    method GraveExpiry()
      requires Valid() && level.Some?
      modifies this`state, this`screenTimer, this`deathGrave, player`x, player`y, player`vx,
               player`vy, player`health, player`state, player`invincibilityTimer
      ensures deathGrave.None?
      ensures player.lives <= 0 ==> state == GameOver && screenTimer == 0 && unchanged(player)
      ensures player.lives > 0 ==>
        var spawn := RespawnPoint(level.value);
        state == old(state) && screenTimer == old(screenTimer) &&
        player.x == spawn.x as real && player.y == spawn.y as real &&
        player.vx == 0.0 && player.vy == 0.0 && player.health == player.maxHealth &&
        player.state == PlayerState.Idle && player.invincibilityTimer == RESPAWN_INVINCIBILITY
      ensures Valid()
    {
      if player.lives <= 0 {
        state := GameOver;
        screenTimer := 0;
      } else {
        var respawn := GetLastCheckpoint();
        player.x, player.y := respawn.x as real, respawn.y as real;
        player.vx, player.vy := 0.0, 0.0;
        player.health := player.maxHealth;
        player.state := PlayerState.Idle;
        player.invincibilityTimer := RESPAWN_INVINCIBILITY;
      }
      deathGrave := None;
    }

    /**
     * The clamp to the level's horizontal extent: a player past the left
     * edge is put at 0, one past the right edge against it, and either way
     * stopped; inside the level nothing changes.
     */
    method ClampToLevel(widthPx: real)
      modifies player`x, player`vx
      ensures 0.0 <= old(player.x) && old(player.x) + player.width <= widthPx ==>
        player.x == old(player.x) && player.vx == old(player.vx)
      ensures old(player.x) < 0.0 && player.width <= widthPx ==> player.x == 0.0 && player.vx == 0.0
      ensures Max(old(player.x), 0.0) + player.width > widthPx ==>
        player.x == widthPx - player.width && player.vx == 0.0
      ensures player.x + player.width <= widthPx
      ensures player.width <= widthPx ==> 0.0 <= player.x
      ensures (player.x, player.vx) == Clamped(old(player.x), old(player.vx), player.width, widthPx)
    {
      if player.x < 0.0 {
        player.x := 0.0;
        player.vx := 0.0;
      }
      if player.x + player.width > widthPx {
        player.x := widthPx - player.width;
        player.vx := 0.0;
      }
    }

    /**
     * Input (read while `grounded` still holds last frame's value), then
     * the player's own update with `grounded` cleared.
     */
    method StepPlayer(dt: real)
      requires Valid()
      modifies player`vx, player`facing, player`jumpBufferTimer, player`jumpHeld, player`vy,
               player`grounded, player`coyoteTimer, player`attackType, player`attackTimer,
               player`attackCooldown, player`attackDamage, player`hitEnemies, player`state,
               player`invincibilityTimer, player`hurtTimer, player`stunTimer
      ensures -TERMINAL_VELOCITY <= player.vy <= TERMINAL_VELOCITY
      ensures -player.maxSpeed <= player.vx <= player.maxSpeed
      ensures Valid()
    {
      player.HandleInput(input);
      player.grounded := false;
      player.Update(dt);
    }

    /** The tile resolver on the player's box, then the clamp to the level's width. */
    method CollidePlayer()
      requires Valid() && level.Some? && WellFormed(level.value.tileMap)
      modifies player`x, player`y, player`vx, player`vy, player`grounded
      ensures var b := ResolveSpec(old(player.BodyOf()), level.value.tileMap);
        player.y == b.y && player.vy == b.vy && player.grounded == b.grounded &&
        (player.x, player.vx) == Clamped(b.x, b.vx, player.width, level.value.widthPx as real)
      ensures player.x + player.width <= level.value.widthPx as real
      ensures player.width <= level.value.widthPx as real ==> 0.0 <= player.x
      ensures Valid()
    {
      var m := level.value.tileMap;
      var b := ResolveEntityVsTileMap(player.BodyOf(), m);
      player.SetBody(b);
      ClampToLevel(level.value.widthPx as real);
    }

    /**
     * Falling more than 64 px below the level, or having died of damage
     * with no grave yet, starts the death sequence; otherwise nothing changes.
     */
    method DeathChecks(rolls: seq<BurstRoll>)
      requires Valid() && level.Some?
      modifies this`particles, this`deathGrave, player`state, player`vx, player`vy, player`y
      ensures var pit := old(player.y) > (level.value.heightPx + PIT_MARGIN) as real;
        var dies := pit || (old(player.state) == PlayerState.Dead && old(deathGrave).None?);
        (dies ==> player.state == PlayerState.Dead && player.y == DEATH_Y &&
                  deathGrave.Some? && deathGrave.value.timer == GRAVE_FRAMES &&
                  |particles| == |old(particles)| + 12) &&
        (!dies ==> deathGrave == old(deathGrave) && particles == old(particles) &&
                   player.y == old(player.y) && player.state == old(player.state))
      ensures particles[..|old(particles)|] == old(particles) && Distinct(particles)
      ensures forall k :: |old(particles)| <= k < |particles| ==> fresh(particles[k])
      ensures player.lives == old(player.lives) && player.x == old(player.x)
      ensures Valid()
    {
      if player.y > (level.value.heightPx + PIT_MARGIN) as real {
        PlayerDeath(rolls);
      }
      if player.state == PlayerState.Dead && deathGrave.None? {
        PlayerDeath(rolls);
      }
    }

    // ---- one PLAYING frame, stage by stage ----

    /**
     * `Game.update` on the whole screen machine. Each screen's step runs,
     * then the input's edge flags are cleared: the title, the two intros
     * and the three overlays as their steps say, a PLAYING frame stage by
     * stage, and LOADING, MENU and PAUSED with nothing but the input.
     */
    method Update(dt: real, rolls: FrameRolls, sqrt: real -> real)
      requires Valid()
      modifies this`titleAnimTimer, this`currentLevelIndex, this`level, this`enemies, this`projectiles,
               this`particles, this`collectibles, this`floatingTexts, this`boss, this`bossIntroShown,
               this`deathGrave, this`state, this`screenTimer, this`nextId, this`scheduledRemovals,
               enemies, projectiles, particles, collectibles, boss, player, player.powerUps,
               player.powerUps.activePowerUps, camera, input`justPressed, input`justReleased
      ensures Valid()
      ensures input.justPressed == map[] && input.justReleased == map[]
      ensures old(state) == TitleScreen ==>
        titleAnimTimer == old(titleAnimTimer) + 0.02 &&
        (old(Confirmed(input)) && |levelData| > 0 ==>
           state == LevelIntro && screenTimer == 0 && currentLevelIndex == 0 && level == Some(MakeLevel(levelData[0]))) &&
        (!old(Confirmed(input)) || |levelData| == 0 ==> state == TitleScreen)
      ensures old(state) == LevelIntro || old(state) == BossIntro ==>
        screenTimer == old(screenTimer) + 1 &&
        state == (if old(screenTimer) + 1 > INTRO_DELAY && old(Confirmed(input)) then Playing else old(state))
      ensures old(state) == LevelComplete || old(state) == GameOver || old(state) == Victory ==>
        var go := old(screenTimer) + 1 > OVERLAY_DELAY && old(Confirmed(input));
        (!go ==> state == old(state) && screenTimer == old(screenTimer) + 1) &&
        (go && old(state) == LevelComplete && old(currentLevelIndex) + 1 >= |levelData| ==> state == Victory) &&
        (go && old(state) == LevelComplete && 0 <= old(currentLevelIndex) + 1 < |levelData| ==>
           state == LevelIntro && currentLevelIndex == old(currentLevelIndex) + 1) &&
        (go && old(state) != LevelComplete ==>
           player.lives == START_LIVES && player.score == 0 &&
           (|levelData| > 0 ==> state == LevelIntro && currentLevelIndex == 0))
      ensures old(state) == Playing && old(deathGrave.Some?) ==>
        var g := old(deathGrave.value);
        player.lives == old(player.lives) &&
        (g.timer - 1 > 0 ==> deathGrave == Some(g.(timer := g.timer - 1)) && state == Playing) &&
        (g.timer - 1 <= 0 ==> deathGrave.None? && state == (if player.lives <= 0 then GameOver else Playing))
      ensures old(state) == Playing ==> state != TitleScreen
      ensures old(state) == Loading || old(state) == Menu || old(state) == Paused ==>
        state == old(state) && screenTimer == old(screenTimer)
    {
      ScreenStep(dt, rolls, sqrt);
      input.Update();
    }

    /** The part of a frame the current screen decides; the other screens do nothing. */
    method ScreenStep(dt: real, rolls: FrameRolls, sqrt: real -> real)
      requires Valid()
      modifies this`titleAnimTimer, this`currentLevelIndex, this`level, this`enemies, this`projectiles,
               this`particles, this`collectibles, this`floatingTexts, this`boss, this`bossIntroShown,
               this`deathGrave, this`state, this`screenTimer, this`nextId, this`scheduledRemovals,
               enemies, projectiles, particles, collectibles, boss, player, player.powerUps,
               player.powerUps.activePowerUps, camera
      ensures Valid()
      ensures old(state) == TitleScreen ==>
        titleAnimTimer == old(titleAnimTimer) + 0.02 &&
        (old(Confirmed(input)) && |levelData| > 0 ==>
           state == LevelIntro && screenTimer == 0 && currentLevelIndex == 0 && level == Some(MakeLevel(levelData[0]))) &&
        (!old(Confirmed(input)) || |levelData| == 0 ==> state == TitleScreen)
      ensures old(state) == LevelIntro || old(state) == BossIntro ==>
        screenTimer == old(screenTimer) + 1 &&
        state == (if old(screenTimer) + 1 > INTRO_DELAY && old(Confirmed(input)) then Playing else old(state))
      ensures old(state) == LevelComplete || old(state) == GameOver || old(state) == Victory ==>
        var go := old(screenTimer) + 1 > OVERLAY_DELAY && old(Confirmed(input));
        (!go ==> state == old(state) && screenTimer == old(screenTimer) + 1) &&
        (go && old(state) == LevelComplete && old(currentLevelIndex) + 1 >= |levelData| ==> state == Victory) &&
        (go && old(state) == LevelComplete && 0 <= old(currentLevelIndex) + 1 < |levelData| ==>
           state == LevelIntro && currentLevelIndex == old(currentLevelIndex) + 1) &&
        (go && old(state) != LevelComplete ==>
           player.lives == START_LIVES && player.score == 0 &&
           (|levelData| > 0 ==> state == LevelIntro && currentLevelIndex == 0))
      ensures old(state) == Playing && old(deathGrave.Some?) ==>
        var g := old(deathGrave.value);
        player.lives == old(player.lives) &&
        (g.timer - 1 > 0 ==> deathGrave == Some(g.(timer := g.timer - 1)) && state == Playing) &&
        (g.timer - 1 <= 0 ==> deathGrave.None? && state == (if player.lives <= 0 then GameOver else Playing))
      ensures old(state) == Playing ==> state != TitleScreen
      ensures old(state) == Loading || old(state) == Menu || old(state) == Paused ==>
        state == old(state) && screenTimer == old(screenTimer)
    {
      if state == TitleScreen {
        TitleStep();
      } else if state == LevelIntro || state == BossIntro {
        IntroStep();
      } else if state == LevelComplete || state == GameOver || state == Victory {
        OverlayStep();
      } else if state == Playing {
        PlayingStep(dt, rolls, sqrt);
      }
    }

    /**
     * One PLAYING frame. With the grave up only the grave advances;
     * otherwise the player's part, the movers, the player's attacks, the
     * harm done to the player and the pickups run in the source's order,
     * and the camera follows.
     */
    method PlayingStep(dt: real, rolls: FrameRolls, sqrt: real -> real)
      requires Valid() && state == Playing
      modifies this`level, this`enemies, this`projectiles, this`particles, this`floatingTexts,
               this`bossIntroShown, this`deathGrave, this`state, this`screenTimer, this`nextId,
               this`scheduledRemovals, enemies, projectiles, particles, collectibles, boss, player,
               player.powerUps, player.powerUps.activePowerUps, camera`x, camera`y
      ensures Valid() && state != TitleScreen
      ensures old(deathGrave.Some?) ==>
        var g := old(deathGrave.value);
        player.lives == old(player.lives) &&
        (g.timer - 1 > 0 ==> deathGrave == Some(g.(timer := g.timer - 1)) && state == Playing) &&
        (g.timer - 1 <= 0 ==> deathGrave.None? && state == (if player.lives <= 0 then GameOver else Playing))
    {
      if deathGrave.Some? {
        GraveStep();
      } else {
        LiveStep(dt, rolls, sqrt);
      }
    }

    /** A PLAYING frame without the grave: every stage, then the camera. */
    method LiveStep(dt: real, rolls: FrameRolls, sqrt: real -> real)
      requires Valid() && state == Playing && deathGrave.None?
      modifies this`level, this`enemies, this`projectiles, this`particles, this`floatingTexts,
               this`bossIntroShown, this`deathGrave, this`state, this`screenTimer, this`nextId,
               this`scheduledRemovals, enemies, projectiles, particles, collectibles, boss, player,
               player.powerUps, player.powerUps.activePowerUps, camera`x, camera`y
      ensures Valid() && state != TitleScreen
    {
      ghost var p0 := particles;
      ActionStages(dt, rolls, sqrt);
      forall k | 0 <= k < |particles|
        ensures particles[k] in p0 || fresh(particles[k])
      {
        if k < |p0| {
          assert particles[k] == p0[k];
        }
      }
      PickupStage(dt);
      camera.Update();
    }

    /**
     * The stages of a PLAYING frame before the pickups: the player's part,
     * the movers, the player's attacks and the harm done to the player.
     */
    method ActionStages(dt: real, rolls: FrameRolls, sqrt: real -> real)
      requires Valid() && state == Playing && deathGrave.None?
      modifies this`level, this`enemies, this`projectiles, this`particles, this`bossIntroShown,
               this`deathGrave, this`state, this`screenTimer, this`nextId, enemies, projectiles, boss, player
      ensures Valid() && state != TitleScreen
      ensures |old(particles)| <= |particles| && particles[..|old(particles)|] == old(particles)
      ensures forall k :: |old(particles)| <= k < |particles| ==> fresh(particles[k])
    {
      ghost var p0 := particles;
      BodyStages(dt, rolls, sqrt);
      ghost var p1 := particles;
      FightStages(rolls);
      forall k | |p0| <= k < |particles|
        ensures fresh(particles[k])
      {
        if k < |p1| {
          assert particles[k] == p1[k];
        }
      }
      assert particles[..|p0|] == p1[..|p0|];
    }

    /** The player's part of a PLAYING frame, then the movers. */
    method BodyStages(dt: real, rolls: FrameRolls, sqrt: real -> real)
      requires Valid() && state == Playing && deathGrave.None?
      modifies this`level, this`enemies, this`projectiles, this`particles, this`bossIntroShown,
               this`deathGrave, this`state, this`screenTimer, this`nextId, enemies, projectiles, boss, player
      ensures Valid() && state != TitleScreen
      ensures |old(particles)| <= |particles| && particles[..|old(particles)|] == old(particles)
      ensures forall k :: |old(particles)| <= k < |particles| ==> fresh(particles[k])
      ensures forall k :: 0 <= k < |enemies| ==> enemies[k] in old(enemies) || fresh(enemies[k])
      ensures forall k :: 0 <= k < |projectiles| ==> projectiles[k] in old(projectiles) || fresh(projectiles[k])
    {
      ghost var p0 := particles;
      PlayerStage(dt, rolls.burst);
      ghost var p1 := particles;
      MoveStage(rolls, sqrt);
      forall k | |p0| <= k < |particles|
        ensures fresh(particles[k])
      {
        if k < |p1| {
          assert particles[k] == p1[k];
        }
      }
      assert particles[..|p0|] == p1[..|p0|];
    }

    /** The player's attacks of a PLAYING frame, then the harm done to the player. */
    method FightStages(rolls: FrameRolls)
      requires Valid() && state != TitleScreen
      modifies enemies, boss, projectiles, this`projectiles, this`particles, this`state, this`screenTimer,
               player`hitEnemies, player`score, player`health, player`hurtTimer, player`invincibilityTimer,
               player`state, player`attackTimer, player`vx, player`vy, player`lives, player`stunTimer
      ensures Valid() && (state == old(state) || state == Victory)
      ensures |old(particles)| <= |particles| && particles[..|old(particles)|] == old(particles)
      ensures forall k :: |old(particles)| <= k < |particles| ==> fresh(particles[k])
    {
      AttackStage(rolls);
      HarmStage();
    }

    /**
     * The player's part of a PLAYING frame with no grave up: input and the
     * player's own update, the tile resolver and the clamp, checkpoints,
     * the exit portal, the two death checks and the animation state.
     */
    method PlayerStage(dt: real, rolls: seq<BurstRoll>)
      requires Valid() && state == Playing && deathGrave.None?
      modifies player`vx, player`facing, player`jumpBufferTimer, player`jumpHeld, player`vy,
               player`grounded, player`coyoteTimer, player`attackType, player`attackTimer,
               player`attackCooldown, player`attackDamage, player`hitEnemies, player`state,
               player`invincibilityTimer, player`hurtTimer, player`stunTimer, player`x, player`y,
               this`level, this`state, this`screenTimer, this`particles, this`deathGrave
      ensures Valid()
      ensures |old(particles)| <= |particles| && particles[..|old(particles)|] == old(particles)
      ensures forall k :: |old(particles)| <= k < |particles| ==> fresh(particles[k])
      ensures state != TitleScreen
    {
      StepPlayer(dt);
      CollidePlayer();
      TouchCheckpointsStep();
      CheckExit();
      DeathChecks(rolls);
      SettlePlayer();
    }

    /**
     * The movers of a PLAYING frame: the enemies, the boss, then every
     * projectile, the ones just fired included.
     */
    method MoveStage(rolls: FrameRolls, sqrt: real -> real)
      requires Valid() && state != TitleScreen
      modifies this`enemies, enemies, this`projectiles, projectiles, this`particles, this`nextId, player`score,
               boss, this`bossIntroShown, this`state, this`screenTimer,
               player`health, player`hurtTimer, player`invincibilityTimer, player`state, player`attackTimer,
               player`vx, player`vy, player`lives
      ensures Valid()
      ensures |old(particles)| <= |particles| && particles[..|old(particles)|] == old(particles)
      ensures forall k :: |old(particles)| <= k < |particles| ==> fresh(particles[k])
      ensures forall k :: 0 <= k < |enemies| ==> enemies[k] in old(enemies) || fresh(enemies[k])
      ensures forall k :: 0 <= k < |projectiles| ==> projectiles[k] in old(projectiles) || fresh(projectiles[k])
      ensures state != TitleScreen
    {
      EnemiesStep(sqrt, rolls.burst);
      BossStep(rolls, sqrt);
      ProjectilesStep();
    }

    /** `_updateEnemies` between frames. */
    method EnemiesStep(sqrt: real -> real, rolls: seq<BurstRoll>)
      requires Valid() && state != TitleScreen
      modifies this`enemies, enemies, this`projectiles, this`particles, this`nextId, player`score
      ensures Valid() && |old(projectiles)| <= |projectiles| && projectiles[..|old(projectiles)|] == old(projectiles)
      ensures forall k :: |old(projectiles)| <= k < |projectiles| ==> fresh(projectiles[k])
      ensures |old(particles)| <= |particles| && particles[..|old(particles)|] == old(particles)
      ensures forall k :: |old(particles)| <= k < |particles| ==> fresh(particles[k])
      ensures forall k :: 0 <= k < |enemies| ==> enemies[k] in old(enemies) || fresh(enemies[k])
    {
      ghost var before := enemies;
      var gone := UpdateEnemies(sqrt, rolls);
      forall k | 0 <= k < |enemies|
        ensures enemies[k] in before || fresh(enemies[k])
      {
        if k < |Keep(before, gone)| {
          assert enemies[k] == Keep(before, gone)[k];
          KeepFrom(before, gone, enemies[k]);
        }
      }
    }

    /** `_updateBoss` between frames. */
    method BossStep(rolls: FrameRolls, sqrt: real -> real)
      requires Valid() && state != TitleScreen
      modifies boss, this`bossIntroShown, this`state, this`screenTimer, this`projectiles, this`particles,
               player`health, player`hurtTimer, player`invincibilityTimer, player`state, player`attackTimer,
               player`vx, player`vy, player`lives
      ensures Valid() && |old(projectiles)| <= |projectiles| && projectiles[..|old(projectiles)|] == old(projectiles)
      ensures forall k :: |old(projectiles)| <= k < |projectiles| ==> fresh(projectiles[k])
      ensures |old(particles)| <= |particles| && particles[..|old(particles)|] == old(particles)
      ensures forall k :: |old(particles)| <= k < |particles| ==> fresh(particles[k])
      ensures state != TitleScreen
    {
      var wave := UpdateBoss(rolls, sqrt);
    }

    /** `_updateProjectiles` between frames. */
    method ProjectilesStep()
      requires Valid()
      modifies this`projectiles, projectiles
      ensures Valid()
      ensures forall k :: 0 <= k < |projectiles| ==> projectiles[k] in old(projectiles)
    {
      ghost var before := projectiles;
      UpdateProjectiles();
      forall k | 0 <= k < |projectiles|
        ensures projectiles[k] in before
      {
        LiveProjectilesFrom(before, projectiles[k]);
      }
    }

    /**
     * The player's attacks of a PLAYING frame, in the source's order: the
     * swing at the enemies, the swing at the boss, then the boss's death.
     */
    method AttackStage(rolls: FrameRolls)
      requires Valid() && state != TitleScreen
      modifies enemies, boss, player`hitEnemies, this`particles, player`score, this`state, this`screenTimer
      ensures Valid() && (state == old(state) || state == Victory)
      ensures |old(particles)| <= |particles| && particles[..|old(particles)|] == old(particles)
      ensures forall k :: |old(particles)| <= k < |particles| ==> fresh(particles[k])
    {
      SwingEnemiesStep(rolls);
      SwingBossStep(rolls);
      BossDeathStep(rolls);
    }

    /**
     * The harm done to the player in a PLAYING frame: contact with an
     * enemy and with the boss, then the enemy shots that hit, which leave
     * the list.
     */
    method HarmStage()
      requires Valid()
      modifies this`projectiles, projectiles,
               player`health, player`hurtTimer, player`invincibilityTimer, player`state, player`attackTimer,
               player`vx, player`vy, player`lives, player`stunTimer
      ensures Valid()
    {
      ContactStep();
      var hits := CheckProjectileHits();
    }

    /** `_checkPlayerAttack` between frames. */
    method SwingEnemiesStep(rolls: FrameRolls)
      requires Valid()
      modifies enemies, player`hitEnemies, this`particles
      ensures Valid()
      ensures |old(particles)| <= |particles| && particles[..|old(particles)|] == old(particles)
      ensures forall k :: |old(particles)| <= k < |particles| ==> fresh(particles[k])
    {
      var landed := CheckPlayerAttack(rolls.burst);
    }

    /** `_checkPlayerAttackBoss` between frames. */
    method SwingBossStep(rolls: FrameRolls)
      requires Valid()
      modifies boss, player`hitEnemies, this`particles
      ensures Valid()
      ensures |old(particles)| <= |particles| && particles[..|old(particles)|] == old(particles)
      ensures forall k :: |old(particles)| <= k < |particles| ==> fresh(particles[k])
    {
      var land := CheckPlayerAttackBoss(rolls);
    }

    /** `_checkBossDeath` between frames. */
    method BossDeathStep(rolls: FrameRolls)
      requires Valid() && state != TitleScreen
      modifies this`particles, player`score, this`state, this`screenTimer
      ensures Valid() && (state == old(state) || state == Victory)
      ensures |old(particles)| <= |particles| && particles[..|old(particles)|] == old(particles)
      ensures forall k :: |old(particles)| <= k < |particles| ==> fresh(particles[k])
    {
      CheckBossDeath(rolls);
    }

    /** `_checkEnemyContact`, then `_checkBossContact` when there is a boss. */
    method ContactStep()
      requires Valid()
      modifies player`health, player`hurtTimer, player`invincibilityTimer, player`state, player`attackTimer,
               player`vx, player`vy, player`lives
      ensures Valid()
    {
      var who := EnemyContact(enemies, player);
      if boss != null {
        var touch := BossContact(boss, player);
      }
    }

    /**
     * The invariants survive a step that changes at most the projectile
     * list (keeping it free of repeats) and objects outside the game's
     * enemies, boss and power-up manager.
     */
    twostate lemma ValidStays()
      requires old(Valid()) && Distinct(projectiles)
      requires unchanged(this`state, this`level, this`enemies, this`nextId, this`boss, this`particles,
                         this`collectibles)
      requires unchanged(enemies) && unchanged(player.powerUps) && (boss != null ==> unchanged(boss))
      ensures Valid()
    {
    }

    /**
     * `_checkProjectileHits`: the walk of `ProjectileHits`; the shots that
     * hit leave the list, the rest keep their order.
     */
    method CheckProjectileHits() returns (ghost hits: seq<bool>)
      requires Valid()
      modifies this`projectiles, projectiles`dead, player`health, player`hurtTimer, player`invincibilityTimer,
               player`state, player`attackTimer, player`vx, player`vy, player`lives, player`stunTimer
      ensures Valid() && |hits| == |old(projectiles)| && projectiles == Keep(old(projectiles), hits)
      ensures forall k :: 0 <= k < |hits| ==> hits[k] == old(Strikes(projectiles[k], player.GetBounds()))
      ensures VitalsOf(player) == TakeAll(old(VitalsOf(player)), old(projectiles), hits)
    {
      hits := StrikePlayer();
      ValidStays();
    }

    /** The walk itself, on a list of shots free of repeats. */
    method StrikePlayer() returns (ghost hits: seq<bool>)
      requires Distinct(projectiles)
      modifies this`projectiles, projectiles`dead, player`health, player`hurtTimer, player`invincibilityTimer,
               player`state, player`attackTimer, player`vx, player`vy, player`lives, player`stunTimer
      ensures Distinct(projectiles) && |hits| == |old(projectiles)| && projectiles == Keep(old(projectiles), hits)
      ensures forall k :: 0 <= k < |hits| ==> hits[k] == old(Strikes(projectiles[k], player.GetBounds()))
      ensures VitalsOf(player) == TakeAll(old(VitalsOf(player)), old(projectiles), hits)
    {
      var kept;
      kept, hits := ProjectileHits(projectiles, player);
      ghost var v := VitalsOf(player);
      assert v == TakeAll(old(VitalsOf(player)), old(projectiles), hits);
      KeepDistinct(projectiles, hits);
      projectiles := kept;
      assert VitalsOf(player) == v;
    }

    /**
     * The rest of a PLAYING frame: particles, the pickups' clocks, the
     * pickups the player reaches, the popups, and the power-up timers.
     */
    method PickupStage(dt: real)
      requires Valid()
      modifies this`particles, particles, collectibles, player`score, player`health, player.powerUps,
               player.powerUps.activePowerUps, this`floatingTexts, this`scheduledRemovals
      ensures Valid()
    {
      ParticlesStep();
      UpdateCollectibles(dt);
      CollectStep();
      UpdateFloatingTexts();
      PowerUpsStep(dt);
    }

    /** `_updateParticles` between frames. */
    method ParticlesStep()
      requires Valid()
      modifies this`particles, particles
      ensures Valid() && particles == LiveParticles(old(particles))
    {
      UpdateParticles();
    }

    /** `_checkCollectibleCollection` between frames. */
    method CollectStep()
      requires Valid()
      modifies collectibles, player`score, player`health, player.powerUps, this`floatingTexts,
               this`scheduledRemovals
      ensures forall i :: 0 <= i < |player.powerUps.activePowerUps| ==>
              player.powerUps.activePowerUps[i] in old(player.powerUps.activePowerUps) || fresh(player.powerUps.activePowerUps[i])
      ensures Valid()
    {
      var took, scales := CheckCollectibleCollection();
    }

    /** The power-up timers run down, between frames. */
    method PowerUpsStep(dt: real)
      requires Valid()
      modifies player.powerUps, player.powerUps.activePowerUps
      ensures Valid()
    {
      player.powerUps.Update(dt);
    }

    /** `postCollisionUpdate`: coyote time and the animation state, once the player has moved. */
    method SettlePlayer()
      requires Valid()
      modifies player`coyoteTimer, player`state
      ensures Valid()
    {
      player.PostCollisionUpdate();
    }
  }

  /** Every table entry pairs its type with a value of the matching shape. */
  lemma ItemShape(name: string)
    requires ItemConfigOf(name).Some?
    ensures ShapeOk(ItemConfigOf(name).value.kind, ItemConfigOf(name).value.value)
  {
  }

  /** Splicing enemies out of a list splices their ids out of its id list. */
  lemma {:induction false} KeepIds(s: seq<Enemy>, gone: seq<bool>)
    requires |gone| == |s|
    ensures Ids(Keep(s, gone)) == Keep(Ids(s), gone)
  {
    if s != [] {
      KeepIds(s[1..], gone[1..]);
      assert Ids(s)[1..] == Ids(s[1..]);
      assert Ids((if gone[0] then [] else [s[0]]) + Keep(s[1..], gone[1..])) ==
             (if gone[0] then [] else [s[0].id]) + Ids(Keep(s[1..], gone[1..]));
    }
  }

  // ---- the enemies' walk of a PLAYING frame ----

  /** One awake enemy for a minion request of known type, numbered `id`. */
  method SpawnMinion(req: MinionSpawn, id: nat) returns (e: Enemy)
    requires KindOf(req.kind).Some?
    ensures fresh(e) && MinionFrom(e, req, id)
  {
    e := new Enemy(KindOf(req.kind).value, req.x, req.y, id);
    e.Activate();
  }

  /** The drained minion requests of known type become awake enemies numbered from `n`, in order. */
  method SpawnMinions(ms: seq<MinionSpawn>, n: nat) returns (added: seq<Enemy>)
    ensures |added| == |KnownMinions(ms)|
    ensures forall i :: 0 <= i < |added| ==> fresh(added[i])
    ensures forall i :: 0 <= i < |added| ==> MinionFrom(added[i], KnownMinions(ms)[i], n + i)
  {
    added := [];
    ghost var known: seq<MinionSpawn> := [];
    var i := 0;
    while i < |ms|
      invariant 0 <= i <= |ms| && known == KnownMinions(ms[..i]) && |added| == |known|
      invariant forall k :: 0 <= k < |added| ==> fresh(added[k]) && MinionFrom(added[k], known[k], n + k)
    {
      var req := ms[i];
      assert KnownMinions(ms[..i + 1]) == known + (if KnownMinion(req) then [req] else []) by {
        assert ms[..i + 1][..i] == ms[..i];
      }
      if KindOf(req.kind).Some? {
        var minion := SpawnMinion(req, n + |added|);
        added, known := added + [minion], known + [req];
      }
      i := i + 1;
    }
    assert ms[..|ms|] == ms;
  }

  /**
   * The enemies' part of a PLAYING frame on the list `s`, whose ids lie
   * below `n`: the walk, then the splice that drops the dead and appends
   * the minions called up, numbered from `n` on (`next` is the id after
   * them). The shots and the blasts of the dead are handed back.
   */
  method EnemyPass(s: seq<Enemy>, n: nat, m: TileMap, cam: Camera, pcx: real, pcy: real,
                   sqrt: real -> real)
    returns (r: seq<Enemy>, next: nat, gained: int, shots: seq<Projectile>, blasts: seq<Blast>,
             ghost gone: seq<bool>)
    requires WellFormed(m) && n >= 1 && Distinct(Ids(s)) && forall k :: 0 <= k < |s| ==> Ready(s[k], n)
    modifies s
    ensures next >= n && (forall k :: 0 <= k < |r| ==> Ready(r[k], next)) && Distinct(Ids(r))
    ensures |gone| == |s| && forall k :: 0 <= k < |s| ==> s[k].dead == gone[k]
    ensures var live := Keep(s, gone);
      |live| <= |r| && r[..|live|] == live &&
      forall k :: |live| <= k < |r| ==> fresh(r[k]) && r[k].activated && !r[k].dead
    ensures gained == GoneScore(s, gone)
    ensures Distinct(shots) && forall p :: p in shots ==> fresh(p)
  {
    IdsDistinct(s);
    var kept, calls;
    kept, gained, shots, calls, blasts, gone := WalkEnemies(s, n, m, cam, pcx, pcy, sqrt);
    var minions := SpawnMinions(calls, n);
    r, next := kept + minions, n + |minions|;
    SpliceReady(s, gone, minions, n);
  }

  /**
   * An awake enemy's update against the level grid `m` and the player's
   * centre, after which the game takes over its shot and its minion
   * request (`calls`).
   */
  method RunEnemy(e: Enemy, m: TileMap, pcx: real, pcy: real, sqrt: real -> real)
    returns (shot: Projectile?, calls: seq<MinionSpawn>)
    requires e.Valid() && e.pendingProjectile == null && e.pendingMinions.None? && WellFormed(m)
    modifies e
    ensures e.Valid() && e.pendingProjectile == null && e.pendingMinions.None?
    ensures e.dead == old(e.dead) && e.activated == old(e.activated)
    ensures shot != null ==> fresh(shot)
    ensures var t := Think(e.kind, m, old(e.BodyOf()), old(e.MindOf()), old(e.fireTimer), e.hp, pcx, pcy);
      old(e.activated) && old(e.state) != EnemyState.Dead &&
      (old(e.state) != EnemyState.Hurt || old(e.hurtTimer) == 1) ==>
        (t.fire ==> ChipsShot(shot, Center(old(e.x), e.width), Center(old(e.y), e.height), pcx, pcy, sqrt)) &&
        (!t.fire ==> shot == null) &&
        calls == (if t.mind.pendingMinions.Some? then t.mind.pendingMinions.value else [])
  {
    e.Update(m, pcx, pcy, sqrt);
    shot := e.pendingProjectile;
    e.pendingProjectile := null;
    calls := [];
    if e.pendingMinions.Some? {
      calls := e.pendingMinions.value;
      e.pendingMinions := None;
    }
  }

  /**
   * One enemy's turn in `_updateEnemies`: it wakes once it overlaps the
   * view of `cam` grown by 100 px and runs while awake; a dead enemy
   * bursts into ten particles of its colour. The shot, the minion request
   * and the burst are handed back for the game's lists.
   */
  method StepEnemy(e: Enemy, m: TileMap, cam: Camera, pcx: real, pcy: real, sqrt: real -> real)
    returns (shot: Projectile?, calls: seq<MinionSpawn>)
    requires e.Valid() && e.pendingProjectile == null && e.pendingMinions.None? && WellFormed(m)
    modifies e
    ensures e.Valid() && e.pendingProjectile == null && e.pendingMinions.None? && e.dead == old(e.dead)
    ensures e.activated <==> old(e.activated) || old(cam.IsVisible(e.GetBounds(), ACTIVATION_MARGIN))
    ensures !e.activated ==> shot == null && calls == []
    ensures shot != null ==> fresh(shot)
  {
    if !e.activated && cam.IsVisible(e.GetBounds(), ACTIVATION_MARGIN) {
      e.Activate();
    }
    shot, calls := null, [];
    if e.activated {
      shot, calls := RunEnemy(e, m, pcx, pcy, sqrt);
    }
  }

  /**
   * The walk of `_updateEnemies`, from the end of the list to its front:
   * every enemy takes its turn. The walk reports which enemies are dead
   * (`gone`), what the splice keeps, the score the dead are worth, and
   * the shots, minion requests and bursts in the order they were made.
   */
  method WalkEnemies(s: seq<Enemy>, n: nat, m: TileMap, cam: Camera, pcx: real, pcy: real,
                     sqrt: real -> real)
    returns (kept: seq<Enemy>, gained: int, shots: seq<Projectile>, calls: seq<MinionSpawn>,
             blasts: seq<Blast>, ghost gone: seq<bool>)
    requires WellFormed(m) && Distinct(s) && forall k :: 0 <= k < |s| ==> Ready(s[k], n)
    modifies s
    decreases |s|
    ensures |gone| == |s| && kept == Keep(s, gone) && gained == GoneScore(s, gone)
    ensures forall k :: 0 <= k < |s| ==> Walked(s[k], n, gone[k])
    ensures Distinct(shots) && forall p :: p in shots ==> fresh(p)
  {
    if s == [] {
      return [], 0, [], [], [], [];
    }
    var e := s[0];
    assert e !in s[1..];
    var rest, more: seq<MinionSpawn>;
    kept, gained, shots, rest, blasts, gone := WalkEnemies(s[1..], n, m, cam, pcx, pcy, sqrt);
    var shot;
    shot, more := StepEnemy(e, m, cam, pcx, pcy, sqrt);
    var dead := e.dead;
    gone := [dead] + gone;
    if dead {
      gained := gained + e.scoreValue;
      blasts := blasts + [Blast(e.CenterX(), e.CenterY(), ColorOf(e.kind))];
    } else {
      kept := [e] + kept;
    }
    if shot != null {
      shots := shots + [shot];
    }
    calls := rest + more;
  }

  /**
   * Splicing enemies out of a list whose ids lie below `n0` and appending
   * minions numbered from `n0` on leaves a list whose ids are distinct and
   * lie below the new next id.
   */
  lemma SpliceReady(s: seq<Enemy>, gone: seq<bool>, minions: seq<Enemy>, n0: nat)
    requires |gone| == |s| && n0 >= 1 && Distinct(Ids(s))
    requires forall k :: 0 <= k < |s| ==> Ready(s[k], n0)
    requires forall k :: 0 <= k < |minions| ==> Minion(minions[k], n0 + k)
    ensures var r := Keep(s, gone) + minions;
      (forall k :: 0 <= k < |r| ==> Ready(r[k], n0 + |minions|)) &&
      Distinct(Ids(r))
  {
    var kept := Keep(s, gone);
    var r := kept + minions;
    forall k | 0 <= k < |kept|
      ensures Ready(kept[k], n0)
    {
      KeepFrom(s, gone, kept[k]);
    }
    KeepIds(s, gone);
    KeepDistinct(Ids(s), gone);
    forall i, j | 0 <= i < j < |r|
      ensures Ids(r)[i] != Ids(r)[j]
    {
      if j < |kept| {
        assert Ids(kept)[i] != Ids(kept)[j];
      }
    }
  }

  /** The enemies still alive, in list order. */
  function LiveEnemies(s: seq<Enemy>): seq<Enemy>
    reads s
  {
    if s == [] then [] else (if s[0].dead then [] else [s[0]]) + LiveEnemies(s[1..])
  }

  /** The score the dead enemies of a list are worth. */
  function DeadScore(s: seq<Enemy>): int
    reads s
  {
    if s == [] then 0 else (if s[0].dead then s[0].scoreValue else 0) + DeadScore(s[1..])
  }

  /** The score the flagged enemies of a list are worth. */
  function GoneScore(s: seq<Enemy>, gone: seq<bool>): int
    requires |gone| == |s|
  {
    if s == [] then 0 else (if gone[0] then s[0].scoreValue else 0) + GoneScore(s[1..], gone[1..])
  }

  /** With the flags read off the dead flags, the splice keeps the live enemies and scores the dead. */
  lemma {:induction false} KeepLiveEnemies(s: seq<Enemy>, gone: seq<bool>)
    requires |gone| == |s| && forall k :: 0 <= k < |s| ==> gone[k] == s[k].dead
    ensures Keep(s, gone) == LiveEnemies(s) && GoneScore(s, gone) == DeadScore(s)
  {
    if s != [] {
      KeepLiveEnemies(s[1..], gone[1..]);
    }
  }

  /** No live-enemy list holds a dead enemy. */
  lemma {:induction false} LiveEnemiesAlive(s: seq<Enemy>, i: int)
    requires 0 <= i < |LiveEnemies(s)|
    ensures !LiveEnemies(s)[i].dead && LiveEnemies(s)[i] in s
  {
    if s[0].dead {
      LiveEnemiesAlive(s[1..], i);
    } else if i > 0 {
      LiveEnemiesAlive(s[1..], i - 1);
    }
  }

  // ---- pickups ----

  /** What taking an item gives, read off the item, with the centre its popup rises from. */
  datatype Pickup = Pickup(kind: string, value: ItemValue, score: int, duration: int,
                           displayName: string, cx: real, cy: real)

  function PickupOf(c: Collectible): Pickup
    reads c
  {
    Pickup(c.kind, c.value, c.score, c.duration, c.displayName, Center(c.x, c.width), Center(c.y, c.height))
  }

  /** The pickups of a list of items, one per item, in list order. */
  function Pickups(s: seq<Collectible>): (r: seq<Pickup>)
    reads s
    ensures |r| == |s| && forall k :: 0 <= k < |s| ==> r[k] == PickupOf(s[k])
  {
    seq(|s|, k requires 0 <= k < |s| reads s => PickupOf(s[k]))
  }

  /** The player's score and health: what a pickup changes besides the power-ups. */
  datatype Purse = Purse(score: int, health: int)

  /**
   * `_applyCollectibleEffect` on score and health: an item of a known type
   * scores its points, and a health pack also heals by its amount, no
   * further than `cap`; an item of any other type changes nothing.
   */
  function Gain(w: Purse, p: Pickup, cap: int): (r: Purse)
    ensures !Scores(p.kind) ==> r == w
    ensures Scores(p.kind) ==> r.score == w.score + p.score
    ensures p.kind != HEALTH ==> r.health == w.health
    ensures w.health <= cap ==> r.health <= cap
  {
    if p.kind == HEALTH && p.value.Amount? then
      Purse(w.score + p.score, IntMin(cap, w.health + p.value.n))
    else if p.kind == COIN || p.kind == HEALTH || p.kind == POWERUP then
      w.(score := w.score + p.score)
    else w
  }

  /** The flagged pickups, taken from the end of the list to its front. */
  function GainAll(w: Purse, ps: seq<Pickup>, took: seq<bool>, cap: int): Purse
    requires |took| == |ps|
  {
    if ps == [] then w
    else
      var v := GainAll(w, ps[1..], took[1..], cap);
      if took[0] then Gain(v, ps[0], cap) else v
  }

  /** A type that scores when taken. */
  predicate Scores(kind: string)
  {
    kind == COIN || kind == HEALTH || kind == POWERUP
  }

  /** The points the flagged pickups of a scoring type are worth. */
  function Bounty(ps: seq<Pickup>, took: seq<bool>): int
    requires |took| == |ps|
  {
    if ps == [] then 0 else (if took[0] && Scores(ps[0].kind) then ps[0].score else 0) + Bounty(ps[1..], took[1..])
  }

  /** The score a walk adds is the points of what it took, whatever the order. */
  lemma {:induction false} GainAllScore(w: Purse, ps: seq<Pickup>, took: seq<bool>, cap: int)
    requires |took| == |ps|
    ensures GainAll(w, ps, took, cap).score == w.score + Bounty(ps, took)
  {
    if ps != [] {
      GainAllScore(w, ps[1..], took[1..], cap);
    }
  }

  /**
   * Healing never lowers health and never lifts it past the cap, when it
   * starts at most the cap and every health pack has a non-negative amount.
   */
  lemma {:induction false} GainAllCapped(w: Purse, ps: seq<Pickup>, took: seq<bool>, cap: int)
    requires |took| == |ps| && w.health <= cap
    requires forall k :: 0 <= k < |ps| ==> ShapeOk(ps[k].kind, ps[k].value)
    ensures w.health <= GainAll(w, ps, took, cap).health <= cap
  {
    if ps != [] {
      GainAllCapped(w, ps[1..], took[1..], cap);
    }
  }

  /**
   * The popup a supplement raises: its own display name, else the table's
   * name of its power-up, in the table's colour (white when there is
   * none), at the item's centre for 60 frames; no popup without a name.
   */
  function PopupOf(p: Pickup, m: PowerUpManager): (r: Option<FloatingText>)
    ensures r.Some? ==> (p.kind == POWERUP && r.value.text != "" && r.value.color != "" &&
                         r.value.timer == FLOAT_TEXT_FRAMES && r.value.maxTimer == FLOAT_TEXT_FRAMES &&
                         r.value.x == p.cx && r.value.y == p.cy)
    ensures p.kind == POWERUP && p.displayName != "" ==> r.Some? && r.value.text == p.displayName
    ensures p.kind == POWERUP && p.displayName == "" && p.value.PowerType? ==>
      (r.Some? <==> InfoOf(p.value.name).Some?)
  {
    if p.kind != POWERUP then None
    else
      var t := if p.value.PowerType? then p.value.name else "";
      var name := if p.displayName != "" then p.displayName else m.GetDisplayName(t);
      if name == "" then None
      else
        var color := m.GetColor(t);
        Some(FloatingText(name, p.cx, p.cy, FLOAT_TEXT_FRAMES, FLOAT_TEXT_FRAMES,
                          if color != "" then color else DEFAULT_TEXT_COLOR))
  }

  /** The popups the flagged pickups raise, in the order the walk from the end takes them. */
  function PopupsAll(ps: seq<Pickup>, took: seq<bool>, m: PowerUpManager): (r: seq<FloatingText>)
    requires |took| == |ps|
    ensures |r| <= |ps|
  {
    if ps == [] then []
    else
      var head := PopupOf(ps[0], m);
      PopupsAll(ps[1..], took[1..], m) + (if took[0] && head.Some? then [head.value] else [])
  }

  /** Every popup a walk raises lives 60 frames and carries a name. */
  lemma {:induction false} PopupsAllFresh(ps: seq<Pickup>, took: seq<bool>, m: PowerUpManager)
    requires |took| == |ps|
    ensures forall i :: 0 <= i < |PopupsAll(ps, took, m)| ==>
      PopupsAll(ps, took, m)[i].timer == FLOAT_TEXT_FRAMES && PopupsAll(ps, took, m)[i].text != ""
  {
    if ps != [] {
      PopupsAllFresh(ps[1..], took[1..], m);
    }
  }

  /** The flagged entries, in the order a walk from the end meets them. */
  function Taken<T>(s: seq<T>, took: seq<bool>): (r: seq<T>)
    requires |took| == |s|
    ensures |r| <= |s|
    ensures forall k :: 0 <= k < |s| && took[k] ==> s[k] in r
  {
    if s == [] then []
    else
      var rest := Taken(s[1..], took[1..]);
      assert forall k :: 1 <= k < |s| ==> s[k] == s[1..][k - 1] && took[k] == took[1..][k - 1];
      rest + (if took[0] then [s[0]] else [])
  }

  /** Every entry taken is a flagged entry of the list. */
  lemma {:induction false} TakenFrom<T>(s: seq<T>, took: seq<bool>, x: T)
    requires |took| == |s| && x in Taken(s, took)
    ensures exists k :: 0 <= k < |s| && took[k] && s[k] == x
  {
    if s != [] {
      if took[0] && x == s[0] {
        assert took[0] && s[0] == x;
      } else {
        TakenFrom(s[1..], took[1..], x);
        var k :| 0 <= k < |s[1..]| && took[1..][k] && s[1..][k] == x;
        assert took[k + 1] && s[k + 1] == x;
      }
    }
  }

  /**
   * `_applyCollectibleEffect`: coins score; health packs heal up to the
   * maximum and score; supplements start their power-up afresh for the
   * item's duration (`added`), score, and raise the popup of `PopupOf`,
   * which is returned for the caller to push.
   */
  method ApplyCollectibleEffect(c: Collectible, pl: Player) returns (popup: Option<FloatingText>, added: PowerUp?)
    requires pl.powerUps.Valid() && ShapeOk(c.kind, c.value)
    modifies pl`score, pl`health, pl.powerUps
    ensures forall i :: 0 <= i < |pl.powerUps.activePowerUps| ==>
              pl.powerUps.activePowerUps[i] in old(pl.powerUps.activePowerUps) || fresh(pl.powerUps.activePowerUps[i])
    ensures pl.powerUps.Valid()
    ensures Purse(pl.score, pl.health) == Gain(Purse(old(pl.score), old(pl.health)), PickupOf(c), pl.maxHealth)
    ensures popup == PopupOf(PickupOf(c), pl.powerUps)
    ensures c.kind == POWERUP ==>
              (added != null && fresh(added) && added.kind == c.value.name &&
               added.timeRemaining == c.duration as real &&
               pl.powerUps.activePowerUps == WithoutKind(old(pl.powerUps.activePowerUps), c.value.name) + [added])
    ensures c.kind != POWERUP ==> added == null && unchanged(pl.powerUps)
  {
    popup, added := None, null;
    if c.kind == COIN {
      pl.score := pl.score + c.score;
    } else if c.kind == HEALTH {
      pl.health := IntMin(pl.maxHealth, pl.health + c.value.n);
      pl.score := pl.score + c.score;
    } else if c.kind == POWERUP {
      added := pl.powerUps.Add(c.value.name, c.duration as real);
      pl.score := pl.score + c.score;
      var name := if c.displayName != "" then c.displayName else pl.powerUps.GetDisplayName(c.value.name);
      if name != "" {
        var color := pl.powerUps.GetColor(c.value.name);
        popup := Some(FloatingText(name, Center(c.x, c.width), Center(c.y, c.height), FLOAT_TEXT_FRAMES,
                                   FLOAT_TEXT_FRAMES, if color != "" then color else DEFAULT_TEXT_COLOR));
      }
    }
  }

  /** One item's turn in `_checkCollectibleCollection`: taken when free and touched by the padded box. */
  method CollectOne(c: Collectible, pl: Player, pb: Rect) returns (took: bool, popup: Option<FloatingText>, ghost scale: real)
    requires pl.powerUps.Valid() && ShapeOk(c.kind, c.value) && pb == pl.GetBounds()
    modifies c`collected, pl`score, pl`health, pl.powerUps
    ensures forall i :: 0 <= i < |pl.powerUps.activePowerUps| ==>
              pl.powerUps.activePowerUps[i] in old(pl.powerUps.activePowerUps) || fresh(pl.powerUps.activePowerUps[i])
    ensures pl.powerUps.Valid()
    ensures took == (!old(c.collected) &&
      PaddedOverlap(pb, PICKUP_PADDING * old(ScaleOf(pl.powerUps)), c.GetBounds()))
    ensures scale == old(ScaleOf(pl.powerUps))
    ensures GatheredAt(c, pb, old(c.GetBounds()), old(PickupOf(c)), old(c.collected), took, scale)
    ensures Purse(pl.score, pl.health) ==
      if took then Gain(Purse(old(pl.score), old(pl.health)), PickupOf(c), pl.maxHealth)
      else Purse(old(pl.score), old(pl.health))
    ensures popup == if took then PopupOf(PickupOf(c), pl.powerUps) else None
    ensures !(took && c.kind == POWERUP) ==> ScaleOf(pl.powerUps) == old(ScaleOf(pl.powerUps))
  {
    took, popup := false, None;
    scale := ScaleOf(pl.powerUps);
    ScaleOfInRange(pl.powerUps);
    if c.collected {
      return;
    }
    took := c.TryCollect(pb, ScaleOf(pl.powerUps));
    if took {
      var added;
      popup, added := ApplyCollectibleEffect(c, pl);
    }
  }

  /** Item `c` one animation step on from clocks `bob`, `pulse` and `sparkle`. */
  predicate Bobbed(c: Collectible, bob: real, pulse: real, sparkle: real)
    reads c
  {
    c.bobTime == bob + 0.1 && c.pulseTime == pulse + 0.15 && c.sparkleTime == sparkle + 0.2
  }

  /**
   * Item `c` after the collection walk, which found it with box `box` and
   * pickup `pk`, collected or not (`was`), and took it or not (`t`): it kept
   * its box and pickup, it is collected when it was or was taken, and it
   * was taken only when free and within 9 pixels of the player's box `pb`,
   * and always when free and within 6.
   */
  predicate Gathered(c: Collectible, pb: Rect, box: Rect, pk: Pickup, was: bool, t: bool)
    reads c
  {
    c.GetBounds() == box && PickupOf(c) == pk && c.collected == (was || t) &&
    (t ==> !was && PaddedOverlap(pb, PICKUP_PADDING * MAX_SCALE, box)) &&
    (!was && PaddedOverlap(pb, PICKUP_PADDING, box) ==> t)
  }

  /**
   * `Gathered`, and item `c` had its turn at size scale `scale`, between 1
   * and 1.5: it was taken exactly when free and within 6 pixels times that
   * scale of the player's box.
   */
  predicate GatheredAt(c: Collectible, pb: Rect, box: Rect, pk: Pickup, was: bool, t: bool, scale: real)
    reads c
  {
    Gathered(c, pb, box, pk, was, t) && 1.0 <= scale <= MAX_SCALE &&
    t == (!was && PaddedOverlap(pb, PICKUP_PADDING * scale, box))
  }

  /** The boxes of a list of items, one per item, in list order. */
  function Boxes(s: seq<Collectible>): (r: seq<Rect>)
    reads s
    ensures |r| == |s| && forall k :: 0 <= k < |s| ==> r[k] == s[k].GetBounds()
  {
    seq(|s|, k requires 0 <= k < |s| reads s => s[k].GetBounds())
  }

  /** Which items of a list are already collected, one flag per item. */
  function CollectedFlags(s: seq<Collectible>): (r: seq<bool>)
    reads s
    ensures |r| == |s| && forall k :: 0 <= k < |s| ==> r[k] == s[k].collected
  {
    seq(|s|, k requires 0 <= k < |s| reads s => s[k].collected)
  }

  /**
   * `GatheredAt` for every item of the walk, item k found with box
   * `boxes[k]`, pickup `ps[k]` and flag `was[k]`, taken or not (`took[k]`)
   * at scale `scales[k]`.
   */
  predicate GatheredAll(s: seq<Collectible>, pb: Rect, boxes: seq<Rect>, ps: seq<Pickup>, was: seq<bool>,
                        took: seq<bool>, scales: seq<real>)
    requires |boxes| == |ps| == |was| == |took| == |scales| == |s|
    reads s
    decreases |s|
  {
    |s| == 0 ||
    (GatheredAt(s[0], pb, boxes[0], ps[0], was[0], took[0], scales[0]) &&
     GatheredAll(s[1..], pb, boxes[1..], ps[1..], was[1..], took[1..], scales[1..]))
  }

  /** `GatheredAll` item by item. */
  lemma {:induction false} GatheredAllEach(s: seq<Collectible>, pb: Rect, boxes: seq<Rect>, ps: seq<Pickup>,
                                           was: seq<bool>, took: seq<bool>, scales: seq<real>)
    requires |boxes| == |ps| == |was| == |took| == |scales| == |s|
    requires GatheredAll(s, pb, boxes, ps, was, took, scales)
    ensures forall k :: 0 <= k < |s| ==> GatheredAt(s[k], pb, boxes[k], ps[k], was[k], took[k], scales[k])
  {
    if |s| > 0 {
      GatheredAllEach(s[1..], pb, boxes[1..], ps[1..], was[1..], took[1..], scales[1..]);
      forall k | 1 <= k < |s|
        ensures GatheredAt(s[k], pb, boxes[k], ps[k], was[k], took[k], scales[k])
      {
        assert s[k] == s[1..][k - 1] && boxes[k] == boxes[1..][k - 1] && ps[k] == ps[1..][k - 1];
        assert was[k] == was[1..][k - 1] && took[k] == took[1..][k - 1] && scales[k] == scales[1..][k - 1];
      }
    }
  }

  /**
   * The scales of a walk over `s` that starts at scale `first` and leaves
   * scale `last`: the last item has its turn at `first`, each other item at
   * the scale its successor had unless that successor was a supplement just
   * taken, and the walk leaves the scale the front item saw unless that
   * item was a supplement just taken.
   */
  predicate ScaleWalk(s: seq<Collectible>, took: seq<bool>, scales: seq<real>, first: real, last: real)
  {
    |took| == |s| && |scales| == |s| &&
    (|s| == 0 ==> last == first) &&
    (|s| > 0 ==> scales[|s| - 1] == first) &&
    (|s| > 0 && !(took[0] && s[0].kind == POWERUP) ==> last == scales[0]) &&
    forall k :: 0 <= k < |s| - 1 && !(took[k + 1] && s[k + 1].kind == POWERUP) ==> scales[k] == scales[k + 1]
  }

  /** The walk grows by one item at the front when that item has its turn at the scale the rest left. */
  lemma ScaleWalkCons(s: seq<Collectible>, t: bool, rt: seq<bool>, scale: real, rs: seq<real>, first: real, last: real)
    requires |s| > 0 && ScaleWalk(s[1..], rt, rs, first, scale)
    requires !(t && s[0].kind == POWERUP) ==> last == scale
    ensures ScaleWalk(s, [t] + rt, [scale] + rs, first, last)
  {
    var took, scales := [t] + rt, [scale] + rs;
    forall k | 0 <= k < |s| - 1 && !(took[k + 1] && s[k + 1].kind == POWERUP)
      ensures scales[k] == scales[k + 1]
    {
      assert s[k + 1] == s[1..][k] && took[k + 1] == rt[k] && scales[k + 1] == rs[k];
      if k > 0 {
        assert s[k] == s[1..][k - 1] && took[k] == rt[k - 1] && scales[k] == rs[k - 1];
      }
    }
    if |s| > 1 {
      assert scales[|s| - 1] == rs[|rs| - 1];
    }
  }

  /**
   * The walk of `_checkCollectibleCollection`, from the end of the list to
   * its front: an item not yet collected is taken when the player's box,
   * padded by 6 pixels times the current size scale, touches it; `taken`
   * lists the items in the order taken and `popups` the popups they raise.
   * `scales[k]` is the size scale when item k has its turn: the scale before
   * the walk for the last item, and for each other item the scale its
   * successor saw, unless that successor was a supplement just taken. The
   * scale lies between 1 and 1.5, so a pad of 6 always reaches and a pad
   * of 9 bounds what is reached.
   */
  method CollectAll(s: seq<Collectible>, ghost ps: seq<Pickup>, pl: Player, pb: Rect, ghost scale0: real)
    returns (taken: seq<Collectible>, popups: seq<FloatingText>, ghost took: seq<bool>, ghost scales: seq<real>)
    requires Distinct(s) && pl.powerUps.Valid() && pb == pl.GetBounds() && ps == Pickups(s)
    requires scale0 == ScaleOf(pl.powerUps)
    requires forall k :: 0 <= k < |s| ==> ShapeOk(s[k].kind, s[k].value)
    modifies s, pl`score, pl`health, pl.powerUps
    decreases |s|
    ensures forall i :: 0 <= i < |pl.powerUps.activePowerUps| ==>
              pl.powerUps.activePowerUps[i] in old(pl.powerUps.activePowerUps) || fresh(pl.powerUps.activePowerUps[i])
    ensures pl.powerUps.Valid() && |took| == |s| && taken == Taken(s, took)
    ensures |scales| == |s|
    ensures GatheredAll(s, pb, old(Boxes(s)), ps, old(CollectedFlags(s)), took, scales)
    ensures Purse(pl.score, pl.health) == GainAll(Purse(old(pl.score), old(pl.health)), ps, took, pl.maxHealth)
    ensures popups == PopupsAll(ps, took, pl.powerUps)
    ensures ScaleWalk(s, took, scales, scale0, ScaleOf(pl.powerUps))
  {
    if s == [] {
      return [], [], [], [];
    }
    var c := s[0];
    assert c !in s[1..];
    ghost var boxes, was := Boxes(s), CollectedFlags(s);
    assert Boxes(s[1..]) == boxes[1..] && CollectedFlags(s[1..]) == was[1..];
    var rest, more;
    ghost var rt, rs;
    rest, more, rt, rs := CollectAll(s[1..], ps[1..], pl, pb, scale0);
    ghost var scale;
    var t, popup;
    t, popup, scale := CollectOne(c, pl, pb);
    taken := rest + (if t then [c] else []);
    popups := more + (if popup.Some? then [popup.value] else []);
    took := [t] + rt;
    scales := [scale] + rs;
    assert took[1..] == rt && scales[1..] == rs;
    assert PickupOf(c) == ps[0];
    assert popups == PopupsAll(ps, took, pl.powerUps);
    ScaleWalkCons(s, t, rt, scale, rs, scale0, ScaleOf(pl.powerUps));
    assert GatheredAll(s[1..], pb, boxes[1..], ps[1..], was[1..], rt, rs);
  }
}
