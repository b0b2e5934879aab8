# A verified model of the roxena-game simulation core

roxena-game is a 2D side-scrolling platformer. Roxena runs through tile-based
levels, punches and kicks junk-food enemies, picks up coins, health and
supplement power-ups, and ends the game in a three-phase fight with the gym
boss Costi. This project models in Dafny the simulation core that runs one
fixed-step frame:

- the fixed-timestep game loop (`GameLoops`);
- the math helpers (`MathUtil`) and the tile grid with its solid-tile query (`Tiles`, `TileMaps`, `Levels`);
- the per-axis tile collision resolver (`Collision`);
- the entity base, particles and projectiles (`Entities`, `Particles`, `Projectiles`);
- keyboard input (`Input`) and the camera (`Cameras`);
- the player's state machine with power-up modifiers (`Players`, `PowerUps`, `Physics`);
- the four enemy variants (`Enemies`, `EnemyData`) and the boss (`Bosses`);
- pickups and the item table (`Collectibles`, `Items`);
- the orchestrator (`Games`, with the combat pieces in `Combat`). It holds the screen-state machine, level loading, death and respawn, checkpoints, and the fixed order of one PLAYING frame.

Objects the source updates in place are classes with `modifies` frames:
- `Game`, `Player`, `Enemy`, `BossCosti`, `Projectile`, `Particle`, `Collectible`, `PowerUpManager`, `Camera`, `InputState` and `GameLoop`.

Everything that is a value is a datatype or a function:
- tiles, tile maps, levels, rectangles, bodies, configurations and popups.

The operations that change state are methods. Most of them are proved against a specification function of the old state; the stage methods that split one frame into pieces state less (see Left out). The properties that matter are proved as lemmas about those functions, and the between-frame invariants are kept by every step:
- a projectile dies within its life;
- a swing hits each target at most once;
- the boss's phase never goes down;
- health pickups never overfill;
- the camera follows and stays inside the level;
- dead entities are spliced out while the survivors keep their order.

The ragged-tile, integer and rounding behaviour is written out explicitly:
- a missing cell reads as id -1, which is not solid;
- grid lookups use floor division;
- `Math.round` is `floor(x + 1/2)`.

Randomness, `Math.sqrt`, the clock and the DOM are outside the model and come in as parameters:
- the boss's action roll, taunt pick and hurt-line chance;
- the particle rolls and the death-burst offsets;
- a `sqrt` function, used only where the source aims a projectile;
- the frame time.

## Model

| member | source | states |
|---|---|---|
| MathUtil.Round | src/entities/Player.js:141-158 | `Math.round`: the nearest integer, halves rounded up |
| MathUtil.Clamp | src/utils/math.js:4-6 | with lo <= hi the result lies in [lo, hi] and equals v when v is already inside; below lo gives lo, above hi gives hi; with lo > hi the lower bound wins |
| MathUtil.LerpEnds | src/utils/math.js:8-10 | lerp(a, b, 0) = a and lerp(a, b, 1) = b |
| MathUtil.LerpBetween | src/utils/math.js:8-10 | for t in [0, 1] the result lies between a and b, and it is a plus the fraction t of the gap |
| MathUtil.OverlapSymmetric | src/utils/math.js:12-19 | rectangle overlap is symmetric |
| MathUtil.EdgeTouchingDoesNotOverlap | src/utils/math.js:12-19 | rectangles that only share a vertical or horizontal edge do not overlap, either way round |
| MathUtil.ZeroWidthOverlap | src/utils/math.js:12-19 | a zero-width rectangle overlaps exactly when its x lies strictly inside the other's span and the vertical spans overlap; two zero-width rectangles never overlap |
| MathUtil.Sign | src/utils/math.js:29-31 | 1 exactly for positive, -1 exactly for negative, 0 exactly for zero |
| MathUtil.FloorDiv | src/world/TileMap.js:29-33 | `Math.floor(v / d)` is the n with n*d <= v < (n+1)*d |
| Entities.Center | src/entities/Entity.js:23-29 | the centre is equally far from both ends of the span, and lies inside it for a non-negative size |
| Entities.Toward | src/entities/Enemy.js:111 | `dir * speed`: the speed itself facing right, its negation facing left |
| Entities.Flip | src/entities/Enemy.js:122 | reversing a direction negates it |
| Entities.Entity.constructor | src/entities/Entity.js:4-12 | position and size as given, zero velocity, not dead |
| Entities.Entity.GetBounds | src/entities/Entity.js:14-21 | exactly x, y, width and height |
| Entities.Entity.CenterX | src/entities/Entity.js:23-25 | the horizontal midpoint of the box |
| Entities.Entity.CenterY | src/entities/Entity.js:27-29 | the vertical midpoint of the box |
| Entities.Entity.Update | src/entities/Entity.js:31-33 | the base update changes nothing |
| Tiles.SolidIds | src/world/Tile.js:28-32 | solid exactly for ids 1 to 5, so air, spike, breakable and unknown ids do not block |
| Tiles.MakeTile | src/world/Tile.js:17-26 | the tile keeps its id and cell, sits at col*32, row*32 with size 32x32, and is solid exactly for ids 1 to 5, fixed at construction |
| Tiles.DamageTilesAreNotSolid | src/world/Tile.js:34-36 | a tile hurts exactly when its id is 10 (spike), and a spike never blocks |
| TileMaps.TileMapOf | src/world/TileMap.js:4-20 | rows is the data length and cols the first row's length, widthPx = cols*32 and heightPx = rows*32, every cell holds the tile made for its column, row and id, and a missing theme becomes `kitchen` |
| TileMaps.NewTileMap | src/world/TileMap.js:13-19 | the nested construction loops build exactly that grid |
| TileMaps.GetTileAt | src/world/TileMap.js:22-27 | null exactly outside 0 <= col < cols, 0 <= row < rows; otherwise the tile of that cell, carrying that column and row |
| TileMaps.GetTileAtPixel | src/world/TileMap.js:29-33 | null exactly when the pixel lies outside the map's pixel area; otherwise the grid cell at the floor-divided column and row, whose 32x32 box contains the pixel |
| TileMaps.IndexInRange | src/world/TileMap.js:29-33 | a floor-divided index is inside the grid exactly when its pixel is inside the map |
| TileMaps.NearWindow | src/world/TileMap.js:39-44 | the window of columns and rows around the box, widened by the margin (a margin of 0 means 2), is clamped into the grid |
| TileMaps.NearWindowCovers | src/world/TileMap.js:39-44 | with a non-negative margin the window still covers every column and row the box itself spans, clipped to the grid |
| TileMaps.RowSolidsExact | src/world/TileMap.js:48-53 | one row of the window yields exactly its solid tiles, left to right |
| TileMaps.WindowSolidsExact | src/world/TileMap.js:47-54 | the window yields exactly its solid tiles, in row-major order |
| TileMaps.SolidTilesNearExact | src/world/TileMap.js:38-56 | `getSolidTilesNear` returns exactly the solid tiles of the clamped window, in row-major order |
| TileMaps.GetSolidTilesNear | src/world/TileMap.js:38-56 | the nested loops build exactly `SolidTilesNear` |
| TileMaps.ScanWindow | src/world/TileMap.js:46-54 | the row loop over a window inside the grid builds exactly `WindowSolids` of the window |
| TileMaps.ScanRow | src/world/TileMap.js:48-53 | the column loop over one row builds exactly `RowSolids`, the row's solid tiles left to right |
| TileMaps.SolidTilesNearCovers | src/world/TileMap.js:38-56 | with a non-negative margin, every solid tile whose box overlaps the query box is among the tiles returned |
| TileMaps.CellOfOverlap | src/world/TileMap.js:39-42 | a span that meets a cell starts at or before that cell and ends at or after it, counted in floor-divided cells |
| Levels.ListOrEmpty | src/world/Level.js:30-31 | an absent list reads as the empty list and a present one as itself |
| Levels.MakeLevel | src/world/Level.js:4-41 | the level keeps the name, defaults the theme to `kitchen`, builds the tile map from the grid, puts the player spawn at the given cell (2 for a missing column, 12 for a missing row) times 32, takes its pixel size from the tile map, keeps the enemy and item spawns (empty when absent), converts every checkpoint to pixels inactive and in order, and has an exit exactly when the configuration has one, converted to pixels |
| Items.ItemConfigOf | src/data/items.js:7-54 | exactly the seven named entries exist; each is a coin, health or powerup entry; coins and health packs carry a positive amount, a coin scores its own value, and a supplement has a positive duration and score |
| Items.PowerupEntriesAreKnownTypes | src/data/items.js:33-53 | every supplement entry names one of the three power-up types, and its display name is the one the power-up table gives that type |
| Items.CreateCollectible | src/data/items.js:56-70 | null exactly for a name not in the table; otherwise a fresh, uncollected item at (x, y) with the entry's type, value, score, duration and display name (missing ones 0 or empty) and the name it came from |
| Collectibles.Grow | src/items/Collectible.js:32-37 | the box grown by the pad on every side |
| Collectibles.PaddedIsGrownOverlap | src/items/Collectible.js:34-37 | the padded pickup test is exactly strict overlap of the grown player box with the item |
| Collectibles.OverlapIsPickup | src/items/Collectible.js:30-37 | with a non-negative pad, any real overlap of the boxes is a pickup |
| Collectibles.Collectible.constructor | src/items/Collectible.js:10-19 | a 24x24 uncollected item at the position, with the given type, value and random bobbing phase, other clocks at 0 and no display name |
| Collectibles.Collectible.Update | src/items/Collectible.js:21-26 | a collected item does not change; otherwise the bob, pulse and sparkle clocks advance by 0.1, 0.15 and 0.2 |
| Collectibles.Collectible.TryCollect | src/items/Collectible.js:28-44 | succeeds exactly when the item was not collected and the player box padded by 6 x scale overlaps it; success marks it collected, and a collected item always refuses |
| Cameras.FollowAxis | src/core/Camera.js:27-37 | one axis of the follow always lands in [0, max(0, level - viewport)], and is 0 when the level is no larger than the viewport |
| Cameras.FollowAxisFixpoint | src/core/Camera.js:27-37 | a camera already centred on the target, inside the bounds, stays put |
| Cameras.FollowAxisApproaches | src/core/Camera.js:31-33 | inside the bounds the camera closes exactly 10% of the gap to the centred position each frame and never overshoots it |
| Cameras.ViewRect | src/core/Camera.js:53-59 | the viewport grown by the margin on every side |
| Cameras.Camera.constructor | src/core/Camera.js:4-13 | at the origin, following nothing, smoothing 0.1, and the level one viewport large |
| Cameras.Camera.SetLevelBounds | src/core/Camera.js:15-18 | the level size becomes the given one |
| Cameras.Camera.Follow | src/core/Camera.js:20-22 | the target becomes the given one |
| Cameras.Camera.Update | src/core/Camera.js:24-38 | nothing moves without a target; with one, each axis follows the target's centre and the camera ends inside the level |
| Cameras.Camera.IsVisible | src/core/Camera.js:52-60 | visible exactly when the box strictly overlaps the viewport grown by the margin (64 when the margin is absent or 0) |
| Cameras.Camera.OnScreenIsVisible | src/core/Camera.js:52-60 | anything overlapping the viewport itself is visible under any non-negative margin |
| Input.Flag | src/core/Input.js:119-129 | `!!m[code]`: true exactly when the code is present and set; a code never seen reads as false |
| Input.InputState.constructor | src/core/Input.js:4-7 | no key held, pressed or released |
| Input.InputState.KeyDown | src/core/Input.js:12-29 | while the name field has focus every key but Enter is ignored; otherwise the key becomes held and is a new press exactly when it was not already held, so auto-repeat gives one press |
| Input.InputState.KeyUp | src/core/Input.js:31-34 | the key is no longer held and has a release edge this frame, whatever has focus |
| Input.InputState.IsDown | src/core/Input.js:119-121 | held only if the key was ever seen |
| Input.InputState.WasPressed | src/core/Input.js:123-125 | pressed only if a press was recorded this frame |
| Input.InputState.WasReleased | src/core/Input.js:127-129 | released only if a release was recorded this frame |
| Input.InputState.Update | src/core/Input.js:131-134 | after the frame no key reads as pressed or released; the held keys are untouched |
| GameLoops.ClampFrame | src/core/GameLoop.js:38-41 | the accepted frame time is never more than 0.1 s, and a shorter one is kept as it is |
| GameLoops.GameLoop.constructor | src/core/GameLoop.js:4-13 | not running, step 1/60 s, accumulator and last time 0, cap 0.1 s, no frame requested |
| GameLoops.GameLoop.Start | src/core/GameLoop.js:15-21 | a running loop is left alone; otherwise it runs from the given clock reading with an empty accumulator and one frame requested |
| GameLoops.GameLoop.Stop | src/core/GameLoop.js:23-29 | the loop is stopped and no frame stays requested |
| GameLoops.GameLoop.Tick | src/core/GameLoop.js:31-55 | a stopped loop does nothing; a running one adds the capped frame time, runs floor(60 x acc) updates when the sum acc is non-negative (none when acc is below one step), leaves less than one step in [0, 1/60), renders exactly once and requests the next frame |
| GameLoops.DrainCount | src/core/GameLoop.js:46-49 | a drain that leaves acc - n/60 in [0, 1/60) made exactly floor(60 acc) steps |
| Particles.GravityOf | src/entities/Particle.js:12 | an explicit gravity, 0 included, is kept; only a missing one becomes 0.15 |
| Particles.Motions | src/entities/Particle.js:16-22 | one motion record per particle, in list order |
| Particles.Particle.constructor | src/entities/Particle.js:4-14 | size 4, colour `#fff` and life 30 for missing options, random velocity only for a missing one, maxLife equal to life, gravity 0.15 only when missing, fadeOut true unless explicitly false, alive |
| Particles.Particle.Update | src/entities/Particle.js:16-22 | gravity is added to vy first, x moves by vx and y by the new vy, life drops by one, and the particle is dead from the frame its life reaches 0 on, never coming back |
| Particles.BurstSize | src/entities/Particle.js:37 | a positive count is kept and 0 (absent) means 8 |
| Particles.SpawnParticleBurst | src/entities/Particle.js:36-49 | exactly `count or 8` new, distinct, living particles, all at (x, y) in the given colour |
| Particles.KeepLive | src/core/Game.js:532-535 | splicing out each particle whose dead flag was set leaves exactly the live ones, in order |
| Particles.StepParticles | src/core/Game.js:531-536 | every particle advances one frame of motion and the list keeps exactly the live ones, in order, without repeats |
| Projectiles.WithDefaults | src/entities/Projectile.js:4-14 | every given option is kept, fromPlayer, gravity and stun are copied, and no size, damage, colour or life stays missing |
| Projectiles.DefaultsIdempotent | src/entities/Projectile.js:4-14 | filling in the defaults a second time changes nothing |
| Projectiles.EmptyConfigDefaults | src/entities/Projectile.js:4-14 | with no options a projectile is 8x8, deals 10, lives 180 frames, is not the player's, and neither falls nor stuns |
| Projectiles.Projectile.constructor | src/entities/Projectile.js:4-14 | the position and velocity as given, alive, and every option with its default filled in |
| Projectiles.Projectile.Update | src/entities/Projectile.js:16-22 | gravity is added to vy first, x moves by vx and y by the new vy, life drops by one, and the projectile is dead from the frame its life reaches 0 on, never coming back |
| Projectiles.Projectile.CheckTileCollision | src/entities/Projectile.js:24-29 | dies exactly when its centre pixel lies in a solid tile of the map; nothing else changes |
| Projectiles.Flights | src/core/Game.js:469-476 | one flight record per projectile, in list order |
| Projectiles.FlyFrames | src/entities/Projectile.js:16-22 | after n frames life is n lower, and a dead projectile is still dead |
| Projectiles.DeadWithinLife | src/entities/Projectile.js:20-21 | a projectile is dead after at most `life` frames of flight (after one when its life is already used up) |
| Projectiles.StepProjectile | src/core/Game.js:471-473 | one turn is `update` and then, in a loaded level, the tile check: exactly one frame of `Fly` |
| Projectiles.LiveProjectilesFrom | src/core/Game.js:474 | every projectile left in the list was in it before |
| Projectiles.KeepLiveProjectiles | src/core/Game.js:474 | splicing out each projectile whose dead flag was set leaves exactly the live ones, in order |
| Projectiles.StepProjectiles | src/core/Game.js:469-476 | every projectile makes its turn and the list keeps exactly the live ones, in order, without repeats |
| PowerUps.InfoOf | src/items/PowerUp.js:13-32 | the table knows exactly the three supplement types, each with a display name and a scale in (1, 1.3] |
| PowerUps.InfoOrDefault | src/items/PowerUp.js:41 | a known type carries its table entry; any other type a neutral entry named after it, with scale 1 |
| PowerUps.TypeModifier | src/items/PowerUp.js:55-67 | creatine doubles damage, protein shake gives speed 1.5 and jump 1.3, pre-workout speed 1.5, and exactly every other stat and type gives 1 |
| PowerUps.PowerUp.constructor | src/items/PowerUp.js:35-42 | active, with the full duration remaining and the flash clock at 0 |
| PowerUps.PowerUp.Update | src/items/PowerUp.js:44-51 | an inactive power-up does not change; an active one loses dt and switches off exactly when no time is left; it never switches back on |
| PowerUps.PowerUp.GetModifier | src/items/PowerUp.js:53-68 | 1 when inactive, otherwise the type's entry in the modifier table, never below 1 |
| PowerUps.PowerUp.HasFeature | src/items/PowerUp.js:70-74 | true exactly for an active pre-workout asked about invincibility |
| PowerUps.PowerUp.GetScale | src/items/PowerUp.js:76-79 | 1 when inactive, otherwise the type's table scale; always in [1, 1.3] |
| PowerUps.WithoutKind | src/items/PowerUp.js:134 | exactly the entries of another type survive, and the one-per-type property is kept |
| PowerUps.KeepActive | src/items/PowerUp.js:142 | exactly the active entries survive, and the one-per-type property is kept |
| PowerUps.AnyHasFeature | src/items/PowerUp.js:154 | true exactly when some entry has the feature |
| PowerUps.ProductAtLeastOne | src/items/PowerUp.js:146-150 | a product of two factors of at least 1 is at least 1 |
| PowerUps.ModifierProductAtLeastOne | src/items/PowerUp.js:145-151 | the aggregate modifier of any list is at least 1, so no power-up weakens a stat |
| PowerUps.ScaleProductAtLeastOne | src/items/PowerUp.js:157-163 | the scale product of any list is at least 1 |
| PowerUps.InactiveProductIsOne | src/items/PowerUp.js:53-77 | with no active entry the aggregate modifier and scale are both 1 |
| PowerUps.PowerUpManager.constructor | src/items/PowerUp.js:129-131 | no power-ups |
| PowerUps.PowerUpManager.Add | src/items/PowerUp.js:133-138 | every entry of the type is dropped and one fresh, active, full-length entry appended, so the list holds at most one entry per type and the new one is the only one of its type |
| PowerUps.PowerUpManager.Update | src/items/PowerUp.js:140-143 | every entry steps once, exactly the active ones stay, in order, and every remaining entry is active |
| PowerUps.PowerUpManager.GetModifier | src/items/PowerUp.js:145-151 | the product of the entries' modifiers, at least 1 |
| PowerUps.PowerUpManager.HasFeature | src/items/PowerUp.js:153-155 | true exactly when some entry has the feature |
| PowerUps.PowerUpManager.GetScale | src/items/PowerUp.js:157-163 | the product of the entries' scales capped at 1.5, so always in [1, 1.5] |
| PowerUps.PowerUpManager.GetDisplayName | src/items/PowerUp.js:165-168 | empty exactly for an unknown type |
| PowerUps.PowerUpManager.GetColor | src/items/PowerUp.js:170-173 | the table colour, or `#FFF` for an unknown type |
| PowerUps.PowerUpManager.Clear | src/items/PowerUp.js:181-183 | the list is empty |
| Collision.ResolveEntityVsTileMap | src/physics/Collision.js:16-50 | the two loops compute exactly the X-then-Y resolution, in which the Y query uses the box after the X pass; size is untouched, grounded is never cleared, and vy either stays or becomes 0 |
| Collision.ResolveX | src/physics/Collision.js:18-31 | the X loop over the solid tiles near the moved box is exactly the X pass |
| Collision.ResolveY | src/physics/Collision.js:34-49 | the Y loop over the solid tiles near the moved box is exactly the Y pass |
| Collision.XPassFrame | src/physics/Collision.js:21-31 | the X pass changes only x and vx, and either changes nothing or leaves vx at 0 |
| Collision.XStoppedStaysPut | src/physics/Collision.js:24-29 | with vx = 0 the X pass leaves the box where it is |
| Collision.XPassNoHit | src/physics/Collision.js:21-31 | with no overlapping tile the X pass is plain integration |
| Collision.XPassFirstHit | src/physics/Collision.js:22-30 | the first overlapping tile decides: moving right snaps x to tile.x - width, moving left to tile.x + 32, vx becomes 0 and later tiles change nothing |
| Collision.YStoppedStaysPut | src/physics/Collision.js:39-48 | with vy = 0 the Y pass leaves the box where it is |
| Collision.YPassFrame | src/physics/Collision.js:37-49 | the Y pass changes only y, vy and grounded, never clears grounded, and sets it only when falling |
| Collision.YPassNoHit | src/physics/Collision.js:37-49 | with no overlapping tile the Y pass is plain integration |
| Collision.YPassFirstHit | src/physics/Collision.js:39-48 | falling onto the first overlapping tile lands on it (y = tile.y - height, vy = 0, grounded); rising into it stops beneath it (y = tile.y + 32, vy = 0, grounded unchanged) |
| Collision.ResolveFreeFlight | src/physics/Collision.js:16-50 | with no overlapping solid tile after either move, position becomes old position plus velocity and the velocity is unchanged |
| Collision.ResolveStillX | src/physics/Collision.js:18-29 | with vx = 0 the resolver leaves x unchanged and vx at 0 |
| Collision.YPassVelocity | src/physics/Collision.js:40-47 | the Y pass only ever sets vy to 0 |
| Enemies.ChipsShotConfig | src/entities/enemies/Chips.js:29-41 | the Chips shot is 8x8, deals the configured 10, lives 120 frames, falls at 0.05, is not the player's, and has no option left for the defaults to fill |
| Enemies.Fall | src/entities/Enemy.js:86-90 | gravity is added and the vertical speed clamped into [-12, 12] (unchanged when already inside), grounded is cleared and nothing else changes |
| Enemies.Think | src/entities/Enemy.js:104-126 | each variant's decision for one frame: only Chips fires, only with its fire timer spent, and then restarts it at 90 (otherwise the timer is kept); only Candy changes the vertical speed and the bounce counter; only Cake, and only before its flag is latched, changes the minion flag and request; only Soda changes the charge and wind-up; a charge in progress always has time left; the queued shot is not touched |
| Enemies.Enemy.constructor | src/entities/Enemy.js:12-38 | the type's size, hp, damage, speed and score; facing and patrolling left, in PATROL, not activated, timers at 0 except the Chips fire timer, which starts at 90; the variant fields of Candy, Soda and Cake at their initial values and no pending request |
| Enemies.Enemy.Activate | src/entities/Enemy.js:40-42 | the enemy is activated; it changes nothing else, so a second call changes nothing |
| Enemies.Enemy.Die | src/entities/Enemy.js:63-66 | DEAD and dead |
| Enemies.Enemy.TakeDamage | src/entities/Enemy.js:44-61 | a dead enemy ignores damage; otherwise hp drops and is floored at 0, both hurt timers become 12, the state is HURT, or DEAD with dead set exactly when hp reached 0, and the knockback is 4 away from the source and 3 up |
| Enemies.Enemy.DoPatrol | src/entities/Enemy.js:109-126 | the direction reverses exactly when a solid tile is 2px ahead at centre height, or the enemy is grounded and no solid tile is 2px ahead and 4px below its feet; it then faces and walks that way at its speed |
| Enemies.Enemy.PatrolProbe | src/entities/Enemy.js:115-121 | the two tile probes report exactly the wall-or-ledge condition |
| Enemies.Enemy.CandyAI | src/entities/enemies/Candy.js:9-18 | Candy patrols, its bounce counter goes up by one each step, and it hops (vy = -3, counter back to 0) exactly when grounded and the counter passes 60 |
| Enemies.Enemy.ChipsAI | src/entities/enemies/Chips.js:9-42 | Chips patrols; it fires exactly when the player is within 200px (compared on squares) and its fire timer has run out, then the timer is 90 again and a fresh 8x8 shot with damage 10, life 120 and gravity 0.05 waits at its centre; otherwise timer and pending shot stay |
| Enemies.Enemy.HitWall | src/entities/enemies/Soda.js:49-53 | true exactly when the tile 2px ahead in the facing direction, at centre height, exists and is solid |
| Enemies.Enemy.SodaAI | src/entities/enemies/Soda.js:15-47 | charging: run at 5 in the facing direction and count down, stopping with vx = 0 when the timer runs out or a wall is ahead; winding up: stand still and count down, starting a 60-frame charge at 0; spotting the player within 150px: face them and wind up for 30; otherwise patrol |
| Enemies.Enemy.CakeAI | src/entities/enemies/Cake.js:13-26 | Cake patrols; the first step at which hp is at most half of maxHp latches the flag and requests exactly two candies, at x - 40 and x + width + 10, at its height; once latched no further request is made |
| Enemies.Enemy.UpdateAI | src/entities/Enemy.js:104-107 | each variant runs its own AI: the velocities, fire timer and AI fields become those Think decides from the state before, and a fresh Chips shot aimed from the centre is queued exactly when Think fires; no AI moves the enemy or changes hp, state or the hurt timers |
| Enemies.Enemy.BlindAI | src/entities/Enemy.js:104-107 | the AI of Candy and Cake, which ignore the player: the decision Think describes, with no shot queued |
| Enemies.Enemy.WatchingAI | src/entities/Enemy.js:104-107 | the AI of Chips and Soda, which watch the player: the decision Think describes, with a fresh shot exactly when Chips fires |
| Enemies.Enemy.Update | src/entities/Enemy.js:68-102 | nothing happens unless activated and alive; otherwise hp is kept, the hurt and flash timers count down while positive (the end of the hurt time returns to PATROL) and the vertical speed ends within the terminal velocity; an enemy that stays HURT skips its AI (its AI fields unchanged), counts its fire timer down and its body is the tile resolution of its fall, with vx damped by 0.8 on the ground; any other enemy does what Think decides from the state before, then its body with the decided velocities falls and is resolved against the tiles, the fire timer counts down and Chips' shot is aimed from the centre before the move |
| Enemies.Enemy.ActiveFrame | src/entities/Enemy.js:71-101 | the frame of an activated, living enemy: the hurt and flash timers count down and the state returns to PATROL when the hurt time ends; an enemy still HURT keeps its AI fields and only falls and is resolved, with vx damped by 0.8 on the ground; any other enemy carries out Think's decision, falls and is resolved, and counts its fire timer down |
| Enemies.Enemy.ThinkFrame | src/entities/Enemy.js:81-101 | the AI and then the physics of an enemy that is not hurt: Think's decision from the state before, the body with its velocities fallen and resolved against the tiles, the fire timer counted down, a Chips shot aimed from the centre before the move; health, state and the hurt timers are kept |
| Enemies.AheadX | src/entities/Enemy.js:115 | the pixel 2 px beyond the leading edge in the walking direction |
| Enemies.SolidAt | src/entities/Enemy.js:117-121 | a tile lies at that pixel and is solid; a pixel off the map has none |
| Enemies.PatrolBlocked | src/entities/Enemy.js:115-121 | a wall (a solid tile 2 px ahead at centre height), or, when grounded, a ledge (no solid tile 2 px ahead and 4 px below the feet) |
| Enemies.WithinRange | src/entities/enemies/Chips.js:13-14 | the distance to the player is below the range, compared on squares |
| Enemies.Aim | src/entities/enemies/Chips.js:22-27 | one component of the aimed shot: the offset divided by the distance, times the speed; 0 at zero distance, where the source divides by zero |
| Enemies.Enemy.StepPhysics | src/entities/Enemy.js:85-101 | the body after gravity is resolved against the tiles, knockback is damped by 0.8 on the ground while hurt, and a positive fire timer counts down |
| Enemies.Enemy.TickHurtTimers | src/entities/Enemy.js:71-78 | the hurt and flash timers drop by one while positive, and the hurt timer running out returns the state to PATROL |
| Enemies.Enemy.TickFireTimer | src/entities/Enemy.js:101 | a positive fire timer drops by one; a spent one stays |
| Players.AttackDamageOf | src/entities/Player.js:128 | punch deals 25, kick 30 and jump kick 35: always within [25, 35], 25 exactly for a punch and 35 exactly for a jump kick |
| Players.Dec | src/entities/Player.js:195-218 | a positive frame timer drops by one; a spent one stays |
| Players.KeysOf | src/entities/Player.js:75-121 | the controls are read once per frame; a jump press is one of Space, ArrowUp or KeyW pressed this frame |
| Players.Hitbox | src/entities/Player.js:138-163 | punch and kick boxes start at the leading edge of the body (right edge facing right, ending at the left edge otherwise), the jump kick overlaps the body by 4px; the vertical offsets are 8, 24 and 12, and width and height are the base size times the scale, rounded to the nearest pixel |
| Players.PunchHitboxSize | src/entities/Player.js:155-161 | within the power-up scale range [1, 1.5] a punch box is 24 to 36 px wide and 32 to 48 px high |
| Players.ScaleOfInRange | src/items/PowerUp.js:157-163 | the scale the player's hitbox uses always lies in [1, 1.5] |
| Players.RunStep | src/entities/Player.js:72-83 | left wins over right and runs left at the speed, right alone runs right, neither stops the player; the facing follows the key and stays 1 or -1 |
| Players.TakeOff | src/entities/Player.js:85-99 | either the jump fires (buffer and coyote time both 0, off the ground, vy the jump speed) or the only change is a jump press rearming the 8-frame buffer |
| Players.Cut | src/entities/Player.js:101-104 | with the jump key up the upward speed is at most 6 (vy >= -6), a slower one is kept, and with the key held vy is untouched |
| Players.JumpStep | src/entities/Player.js:85-104 | after the jump logic the held flag is the key's state, and with the key up vy >= -6 |
| Players.JumpFires | src/entities/Player.js:85-104 | a jump fires exactly when the buffer is armed (a press now or earlier) and the player is grounded or in coyote time; it then consumes buffer, coyote time and ground contact and gives the jump speed, cut to -6 if the key is already up; otherwise the ground and coyote state stay and only a press rearms the buffer |
| Players.AttackStep | src/entities/Player.js:106-131 | an attack changes anything only when cooldown and swing are both over and X/Z or C was pressed; it then starts 10 active frames with 20 of cooldown, the type's damage and an empty hit set, is a jump kick exactly when airborne and, on the ground, a punch exactly when X/Z was pressed |
| Players.Player.constructor | src/entities/Player.js:14-62 | a 32x48 player at the position, facing right, idle, with 100 health, 3 lives, score 0, punch damage 25, no targets hit and every timer at 0 |
| Players.Player.SetBody | src/physics/Collision.js:16-50 | the resolver's position, velocity and ground contact are written back to the player |
| Players.Player.HandleInput | src/entities/Player.js:64-122 | nothing changes while hurt, dead or stunned; otherwise the run, the jump logic and the attack trigger happen in that order, with the run speed at 60% while attacking and both speed and jump scaled by the power-up modifiers |
| Players.Player.Act | src/entities/Player.js:72-121 | the run, the jump logic and the attack trigger, each reading the state the previous one left |
| Players.Player.TryAttack | src/entities/Player.js:106-121 | the attack trigger of the input step |
| Players.Player.Run | src/entities/Player.js:72-83 | the horizontal part of the input step |
| Players.Player.Jump | src/entities/Player.js:85-104 | the buffering, take-off and cut in that order |
| Players.Player.TakeOffStep | src/entities/Player.js:85-99 | the buffering and take-off |
| Players.Player.CutStep | src/entities/Player.js:90-104 | the held flag and the jump cut |
| Players.Player.StartAttack | src/entities/Player.js:124-131 | a swing of that type: 10 active frames, 20 of cooldown, the type's damage, an empty hit set, ATTACKING |
| Players.Player.GetAttackHitbox | src/entities/Player.js:133-164 | none exactly when no swing is active; otherwise the type's box on the facing side, scaled by the power-up scale |
| Players.Player.TakeDamage | src/entities/Player.js:166-184 | ignored during invincibility frames, when dead or under the invincible power-up; otherwise health drops and is floored at 0, 8 hurt and 90 invincibility frames start, the swing ends, the player is knocked 3 away from the source and 4 up, and the state is HURT, or DEAD with exactly one life lost when health reached 0 |
| Players.Player.Die | src/entities/Player.js:186-189 | DEAD, with exactly one life fewer |
| Players.Player.Update | src/entities/Player.js:191-219 | every timer drops by one only while positive, the hit set is emptied when the swing ends, the end of the hurt time returns HURT to IDLE, a stun holds vx at 0, and afterwards abs(vy) <= 12 and abs(vx) <= maxSpeed, whatever the speed modifier gave |
| Players.Player.TickCombatTimers | src/entities/Player.js:195-208 | the attack, invincibility and hurt countdowns, with the hit set emptied at the end of a swing and HURT returning to IDLE |
| Players.Player.PostCollisionUpdate | src/entities/Player.js:221-245 | coyote time is 6 on the ground and runs down in the air; DEAD and HURT stay, otherwise a live swing gives ATTACKING, airborne gives JUMPING when rising and FALLING otherwise, a speed above 0.5 RUNNING, and IDLE else |
| Bosses.Taunt | src/entities/enemies/BossCosti.js:65-67 | the line is always one of the pool's entries |
| Bosses.ChooseAction | src/entities/enemies/BossCosti.js:168-188 | given the roll: phase 1 picks only charge, dumbbell or oil; a charge exactly for a roll below 0.4 in phase 1 and below 0.2 later; the slam never in phase 1; the protein shake exactly in phase 2 for a roll in [0.4, 0.6); the jump attack exactly in phase 3 for a roll in [0.35, 0.5) |
| Bosses.PhaseRepertoire | src/entities/enemies/BossCosti.js:172-188 | every action of each phase is chosen by some roll in [0, 1) |
| Bosses.ChargeSpeed | src/entities/enemies/BossCosti.js:200 | 7 px/frame from phase 3 on, 5 before |
| Bosses.ShockwaveRadius | src/entities/enemies/BossCosti.js:231 | 120, 160 and 200 for phases 1, 2 and 3 |
| Bosses.ApproachVx | src/entities/enemies/BossCosti.js:159-164 | 1.5 towards a player more than 80px away, standing still otherwise |
| Bosses.ShockwaveGrows | src/entities/enemies/BossCosti.js:231 | a later phase never has a smaller shockwave |
| Bosses.JumpVx | src/entities/enemies/BossCosti.js:249-250 | 5% of the horizontal distance, at most 6 either way, always towards the player |
| Bosses.ThrowDistance | src/entities/enemies/BossCosti.js:282 | the distance to the player, with 0 read as 1, so the division never fails |
| Bosses.AimedTowards | src/entities/enemies/BossCosti.js:286 | an aimed throw flies towards the player along each axis |
| Bosses.DumbbellConfig | src/entities/enemies/BossCosti.js:273 | 24x12, damage 20, life 120, gravity 0.15, no stun, nothing left for the defaults |
| Bosses.ShakeConfig | src/entities/enemies/BossCosti.js:287 | 12x16, damage 15, life 150, flies straight, no stun |
| Bosses.OilConfig | src/entities/enemies/BossCosti.js:302 | 14x14, damage 10, life 140, flies straight, stuns for 12 frames |
| Bosses.BossFall | src/entities/enemies/BossCosti.js:144-147 | gravity is added and the vertical speed clamped into [-20, 20], grounded is cleared and nothing else changes |
| Bosses.Decide | src/entities/enemies/BossCosti.js:151-189 | an attack in progress runs its step and starts nothing; otherwise the counter advances, and exactly when it reaches the cooldown it resets and ChooseAction's action starts and speaks its line (a charge: 45 frames; a slam: 60, not yet leapt; a jump: 80 frames with vy -16; a throw leaves the stance as it was); before that the boss approaches the player; the facing is kept and at most one attack stays in progress |
| Bosses.MinPhase | src/entities/enemies/BossCosti.js:96-109 | the phase the health calls for is 1, 2 or 3 |
| Bosses.NextPhase | src/entities/enemies/BossCosti.js:95-109 | the phase never decreases, is at least 3 at or below 30% health (even straight from 1), at least 2 at or below 60%, unchanged above 60%, and stays within 1 to 3 |
| Bosses.NextPhaseIsMax | src/entities/enemies/BossCosti.js:95-109 | a hit lands on the larger of the current phase and the one the health calls for |
| Bosses.NextPhaseMonotone | src/entities/enemies/BossCosti.js:95-109 | less health never means a lower phase |
| Bosses.BossCosti.constructor | src/entities/enemies/BossCosti.js:10-63 | 64x80 with 500 hp, facing left, idle, not activated, phase 1, a 90-frame action cooldown, no attack in progress and nothing pending |
| Bosses.BossCosti.Activate | src/entities/enemies/BossCosti.js:69-73 | activated, with the opening line shown for 120 frames |
| Bosses.BossCosti.Die | src/entities/enemies/BossCosti.js:117-122 | dead, in the dead state, with the defeat line for 180 frames |
| Bosses.BossCosti.TakeDamage | src/entities/enemies/BossCosti.js:78-115 | ignored while dead or invincible; otherwise hp drops and is floored at 0, the flash is 12 and the push 2 away from the source, the phase moves by NextPhase; a phase-up sets the cooldown to 40 (phase 3) or 60 (phase 2), 60 invincible frames and the enrage or step-up line for 90 frames, otherwise 15 invincible frames and the hurt taunt for 40 frames when no dialogue is up or the chance is below 0.3; 0 hp means dead with the defeat line for 180 frames; the health-phase invariant is kept |
| Bosses.BossCosti.ApplyHit | src/entities/enemies/BossCosti.js:81-93 | the hit: damage, flash 12, 15 invincible frames, the push, and the picked hurt taunt for 40 frames exactly when no dialogue is up or the chance roll is below 0.3 |
| Bosses.BossCosti.Escalate | src/entities/enemies/BossCosti.js:95-109 | the phase becomes NextPhase of the health; a change shows the enrage line (phase 3) or the step-up line for 90 frames with 60 invincible frames and the phase's cooldown, and no change touches nothing |
| Bosses.BossCosti.Update | src/entities/enemies/BossCosti.js:124-149 | nothing happens before activation or after death; otherwise health and phase are kept, the animation clock gains 0.15, the flash, invincibility and hurt timers count down while positive, the boss faces the player unless charging or slamming, the vertical speed ends within 20, and the action started is the one NextPlan plans, with the cooldown counter back at 0 |
| Bosses.BossCosti.Think | src/entities/enemies/BossCosti.js:135-141 | the boss turns to the player unless charging or slamming, then runs its AI: the velocities, stance, dialogue and queued throw are those of NextPlan, taken before the frame, and the action started is the plan's |
| Bosses.BossCosti.ThinkFrame | src/entities/enemies/BossCosti.js:135-148 | the facing step, the AI and the physics: the action started is the plan's, the facing is turned as in Think and the vertical speed ends within 20 |
| Bosses.BossCosti.ActiveFrame | src/entities/enemies/BossCosti.js:127-148 | an active frame: the animation clock, the flash, invincibility and hurt countdowns, the facing step, and the plan's action, with the vertical speed within 20 |
| Bosses.BossCosti.TickTimers | src/entities/enemies/BossCosti.js:127-133 | the animation clock advances and the flash, invincibility, dialogue and hurt timers drop by one while positive |
| Bosses.BossCosti.StepPhysics | src/entities/enemies/BossCosti.js:143-148 | the body after gravity is resolved against the tiles |
| Bosses.BossCosti.UpdateAI | src/entities/enemies/BossCosti.js:151-189 | an attack in progress runs its step and no action starts; otherwise the counter advances, and exactly when it reaches the cooldown it resets and the rolled action starts (charge: 45 frames; slam: 60 frames, not yet leapt; jump: 80 frames with vy -16); before that the boss approaches a player more than 80px away; in every case the velocities, stance, dialogue and queued throw are the ones Decide plans, a throw being a fresh projectile aimed from the boss's centre |
| Bosses.BossCosti.Cooldown | src/entities/enemies/BossCosti.js:156-188 | with no attack in progress: the plan Decide makes, carried out: the counter and approach, or the chosen action with its line and, for a throw, its fresh projectile |
| Bosses.BossCosti.ContinueAttack | src/entities/enemies/BossCosti.js:152-154 | the charge steps first, else the slam, else the jump; a slam that has leapt and is on the ground emits a shockwave and ends; the stance after is the one Continued computes |
| Bosses.BossCosti.StartAction | src/entities/enemies/BossCosti.js:172-188 | exactly the chosen action starts, in the stance Started gives, speaking the line Spoken picks; exactly the three throws queue a fresh projectile, launched as that throw's shot from the centre |
| Bosses.BossCosti.StartAttack | src/entities/enemies/BossCosti.js:192-253 | the charge, slam or jump attack starts in the stance Started gives and speaks its line |
| Bosses.BossCosti.StartThrow | src/entities/enemies/BossCosti.js:267-306 | a fresh projectile launched as the throw's shot from the centre, the stance untouched, and the throw's line |
| Bosses.BossCosti.StartCharge | src/entities/enemies/BossCosti.js:192-197 | charging for 45 frames, with a charge taunt for 30 |
| Bosses.BossCosti.DoCharge | src/entities/enemies/BossCosti.js:199-207 | runs at the phase's charge speed in the facing direction and counts down; when the timer runs out the charge ends with vx = 0 |
| Bosses.BossCosti.StartSlam | src/entities/enemies/BossCosti.js:210-216 | slamming for 60 frames, not yet leapt, with a slam taunt for 30 |
| Bosses.BossCosti.DoSlam | src/entities/enemies/BossCosti.js:218-242 | the first step leaps (vy -14, vx 0) and restarts the 60-frame timer; afterwards landing emits exactly one shockwave under the boss with the phase's radius and damage 20 and ends the slam, and the slam also ends when the timer runs out |
| Bosses.BossCosti.StartJumpAttack | src/entities/enemies/BossCosti.js:245-253 | jumping for 80 frames with vy -16 and JumpVx of the distance, with a jump taunt for 30 |
| Bosses.BossCosti.DoJumpAttack | src/entities/enemies/BossCosti.js:255-264 | the timer counts down; landing after the first 20 frames ends the jump with vx = 0, and so does the timer running out |
| Bosses.BossCosti.ThrowDumbbellAt | src/entities/enemies/BossCosti.js:267-277 | a fresh 24x12 dumbbell from just above the centre, thrown level towards the player at 4 + phase with a -3 lob |
| Bosses.BossCosti.ThrowShakeAt | src/entities/enemies/BossCosti.js:279-291 | a fresh 12x16 shake from the centre, aimed at the player at 5 px/frame |
| Bosses.BossCosti.ThrowOilAt | src/entities/enemies/BossCosti.js:294-306 | a fresh 14x14 oil bottle that stuns for 12 frames, aimed at the player at 4.5 px/frame |
| Combat.SpawnBlasts | src/core/Game.js:489-490 | one burst of BurstSize(count) new particles per blast, all distinct and fresh |
| Combat.Ids | src/core/Game.js:483 | the ids the swing's hit set records, one per enemy, in list order |
| Combat.IdsDistinct | src/core/Game.js:483-488 | enemies with distinct ids are distinct objects, so a set of ids tells the enemies apart as the source's set of objects does |
| Combat.Chosen | src/core/Game.js:482-491 | the flagged entries, each one from the list, and every flagged entry among them |
| Combat.ChosenNone | src/core/Game.js:482-491 | with nothing flagged nothing is chosen |
| Combat.AddAll | src/core/Game.js:488 | the hit set grows by exactly the ids added |
| Combat.SwingAt | src/core/Game.js:483-488 | an enemy is struck exactly when it is alive, not yet hit by this swing and under the box; a struck enemy takes the damage (health floored at 0, dead at 0) and any other is untouched |
| Combat.Struck | src/core/Game.js:483-484 | the swing lands on an enemy exactly when it is alive, not yet hit by this swing and overlaps the swing box |
| Combat.SwingAtEnemies | src/core/Game.js:482-492 | each enemy is struck exactly when it was struck on entry; the struck ones take the damage in list order, the others are untouched, and they are returned in list order |
| Combat.SwingThrough | src/core/Game.js:478-493 | the same swing, and every enemy it lands on joins the player's hit set, so the box cannot land on it again this swing |
| Combat.HitBlasts | src/core/Game.js:489 | a white blast at the centre of each struck enemy, in the order struck |
| Combat.SwingAtBoss | src/core/Game.js:445-458 | the boss is struck exactly when alive, not yet hit by this swing and under the box; unless its invincibility frames are running it loses the damage, floored at 0, dies at 0 and moves to the phase NextPhase gives; a miss changes nothing |
| Combat.StruckBoss | src/core/Game.js:445-451 | the swing lands on the boss exactly when it is alive, not yet hit by this swing and overlaps the swing box |
| Combat.Harm | src/entities/Player.js:166-184 | a shielded player is untouched; otherwise health drops to at least 0, the player is HURT, or DEAD with exactly one life fewer when nothing was left, is knocked 3 px/frame away from the source and 4 up, loses its swing, gets 8 hurt and 90 invincibility frames, and is shielded afterwards |
| Combat.StunAfter | src/core/Game.js:513-515 | the stun timer is untouched when no hit stuns, and otherwise is the stun of the frontmost stunning hit, which the walk from the end reaches last |
| Combat.TakeAllMiss | src/core/Game.js:506-520 | no shot touching means the player is untouched |
| Combat.TakeAllOnce | src/core/Game.js:506-520 | however many shots hit in one frame, only the last one in list order deals damage and knockback (away from that shot's centre), because its invincibility shields the player from the rest; the stun still comes from the frontmost stunning hit |
| Combat.StrikeAt | src/core/Game.js:508-518 | a shot hits exactly when it is alive, not the player's own and touching the player; a hit deals its damage with the knockback and timers of Harm from the shot's centre, sets the stun when it has one and spends the shot |
| Combat.ProjectileHits | src/core/Game.js:506-520 | each shot hits exactly when it did on entry; hits are spent and spliced out, the others keep their order, no shot moves, and the player takes the hits (damage, knockback, timers, stun) from the end of the list to its front |
| Combat.Strikes | src/core/Game.js:509-510 | an enemy shot that is still flying touches the player's box |
| Combat.Take | src/core/Game.js:510-516 | a miss changes nothing; a hit deals its damage unless the player is shielded, leaves the player shielded and sets a positive stun; health never goes below 0 and at most one life is lost, leaving the player shielded; the knockback and timers are Harm's from the shot's centre |
| Combat.TakeAll | src/core/Game.js:506-520 | the hits taken from the end of the list to its front (what they add up to is stated by TakeAllOnce and StunAfter) |
| Combat.FirstTouch | src/core/Game.js:497-502 | the first live enemy in list order touching the player's box, or none when nobody touches it |
| Combat.Touches | src/core/Game.js:498-499 | a live enemy's body touches the player's box |
| Combat.EnemyContact | src/core/Game.js:495-504 | nothing happens while the player has invincibility frames or is dead; otherwise exactly the first enemy touching the player deals its contact damage, with Harm's knockback away from that enemy's centre and its timers, and no contact changes nothing |
| Combat.HurtPlayer | src/entities/Player.js:166-184 | the hit as Harm states it (health, lives, state, knockback away from `sourceX`, hurt, invincibility and swing timers); a shielded player is untouched, and the player's position does not move |
| Combat.BossContact | src/core/Game.js:461-467 | the boss deals its contact damage exactly when it is alive, the player has no invincibility frames, is not dead and touches it, with Harm's knockback away from the boss's centre and its timers; otherwise nothing changes |
| Combat.SquareLess | src/core/Game.js:418-419 | squaring keeps the order of non-negative numbers |
| Combat.InReachIsDistance | src/core/Game.js:416-419 | the squared-distance test agrees with the source's square-root test for every non-negative radius |
| Combat.InReach | src/core/Game.js:416-419 | the player's centre lies strictly inside the shockwave's circle, compared on squares |
| Combat.ShockwaveRing | src/core/Game.js:422-425 | gold blasts every 20 px from `x - radius` while below `x + radius`, 4 px above the ground line: none for a radius of 0 or less, otherwise one per 10 px of radius, rounded up |
| Combat.Roll | src/core/Game.js:436-437 | the k-th roll supplied, or 0.5 (no offset) once they run out |
| Combat.DeathBlasts | src/core/Game.js:435-440 | five gold blasts, each inside a 60x80 box centred on the boss when the rolls lie in [0, 1) |
| Lists.Keep | src/core/Game.js:531-536 | what survives a walk that splices out every flagged entry: never longer than the list, and the whole list when nothing is flagged |
| Lists.KeepFrom | src/core/Game.js:531-536 | every entry left after the splices was in the list |
| Lists.KeepExactly | src/core/Game.js:531-536 | in a list free of repeats an entry survives the splices exactly when it was not flagged |
| Lists.KeepDistinct | src/core/Game.js:531-536 | the survivors of a list free of repeats have no repeats |
| Lists.DistinctAppend | src/core/Game.js:383 | pushing new, pairwise distinct objects onto a list free of repeats keeps it free of repeats |
| Lists.IndexOf | src/core/Game.js:552 | `indexOf`: the first position of the entry, and -1 exactly when it is absent |
| Lists.SpliceOut | src/core/Game.js:553 | splicing one entry out of a list free of repeats removes exactly that entry and keeps the rest distinct |
| Games.KindOf | src/core/Game.js:25-30 | exactly the names candy, chips, soda and cake name an enemy class |
| Games.KnownSpawns | src/core/Game.js:119-126 | exactly the spawns of a known enemy type: each is taken from the list, and every such spawn of the list is in it |
| Games.KnownItems | src/core/Game.js:138-152 | exactly the item spawns the item table knows: each is taken from the list, and every such spawn of the list is in it |
| Games.Filter | src/core/Game.js:119-126 | the loop that skips unknown entries: no longer than the list, every entry kept passes the test and is from the list, and every entry of the list that passes is kept |
| Games.Blocked | src/core/Game.js:142 | the loop keeps moving up while the row exists and its cell in the spawn column is not air (a missing cell counts as not air) |
| Games.SpawnRow | src/core/Game.js:139-145 | the nearest row at or above the spawn row that the loop stops at: every row skipped is an existing row whose cell is not air |
| Games.SpawnRowIsAir | src/core/Game.js:142 | a spawn that ends inside the grid ends on an air cell of its column |
| Games.SpawnRowKeepsFreeCell | src/core/Game.js:142 | a spawn already on air, or outside the grid, stays where it is |
| Games.FindSpawnRow | src/core/Game.js:139-145 | the loop that moves the spawn up ends on SpawnRow |
| Games.LastActivated | src/core/Game.js:522-529 | the last activated checkpoint, with none activated after it, or none when no checkpoint is activated |
| Games.RespawnPoint | src/core/Game.js:522-529 | the last activated checkpoint, else the level's player spawn |
| Games.TouchCheckpoints | src/core/Game.js:262-269 | the checkpoints keep their place; each is activated exactly when it was already or the player's centre is within 24 px across (offset 16) and 48 px up or down |
| Games.NearMarker | src/core/Game.js:264-265 | the centre lies within 24 px across (offset 16) and 48 px up or down of the marker |
| Games.TouchKeepsActivated | src/core/Game.js:262-269 | activation is one-way |
| Games.TouchAdvancesRespawn | src/core/Game.js:262-269 | walking past checkpoints never moves the respawn point back to an earlier checkpoint |
| Games.TickTexts | src/core/Game.js:592-601 | every surviving popup has at least one frame left, and the list never grows |
| Games.TickTextsFromOld | src/core/Game.js:592-601 | each surviving popup is an existing one, one frame older and one pixel higher |
| Games.PopupLifetime | src/core/Game.js:583-599 | a popup created with 60 frames survives 59 ticks and the 60th removes it |
| Games.KnownMinions | src/core/Game.js:369-376 | exactly the minion requests of a known enemy type: each is taken from the list, and every such request of the list is in it |
| Games.PlaceCollectible | src/core/Game.js:139-151 | no pickup exactly for an unknown item; otherwise a fresh, uncollected pickup of that item at the spawn column and SpawnRow |
| Games.SpawnCollectibles | src/core/Game.js:136-153 | one fresh pickup per known item spawn, in list order, each placed as PlaceCollectible states, and none twice |
| Games.Game.constructor | src/core/Game.js:33-82 | the title screen, level 0 not loaded, the player at (100, 300) with no power-ups, and every list empty |
| Games.Game.SpawnEnemies | src/core/Game.js:118-126 | one fresh, unactivated enemy per known spawn, in list order, at the spawn's tile times 32, with ids counting up |
| Games.Game.SpawnEnemy | src/core/Game.js:122-124 | a fresh, unactivated, consistent enemy of the spawn's class at the spawn's tile times 32, with the given id |
| Games.Game.LoadLevel | src/core/Game.js:84-158 | an index outside the table changes nothing; otherwise that level is loaded, the player placed, the per-level lists cleared, its enemies, pickups and, exactly when the level names costi, the boss spawned, and the level intro shown from frame 0 |
| Games.Game.Enter | src/core/Game.js:88-157 | the same for an index inside the table |
| Games.Game.ClearLevelState | src/core/Game.js:88-157 | the index and level are set, projectiles, particles and popups are cleared, the boss intro and grave are reset and the level intro starts |
| Games.Game.PlacePlayer | src/core/Game.js:91-106 | the player stands on the spawn at rest with full health, and the camera follows it, snapped and clamped to the level |
| Games.Game.Populate | src/core/Game.js:118-153 | the enemies, the boss and the pickups of the level, as LoadLevel states |
| Games.Game.NextLevel | src/core/Game.js:333-341 | past the last level the game is won; otherwise the next level is loaded |
| Games.Game.Restart | src/core/Game.js:343-350 | three lives, score 0, full health, IDLE, no power-ups, and the first level loaded |
| Games.Game.LoadFirstLevel | src/core/Game.js:169 | the first level is loaded, or nothing changes for an empty level table |
| Games.Game.GetLastCheckpoint | src/core/Game.js:522-529 | the respawn point RespawnPoint gives |
| Games.Game.TouchCheckpointsStep | src/core/Game.js:262-269 | the level's checkpoints become TouchCheckpoints of the player's centre |
| Games.Game.CheckExit | src/core/Game.js:271-278 | the level is complete exactly when it has an exit and the player's centre is near it |
| Games.Game.EmitBurst | src/core/Game.js:318-319 | a burst is pushed behind the existing particles: BurstSize(count) fresh live particles at the point |
| Games.Game.PlayerDeath | src/core/Game.js:316-331 | a 12-particle burst, a grave at the player's feet for 90 frames, and the player DEAD at rest at y = -200, with its lives and x unchanged |
| Games.Game.UpdateParticles | src/core/Game.js:531-536 | every particle moves by one step and the dead ones are spliced out, the rest in order |
| Games.Game.MoveEnemies | src/core/Game.js:352-388 | the enemies dead after their turn are removed, their score is added, the survivors keep their order, and the minions follow them, fresh, awake and alive |
| Games.Game.UpdateEnemies | src/core/Game.js:352-388 | the same, with the shots pushed onto the projectiles and the death bursts onto the particles |
| Games.Game.CheckPlayerAttack | src/core/Game.js:478-493 | with no swing box nothing is struck; otherwise each enemy is struck exactly as Struck says, takes the damage times the damage modifier and joins the hit set, the others are untouched, and five particles per strike are pushed |
| Games.Game.SwingEnemies | src/core/Game.js:482-492 | the swing loop over the game's enemies, as SwingThrough states |
| Games.Game.CheckPlayerAttackBoss | src/core/Game.js:445-459 | the boss is struck exactly when it is alive, a swing box exists and lands on it and it is not yet in the hit set; a strike adds it to the hit set, pushes five particles and, without invincibility frames, deals the modified damage; a miss changes nothing |
| Games.Game.CheckBossDeath | src/core/Game.js:430-443 | a dead boss outside the victory screen adds its score, sets off five 8-particle bursts and shows the victory screen; otherwise nothing changes |
| Games.Game.BossIntroCheck | src/core/Game.js:394-402 | the boss intro starts exactly when it was never shown and the player is within 300 px across |
| Games.Game.BossTurn | src/core/Game.js:407-412 | the boss's frame, with at most one thrown projectile pushed at the end; a started action is the one the roll picks, and for an active boss the one its plan for the frame starts |
| Games.Game.ShockwaveHit | src/core/Game.js:414-427 | a player strictly inside the circle takes the shockwave's damage with Harm's knockback away from its centre and its timers, one outside is untouched, and the ring's bursts are pushed |
| Games.Game.UpdateBoss | src/core/Game.js:390-428 | nothing happens without a live boss; an unactivated boss only triggers its intro; an active boss runs its frame, pushes its shot and its shockwave's bursts and harms the player exactly when the shockwave reaches it |
| Games.Game.UpdateProjectiles | src/core/Game.js:469-476 | every projectile flies one frame against the level's map and the dead ones are spliced out, the rest in order |
| Games.Game.UpdateCollectibles | src/core/Game.js:538-542 | pickups not yet taken advance their bob, pulse and sparkle timers; taken ones are untouched; no box, item or collected flag changes |
| Games.Game.CheckCollectibleCollection | src/core/Game.js:544-557 | each pickup is taken exactly when it is not yet taken and the player's box, padded by 6 px times the size scale at its turn, overlaps it; that scale is in [1, 1.5], is the scale before the walk for the last item and changes between turns only after a supplement is taken; score and health change by GainAll of the pickups taken, each powerup taken adds its popup in order, and each pickup taken is queued for removal |
| Games.Game.FireRemoval | src/core/Game.js:551-554 | the oldest queued removal fires: that pickup leaves the list, nothing else does, and a pickup already gone leaves the list unchanged |
| Games.Game.UpdateFloatingTexts | src/core/Game.js:592-601 | the popups become TickTexts of the old ones |
| Games.Game.TitleStep | src/core/Game.js:166-173 | the title clock gains 0.02; Space or Enter loads the first level, otherwise the title screen stays |
| Games.Game.IntroStep | src/core/Game.js:175-194 | the screen timer counts up; after 30 frames Space or Enter starts play, and the boss intro also activates the boss |
| Games.Game.OverlayStep | src/core/Game.js:196-208 | before 60 frames or without Space or Enter only the timer counts; then the level-complete screen moves to the next level or to victory, and game over or victory restart the game |
| Games.Game.GraveStep | src/core/Game.js:217-241 | the grave counts down one frame; when it runs out the game is over with no lives left, and otherwise the player respawns at RespawnPoint at rest, with full health, IDLE and 90 invincibility frames |
| Games.Game.TickGrave | src/core/Game.js:219-220 | the grave loses a frame and the particles take their step |
| Games.Game.GraveExpiry | src/core/Game.js:224-240 | the grave is gone; with no lives left the game is over, otherwise the player respawns as GraveStep states |
| Games.Game.ClampToLevel | src/core/Game.js:254-259 | a player inside the level stays put; one past the left edge is put at 0, one past the right edge flush with it, with vx = 0, so the player ends inside the level; the new x and vx are Clamped of the old |
| Games.Game.StepPlayer | src/core/Game.js:244-247 | after input and motion the speeds stay within the terminal velocity and the running speed limit |
| Games.Game.CollidePlayer | src/core/Game.js:249-259 | the player's vertical state is the tile resolution of its body, and its x and vx are the resolved x and vx clamped to the level's width (Clamped) |
| Games.Game.DeathChecks | src/core/Game.js:280-288 | the player dies exactly when it fell more than 64 px below the level or is DEAD without a grave; a death leaves the grave and the burst |
| Games.Game.Update | src/core/Game.js:164-314 | one frame keeps every invariant between frames and clears the edge-triggered keys at its end; on the title screen the banner timer rises by 0.02 and Space or Enter loads the first level; an intro's timer runs and a confirm once past 30 frames starts play; an overlay's timer runs and a confirm once past 60 frames moves to the next level, to VICTORY after the last, or to a fresh game; a PLAYING frame with the grave up runs the grave down and at its end goes to GAME_OVER without lives, else stays PLAYING; no PLAYING frame returns to the title; LOADING, MENU and PAUSED keep their screen and timer |
| Games.Game.ScreenStep | src/core/Game.js:164-213 | each screen state takes its own step, with the screen transitions Update states, and the invariants are kept |
| Games.Game.PlayingStep | src/core/Game.js:215-313 | the grave step while a grave is up (the grave loses a frame; at its end GAME_OVER without lives, else PLAYING; lives unchanged), else the live frame; never the title screen |
| Games.Game.LiveStep | src/core/Game.js:244-313 | the live frame keeps the invariants and never returns to the title screen |
| Games.Game.ActionStages | src/core/Game.js:244-305 | the player, body and fight stages keep the invariants, only push particles and never return to the title screen |
| Games.Game.BodyStages | src/core/Game.js:244-295 | the player stage and the enemy, boss and projectile updates: enemies and projectiles afterwards are earlier ones or fresh |
| Games.Game.FightStages | src/core/Game.js:296-305 | the attack and harm stages keep the invariants, only push particles, and change the screen only to VICTORY |
| Games.Game.PlayerStage | src/core/Game.js:244-290 | the player's moves, checkpoints, the exit and death checks keep the invariants and never return to the title screen |
| Games.Game.MoveStage | src/core/Game.js:293-295 | the enemies, the boss and the projectiles take their frame; enemies and projectiles afterwards are earlier ones or fresh |
| Games.Game.EnemiesStep | src/core/Game.js:293 | the enemy pass keeps the invariants and only pushes projectiles and particles |
| Games.Game.BossStep | src/core/Game.js:294 | the boss pass keeps the invariants and only pushes projectiles and particles |
| Games.Game.ProjectilesStep | src/core/Game.js:295 | no projectile appears out of nowhere |
| Games.Game.AttackStage | src/core/Game.js:296-298 | the swing at the enemies and the boss and the death check keep the invariants and change the screen only to VICTORY |
| Games.Game.HarmStage | src/core/Game.js:299-301 | contact and shot damage keep the invariants |
| Games.Game.SwingEnemiesStep | src/core/Game.js:296 | the swing at the enemies keeps the invariants |
| Games.Game.SwingBossStep | src/core/Game.js:297 | the swing at the boss keeps the invariants |
| Games.Game.BossDeathStep | src/core/Game.js:298 | the boss death check keeps the invariants and changes the screen only to VICTORY |
| Games.Game.ContactStep | src/core/Game.js:299-300 | enemy and boss contact keep the invariants |
| Games.Game.CheckProjectileHits | src/core/Game.js:506-520 | each enemy shot hits exactly as Strikes says, the hits are spliced out, and the player takes them as TakeAll states |
| Games.Game.StrikePlayer | src/core/Game.js:506-520 | the walk of the shots over the player: each shot is tested against the player's box as it was, the hits are spent and leave the list, the rest keep their order, and the player takes the hits in order (TakeAll) |
| Games.Game.PickupStage | src/core/Game.js:302-310 | particles, pickups, popups and power-ups take their frame |
| Games.Game.ParticlesStep | src/core/Game.js:302 | the particles become LiveParticles of the old ones |
| Games.Game.CollectStep | src/core/Game.js:304 | pickups keep their shape and every active power-up is an earlier one or fresh |
| Games.Game.PowerUpsStep | src/core/Game.js:307-310 | the power-ups tick with the manager's invariant kept |
| Games.Game.SettlePlayer | src/core/Game.js:290 | the post-collision update keeps the invariants |
| Games.ItemShape | src/data/items.js:7-54 | health items carry a non-negative amount and powerups a power-up type |
| Games.KeepIds | src/core/Game.js:385 | splicing enemies out splices their ids out in the same way |
| Games.SpawnMinions | src/core/Game.js:368-377 | one fresh minion per known request, awake, alive and at the requested spot, with ids counting up |
| Games.SpawnMinion | src/core/Game.js:372-374 | a fresh minion of the requested class at the requested spot, activated at once, alive and with nothing pending |
| Games.EnemyPass | src/core/Game.js:352-388 | the dead are removed and their score gained, survivors keep their order, minions follow them, and every id stays distinct |
| Games.RunEnemy | src/core/Game.js:360-378 | an activated enemy's turn: its shot and minion requests are drained; when the enemy acts, the shot handed back is Chips' aimed shot exactly when Think fires (none otherwise) and the minions handed back are the ones Think calls; it neither dies nor wakes here |
| Games.StepEnemy | src/core/Game.js:356-378 | an enemy wakes exactly when it was awake or the camera sees it within 100 px; a sleeping one fires nothing |
| Games.WalkEnemies | src/core/Game.js:353-387 | the walk from the end of the list: each enemy takes its turn, the dead are spliced out, and their score values are summed |
| Games.SpliceReady | src/core/Game.js:374-385 | the survivors plus the minions keep the between-frame invariants with distinct ids |
| Games.KeepLiveEnemies | src/core/Game.js:381-386 | the survivors of the walk are the live enemies, and the score gained is the dead ones' sum |
| Games.LiveEnemiesAlive | src/core/Game.js:381-386 | every survivor is alive and was in the list |
| Games.LiveEnemies | src/core/Game.js:381-386 | the enemies the walk keeps, in list order (KeepLiveEnemies and LiveEnemiesAlive state what it holds) |
| Games.DeadScore | src/core/Game.js:381-385 | the score the dead enemies are worth, which the walk adds |
| Games.GoneScore | src/core/Game.js:384 | the score the flagged enemies are worth |
| Games.Pickups | src/core/Game.js:559-590 | what each pickup contributes, one per pickup |
| Games.GainAllScore | src/core/Game.js:562-572 | the score rises by the bounty of the pickups taken |
| Games.GainAllCapped | src/core/Game.js:565 | health pickups never push health above the maximum, and never lower it |
| Games.PopupOf | src/core/Game.js:574-587 | a popup only for a powerup, with a non-empty text, 60 frames, at the pickup's centre; its own display name when it has one, and otherwise exactly when the power-up type is known |
| Games.PopupsAll | src/core/Game.js:545-587 | at most one popup per pickup, collected in the order the walk takes them |
| Games.PopupsAllFresh | src/core/Game.js:574-587 | every new popup is fresh, with 60 frames and a non-empty text |
| Games.Taken | src/core/Game.js:549-554 | the flagged entries in the order the walk from the end takes them (reverse list order); every flagged entry is in it, and TakenFrom shows nothing else is |
| Games.TakenFrom | src/core/Game.js:549-554 | every pickup queued for removal was taken |
| Games.ApplyCollectibleEffect | src/core/Game.js:559-590 | score and health change by Gain; a powerup adds a fresh power-up of its type that replaces any of that type; other kinds leave the power-ups alone; the popup is PopupOf |
| Games.CollectOne | src/core/Game.js:545-555 | a pickup is taken exactly when it is not yet taken and the box padded by 6 px times the current scale (in [1, 1.5]) overlaps it; only then do score, health and popups change, and only a supplement taken changes the scale |
| Games.CollectAll | src/core/Game.js:545-556 | the loop over all pickups from the end of the list: every pickup is gathered as CollectOne decides at the scale of its turn (GatheredAll, ScaleWalk), score and health change by GainAll and the popups are PopupsAll |
| Games.GatheredAllEach | src/core/Game.js:545-556 | the walk's per-item record holds item by item |
| Games.ScaleWalkCons | src/core/Game.js:545-556 | one more item at the front of the walk, having its turn at the scale the rest of the walk left, extends the scale record |
| Games.Gain | src/core/Game.js:559-590 | a coin, health pack or supplement scores its points and any other type changes nothing; only a health pack changes health, and never past the maximum from at or below it |
| Games.GainAll | src/core/Game.js:545-556 | the flagged pickups' gains, from the end of the list to its front (their sums are stated by GainAllScore and GainAllCapped) |

## Left out
- Rendering: every `draw`/`render`, the HUD, the title decoration, sprite and colour animation driven by `Date.now()`, and canvas sizing are presentation, not simulation.
- The touch handlers of the input source (src/core/Input.js:36-117) are DOM wiring; a touch start acts as KeyDown without the focus check and a touch end as KeyUp, and the slide-off tracking of `_touchActive` is not modelled.
- The high-score fetch and localStorage fallback are network and storage I/O outside the core.
- `requestAnimationFrame` and `performance.now()`: GameLoop.Tick takes the timestamp as a parameter and the update and render callbacks are recorded as a count of updates.
- `Math.random`: every roll is a parameter (FrameRolls, BurstRoll, the boss's roll, pick and chance); Collectible's random bob phase is a constructor argument; Soda's shake offset and the fizz particles are random cosmetics and are not modelled.
- `Math.sqrt`: distance checks are compared on squared distances (Combat.InReachIsDistance shows the two tests agree); the aimed throws take `sqrt` as a parameter.
- Enemy variants: the four variant subclasses are one class with a `kind` tag, since traits and inheritance are outside this model; each variant's AI is a method citing its own file.
- Enemy distance: `distanceTo` is used only against a detection range, modelled as a squared-distance comparison.
- Enemies.Enemy.ChipsAI: a chips enemy exactly on the player divides by zero in the source (NaN velocity); the model's aim component is 0 there.
- Bosses.BossCosti.Update: states the timers, the facing, the vertical-speed bound and the action the frame's plan starts, but not the rest of the plan; the plan's velocities, stance, dialogue and thrown projectile are stated by Bosses.BossCosti.Think and the resolved body by Bosses.BossCosti.StepPhysics, and composing the two into one post-state of Update costs more verification effort than the proof budget allows.
- Bosses.BossCosti.ActiveFrame: carries up the same part of the frame as Bosses.BossCosti.Update, for the same reason.
- Bosses.BossCosti.ThinkFrame: carries up the same part of Bosses.BossCosti.Think's plan as Bosses.BossCosti.Update, for the same reason.
- Collision: the resolver works on a Body value (position, size, speed, grounded) that Player.SetBody and the enemies' and boss's StepPhysics copy back, because there is no shared entity base class.
- `dt`: the source passes it to every update; in the core only the power-up timers read it (PowerUps.PowerUp.Update lowers the time remaining by dt); everywhere else it is a parameter the model does not use.
- `this.player.powerUps &&` and `if (this.level)` guards: the game always creates the power-up manager, and past the title screen a level is always loaded (Game.LevelReady); the model keeps the level guard only in UpdateProjectiles.
- `splice` inside backward loops is modelled as rebuilding the list (Lists.Keep); the splices leave the same survivors in the same order.
- Enemy death bursts, hit bursts and ring bursts are spawned after the walk that produces them (Combat.SpawnBlasts) rather than inside it; as the particle rolls are parameters, only the order of the rolls consumed differs.
- Pushed minions are appended after the enemy walk (Games.SpawnMinions); the walk runs from the end of the list, so the source never visits them in the same frame either.
- Collectible removal: the 100 ms `setTimeout` is a FIFO queue `scheduledRemovals` that the host drains with Game.FireRemoval; timing of the host's timer is outside the model.
- Collectible `_onCollect`'s particle burst is built and then discarded by the source, and `_getColor` only serves drawing; neither is modelled.
- Collectible bob, pulse and sparkle timers are kept but only drawing reads them.
- Cake's animation timer is cosmetic and not modelled.
- Boss dialogue: the lines are kept as pools of strings; which line is shown is chosen by a parameter in place of `Math.random`.
- Games.Game.Update: `input.update()` runs after the screen step in every branch; in the grave branch the source calls it before the grave expiry check, which does not read input.
- Games.Game.LoadFirstLevel: states the loaded index, level, intro screen and full health and the kept invariants; the rest of the level load is stated by Games.Game.LoadLevel, which it calls.
- Games.Game.ActionStages: one piece of the live frame, split off for the proof; states the kept invariants, that only particles are pushed and that the title screen is never reached.
- Games.Game.BodyStages: one piece of the live frame; states the kept invariants and that the enemies and projectiles afterwards are earlier ones or fresh.
- Games.Game.FightStages: one piece of the live frame; states the kept invariants, that only particles are pushed and that the screen changes only to VICTORY.
- Games.Game.PlayerStage: one piece of the live frame; states the kept invariants and that the title screen is never reached; the player's moves are stated by the methods it calls.
- Games.Game.MoveStage: one piece of the live frame; states the kept invariants and that the enemies and projectiles afterwards are earlier ones or fresh.
- Games.Game.AttackStage: one piece of the live frame; states the kept invariants and that the screen changes only to VICTORY; the swings are stated by Combat.SwingAtEnemies and Combat.SwingAtBoss.
- Games.Game.PickupStage: one piece of the live frame; states the kept invariants; the pickups, particles and power-ups are stated by the operations it calls.
- Games.Game.EnemiesStep: states only the kept invariants and that only projectiles and particles are pushed; each enemy's frame is stated by Enemies.Enemy.Update and the requests it hands back by Games.RunEnemy.
- Games.Game.BossStep: states only the kept invariants and that only projectiles and particles are pushed; the boss's frame is stated as far as Bosses.BossCosti.Update states it (see that line).
- Games.Game.ProjectilesStep: states only that no projectile appears from nowhere and the kept invariants; each shot's frame is stated by Projectiles.Projectile.Update.
- Games.Game.SwingEnemiesStep: states only the kept invariants; the swing is stated by Combat.SwingAtEnemies.
- Games.Game.SwingBossStep: states only the kept invariants; the swing is stated by Combat.SwingAtBoss.
- Games.Game.BossDeathStep: states only the kept invariants and that the screen changes only to VICTORY; the death burst is stated by Combat.DeathBlasts.
- Games.Game.ParticlesStep: states the new particles as LiveParticles of the old and the kept invariants.
- Games.Game.StepPlayer: states only the speed bounds and the kept invariants; the detailed input step is stated by Players.Player.HandleInput and Players.Player.Update.
- Games.Game.BossTurn: states the started action and the projectile queue; the rest of the boss's frame is stated as far as Bosses.BossCosti.Update states it (see that line).
- Games.Game.UpdateBoss: the boss's own frame is stated as far as Bosses.BossCosti.Update states it (see that line).
- Games.Game.CollectStep: states only that the pickups keep their shape, that every active power-up is an earlier one or fresh, and the kept invariants; the pickups themselves are stated by Games.Game.CheckCollectibleCollection.
- Games.Game.PowerUpsStep: states only the manager's invariant and the kept invariants; the timers are stated by PowerUps.PowerUpManager.Update.
- Games.Game.SettlePlayer: states only the kept invariants; the settling is stated by Players.Player.PostCollisionUpdate.
- Games.Game.HarmStage: states only the kept invariants; the damage is stated by Combat.EnemyContact, Combat.BossContact and Games.Game.CheckProjectileHits.
- Games.Game.ContactStep: states only the kept invariants; the contact damage is stated by Combat.EnemyContact and Combat.BossContact.
- Games.RunEnemy: states the drained requests against Enemies.Think and that the enemy neither dies nor wakes; the rest of the enemy's frame is stated by Enemies.Enemy.Update.
