# Doom-lite game core in Dafny

A model of the game-simulation core of a small browser shooter in the style of Doom. The
player walks a 16×16 tile map, shoots floating cubes and reaches the exit tile. Each frame,
`update(state, dt, setHud)` advances the world by one tick:

- it moves the player and the enemies;
- it flies, wounds and removes projectiles;
- it lets explosion fragments bounce.

`render` then draws the world. It uses a ray-marched depth buffer, billboards sorted far to
near with a depth-buffer occlusion test, shading and ambient-occlusion terms, and a final
greyscale pass over the pixel buffer. The touch controls turn finger drags into a move
vector and a look stick.

The repository keeps two copies of this logic:

- the single-file component `src/components/DoomLiteCanvas.jsx`;
- the modular files under `src/game/` and `src/controls/`.

Where the copies differ, the model carries a `World.Snapshot` (`Canvas` or `Modular`) and
follows each copy:

- the shot cooldown (0.15 or 0.12) and the bullet lifetime (1.2 or 1.4);
- the enemy placement (uniform, or clamped spread);
- the explosion (bouncing, or drifting);
- the particle wall bounce, which only the component has.

Modules, one per concern:

| module | models |
|---|---|
| `Wrappers` | `Option` |
| `Maths` | π; `Math.trunc/ceil/round/sign`; the truncating `%` by 2π; an abstract `Trig` record (`cos`, `sin`, `atan2`, `hypot`, `sqrt`) with the laws some lemmas need |
| `Utils` | `clamp`, `normalizeAngle`, `lerpAngles` |
| `Grid` | `baseMap`, `idx`, `tileAt`, `isWall`, `collide`, `visible` |
| `Entities` | the records of the state and the HUD updaters |
| `Physics` | `trySlide`, `resolveEnemyOverlaps` |
| `Spawn` | `spawnEnemies`, `spawnExplosion` (both variants) |
| `World` | the mutable `state` object and `initState` |
| `Combat` | aim assist, `spawnProjectile`, `tryShoot`, `reload` |
| `Tick` | `update`, phase by phase |
| `Visibility` | `projectBillboard` |
| `Raycast` | the column ray march and the slab ray/box test of the outdoor renderer |
| `Shading` | wall heights, shades, AO terms, contact shadows and the three column passes |
| `Greyscale` | the in-place pixel pass |
| `Sprites` | billboard collection, the far-to-near sort and the occlusion test |
| `Stick` | the stick arithmetic |
| `Touch` | the handlers of `touch.js` |
| `TouchControls` | the identifier-tracking handlers of `touchControls.js` |

Other modelling choices:

- Positions are `real`.
- Trigonometry is an abstract `Maths.Trig` value passed to every member that needs it.
- `Math.random()` is a stream `rand: nat -> real` of draws in [0, 1) with a cursor.
- `setHud` updaters are values of `Entities.HudEffect`, returned in the order they are queued.

## Model

| member | source | states |
|---|---|---|
| Utils.Clamp | src/game/utils.js:1-3 | result within [a, b] whenever a ≤ b; equal to v when v is already in range; a below the range, b above it |
| Utils.ClampIdempotent | src/game/utils.js:1-3 | clamping a clamped value changes nothing |
| Utils.ClampDevTests | src/tests/utils.test.js:4-6 | clamp(2,0,1) = 1, clamp(-1,0,1) = 0, clamp(0.5,0,1) = 0.5 |
| Utils.NormalizeAngle | src/game/utils.js:5-9 | result in [-π, π) and differing from the input by a whole number of turns |
| Utils.NormalizeAngleIdentity | src/game/utils.js:5-9 | the identity on [-π, π) |
| Utils.LerpAnglesStep | src/game/utils.js:11-14 | the interpolated angle moves away from a by at most π·t, because the step is normalised |
| Utils.LerpAnglesEnds | src/game/utils.js:11-14 | t = 0 gives a; t = 1 gives a direction equal to b up to whole turns |
| Utils.DevTestAcrossWrapFails | src/tests/utils.test.js:8-10 | the across-wrap midpoint does not normalise to within 0.5 of 0, so the dev assertion fails |
| Utils.LerpAcrossWrapShortWay | src/tests/utils.test.js:8-10 | across the wrap the step is the short 0.2; the midpoint is π, which normalises to -π |
| Grid.BaseMapShape | src/components/DoomLiteCanvas.jsx:22-39 | the map has 16 rows of 16 cells |
| Grid.Idx | src/components/DoomLiteCanvas.jsx:42 | an in-map cell gets a flat index below 256, whose row and column are y and x |
| Grid.MapCell | src/components/DoomLiteCanvas.jsx:22-39 | a flat index reads a tile exactly when it is in range |
| Grid.TileAt | src/components/DoomLiteCanvas.jsx:44 | any floored cell off the map is a wall; otherwise the map's cell at the floored point |
| Grid.PassableIsInside | src/components/DoomLiteCanvas.jsx:22-44 | a point that is not a wall lies in [1, 15) on both axes (the border is solid) |
| Grid.ExitTilePassable | src/components/DoomLiteCanvas.jsx:45 | the exit cell (14, 14), and every point on an exit tile, is not a wall |
| Grid.CollideFrom | src/components/DoomLiteCanvas.jsx:46-48 | the remaining loop reports a hit iff some later sample point is a wall |
| Grid.Collide | src/game/physics.js:3-12 | a hit iff one of the ten points on the circle of the given radius is a wall |
| Grid.CollideZeroRadius | src/game/physics.js:3-12 | with radius 0, collide equals isWall at the centre |
| Grid.VisibleFrom | src/components/DoomLiteCanvas.jsx:596 | the remaining loop succeeds iff no later interior sample is a wall |
| Grid.Visible | src/components/DoomLiteCanvas.jsx:594-598 | true for a segment no longer than STEP; true iff no interior sample i/steps, 1 ≤ i < steps, is a wall (endpoints untested) |
| Entities.EffectiveRad | src/game/update.js:83 | `rad \|\| 0.28`: the radius, or 0.28 when it is zero |
| Entities.ApplyEffect | src/game/update.js:47-115 | each HUD updater: a shot without ammo only sets the message; a shot with ammo costs one round; a boop costs 1 hp and a laser 12, neither going below 0; a cube down scores 120; reload and exit messages change no number |
| Entities.ApplyEffectsKeepsBounds | src/game/update.js:47-115 | any queue of updaters keeps hp and ammo non-negative, never raises hp or ammo and never lowers the score |
| Entities.ApplyEffectsAppend | src/components/DoomLiteCanvas.jsx:62 | two queues applied one after the other equal their concatenation |
| Entities.ScoreCountsCubes | src/game/update.js:87 | the score rises by exactly 120 per cube destroyed |
| Physics.TrySlide | src/game/physics.js:14-18 | take the x move if free; else take the y move if free; else stay put and report false. At most one coordinate changes, and a clear start stays clear |
| Physics.SeparatePair | src/game/physics.js:22-31 | only overlapping live pairs (0 < d² < (ra+rb)²) are touched; for an overlapping pair each side moves to its push exactly when collide there at its own radius is false, and stays put exactly when it is true; a clear enemy stays clear; all else kept |
| Physics.PushesAreOpposite | src/game/physics.js:27-29 | the two pushes are equal and opposite |
| Physics.PushesSeparateExactly | src/game/physics.js:26-29 | with an exact square root, two committed pushes leave the pair exactly touching |
| Physics.ResolveEnemyOverlaps | src/game/physics.js:20-35 | the result is exactly `ResolveFrom(enemies, 0)`, the in-place pairwise separation in loop order; same length; only positions change; dead enemies untouched; every enemy that started clear of walls ends clear |
| Physics.SeparateFrom | src/game/physics.js:23-33 | the inner loop as a value: live enemy i pushed apart from every later live enemy j in turn, each pair seeing the earlier pushes; the length is kept |
| Physics.ResolveFrom | src/game/physics.js:20-35 | the outer loop as a value: each live enemy in order separated from those after it; the length is kept |
| Spawn.CandidateRange | src/game/spawn.js:8-12 | candidates lie in [2, 14) (uniform) or within the clamp [1.5, 14.5] (spread) |
| Spawn.NewEnemyWellSpawned | src/game/spawn.js:14-27 | a pushed enemy has hp 60, is alive, has rad 0.28, cool in [0.5, 1.3), speed in [0.7, 1.6), sizeMul in [0.32, 0.44), \|rotSpd\| in [0.5, 2) and a grey in [180, 240) |
| Spawn.SpawnEnemies | src/game/enemies.js:3-26 | at most n enemies after at most 2000 tries; fewer only when the tries ran out; every one well spawned on a floor tile; the draws used |
| Spawn.BurstCount | src/game/effects.js:2 | 24..39 fragments (bouncing) or 28..45 (drifting) |
| Spawn.OutwardOnCircle | src/game/effects.js:4-12 | a fragment placed on the circle and moving along its radius flies straight outwards at its speed |
| Spawn.NewFragmentWell | src/game/spawn.js:60-72 | with lawful trigonometry every fragment meets its variant's ranges and flies outwards |
| Spawn.BounceFragmentWell | src/game/effects.js:4-16 | h in [0.30, 0.65), vh in [1.2, 2.5), ttl in [0.9, 1.6), size in [0.10, 0.28), speed in [2, 5.5), 0.02 from the centre |
| Spawn.DriftFragmentWell | src/game/spawn.js:56-72 | vh 0, noGravity, ttl in [0.9, 1.8), h = max(0, height) when given, else in [0.12, 0.22) |
| Spawn.SpawnExplosion | src/game/spawn.js:55-74 | appends the burst; earlier particles untouched; the count is in the variant's range; every new fragment well formed |
| World.GameState.constructor | src/game/update.js:118-133 | the initial state around given enemies: player at (2.5, 2.5) facing east with fov π/3, no shots or particles, timers and sticks at zero |
| World.InitState | src/game/update.js:118-133 | a fresh valid state with at most nine well-spawned enemies |
| Combat.AimDiff | src/game/combat.js:18 | the short-way angular distance to the enemy, in [0, π] |
| Combat.BestTargetUnique | src/game/combat.js:20 | at most one candidate is the strictly-closer-in-angle, earliest-on-ties target |
| Combat.AimStrengthBounds | src/game/combat.js:23-25 | the blend strength lies in [0, 0.6], and is 0.6 for a dead-centre target at point-blank range |
| Combat.AimedDirectionBounded | src/game/combat.js:23-26 | turning toward a target in the cone moves the aim by at most 0.6 of the 8° cone |
| Combat.TurnTowardBounded | src/game/utils.js:11-14 | lerping by t in [0, 0.6] toward a target within the 8° cone moves the angle by at most 0.6 of the cone |
| Combat.ComputeAimAssistDirection | src/game/combat.js:7-27 | no candidate (alive, within 9, visible, within 8°) iff baseDir is returned; otherwise the best target and a blended direction within 0.6·8° of baseDir |
| Combat.MakeProjectile | src/game/combat.js:29-37 | the record keeps the given speed, ttl, owner, kind and z0; trail = [] exactly for lasers |
| Combat.MakeProjectileGeometry | src/game/combat.js:31-35 | starts 0.2 from (x, y) on the line of its heading; horizontal heading of length \|cos pitch\| pointing away from the shooter unless cos pitch < 0 (offset · heading = 0.2·cos pitch); vz = sin(pitch)·spd, 0 for a level shot |
| Combat.TryShoot | src/game/combat.js:40-51 | no-op for a null or won state or while a timer runs; otherwise the cooldown starts (0.12, or 0.15 in the component), one player bullet is appended whatever the ammo, and the shot updater is queued; the target is none iff no enemy is an aim candidate, and otherwise the best-scoring candidate, with the bullet fired along its aimed direction (else along the player's facing) |
| Combat.Reload | src/game/combat.js:53-57 | no-op for a null state or while reloading; otherwise reloadTime = 0.9 and the reload message queued, nothing else changed |
| Tick.MovePlayer | src/game/update.js:21-23 | the loop-free move returns exactly `PlayerMoved` |
| Tick.PlayerMoved | src/game/update.js:21-23 | only x and y change; a clear start stays clear; both axes reach the target when it and the x-only move are wall-free |
| Tick.Look | src/game/update.js:25-33 | only dir and pitch change; pitch ends within ±80° |
| Tick.LookSettlesPitch | src/game/update.js:31-33 | with no vertical input the pitch shrinks toward 0 without changing sign, reaching 0 once dt ≥ 2/3 |
| Tick.RunDown | src/game/update.js:35-36 | never negative, never above a non-negative t, and 0 exactly once dt has used t up |
| Tick.Chase | src/game/update.js:41-45 | the enemy ends at `ChaseSpot`: put within 0.6; otherwise at the chase target when collide is false there, else where trySlide takes it (x only, then y only, then nowhere); any move goes to a wall-free spot, so a clear enemy stays clear |
| Tick.StepEnemy | src/game/update.js:38-55 | dead enemies skipped, no draw taken; the rest move to `ChaseSpot`, bob and spin; cool runs down unless it fires; fires iff 1.2 < d < 10, cooled down and visible (`FireGate`), then cool in [0.7, 1.7) and the laser is `EnemyLaser`; within 0.6 a boop iff the draw is below 0.5·dt, never beyond; exactly one draw per close enemy plus one per shot; stays clear; `EnemyStepped` and `StepKept` |
| Tick.StepLive | src/game/update.js:39-55 | a live enemy ends exactly at `ChaseSpot`, bobbed and spun, with cool 0.7 + its last draw when it fires (`FireGate`, laser `EnemyLaser`) and run down otherwise; within 0.6 a boop iff the first draw is below 0.5·dt; one draw per close enemy plus one per shot; stays clear |
| Tick.EnemyFire | src/game/update.js:49-55 | the laser is fired iff `FireGate`, aimed from the moved enemy at the player; only the cooldown changes: 0.7 + the draw k (one draw taken) when it fires, left run down and no draw otherwise |
| Tick.EnemyPass | src/game/update.js:38-55 | one pass of the enemy loop keeps its invariants: every enemy so far stepped per `EnemyStepped`, the projectile list extended by exactly their lasers, the updaters exactly their `Boops`, the draws exactly their `Draws` |
| Tick.FiredLasers | src/game/update.js:49-54 | the lasers of one tick, in enemy order, one per enemy that passed `FireGate`; all of them fresh |
| Tick.Boops | src/game/update.js:38-48 | the enemy loop's updaters: only boops |
| Tick.BoopsBounded | src/game/update.js:42-48 | never more boops than enemies within 0.6; none in a tick of no time; every close enemy boops once dt ≥ 2 |
| Tick.BoopsGrow | src/game/update.js:38-56 | one more enemy step extends the boops by its own boop and the draws by its own draws |
| Tick.EnemyPhase | src/game/update.js:38-56 | every enemy stepped per `EnemyStepped` (position, bob and spin, cooldown run down unless it fired); the projectiles become the old ones followed by exactly `FiredLasers`, all fresh; the updaters are exactly `Boops` and the draws used exactly `Draws` |
| Tick.PushTrail | src/game/update.js:70-74 | the pre-move point is appended and the trail keeps its newest ten points |
| Tick.FlyKeepsOk | src/game/update.js:61-75 | a projectile that keeps flying stays well formed (time left, trail only on lasers, at most ten points) |
| Tick.FirstHitFrom | src/game/update.js:80-92 | the first enemy from index i on that the point hits, or none when none from i on does |
| Tick.FirstHit | src/game/update.js:80-92 | the first live enemy whose radius contains the point, or none exactly when no live enemy does |
| Tick.FindHit | src/game/update.js:80-92 | the loop returns `FirstHit`: the first live enemy whose radius contains the point, or none when no live enemy does |
| Tick.Damaged | src/game/update.js:84-86 | hp drops by 60 and a live enemy dies exactly when its hp reaches 0 or less |
| Tick.Shot | src/game/update.js:59-96 | a projectile is kept, flown, iff it flies and hits nothing (a player shot misses every live enemy or is too high, an enemy laser misses the player); the enemies change only when a player shot hits, and then only `FirstHit` takes 60 damage |
| Tick.StepProjectile | src/game/update.js:59-96 | what it keeps and the enemies it leaves are exactly `Shot`; its updaters are exactly `ShotEffects`; expired or wall-bound shots are dropped without moving; a low player shot wounds at most one enemy, and particles change only on a `ShotKill`, by one `Exploded` burst at that cube; an enemy laser within 0.35 costs 12 hp |
| Tick.ShotEffectsAgree | src/game/update.js:79-96 | one CubeDown per cube `Shot` destroys; a LaserHit exactly when an enemy laser flies and is spent |
| Tick.ShotEffectsCounts | src/game/update.js:84-95 | a shot queues at most one updater: CubeDown iff `ShotKill`, LaserHit iff an enemy laser flies into the player |
| Tick.VolleyEffects | src/game/update.js:59-98 | the projectile loop's updaters are only CubeDown and LaserHit |
| Tick.VolleyLaserHits | src/game/update.js:93-96 | the loop queues one LaserHit per enemy laser that reaches the player |
| Tick.VolleyCubeDowns | src/game/update.js:84-89 | the loop queues one CubeDown per destroyed cube |
| Tick.SpawnedBurst | src/game/update.js:88 | the explosion appended index by index is one `BurstFrom` burst: 24..39 (bouncing) or 28..45 (drifting) outward fragments at the cube |
| Tick.ExplodedOk | src/game/update.js:88 | an explosion appends only live fragments above the floor |
| Tick.Volley | src/game/update.js:59-98 | the projectile loop and filter as a value: each projectile shot in order against the enemies the earlier ones left; the kept ones in order, never more than the inputs, none inside a wall |
| Tick.ProjectilePass | src/game/update.js:59-96 | one pass of the projectile loop keeps its invariants: the kept ones so far followed by the `Volley` of the rest make up the whole `Volley`, and likewise the updaters with `VolleyEffects` and the bursts with `VolleyKills` |
| Tick.TallyGrows | src/game/update.js:59-97 | one more shot extends the updaters by `ShotEffects`, the kills by `ShotKill` and the bursts by its explosion, keeping the whole-loop tally |
| Tick.ProjectilePhase | src/game/update.js:59-98 | the survivors and the enemies are exactly `Volley` of the inputs and the updaters exactly `VolleyEffects`; one LaserHit per `PlayerHits`; the particles are the old ones followed by one `BurstFrom` burst per `VolleyKills` kill, in order; survivors never inside walls; total health falls by 60 per hit; one cube-down per kill |
| Tick.StepParticle | src/game/update.js:100-111 | dropped iff its time runs out; otherwise it lands at h = 0 (snapping small speeds to 0), drifts and, in the component, bounces off walls at −0.25 |
| Tick.LandDamps | src/game/update.js:105-109 | a landing sets h to 0, keeps at most 35% of the vertical speed and never raises the horizontal speed |
| Tick.StepParticleDamps | src/components/DoomLiteCanvas.jsx:369-371 | floor and wall contact never speed a fragment up; a landing keeps at most 35% of the vertical speed |
| Tick.Survivors | src/game/update.js:100-112 | the surviving particles are all well formed and no more numerous |
| Tick.SurvivorsCount | src/game/update.js:102 | exactly the particles whose time outlasts the tick survive |
| Tick.ParticlePhase | src/game/update.js:100-112 | the loop and filter produce exactly the survivors |
| Tick.ExitIsOneCell | src/game/update.js:114-115 | a player on open ground is at the exit iff standing in cell (14, 14) |
| Tick.ActorPhase | src/game/update.js:8-57 | the player is exactly `Look` of `PlayerMoved` toward the move target; every enemy stepped per `EnemyStepped` against the moved player; the projectiles are the old ones followed by `FiredLasers`; separation is `ResolveFrom`; the updaters are exactly `Boops` and the draws `Draws`; a clear player stays clear, pitch within ±80° |
| Tick.MissilePhase | src/game/update.js:59-116 | the new frame is exactly: the player, the `Volley` of the projectiles against the separated enemies, the `Survivors` of the particles followed by one `BurstFrom` burst per `VolleyKills` kill, the timers `RunDown`, won set at the exit; the updaters are the boops, `VolleyEffects`, then LevelComplete iff at the exit; one LaserHit per `PlayerHits`, one cube-down per kill; `EnemiesKept` against the enemies the tick began with (dead ones untouched, clear ones clear, health and life never restored) |
| Tick.Step | src/game/update.js:8-116 | the new frame is exactly `Ticked`: the player at `Look(PlayerMoved(..))`, each enemy stepped per `EnemyStepped`, projectiles and enemies the `Volley` of the old projectiles plus `FiredLasers` against `ResolveFrom` of the stepped enemies, particles the `Survivors` of the old ones plus one `BurstFrom` burst per `VolleyKills` kill, timers `RunDown`, won iff already won or at the exit; updaters = `Boops` + `VolleyEffects` + LevelComplete iff at the exit; one LaserHit per `PlayerHits`, one cube-down per kill; a clear player stays clear; dead enemies untouched |
| Tick.Update | src/game/update.js:8-116 | the same `Ticked` relation between the fields before (`old`) and after, on the state object in place; the invariant kept and the input fields left alone |
| Tick.FreshLasersOk | src/game/update.js:52 | appending fired lasers keeps every projectile well formed |
| Tick.EffectsOfTick | src/game/update.js:47-115 | a tick's updaters are boops, then hits and kills, then the exit message iff at the exit; the CubeDown and LaserHit counts are the shots' |
| Visibility.WrapAsWritten | src/game/visibility.js:4 | from −π up the wrap lands in [−π, π); below −π it stays at or below −π |
| Visibility.WrapAsWrittenAgrees | src/game/visibility.js:4 | from −π up the wrap equals normalizeAngle |
| Visibility.Place | src/game/visibility.js:5-8 | null iff \|a\| > fov; otherwise z = dist, 0 < s ≤ 9999, screenX within [−0.5W, 1.5W], centred when a = 0 |
| Visibility.ProjectBillboardAsWritten | src/game/visibility.js:1-9 | null iff closer than 0.05 or the wrapped angle is outside the fov; otherwise z = dist ≥ 0.05 |
| Visibility.ProjectBillboard | src/game/visibility.js:1-9 | the corrected projectBillboard, its angle wrapped by normalizeAngle (src/game/utils.js:5-9): the same null cases, z = dist, 0 < s ≤ 9999, x within [−0.5W, 1.5W] |
| Visibility.AsWrittenAgrees | src/components/DoomLiteCanvas.jsx:534-542 | whenever the relative angle is at least −π, the projection as written (here and in src/game/visibility.js:1-9) equals the corrected one |
| Visibility.SameDirectionUnique | src/game/utils.js:5-9 | two angles in [−π, π) a whole number of turns apart are equal |
| Visibility.ProjectBillboardFullTurn | src/game/visibility.js:1-9 | with the corrected wrap, turning the player one full turn changes no projection |
| Visibility.SelfTest | src/components/DoomLiteCanvas.jsx:738-742 | a point 2 ahead projects with z > 0; a point 2 behind is culled |
| Visibility.AheadLostAfterFullTurn | src/game/visibility.js:4 | after one full right turn the written wrap culls the point straight ahead, which the corrected projection keeps |
| Raycast.WalkIsLinear | src/components/DoomLiteCanvas.jsx:412 | n accumulated strides move a coordinate by n times the stride |
| Raycast.FirstBlockFrom | src/components/DoomLiteCanvas.jsx:412 | the march from step n stops at the first wall or exit tile at or after n, or at the step count, with no block in between |
| Raycast.FirstBlock | src/components/DoomLiteCanvas.jsx:412 | the first step at a wall or exit tile, or the step count when there is none, with no block before it |
| Raycast.FirstBlockUnique | src/components/DoomLiteCanvas.jsx:412 | the first blocked step is the only step blocked with none blocked before it |
| Raycast.MarchHit | src/components/DoomLiteCanvas.jsx:412 | the hit is a wall or exit iff the march stopped before MAX_DEPTH |
| Raycast.MarchRay | src/components/DoomLiteCanvas.jsx:412 | dist = first blocked step × STEP, and hit is the tile stopped at |
| Raycast.MarchStep | src/components/DoomLiteCanvas.jsx:412 | the point reached by the loop is the one step n tests |
| Raycast.RaySteps | src/components/DoomLiteCanvas.jsx:410-412 | the march of a column takes at most MAX_DEPTH / STEP steps |
| Raycast.RayDepthBound | src/components/DoomLiteCanvas.jsx:413 | every column depth is within MAX_DEPTH |
| Raycast.CorrectedBound | src/components/DoomLiteCanvas.jsx:413 | the fisheye correction never lengthens a distance |
| Raycast.ColumnFromMarch | src/game/render.js:288-293 | the distance and tile one march reports give the column its specified depth and tile |
| Raycast.CastColumn | src/game/render.js:288-293 | one column: the march along its ray and the dist·cos(camX) correction match the column's specification |
| Raycast.CastColumns | src/game/render.js:288-293 | one march per column: depth = dist·cos(camX) and the hit kind |
| Raycast.SlabOf | src/game/render.js:30-48 | no interval iff the ray is parallel (\|d\| ≤ 0.0001) outside the slab; unconstrained iff parallel inside it |
| Raycast.Entry | src/game/render.js:50-54 | a hit iff tmin ≤ tmax, tmax ≥ 0 and tmin < MAX_DEPTH; the result is max(0, tmin) in [0, MAX_DEPTH) |
| Raycast.RayBlockIntersection | src/game/render.js:5-55 | null or a t in [0, MAX_DEPTH); null for a parallel ray outside either slab |
| Raycast.SlabContains | src/game/render.js:31-35 | any parameter inside one axis's interval keeps that local coordinate within the half extent |
| Raycast.EntryWithin | src/game/render.js:50-51 | the reported entry lies within the interval |
| Raycast.MeetWithin | src/game/render.js:34-35 | a parameter inside the meet lies inside both intervals |
| Raycast.AxisInSlab | src/game/render.js:30-38 | each axis keeps the point inside its slab at any parameter it allows |
| Raycast.HitOnBlock | src/game/render.js:5-55 | at the reported distance the ray's local point lies on the block |
| Raycast.Closest | src/game/render.js:172-182 | the nearest block distance, capped at MAX_DEPTH |
| Raycast.ClosestIsLeast | src/game/render.js:172-182 | the result is at most every block's hit distance, and below MAX_DEPTH only when some block is hit there |
| Raycast.ClosestBlock | src/game/render.js:172-186 | the loop computes the nearest distance, and hitBlock iff it is below MAX_DEPTH |
| Raycast.OutdoorColumnAt | src/game/render.js:166-187 | one column: the nearest block along its ray, its corrected depth, and the hit flag |
| Raycast.OutdoorColumns | src/game/render.js:166-187 | per column the nearest block, its corrected depth and the hit flag |
| Shading.WallHeight | src/game/render.js:300 | never taller than the screen; min(H, H/(c + 0.0001)·k) and non-negative when the denominator is positive |
| Shading.Shade | src/game/render.js:301 | in [0, 1]; 1 at zero depth; 0 from depth 10 on |
| Shading.ShadeNearerBrighter | src/game/render.js:301 | a nearer wall is never darker |
| Shading.CanvasGrey | src/components/DoomLiteCanvas.jsx:415-418 | grey within [0, 200], or [0, 220] for the exit, which is never darker than a wall |
| Shading.Darken | src/game/render.js:309 | in [0, 255]; never brighter than a byte it darkens; unchanged with no occlusion |
| Shading.EdgeGrey | src/game/render.js:316-318 | the edge grey lies between 0 and the mid grey |
| Shading.Contrast | src/game/render.js:305-307 | non-negative, and 0 when the neighbours (or the column itself at the edges) are at equal depth |
| Shading.Occlusion | src/game/render.js:308 | the AO term lies in [0, cap] |
| Shading.EdgeOcclusion | src/game/render.js:315 | in [0, cap], and 0 from depth 12 on |
| Shading.IndoorBase | src/game/render.js:301-303 | grey in [0, 255]; the exit at least 200; a distant wall 0 |
| Shading.IndoorStrip | src/game/render.js:296-324 | greys 0 ≤ top = bottom ≤ mid ≤ base ≤ 255; mid equals base when the neighbours are level; the strip is the wall height |
| Shading.Luminance | src/game/render.js:195-196 | in [0.45, 1] |
| Shading.OutdoorBase | src/game/render.js:196-197 | grey in [114, 255] |
| Shading.OutdoorStrip | src/game/render.js:190-218 | the same strip facts at factor 0.7 |
| Shading.MaxShadow | src/game/render.js:338 | at least 6 |
| Shading.ContactShadow | src/game/render.js:332-340 | contact in [0, 0.325]; length at least 6 and at most the longer of maxShadow and 8; a far, level wall casts Shadow(0, 8) |
| Shading.IndoorWallPass | src/game/render.js:296-324 | every column's strip is the indoor strip of its depth and hit |
| Shading.OutdoorWallPass | src/game/render.js:190-218 | a strip exactly for the hit columns, each the outdoor strip |
| Shading.ContactPass | src/game/render.js:327-347 | a shadow exactly for the shown columns, each the contact shadow |
| Greyscale.Luma | src/game/render.js:358-359 | the rounded luma lies between the darkest and brightest channel, and a grey stays itself |
| Greyscale.GreyOf | src/game/render.js:357-361 | the image after the pass, pixel by pixel, has the input's length |
| Greyscale.GreyOfAppend | src/game/render.js:357-361 | the pass distributes over images split between pixels |
| Greyscale.GreyOfIsGrey | src/game/render.js:360 | every output pixel has R = G = B, and its alpha is unchanged |
| Greyscale.GreyOfIdempotent | src/game/render.js:357-361 | greying a greyed image changes nothing |
| Greyscale.ToGreyscale | src/game/render.js:357-361 | the in-place loop leaves exactly GreyOf of the old buffer |
| Sprites.BillAt | src/components/DoomLiteCanvas.jsx:425 | one billboard exactly when the point projects, carrying its sort and depth |
| Sprites.EnemyBills | src/components/DoomLiteCanvas.jsx:425 | exactly `LiveSeen` billboards (one per live enemy that projects), no more than enemies, all projected |
| Sprites.EnemyBillsFromLive | src/components/DoomLiteCanvas.jsx:425 | every enemy billboard comes from a live enemy with its hp and distance |
| Sprites.Opacity | src/components/DoomLiteCanvas.jsx:426 | trail point t of len has opacity (t + 1)/len in (0, 1], the newest fully opaque |
| Sprites.TrailBills | src/components/DoomLiteCanvas.jsx:426 | exactly `TrailSeen` billboards, one per projecting trail point, all projected |
| Sprites.ShotBills | src/components/DoomLiteCanvas.jsx:426 | exactly `ShotSeen` billboards, all projected; a bullet gives at most one |
| Sprites.ShotsBills | src/components/DoomLiteCanvas.jsx:426 | exactly `ShotsSeen` billboards, all projected |
| Sprites.ParticleBills | src/components/DoomLiteCanvas.jsx:427 | exactly `ParticlesSeen` billboards, one per projecting particle, all projected |
| Sprites.CollectBills | src/components/DoomLiteCanvas.jsx:424-427 | all projected; the enemies' billboards, then the projectiles', then the particles', each block exactly its own list and of its counted length |
| Sprites.EnemyBillAt | src/components/DoomLiteCanvas.jsx:425 | a live enemy that projects has its billboard, after those of the live projecting enemies before it |
| Sprites.TrailBillAt | src/components/DoomLiteCanvas.jsx:426 | a projecting trail point has its billboard with opacity (t + 1)/len, after those of the points before it |
| Sprites.ShotOwnBill | src/components/DoomLiteCanvas.jsx:426 | a projecting projectile's own billboard comes first, before its trail's |
| Sprites.ShotsBillsPrefix | src/components/DoomLiteCanvas.jsx:426 | the billboards of the first n projectiles are a prefix of the whole list |
| Sprites.ShotBillsAt | src/components/DoomLiteCanvas.jsx:426 | projectile i's billboards sit right after those of the projectiles before it |
| Sprites.ParticleBillAt | src/components/DoomLiteCanvas.jsx:427 | a projecting particle has its billboard, after those of the projecting particles before it |
| Sprites.SortFarToNear | src/components/DoomLiteCanvas.jsx:428 | the array ends in non-increasing z order and is a permutation of the original |
| Sprites.SpriteWidth | src/components/DoomLiteCanvas.jsx:432 | at least 2 pixels |
| Sprites.Samples | src/components/DoomLiteCanvas.jsx:435 | at least 5 samples |
| Sprites.SampleX | src/components/DoomLiteCanvas.jsx:437 | every sample lies between the sprite's edges |
| Sprites.SampleColumn | src/components/DoomLiteCanvas.jsx:438 | always a valid column, and the floored column when that is in range |
| Sprites.SpriteVisible | src/components/DoomLiteCanvas.jsx:432-445 | visible iff some sample sees the sprite nearer than the wall's uncorrected distance less 0.02 |
| Sprites.FrontSpriteSeen | src/components/DoomLiteCanvas.jsx:436-443 | a sprite in front of every wall by more than 0.02 is drawn |
| Sprites.Drawn | src/components/DoomLiteCanvas.jsx:431-445 | only billboards of the list that some sample sees are drawn |
| Sprites.DrawnFarToNear | src/components/DoomLiteCanvas.jsx:428-445 | the drawn billboards keep the far-to-near order |
| Sprites.DrawList | src/components/DoomLiteCanvas.jsx:431-445 | the draw loop draws exactly Drawn, in order |
| Stick.LookAxis | src/controls/touchControls.js:54 | in [−1, 1]; 0 in the dead zone; positive iff the drag is beyond 9 px right, negative iff beyond 9 px left; ±1 from 90 px on |
| Stick.LookAxisMonotone | src/controls/touchControls.js:54 | a longer drag never turns less |
| Stick.LookAxisOdd | src/controls/touchControls.js:54 | the opposite drag turns the opposite way by the same amount |
| Stick.TsNorm | src/controls/touchControls.js:54 | both axes in [−1, 1], each the look-axis remap of its drag |
| Stick.PadAxis | src/controls/touch.js:21-22 | in [−1, 1], and d/80 within 80 px |
| Stick.MoveVectorStraight | src/controls/touch.js:24-26 | a vertical drag walks along the facing; a pad at rest gives no movement |
| Stick.BlendBounded | src/controls/touch.js:24-26 | unit-bounded forward and right vectors blended by pad deflections in [-1, 1] stay within 2 on each axis |
| Stick.MoveVectorBounded | src/controls/touch.js:24-26 | with bounded trigonometry each component of f·(−ny) + r·nx is at most 2 |
| Touch.TouchPad.constructor | src/controls/touch.js:15 | no drag, look stick released, move vector and sticks at zero |
| Touch.TouchPad.OnStartL | src/controls/touch.js:16 | startL is the touch's position; nothing else changes |
| Touch.TouchPad.OnMoveL | src/controls/touch.js:17-28 | without a start nothing changes; otherwise the move vector is f·(−ny) + r·nx of the clamped drag |
| Touch.TouchPad.OnEndL | src/controls/touch.js:29 | always clears startL and zeroes the move vector |
| Touch.TouchPad.OnStartR | src/controls/touch.js:36 | the look stick is held at the touch's origin |
| Touch.TouchPad.OnMoveR | src/controls/touch.js:37-49 | inactive: nothing; active: turnStickX = remapped dx, turnStickY = −remapped dy |
| Touch.TouchPad.OnEndR | src/controls/touch.js:50 | zeroes the sticks and releases the look stick (a no-op when already released) |
| TouchControls.FirstWith | src/controls/touchControls.js:14 | none iff no touch has the identifier; otherwise a touch with it, none before it having it |
| TouchControls.FindTouch | src/controls/touchControls.js:14 | none iff no touch has the tracked identifier; otherwise the first that does |
| TouchControls.Controls.constructor | src/controls/touchControls.js:12 | no pad drag, both look trackers idle, move vector and sticks at zero |
| TouchControls.Controls.StartL | src/controls/touchControls.js:13 | the pad drag starts at the touch, tracking its identifier |
| TouchControls.Controls.MoveL | src/controls/touchControls.js:14 | the move vector of the drag from startL |
| TouchControls.Controls.OnMoveL | src/controls/touchControls.js:14 | only a drag under way and its own touch change the move vector, to exactly the vector of the first touch with the tracked identifier (`FirstWith`) |
| TouchControls.Controls.OnPointerMoveL | src/controls/touchControls.js:23 | only the tracked pointer changes the move vector |
| TouchControls.Controls.EndL | src/controls/touchControls.js:15 | stops walking and forgets the drag and its identifier |
| TouchControls.Controls.OnEndL | src/controls/touchControls.js:15 | only the end of the tracked touch ends the drag; any other leaves all unchanged |
| TouchControls.Controls.OnPointerUpL | src/controls/touchControls.js:24 | only the tracked pointer ends the drag |
| TouchControls.Controls.Look | src/controls/touchControls.js:32 | turnStickX = the x remap, turnStickY = minus the y remap |
| TouchControls.Controls.StartR | src/controls/touchControls.js:31 | the look tracker becomes active at the touch with its identifier |
| TouchControls.Controls.OnMoveR | src/controls/touchControls.js:32 | an inactive stick, or a move without the tracked touch, leaves the sticks unchanged; otherwise they are exactly the remap of the first tracked touch (`FirstWith`) |
| TouchControls.Controls.CaptureTouchMove | src/controls/touchControls.js:61-64 | only the tracked touch changes the sticks, to exactly the remap of the first tracked touch (`FirstWith`) |
| TouchControls.Controls.EndR | src/controls/touchControls.js:33 | zeroes the sticks and clears active and id |
| TouchControls.Controls.OnEndR | src/controls/touchControls.js:33 | only the end of the tracked touch releases the stick |
| TouchControls.Controls.CaptureTouchStart | src/controls/touchControls.js:56-59 | a first touch on the right half takes the look stick; otherwise nothing changes |
| TouchControls.Controls.PointerDownR | src/controls/touchControls.js:44 | the pointer look tracker becomes active at the pointer |
| TouchControls.Controls.CapturePointerDown | src/controls/touchControls.js:71-73 | a pointer going down on the right half takes the pointer look stick; elsewhere nothing changes |
| TouchControls.Controls.OnPointerMoveR | src/controls/touchControls.js:45 | only the held stick's own pointer turns the view |
| TouchControls.Controls.OnPointerUpR | src/controls/touchControls.js:46 | only the held stick's own pointer releases it, zeroing the sticks |

## Left out

- Canvas drawing, gradients, `drawCube3D`, the sky, sun and hills, the HUD text and the React components are not modelled. They produce pixels, not state. The shading functions stop at the numbers that are drawn.
- DOM and event plumbing is not modelled. Handlers take the event's touches, pointer id and coordinates as parameters. `touch.js` handlers look only at the first changed touch, as the source does.
- The touch classes hold their own copies of the state fields they write (`moveVec`, `turnStickX`, `turnStickY`). They do not share the `World.GameState` object with the tick.
- `requestAnimationFrame`, `performance.now` and the `setTimeout` ammo refill of `reload` are left out. They are asynchronous driver concerns. `Combat.Reload` models only the synchronous part.
- Trigonometry, `Math.hypot` and `Math.sqrt` are an abstract `Maths.Trig` value. Laws (bounds, sin² + cos² = 1, an exact square root) are stated as preconditions of the lemmas that need them.
- Exact IEEE floating point is not modelled. Positions are reals, so rounding, NaN and Infinity are out. `isFinite(yBot)` is not modelled: `Shading.ContactPass` takes the shown columns as flags.
- `Math.random` is an injected stream of draws in [0, 1).
- The modular files import names that their modules do not define: `collide`, `isWall`, `idx` and `visible` from utils.js, a `map.js` that is not part of this model, `baseMap` from constants.js, and `MAP_H` in spawn.js. The model takes them from `src/components/DoomLiteCanvas.jsx:15-48` and `594-598`, with `MAP_H` = 16.
- The `noGravity` flag of particles is never consulted by the tick, so it is carried but not used.
- The horizon and the screen height are parameters. The indoor head bob is left out.
- `Sprites.SortFarToNear`: JavaScript's sort stability is not modelled. The contract states the order and the permutation only.
- Billboard collection is modelled as functions over sequences rather than the push loop into a local array.
- `Sprites.SpriteVisible` requires a positive screen width and at least one column. The `?? MAX_DEPTH` fallback never fires in the source, because every column is filled before the loop.
- The render truthiness test `hit != 0` is left to the caller. `Shading.IndoorWallPass` draws every column, as pass 2 does.
- `Shading.ContactPass` takes the `yBot` computed by the wall pass. Outdoor pass 3 recomputes the same value.
- `Raycast.MarchRay` is parametrised over the tile lookup. The renderers pass `tileAt`.
- `Sprites.BillAt` (and through it `Sprites.EnemyBills`, `Sprites.TrailBills`, `Sprites.ShotBills`, `Sprites.ShotsBills`, `Sprites.ParticleBills` and `Sprites.CollectBills`) projects with the corrected `Visibility.ProjectBillboard`, not with the uncorrected wrap the component's own copy uses (src/components/DoomLiteCanvas.jsx:537). `Visibility.AsWrittenAgrees` shows the two agree whenever the relative angle is at least −π. They differ only once the player's facing has turned past the wrap, as the Findings row shows.
- `Visibility.ProjectBillboard`, `Sprites.BillAt` and the other collection functions require fov > 0. The game's fov is always π/3.
- Entry points that take the whole state (`Tick.Update`, `Combat.TryShoot`, `Combat.Reload`) mutate a `World.GameState`. The tick's phases are methods on values that `Tick.Update` composes.
- `Combat.TryShoot`: the cooldown and bullet lifetime follow the snapshot, 0.12 and 1.4 in combat.js, 0.15 and 1.2 in the component.
- Tick.ProjectilePhase: the draws the explosions take are stated only as k ≥ k0, and each burst's fragments by their ranges (`Tick.BurstFrom`: count, colour, speeds, outward flight), not by the exact values the draws give them. The same holds for `Tick.StepProjectile`, `Tick.MissilePhase` and `Tick.Step`.
- Physics.SeparatePair: an enemy record without a radius would be wall-tested at `collide`'s default 0.18. This is not modelled, because every spawned enemy has rad 0.28 (`Spawn.NewEnemyWellSpawned`).

## Findings

| source | as written | input that shows it | evidently intended | confidence | as-written member | corrected member |
|---|---|---|---|---|---|---|
| src/tests/utils.test.js:8-10 | asserts that lerping from π − 0.1 to −π + 0.1 halfway normalises to within 0.5 of 0 | a = π − 0.1, b = −π + 0.1, t = 0.5: the step is +0.2, the midpoint is π, which normalises to −π | the short way across the wrap: the midpoint lies at ±π, not near 0 | not executed | Utils.DevTestAcrossWrapFails | Utils.LerpAcrossWrapShortWay |
| src/game/visibility.js:4 | wraps the relative angle by `((ang + π) % 2π) − π`, with no correction for a negative remainder (the component's own copy, src/components/DoomLiteCanvas.jsx:537, does the same) | player at the origin facing dir = 2π, point (2, 0) straight ahead: ang = −2π, the wrap gives −2π, and the point is culled | wrap with `normalizeAngle` (src/components/DoomLiteCanvas.jsx:544-546), so any facing projects the point ahead | not executed | Visibility.AheadLostAfterFullTurn | Visibility.ProjectBillboard |
