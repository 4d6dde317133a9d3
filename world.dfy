/** The mutable game state of src/game/update.js:118-133 and
    src/components/DoomLiteCanvas.jsx:66-79, and the facts about it that every tick keeps. */
module World {
  import opened Maths
  import opened Wrappers
  import opened Entities
  import opened Spawn

  /** The repository holds two copies of the game logic that differ in a few constants and
      rules: the single-file component (`Canvas`) and the modules under src/game
      (`Modular`). */
  datatype Snapshot = Canvas | Modular

  /** `PITCH_LIMIT`: 80 degrees. */
  const PitchLimit: real := Pi * 80.0 / 180.0
  /** `FOV`: 60 degrees. */
  const Fov: real := Pi / 3.0
  /** The longest laser trail kept. */
  const MaxTrail: int := 10

  predicate EnemyOk(e: Enemy) {
    e.cool >= 0.0 && (e.alive ==> e.hp > 0)
  }

  /** A live projectile: time left, and a trail exactly when it is a laser, of at most ten
      points. */
  predicate ProjectileOk(pr: Projectile) {
    pr.ttl > 0.0 && (pr.trail.Some? <==> pr.kind == Laser) &&
    (pr.trail.Some? ==> |pr.trail.value| <= MaxTrail)
  }

  predicate ParticleOk(q: Particle) {
    q.ttl > 0.0 && q.h >= 0.0
  }

  class GameState {
    const snapshot: Snapshot
    var player: Player
    var enemies: seq<Enemy>
    var projectiles: seq<Projectile>
    var particles: seq<Particle>
    var keys: Keys
    var moveVec: Vec
    var turnStickX: real
    var turnStickY: real
    var shootCooldown: real
    var reloadTime: real
    var won: bool

    /** Timers never negative, the pitch within its limit, and every listed entity in
        the shape the tick leaves it. */
    ghost predicate Valid()
      reads this
    {
      shootCooldown >= 0.0 && reloadTime >= 0.0 &&
      -PitchLimit <= player.pitch <= PitchLimit &&
      (forall e :: e in enemies ==> EnemyOk(e)) &&
      (forall pr :: pr in projectiles ==> ProjectileOk(pr)) &&
      (forall q :: q in particles ==> ParticleOk(q))
    }

    /** The state `initState` returns, around a list of already spawned enemies. */
    constructor (snapshot: Snapshot, enemies: seq<Enemy>)
      requires forall e :: e in enemies ==> EnemyOk(e)
      ensures this.snapshot == snapshot && this.enemies == enemies
      ensures player == Player(2.5, 2.5, 0.0, 0.0, Fov, 2.6)
      ensures projectiles == [] && particles == [] && keys == NoKeys && moveVec == Vec(0.0, 0.0)
      ensures turnStickX == 0.0 && turnStickY == 0.0
      ensures shootCooldown == 0.0 && reloadTime == 0.0 && !won
      ensures Valid()
    {
      this.snapshot := snapshot;
      player := Player(2.5, 2.5, 0.0, 0.0, Fov, 2.6);
      this.enemies := enemies;
      projectiles := [];
      particles := [];
      keys := NoKeys;
      moveVec := Vec(0.0, 0.0);
      turnStickX := 0.0;
      turnStickY := 0.0;
      shootCooldown := 0.0;
      reloadTime := 0.0;
      won := false;
    }
  }

  /** Which `spawnEnemies` each copy calls: the component its own uniform sampler, update.js
      the clamped-spread one of spawn.js. */
  function PlacementOf(snapshot: Snapshot): Placement {
    if snapshot == Canvas then Uniform else Spread
  }

  /** `initState()`: the player at (2.5, 2.5) facing east, nine enemies requested. */
  method InitState(snapshot: Snapshot, rand: Rand, k0: nat) returns (s: GameState, k: nat)
    requires UnitStream(rand)
    ensures fresh(s) && s.Valid() && s.snapshot == snapshot
    ensures |s.enemies| <= 9
    ensures forall e :: e in s.enemies ==> WellSpawned(PlacementOf(snapshot), e)
    ensures s.player == Player(2.5, 2.5, 0.0, 0.0, Fov, 2.6)
    ensures s.projectiles == [] && s.particles == [] && !s.won
  {
    var enemies, tries;
    enemies, tries, k := SpawnEnemies(PlacementOf(snapshot), 9, rand, k0);
    s := new GameState(snapshot, enemies);
  }
}
