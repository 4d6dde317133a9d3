/** The per-frame `update(state, dt, setHud)` of src/game/update.js:8-116 and
    src/components/DoomLiteCanvas.jsx:246-378, phase by phase: the player moves and looks,
    the timers run down, the enemies chase and fire, the projectiles fly and hit, the
    particles fall, and the exit is checked. The updaters the code hands to `setHud` come
    back as a list of HUD effects. */
module Tick {
  import opened Maths
  import opened Wrappers
  import opened Utils
  import opened Grid
  import opened Entities
  import opened Physics
  import opened Spawn
  import opened World
  import opened Combat

  /** The point the move keys and the left stick ask the player to walk to: the sum of the
      pressed directions and the stick vector, normalised, times 2.6 * dt. */
  function MoveTarget(m: Trig, p: Player, keys: Keys, moveVec: Vec, dt: real): Vec {
    var fx, fy := m.cos(p.dir), m.sin(p.dir);
    var rx, ry := m.cos(p.dir + Pi / 2.0), m.sin(p.dir + Pi / 2.0);
    var mx := (if keys.w then fx else 0.0) - (if keys.s then fx else 0.0)
              - (if keys.a then rx else 0.0) + (if keys.d then rx else 0.0) + moveVec.x;
    var my := (if keys.w then fy else 0.0) - (if keys.s then fy else 0.0)
              - (if keys.a then ry else 0.0) + (if keys.d then ry else 0.0) + moveVec.y;
    var h := m.hypot(mx, my);
    var len := if h == 0.0 then 1.0 else h;
    var step := 2.6 * dt;
    Vec(p.x + mx / len * step, p.y + my / len * step)
  }

  /** Where the movement lines leave the player: the new x if the circle there (at the old
      y) is free, then the new y if the circle there (at the x just settled) is free. */
  function PlayerMoved(m: Trig, p: Player, target: Vec): (p': Player)
    ensures p' == p.(x := p'.x, y := p'.y)
    ensures Clear(m, p.x, p.y, PlayerRadius) ==> Clear(m, p'.x, p'.y, PlayerRadius)
    ensures Clear(m, target.x, target.y, PlayerRadius) && Clear(m, target.x, p.y, PlayerRadius) ==>
              p'.x == target.x && p'.y == target.y
  {
    var x := if !Collide(m, target.x, p.y, PlayerRadius) then target.x else p.x;
    p.(x := x, y := if !Collide(m, x, target.y, PlayerRadius) then target.y else p.y)
  }

  /** The movement lines of the tick: x, then y, each committed only where the player's
      circle is free of walls. (The `trySlide` fallbacks there re-test the same spots and so
      never move the player.) */
  method MovePlayer(m: Trig, p: Player, target: Vec) returns (p': Player)
    ensures p' == PlayerMoved(m, p, target)
    ensures p' == p.(x := p'.x, y := p'.y)
    ensures p'.x == p.x || (p'.x == target.x && !Collide(m, target.x, p.y, PlayerRadius))
    ensures p'.y == p.y || (p'.y == target.y && !Collide(m, p'.x, target.y, PlayerRadius))
    ensures !Collide(m, target.x, p.y, PlayerRadius) ==> p'.x == target.x
    ensures !Collide(m, p'.x, target.y, PlayerRadius) ==> p'.y == target.y
    ensures Clear(m, p.x, p.y, PlayerRadius) ==> Clear(m, p'.x, p'.y, PlayerRadius)
  {
    var x, y := p.x, p.y;
    if !Collide(m, target.x, y, PlayerRadius) {
      x := target.x;
    } else {
      var moved;
      x, y, moved := TrySlide(m, x, y, target.x, y, PlayerRadius);
    }
    if !Collide(m, x, target.y, PlayerRadius) {
      y := target.y;
    } else {
      var moved;
      x, y, moved := TrySlide(m, x, y, x, target.y, PlayerRadius);
    }
    p' := p.(x := x, y := y);
  }

  /** The look lines: arrow keys and the right stick turn the player; the stick tilts the
      view, clamped to the pitch limit; with no vertical input the pitch eases toward 0. */
  function Look(p: Player, keys: Keys, turnStickX: real, turnStickY: real, dt: real): (p': Player)
    ensures p' == p.(dir := p'.dir, pitch := p'.pitch)
    ensures 0.0 <= dt ==> -PitchLimit <= p'.pitch <= PitchLimit
  {
    var dir1 := if keys.left then p.dir - 1.8 * dt else p.dir;
    var dir2 := if keys.right then dir1 + 1.8 * dt else dir1;
    var pitch1 := Clamp(p.pitch + turnStickY * 1.8 * dt, -PitchLimit, PitchLimit);
    var settle := Abs(turnStickY) < 0.001 && !keys.up && !keys.down;
    var f := 1.0 - Min(1.0, 1.5 * dt);
    var pitch2 := if settle then pitch1 * f else pitch1;
    assert 0.0 <= dt && settle ==> Abs(pitch2) <= Abs(pitch1) by {
      if 0.0 <= dt && settle { ScaleDown(pitch1, f); }
    }
    p.(dir := dir2 + turnStickX * 3.6 * dt, pitch := pitch2)
  }

  /** With no vertical input the pitch only shrinks toward 0, keeping its sign, and after
      two thirds of a second or more in one tick it is exactly level. */
  lemma {:induction false} LookSettlesPitch(p: Player, keys: Keys, turnStickX: real, turnStickY: real, dt: real)
    requires 0.0 <= dt && turnStickY == 0.0 && !keys.up && !keys.down
    requires -PitchLimit <= p.pitch <= PitchLimit
    ensures Abs(Look(p, keys, turnStickX, turnStickY, dt).pitch) <= Abs(p.pitch)
    ensures Look(p, keys, turnStickX, turnStickY, dt).pitch * p.pitch >= 0.0
    ensures dt >= 1.0 / 1.5 ==> Look(p, keys, turnStickX, turnStickY, dt).pitch == 0.0
  {
    var f := 1.0 - Min(1.0, 1.5 * dt);
    assert 0.0 <= f <= 1.0;
    assert Clamp(p.pitch, -PitchLimit, PitchLimit) == p.pitch;
    ScaleDown(p.pitch, f);
  }

  /** `Math.max(0, t - dt)`: every timer runs down to 0 and stays there. */
  function RunDown(t: real, dt: real): (r: real)
    ensures r >= 0.0
    ensures 0.0 <= dt ==> r <= t || t < 0.0
    ensures r == 0.0 <==> t <= dt
  {
    Max(0.0, t - dt)
  }

  /** The distance from an enemy to the player, measured before the enemy moves. */
  function EnemyDist(m: Trig, p: Player, e: Enemy): real {
    m.hypot(p.x - e.x, p.y - e.y)
  }

  /** The firing test: between 1.2 and 10 away (measured before the move), cooled down,
      and with a clear line from the enemy's new position to the player. */
  predicate FireGate(m: Trig, p: Player, e: Enemy, moved: Enemy, dt: real) {
    var d := EnemyDist(m, p, e);
    1.2 < d < 10.0 && RunDown(e.cool, dt) == 0.0 && Visible(m, moved.x, moved.y, p.x, p.y)
  }

  /** The laser an enemy fires: from its centre toward the player, speed 14, 0.8 s. */
  function EnemyLaser(m: Trig, p: Player, e: Enemy, moved: Enemy): Projectile {
    MakeProjectile(m, moved.x, moved.y, m.atan2(p.y - e.y, p.x - e.x), 14.0, 0.8,
                   FromEnemy, Laser, 0.45, 0.0)
  }

  /** Where a chasing enemy heads: `speed * dt` along the unit vector toward the player. */
  function ChaseTarget(m: Trig, p: Player, e: Enemy, dt: real): Vec
    requires EnemyDist(m, p, e) > 0.6
  {
    var d := EnemyDist(m, p, e);
    var s := e.speed * dt;
    Vec(e.x + ((p.x - e.x) / d) * s, e.y + ((p.y - e.y) / d) * s)
  }

  /** Where the chase leaves an enemy: put within 0.6 of the player; otherwise at the
      chase target if that spot is free at its radius, else where `trySlide` puts it (the
      new x alone, else the new y alone, else nowhere new). */
  function ChaseSpot(m: Trig, p: Player, e: Enemy, dt: real): Vec {
    if EnemyDist(m, p, e) <= 0.6 then Vec(e.x, e.y)
    else
      var t := ChaseTarget(m, p, e, dt);
      if !Collide(m, t.x, t.y, e.rad) then t
      else if !Collide(m, t.x, e.y, e.rad) then Vec(t.x, e.y)
      else if !Collide(m, e.x, t.y, e.rad) then Vec(e.x, t.y)
      else Vec(e.x, e.y)
  }

  /** The chase step: more than 0.6 away, a step of `speed * dt` straight at the player,
      taken whole if that spot is free at the enemy's radius, otherwise through `trySlide`. */
  method Chase(m: Trig, p: Player, e: Enemy, dt: real) returns (x: real, y: real)
    ensures Vec(x, y) == ChaseSpot(m, p, e, dt)
    ensures EnemyDist(m, p, e) <= 0.6 ==> x == e.x && y == e.y
    ensures EnemyDist(m, p, e) > 0.6 && !Collide(m, ChaseTarget(m, p, e, dt).x, ChaseTarget(m, p, e, dt).y, e.rad) ==>
              Vec(x, y) == ChaseTarget(m, p, e, dt)
    ensures Clear(m, e.x, e.y, e.rad) ==> Clear(m, x, y, e.rad)
    ensures x != e.x || y != e.y ==> Clear(m, x, y, e.rad)
  {
    if EnemyDist(m, p, e) <= 0.6 {
      return e.x, e.y;
    }
    var target := ChaseTarget(m, p, e, dt);
    if !Collide(m, target.x, target.y, e.rad) {
      return target.x, target.y;
    }
    var moved;
    x, y, moved := TrySlide(m, e.x, e.y, target.x, target.y, e.rad);
  }

  /** A live enemy within 0.6 of the player (before it moves): it stays put and may boop. */
  predicate Close(m: Trig, p: Player, e: Enemy) {
    e.alive && EnemyDist(m, p, e) <= 0.6
  }

  /** One pass of the enemy loop for enemy e. A dead enemy is skipped. A live one cools
      down, bobs and spins; more than 0.6 away it steps toward the player (whole step if
      free, else `trySlide`), otherwise it may boop the player (a draw below 0.5 * dt);
      then it fires if `FireGate` holds, drawing its next cooldown. */
  method StepEnemy(m: Trig, p: Player, e: Enemy, dt: real, rand: Rand, k: nat)
    returns (e': Enemy, shot: Option<Projectile>, boop: bool, k': nat)
    requires UnitStream(rand)
    ensures !e.alive ==> e' == e && shot.None? && !boop && k' == k
    ensures e.alive ==>
      e' == e.(x := e'.x, y := e'.y, cool := e'.cool, t := e.t + dt, rot := e.rot + e.rotSpd * dt)
    ensures e'.cool >= 0.0 || !e.alive
    ensures shot.None? && e.alive ==> e'.cool == RunDown(e.cool, dt)
    ensures shot.Some? ==> 0.7 <= e'.cool < 1.7
    ensures e.alive ==> Vec(e'.x, e'.y) == ChaseSpot(m, p, e, dt)
    ensures e.alive && EnemyDist(m, p, e) <= 0.6 ==> e'.x == e.x && e'.y == e.y
    ensures boop ==> e.alive && EnemyDist(m, p, e) <= 0.6
    ensures e.alive && EnemyDist(m, p, e) <= 0.6 ==> (boop <==> rand(k) < 0.5 * dt)
    ensures Clear(m, e.x, e.y, e.rad) ==> Clear(m, e'.x, e'.y, e'.rad)
    ensures e.alive ==> (shot.Some? <==> FireGate(m, p, e, e', dt))
    ensures shot.Some? ==> shot.value == EnemyLaser(m, p, e, e')
    ensures shot.Some? ==> IsFreshLaser(shot.value)
    ensures StepKept(m, e, e')
    ensures EnemyStepped(m, p, e, e', dt)
    ensures shot == (if e.alive && FireGate(m, p, e, e', dt) then Some(EnemyLaser(m, p, e, e')) else None)
    ensures k' == k + (if Close(m, p, e) then 1 else 0) + (if shot.Some? then 1 else 0)
  {
    if !e.alive {
      return e, None, false, k;
    }
    e', shot, boop, k' := StepLive(m, p, e, dt, rand, k);
    assert EnemyStepped(m, p, e, e', dt);
    SteppedKept(m, p, e, e', dt);
  }

  /** The step of a live enemy: it cools down, bobs and spins, chases the player or, within
      0.6, takes the boop draw, and then fires if `FireGate` holds. */
  method StepLive(m: Trig, p: Player, e: Enemy, dt: real, rand: Rand, k: nat)
    returns (e': Enemy, shot: Option<Projectile>, boop: bool, k': nat)
    requires UnitStream(rand) && e.alive
    ensures k' == k + (if Close(m, p, e) then 1 else 0) + (if shot.Some? then 1 else 0)
    ensures e' == e.(x := ChaseSpot(m, p, e, dt).x, y := ChaseSpot(m, p, e, dt).y,
                     cool := if shot.Some? then 0.7 + rand(k' - 1) else RunDown(e.cool, dt),
                     t := e.t + dt, rot := e.rot + e.rotSpd * dt)
    ensures Clear(m, e.x, e.y, e.rad) ==> Clear(m, e'.x, e'.y, e'.rad)
    ensures boop ==> Close(m, p, e)
    ensures Close(m, p, e) ==> (boop <==> rand(k) < 0.5 * dt)
    ensures shot == (if FireGate(m, p, e, e', dt) then Some(EnemyLaser(m, p, e, e')) else None)
    ensures shot.None? ==> e'.cool == RunDown(e.cool, dt)
    ensures shot.Some? ==> 0.7 <= e'.cool < 1.7 && e'.cool == 0.7 + rand(k' - 1)
  {
    e' := e.(cool := RunDown(e.cool, dt), t := e.t + dt, rot := e.rot + e.rotSpd * dt);
    k' := k;
    boop := false;
    var d := EnemyDist(m, p, e);
    var x, y := Chase(m, p, e, dt);
    e' := e'.(x := x, y := y);
    if d <= 0.6 {
      boop := rand(k') < 0.5 * dt;
      k' := k' + 1;
    }
    var moved := e';
    e', shot, k' := EnemyFire(m, p, e, moved, dt, rand, k');
    SameSpot(m, p, e, moved, e', dt);
  }

  /** A stepped enemy keeps what `StepKept` asks when its step keeps it clear of walls: the
      run-down and the drawn cooldowns are never negative. */
  lemma SteppedKept(m: Trig, p: Player, e: Enemy, e': Enemy, dt: real)
    requires EnemyStepped(m, p, e, e', dt)
    requires Clear(m, e.x, e.y, e.rad) ==> Clear(m, e'.x, e'.y, e'.rad)
    ensures StepKept(m, e, e')
  {
  }

  /** The firing test and the laser depend only on where the enemy stands, not on its
      cooldown. */
  lemma SameSpot(m: Trig, p: Player, e: Enemy, a: Enemy, b: Enemy, dt: real)
    requires a.x == b.x && a.y == b.y
    ensures FireGate(m, p, e, a, dt) == FireGate(m, p, e, b, dt)
    ensures EnemyLaser(m, p, e, a) == EnemyLaser(m, p, e, b)
  {
  }

  /** The firing half of an enemy's step: an enemy between 1.2 and 10 from the player, its
      cooldown run out, with a clear line of sight from where it now stands, fires a laser
      and draws a fresh cooldown in [0.7, 1.7). */
  method EnemyFire(m: Trig, p: Player, e: Enemy, moved: Enemy, dt: real, rand: Rand, k: nat)
    returns (e': Enemy, shot: Option<Projectile>, k': nat)
    requires UnitStream(rand) && moved.cool == RunDown(e.cool, dt)
    ensures e' == moved.(cool := e'.cool)
    ensures shot == (if FireGate(m, p, e, moved, dt) then Some(EnemyLaser(m, p, e, moved)) else None)
    ensures shot.None? ==> e' == moved && k' == k
    ensures shot.Some? ==> 0.7 <= e'.cool < 1.7 && k' == k + 1 && e'.cool == 0.7 + rand(k)
    ensures shot.Some? ==> e'.cool == 0.7 + rand(k' - 1)
  {
    e', shot, k' := moved, None, k;
    var d := EnemyDist(m, p, e);
    if d > 1.2 && d < 10.0 && e'.cool == 0.0 {
      if Visible(m, e'.x, e'.y, p.x, p.y) {
        shot := Some(EnemyLaser(m, p, e, e'));
        assert 0.0 <= rand(k') < 1.0;
        e' := e'.(cool := 0.7 + rand(k') * 1.0);
        k' := k' + 1;
      }
    }
  }

  /** A projectile the enemies fired this tick. */
  predicate IsFreshLaser(pr: Projectile) {
    pr.from == FromEnemy && pr.kind == Laser && pr.spd == 14.0 && pr.ttl == 0.8 &&
    pr.z == 0.45 && pr.trail == Some([])
  }

  /** What one enemy step keeps: a dead enemy is untouched, health, life and radius never
      change, a well-formed enemy stays well-formed and one clear of the walls stays clear. */
  ghost predicate StepKept(m: Trig, e: Enemy, e': Enemy) {
    (!e.alive ==> e' == e) &&
    e'.hp == e.hp && e'.alive == e.alive && e'.rad == e.rad &&
    (EnemyOk(e) ==> EnemyOk(e')) &&
    (Clear(m, e.x, e.y, e.rad) ==> Clear(m, e'.x, e'.y, e'.rad))
  }

  /** What one pass of the enemy loop does to enemy e, as `StepEnemy` states it: a dead
      enemy is untouched; a live one is moved to `ChaseSpot`, bobs and spins, and its
      cooldown runs down unless it fires, when a fresh one in [0.7, 1.7) is drawn. */
  ghost predicate EnemyStepped(m: Trig, p: Player, e: Enemy, e': Enemy, dt: real) {
    (!e.alive ==> e' == e) &&
    (e.alive ==>
       e' == e.(x := ChaseSpot(m, p, e, dt).x, y := ChaseSpot(m, p, e, dt).y, cool := e'.cool,
                t := e.t + dt, rot := e.rot + e.rotSpd * dt) &&
       (!FireGate(m, p, e, e', dt) ==> e'.cool == RunDown(e.cool, dt)) &&
       (FireGate(m, p, e, e', dt) ==> 0.7 <= e'.cool < 1.7))
  }

  /** The lasers the enemy loop fires, in order: one from each live enemy whose step passed
      `FireGate`. */
  function FiredLasers(m: Trig, p: Player, es: seq<Enemy>, es': seq<Enemy>, dt: real)
    : (ls: seq<Projectile>)
    requires |es| == |es'|
    ensures |ls| <= |es|
    ensures forall j :: 0 <= j < |ls| ==> IsFreshLaser(ls[j])
    decreases |es|
  {
    if |es| == 0 then []
    else
      var n := |es| - 1;
      FiredLasers(m, p, es[..n], es'[..n], dt) +
      (if es[n].alive && FireGate(m, p, es[n], es'[n], dt) then [EnemyLaser(m, p, es[n], es'[n])]
       else [])
  }

  /** The random draws the enemy loop takes: one for each close enemy (its boop test) and
      one for each laser fired (its fresh cooldown). */
  function Draws(m: Trig, p: Player, es: seq<Enemy>, es': seq<Enemy>, dt: real): nat
    requires |es| == |es'|
    decreases |es|
  {
    if |es| == 0 then 0
    else
      var n := |es| - 1;
      Draws(m, p, es[..n], es'[..n], dt) + (if Close(m, p, es[n]) then 1 else 0) +
      (if es[n].alive && FireGate(m, p, es[n], es'[n], dt) then 1 else 0)
  }

  /** The boops of the enemy loop, in order: a close enemy boops when the draw it takes
      (after those of the enemies before it) is below 0.5 * dt. */
  function Boops(m: Trig, p: Player, es: seq<Enemy>, es': seq<Enemy>, dt: real, rand: Rand, k0: nat)
    : (bs: seq<HudEffect>)
    requires |es| == |es'|
    ensures forall ef :: ef in bs ==> ef == Boop
    decreases |es|
  {
    if |es| == 0 then []
    else
      var n := |es| - 1;
      var k := k0 + Draws(m, p, es[..n], es'[..n], dt);
      Boops(m, p, es[..n], es'[..n], dt, rand, k0) +
      (if Close(m, p, es[n]) && rand(k) < 0.5 * dt then [Boop] else [])
  }

  /** The number of close enemies. */
  function CloseCount(m: Trig, p: Player, es: seq<Enemy>): nat
    decreases |es|
  {
    if |es| == 0 then 0
    else CloseCount(m, p, es[..|es| - 1]) + (if Close(m, p, es[|es| - 1]) then 1 else 0)
  }

  /** Only close enemies boop: never more boops than close enemies, none at all in a tick
      of no time, and every close enemy boops in a tick of 2 s or more (a draw is below 1). */
  lemma {:induction false} BoopsBounded(m: Trig, p: Player, es: seq<Enemy>, es': seq<Enemy>,
                                        dt: real, rand: Rand, k0: nat)
    requires |es| == |es'| && UnitStream(rand)
    ensures |Boops(m, p, es, es', dt, rand, k0)| <= CloseCount(m, p, es)
    ensures dt <= 0.0 ==> Boops(m, p, es, es', dt, rand, k0) == []
    ensures dt >= 2.0 ==> |Boops(m, p, es, es', dt, rand, k0)| == CloseCount(m, p, es)
    decreases |es|
  {
    if |es| > 0 {
      var n := |es| - 1;
      BoopsBounded(m, p, es[..n], es'[..n], dt, rand, k0);
      var k := k0 + Draws(m, p, es[..n], es'[..n], dt);
      assert 0.0 <= rand(k) < 1.0;
    }
  }

  /** The enemy loop: every enemy stepped in order; the lasers they fire are appended to the
      projectile list, and each boop queues a HUD effect. */
  method EnemyPhase(m: Trig, p: Player, enemies: seq<Enemy>, projectiles: seq<Projectile>,
                    dt: real, rand: Rand, k0: nat)
    returns (enemies': seq<Enemy>, projectiles': seq<Projectile>, effects: seq<HudEffect>, k: nat)
    requires UnitStream(rand)
    ensures |enemies'| == |enemies|
    ensures forall i :: 0 <= i < |enemies| ==> EnemyStepped(m, p, enemies[i], enemies'[i], dt)
    ensures forall i :: 0 <= i < |enemies| ==> StepKept(m, enemies[i], enemies'[i])
    ensures projectiles' == projectiles + FiredLasers(m, p, enemies, enemies', dt)
    ensures |projectiles'| >= |projectiles| && projectiles'[..|projectiles|] == projectiles
    ensures forall j :: |projectiles| <= j < |projectiles'| ==> IsFreshLaser(projectiles'[j])
    ensures |projectiles'| - |projectiles| <= |enemies|
    ensures forall ef :: ef in effects ==> ef == Boop
    ensures effects == Boops(m, p, enemies, enemies', dt, rand, k0)
    ensures k == k0 + Draws(m, p, enemies, enemies', dt)
  {
    enemies', projectiles', effects, k := [], projectiles, [], k0;
    for i := 0 to |enemies|
      invariant |enemies'| == i && StepsSoFar(m, p, enemies, enemies', dt)
      invariant projectiles' == projectiles + FiredLasers(m, p, enemies[..i], enemies', dt)
      invariant effects == Boops(m, p, enemies[..i], enemies', dt, rand, k0)
      invariant k == k0 + Draws(m, p, enemies[..i], enemies', dt)
    {
      enemies', projectiles', effects, k :=
        EnemyPass(m, p, enemies, enemies', projectiles, projectiles', effects, dt, rand, k0, k);
    }
    assert enemies[..|enemies|] == enemies;
    FreshAppended(projectiles, FiredLasers(m, p, enemies, enemies', dt));
  }

  /** The body of the enemy loop: the next enemy steps, its laser (if it fires) is appended,
      and the loop's invariants are carried over. */
  method EnemyPass(m: Trig, p: Player, enemies: seq<Enemy>, enemies': seq<Enemy>,
                   projectiles: seq<Projectile>, projectiles': seq<Projectile>,
                   effects: seq<HudEffect>, dt: real, rand: Rand, k0: nat, k: nat)
    returns (enemies2: seq<Enemy>, projectiles2: seq<Projectile>, effects2: seq<HudEffect>, k2: nat)
    requires UnitStream(rand) && |enemies'| < |enemies|
    requires StepsSoFar(m, p, enemies, enemies', dt)
    requires projectiles' == projectiles + FiredLasers(m, p, enemies[..|enemies'|], enemies', dt)
    requires effects == Boops(m, p, enemies[..|enemies'|], enemies', dt, rand, k0)
    requires k == k0 + Draws(m, p, enemies[..|enemies'|], enemies', dt)
    ensures |enemies2| == |enemies'| + 1 && StepsSoFar(m, p, enemies, enemies2, dt)
    ensures projectiles2 == projectiles + FiredLasers(m, p, enemies[..|enemies2|], enemies2, dt)
    ensures effects2 == Boops(m, p, enemies[..|enemies2|], enemies2, dt, rand, k0)
    ensures k2 == k0 + Draws(m, p, enemies[..|enemies2|], enemies2, dt)
  {
    var e, shot, boop;
    e, shot, boop, k2 := StepEnemy(m, p, enemies[|enemies'|], dt, rand, k);
    StepsGrow(m, p, enemies, enemies', e, dt);
    LasersGrow(m, p, enemies, enemies', e, shot, dt, projectiles, projectiles');
    BoopsGrow(m, p, enemies, enemies', e, shot, boop, dt, rand, k0, k, k2, effects);
    enemies2 := enemies' + [e];
    projectiles2 := projectiles' + (if shot.Some? then [shot.value] else []);
    effects2 := effects + (if boop then [Boop] else []);
  }

  /** The enemy loop's invariants on the boops and the draws survive one more enemy step. */
  lemma BoopsGrow(m: Trig, p: Player, es: seq<Enemy>, es': seq<Enemy>, e': Enemy,
                  shot: Option<Projectile>, boop: bool, dt: real, rand: Rand, k0: nat, k: nat,
                  k': nat, effects: seq<HudEffect>)
    requires |es'| < |es|
    requires effects == Boops(m, p, es[..|es'|], es', dt, rand, k0)
    requires k == k0 + Draws(m, p, es[..|es'|], es', dt)
    requires boop ==> Close(m, p, es[|es'|])
    requires Close(m, p, es[|es'|]) ==> (boop <==> rand(k) < 0.5 * dt)
    requires shot.Some? <==> es[|es'|].alive && FireGate(m, p, es[|es'|], e', dt)
    requires k' == k + (if Close(m, p, es[|es'|]) then 1 else 0) + (if shot.Some? then 1 else 0)
    ensures effects + (if boop then [Boop] else []) ==
              Boops(m, p, es[..|es'| + 1], es' + [e'], dt, rand, k0)
    ensures k' == k0 + Draws(m, p, es[..|es'| + 1], es' + [e'], dt)
  {
    DrawsStep(m, p, es, es', e', dt);
    BoopsStep(m, p, es, es', e', dt, rand, k0);
  }

  /** Stepping one more enemy adds its draws to those taken so far. */
  lemma DrawsStep(m: Trig, p: Player, es: seq<Enemy>, es': seq<Enemy>, e': Enemy, dt: real)
    requires |es'| < |es|
    ensures var i := |es'|;
            Draws(m, p, es[..i + 1], es' + [e'], dt) ==
              Draws(m, p, es[..i], es', dt) + (if Close(m, p, es[i]) then 1 else 0) +
              (if es[i].alive && FireGate(m, p, es[i], e', dt) then 1 else 0)
  {
    var i := |es'|;
    assert es[..i + 1][..i] == es[..i];
    assert (es' + [e'])[..i] == es';
  }

  /** Stepping one more enemy adds its boop, if any, to the boops so far. */
  lemma BoopsStep(m: Trig, p: Player, es: seq<Enemy>, es': seq<Enemy>, e': Enemy, dt: real,
                  rand: Rand, k0: nat)
    requires |es'| < |es|
    ensures var i := |es'|;
            Boops(m, p, es[..i + 1], es' + [e'], dt, rand, k0) ==
              Boops(m, p, es[..i], es', dt, rand, k0) +
              (if Close(m, p, es[i]) && rand(k0 + Draws(m, p, es[..i], es', dt)) < 0.5 * dt
               then [Boop] else [])
  {
    var i := |es'|;
    assert es[..i + 1][..i] == es[..i];
    assert (es' + [e'])[..i] == es';
  }

  /** Appending fresh lasers keeps the old list as a prefix and makes every new entry fresh. */
  lemma FreshAppended(ps: seq<Projectile>, ls: seq<Projectile>)
    requires forall j :: 0 <= j < |ls| ==> IsFreshLaser(ls[j])
    ensures (ps + ls)[..|ps|] == ps
    ensures forall j :: |ps| <= j < |ps + ls| ==> IsFreshLaser((ps + ls)[j])
  {
    assert forall j :: |ps| <= j < |ps + ls| ==> (ps + ls)[j] == ls[j - |ps|];
  }

  /** The enemy loop's invariant on the enemies stepped so far: each by `EnemyStepped`, and
      each keeping what `StepKept` promises. */
  ghost predicate StepsSoFar(m: Trig, p: Player, enemies: seq<Enemy>, enemies': seq<Enemy>, dt: real) {
    |enemies'| <= |enemies| &&
    (forall j :: 0 <= j < |enemies'| ==> EnemyStepped(m, p, enemies[j], enemies'[j], dt)) &&
    (forall j :: 0 <= j < |enemies'| ==> StepKept(m, enemies[j], enemies'[j]))
  }

  /** One more enemy step keeps `StepsSoFar`. */
  lemma StepsGrow(m: Trig, p: Player, enemies: seq<Enemy>, enemies': seq<Enemy>, e: Enemy, dt: real)
    requires StepsSoFar(m, p, enemies, enemies', dt) && |enemies'| < |enemies|
    requires EnemyStepped(m, p, enemies[|enemies'|], e, dt) && StepKept(m, enemies[|enemies'|], e)
    ensures StepsSoFar(m, p, enemies, enemies' + [e], dt)
  {
    var es' := enemies' + [e];
    assert forall j :: 0 <= j < |enemies'| ==> es'[j] == enemies'[j];
  }

  /** The enemy loop's invariant on the projectile list survives one more enemy step. */
  lemma LasersGrow(m: Trig, p: Player, enemies: seq<Enemy>, enemies': seq<Enemy>, e: Enemy,
                   shot: Option<Projectile>, dt: real,
                   projectiles: seq<Projectile>, projectiles': seq<Projectile>)
    requires |enemies'| < |enemies|
    requires projectiles' == projectiles + FiredLasers(m, p, enemies[..|enemies'|], enemies', dt)
    requires shot == (if enemies[|enemies'|].alive && FireGate(m, p, enemies[|enemies'|], e, dt)
                      then Some(EnemyLaser(m, p, enemies[|enemies'|], e)) else None)
    ensures projectiles' + (if shot.Some? then [shot.value] else []) ==
            projectiles + FiredLasers(m, p, enemies[..|enemies'| + 1], enemies' + [e], dt)
  {
    FiredLasersStep(m, p, enemies, enemies', e, dt);
    var fired := FiredLasers(m, p, enemies[..|enemies'|], enemies', dt);
    var last := if shot.Some? then [shot.value] else [];
    assert (projectiles + fired) + last == projectiles + (fired + last);
  }

  /** Stepping one more enemy appends its laser, if it fired, to those fired so far. */
  lemma FiredLasersStep(m: Trig, p: Player, es: seq<Enemy>, es': seq<Enemy>, e': Enemy, dt: real)
    requires |es'| < |es|
    ensures var i := |es'|;
            FiredLasers(m, p, es[..i + 1], es' + [e'], dt) ==
            FiredLasers(m, p, es[..i], es', dt) +
            (if es[i].alive && FireGate(m, p, es[i], e', dt) then [EnemyLaser(m, p, es[i], e')] else [])
  {
    var i := |es'|;
    assert es[..i + 1][..i] == es[..i];
    assert (es' + [e'])[..i] == es';
  }

  /* ---------------------------------------------------------------------------------- */
  /* Projectiles                                                                          */

  function TrailOf(trail: Option<seq<Vec>>): seq<Vec> {
    if trail.Some? then trail.value else []
  }

  /** `trail.push({x, y})`, then one `shift()` when it has grown past ten points: the newest
      point is last, the rest are the most recent earlier points in order. */
  function PushTrail(trail: Option<seq<Vec>>, v: Vec): (t: seq<Vec>)
    ensures var full := TrailOf(trail) + [v];
            0 < |t| <= |full| && t == full[|full| - |t|..] && t[|t| - 1] == v
    ensures |TrailOf(trail)| <= MaxTrail ==>
              |t| == if |TrailOf(trail)| < MaxTrail then |TrailOf(trail)| + 1 else MaxTrail
  {
    var full := TrailOf(trail) + [v];
    if |full| > MaxTrail then full[1..] else full
  }

  /** A projectile after one tick of flight: time, vertical speed and height updated, the
      point it leaves added to a laser's trail, and its position advanced along its
      heading by `spd * dt`. Gravity acts on every projectile. */
  function Fly(pr: Projectile, dt: real): Projectile {
    var vz := pr.vz + (-9.8) * dt;
    pr.(x := pr.x + pr.dx * pr.spd * dt, y := pr.y + pr.dy * pr.spd * dt,
        ttl := pr.ttl - dt, vz := vz, z := pr.z + vz * dt,
        trail := if pr.kind == Laser then Some(PushTrail(pr.trail, Vec(pr.x, pr.y))) else pr.trail)
  }

  /** The projectile neither expires this tick nor flies into a wall. */
  predicate Flies(pr: Projectile, dt: real) {
    pr.ttl - dt > 0.0 && !IsWall(Fly(pr, dt).x, Fly(pr, dt).y)
  }

  /** A projectile that keeps flying is still well-formed. */
  lemma FlyKeepsOk(pr: Projectile, dt: real)
    requires ProjectileOk(pr) && pr.ttl - dt > 0.0
    ensures ProjectileOk(Fly(pr, dt))
  {
    if pr.kind == Laser {
      assert |TrailOf(pr.trail)| <= MaxTrail;
    }
  }

  /** Low enough to hit anything: `(pr.z ?? 0) <= 0.6`. */
  predicate Low(pr: Projectile) {
    pr.z <= 0.6
  }

  /** A live enemy whose circle (radius `rad || 0.28`) contains the point. */
  predicate HitsEnemy(m: Trig, e: Enemy, x: real, y: real) {
    e.alive && m.hypot(e.x - x, e.y - y) < EffectiveRad(e)
  }

  /** An enemy laser within 0.35 of the player. */
  predicate HitsPlayer(m: Trig, p: Player, pr: Projectile) {
    Low(pr) && m.hypot(p.x - pr.x, p.y - pr.y) < 0.35
  }

  /** The first enemy from index `i` on whose circle contains the point, if any. */
  function FirstHitFrom(m: Trig, enemies: seq<Enemy>, x: real, y: real, i: nat): (h: Option<nat>)
    requires i <= |enemies|
    ensures h.Some? ==> i <= h.value < |enemies| && HitsEnemy(m, enemies[h.value], x, y) &&
                        forall j :: i <= j < h.value ==> !HitsEnemy(m, enemies[j], x, y)
    ensures h.None? ==> forall j :: i <= j < |enemies| ==> !HitsEnemy(m, enemies[j], x, y)
    decreases |enemies| - i
  {
    if i == |enemies| then None
    else if HitsEnemy(m, enemies[i], x, y) then Some(i)
    else FirstHitFrom(m, enemies, x, y, i + 1)
  }

  /** The enemy a low player shot at the point damages: the first live one it is inside. */
  function FirstHit(m: Trig, enemies: seq<Enemy>, x: real, y: real): (h: Option<nat>)
    ensures h.Some? ==> h.value < |enemies| && HitsEnemy(m, enemies[h.value], x, y) &&
                        forall j :: 0 <= j < h.value ==> !HitsEnemy(m, enemies[j], x, y)
    ensures h.None? <==> forall j :: 0 <= j < |enemies| ==> !HitsEnemy(m, enemies[j], x, y)
  {
    FirstHitFrom(m, enemies, x, y, 0)
  }

  /** The inner loop over the enemies: the first live one the point is inside, if any. */
  method FindHit(m: Trig, enemies: seq<Enemy>, x: real, y: real) returns (hit: Option<nat>)
    ensures hit == FirstHit(m, enemies, x, y)
    ensures hit.Some? ==> hit.value < |enemies| && HitsEnemy(m, enemies[hit.value], x, y) &&
                          forall i :: 0 <= i < hit.value ==> !HitsEnemy(m, enemies[i], x, y)
    ensures hit.None? ==> forall i :: 0 <= i < |enemies| ==> !HitsEnemy(m, enemies[i], x, y)
  {
    for i := 0 to |enemies|
      invariant FirstHitFrom(m, enemies, x, y, i) == FirstHit(m, enemies, x, y)
    {
      if HitsEnemy(m, enemies[i], x, y) {
        return Some(i);
      }
    }
    return None;
  }

  /** A player shot that hits nothing: too high, or inside no live enemy. */
  predicate Misses(m: Trig, enemies: seq<Enemy>, pr: Projectile) {
    !Low(pr) || forall i :: 0 <= i < |enemies| ==> !HitsEnemy(m, enemies[i], pr.x, pr.y)
  }

  /** `e.hp -= 60`, and a cube at or below zero is destroyed. */
  function Damaged(e: Enemy): (e': Enemy)
    ensures e'.hp == e.hp - 60 && e' == e.(hp := e'.hp, alive := e'.alive)
    ensures e.alive ==> (e'.alive <==> e'.hp > 0)
  {
    e.(hp := e.hp - 60, alive := e.alive && e.hp - 60 > 0)
  }

  /** The outcome of one pass of the projectile loop as a value: the projectile kept, if
      any, and the enemies afterwards. It is kept, flown, exactly when it flies and hits
      nothing: a player shot misses every live enemy (or is too high), an enemy laser misses
      the player. Only a player shot that hits changes the enemies, damaging the first one
      it is inside. */
  function Shot(m: Trig, p: Player, pr: Projectile, enemies: seq<Enemy>, dt: real)
    : (r: (Option<Projectile>, seq<Enemy>))
    ensures |r.1| == |enemies|
    ensures r.0.Some? ==> r.0.value == Fly(pr, dt)
    ensures r.0.Some? <==>
              Flies(pr, dt) &&
              (pr.from == FromPlayer ==> Misses(m, enemies, Fly(pr, dt))) &&
              (pr.from == FromEnemy ==> !HitsPlayer(m, p, Fly(pr, dt)))
    ensures r.1 != enemies ==>
              Flies(pr, dt) && pr.from == FromPlayer && !Misses(m, enemies, Fly(pr, dt))
    ensures Flies(pr, dt) && pr.from == FromPlayer && !Misses(m, enemies, Fly(pr, dt)) ==>
              var h := FirstHit(m, enemies, Fly(pr, dt).x, Fly(pr, dt).y);
              h.Some? && r.1 == enemies[h.value := Damaged(enemies[h.value])]
  {
    if !Flies(pr, dt) then (None, enemies)
    else
      var q := Fly(pr, dt);
      match pr.from
      case FromPlayer =>
        var h := if Low(q) then FirstHit(m, enemies, q.x, q.y) else None;
        if h.Some? then (None, enemies[h.value := Damaged(enemies[h.value])]) else (Some(q), enemies)
      case FromEnemy =>
        if HitsPlayer(m, p, q) then (None, enemies) else (Some(q), enemies)
  }

  /** The whole projectile loop as a value: each projectile shot in order against the
      enemies the previous ones left, and the ones kept collected in order. */
  function Volley(m: Trig, p: Player, prs: seq<Projectile>, enemies: seq<Enemy>, dt: real)
    : (r: (seq<Projectile>, seq<Enemy>))
    ensures |r.0| <= |prs| && |r.1| == |enemies|
    ensures forall i :: 0 <= i < |r.0| ==> !IsWall(r.0[i].x, r.0[i].y)
    decreases |prs|
  {
    if prs == [] then ([], enemies)
    else
      var first := Shot(m, p, prs[0], enemies, dt);
      var rest := Volley(m, p, prs[1..], first.1, dt);
      ((if first.0.Some? then [first.0.value] else []) + rest.0, rest.1)
  }

  /** The cube a shot destroys, as it stood before the hit: the first live enemy a flying,
      low player shot is inside, when 60 damage leaves it no health. */
  function ShotKill(m: Trig, pr: Projectile, enemies: seq<Enemy>, dt: real): Option<Enemy> {
    if !Flies(pr, dt) || pr.from != FromPlayer || !Low(Fly(pr, dt)) then None
    else
      var h := FirstHit(m, enemies, Fly(pr, dt).x, Fly(pr, dt).y);
      if h.Some? && !Damaged(enemies[h.value]).alive then Some(enemies[h.value]) else None
  }

  /** The HUD update one shot queues: `CubeDown` for a destroyed cube, `LaserHit` for an
      enemy laser that reaches the player. */
  function ShotEffects(m: Trig, p: Player, pr: Projectile, enemies: seq<Enemy>, dt: real)
    : seq<HudEffect>
  {
    if ShotKill(m, pr, enemies, dt).Some? then [CubeDown]
    else if Flies(pr, dt) && pr.from == FromEnemy && HitsPlayer(m, p, Fly(pr, dt)) then [LaserHit]
    else []
  }

  /** A shot's HUD update agrees with what `Shot` does: one `CubeDown` per cube its damage
      destroys, and a `LaserHit` exactly when an enemy laser flies and is spent. */
  lemma ShotEffectsAgree(m: Trig, p: Player, pr: Projectile, enemies: seq<Enemy>, dt: real)
    ensures CountOf(ShotEffects(m, p, pr, enemies, dt), CubeDown) ==
              Kills(enemies, Shot(m, p, pr, enemies, dt).1)
    ensures CountOf(ShotEffects(m, p, pr, enemies, dt), LaserHit) ==
              if pr.from == FromEnemy && Flies(pr, dt) && Shot(m, p, pr, enemies, dt).0.None?
              then 1 else 0
  {
    ShotEffectsCounts(m, p, pr, enemies, dt);
    KillsNone(enemies);
    if Flies(pr, dt) && pr.from == FromPlayer && Low(Fly(pr, dt)) {
      var q := Fly(pr, dt);
      var h := FirstHit(m, enemies, q.x, q.y);
      if h.Some? {
        KillsUpdate(enemies, enemies, h.value, Damaged(enemies[h.value]));
      }
    }
  }

  /** A shot queues at most one HUD update: a `CubeDown` when it destroys a cube, a
      `LaserHit` when it is an enemy laser reaching the player. */
  lemma ShotEffectsCounts(m: Trig, p: Player, pr: Projectile, enemies: seq<Enemy>, dt: real)
    ensures CountOf(ShotEffects(m, p, pr, enemies, dt), CubeDown) ==
              if ShotKill(m, pr, enemies, dt).Some? then 1 else 0
    ensures CountOf(ShotEffects(m, p, pr, enemies, dt), LaserHit) ==
              if pr.from == FromEnemy && Flies(pr, dt) && HitsPlayer(m, p, Fly(pr, dt)) then 1 else 0
  {
    var fx := ShotEffects(m, p, pr, enemies, dt);
    if fx != [] {
      assert fx[1..] == [];
    }
  }

  /** The HUD updates of the whole projectile loop, in order, each shot taken against the
      enemies the earlier ones left. */
  function VolleyEffects(m: Trig, p: Player, prs: seq<Projectile>, enemies: seq<Enemy>, dt: real)
    : (fx: seq<HudEffect>)
    ensures forall ef :: ef in fx ==> ef == CubeDown || ef == LaserHit
    decreases |prs|
  {
    if prs == [] then []
    else
      ShotEffects(m, p, prs[0], enemies, dt) +
      VolleyEffects(m, p, prs[1..], Shot(m, p, prs[0], enemies, dt).1, dt)
  }

  /** The cubes the projectile loop destroys, in order, as they stood before the fatal hit. */
  function VolleyKills(m: Trig, p: Player, prs: seq<Projectile>, enemies: seq<Enemy>, dt: real)
    : seq<Enemy>
    decreases |prs|
  {
    if prs == [] then []
    else
      var kill := ShotKill(m, prs[0], enemies, dt);
      (if kill.Some? then [kill.value] else []) +
      VolleyKills(m, p, prs[1..], Shot(m, p, prs[0], enemies, dt).1, dt)
  }

  /** The number of enemy lasers that fly and reach the player. They do not depend on the
      enemies, so this is a count over the projectiles alone. */
  function PlayerHits(m: Trig, p: Player, prs: seq<Projectile>, dt: real): nat
    decreases |prs|
  {
    if prs == [] then 0
    else
      (if prs[0].from == FromEnemy && Flies(prs[0], dt) && HitsPlayer(m, p, Fly(prs[0], dt))
       then 1 else 0) + PlayerHits(m, p, prs[1..], dt)
  }

  /** The projectile loop queues one `LaserHit` per enemy laser that reaches the player. */
  lemma {:induction false} VolleyLaserHits(m: Trig, p: Player, prs: seq<Projectile>,
                                           enemies: seq<Enemy>, dt: real)
    ensures CountOf(VolleyEffects(m, p, prs, enemies, dt), LaserHit) == PlayerHits(m, p, prs, dt)
    decreases |prs|
  {
    if prs != [] {
      var fx := ShotEffects(m, p, prs[0], enemies, dt);
      var rest := VolleyEffects(m, p, prs[1..], Shot(m, p, prs[0], enemies, dt).1, dt);
      assert VolleyEffects(m, p, prs, enemies, dt) == fx + rest;
      VolleyLaserHits(m, p, prs[1..], Shot(m, p, prs[0], enemies, dt).1, dt);
      ShotEffectsCounts(m, p, prs[0], enemies, dt);
      CountOfAppend(fx, rest, LaserHit);
    }
  }

  /** The projectile loop queues one `CubeDown` per cube it destroys. */
  lemma {:induction false} VolleyCubeDowns(m: Trig, p: Player, prs: seq<Projectile>,
                                           enemies: seq<Enemy>, dt: real)
    ensures CountOf(VolleyEffects(m, p, prs, enemies, dt), CubeDown) ==
              |VolleyKills(m, p, prs, enemies, dt)|
    decreases |prs|
  {
    if prs != [] {
      var fx := ShotEffects(m, p, prs[0], enemies, dt);
      var after := Shot(m, p, prs[0], enemies, dt).1;
      var rest := VolleyEffects(m, p, prs[1..], after, dt);
      assert VolleyEffects(m, p, prs, enemies, dt) == fx + rest;
      VolleyCubeDowns(m, p, prs[1..], after, dt);
      ShotEffectsCounts(m, p, prs[0], enemies, dt);
      CountOfAppend(fx, rest, CubeDown);
    }
  }

  /** Which explosion each copy spawns: the bouncing one of the component, the drifting one
      of spawn.js. */
  function BurstOf(snapshot: Snapshot): Burst {
    if snapshot == Canvas then Bounce else Drift
  }

  /** The fragments `spawnExplosion(state, e.x, e.y, e.color)` adds: as many as the
      variant's count allows, each well-formed and flying outward from the cube's centre. */
  ghost predicate BurstFrom(variant: Burst, b: seq<Particle>, e: Enemy) {
    (variant == Bounce ==> 24 <= |b| <= 39) && (variant == Drift ==> 28 <= |b| <= 45) &&
    forall i :: 0 <= i < |b| ==>
      WellBurst(variant, b[i], e.x, e.y, e.color, None) &&
      Outward(b[i], e.x, e.y, BurstOffset(variant))
  }

  /** The particle list after `spawnExplosion(state, e.x, e.y, e.color)`. */
  ghost predicate Exploded(variant: Burst, before: seq<Particle>, after: seq<Particle>, e: Enemy) {
    |after| >= |before| && after[..|before|] == before && BurstFrom(variant, after[|before|..], e)
  }

  /** The bursts laid end to end. */
  function Joined(bs: seq<seq<Particle>>): seq<Particle>
    decreases |bs|
  {
    if bs == [] then [] else Joined(bs[..|bs| - 1]) + bs[|bs| - 1]
  }

  /** One burst per destroyed cube, in order. */
  ghost predicate Exploding(variant: Burst, bursts: seq<seq<Particle>>, kills: seq<Enemy>) {
    |bursts| == |kills| &&
    forall j :: 0 <= j < |bursts| ==> BurstFrom(variant, bursts[j], kills[j])
  }

  /** One pass of the projectile loop. An expired projectile, or one whose next spot is a
      wall, is dropped unmoved. Otherwise it flies; a low player shot damages the first live
      enemy it is inside and is spent (a destroyed cube scores and explodes); a low enemy
      laser within 0.35 of the player hurts the player and is spent. */
  method StepProjectile(snapshot: Snapshot, m: Trig, p: Player, pr: Projectile,
                        enemies: seq<Enemy>, particles: seq<Particle>,
                        dt: real, rand: Rand, k0: nat)
    returns (keep: Option<Projectile>, hit: Option<nat>, enemies': seq<Enemy>,
             particles': seq<Particle>, effects: seq<HudEffect>, k: nat)
    requires UnitStream(rand) && Lawful(m)
    ensures !Flies(pr, dt) ==>
              keep.None? && hit.None? && enemies' == enemies && particles' == particles &&
              effects == [] && k == k0
    ensures keep.Some? ==> keep.value == Fly(pr, dt) && Flies(pr, dt)
    ensures pr.from == FromEnemy ==>
              hit.None? && enemies' == enemies && particles' == particles && k == k0
    ensures pr.from == FromEnemy && Flies(pr, dt) ==>
              (keep.None? <==> HitsPlayer(m, p, Fly(pr, dt))) &&
              effects == (if keep.None? then [LaserHit] else [])
    ensures pr.from == FromPlayer && Flies(pr, dt) ==>
              (hit.None? <==> Misses(m, enemies, Fly(pr, dt))) && (keep.None? <==> hit.Some?)
    ensures hit.None? && pr.from == FromPlayer ==>
              enemies' == enemies && particles' == particles && effects == [] && k == k0
    ensures hit.Some? ==>
              hit.value < |enemies| && HitsEnemy(m, enemies[hit.value], Fly(pr, dt).x, Fly(pr, dt).y) &&
              (forall i :: 0 <= i < hit.value ==> !HitsEnemy(m, enemies[i], Fly(pr, dt).x, Fly(pr, dt).y)) &&
              enemies' == enemies[hit.value := Damaged(enemies[hit.value])]
    ensures hit.Some? && enemies'[hit.value].alive ==> effects == [] && particles' == particles && k == k0
    ensures hit.Some? && !enemies'[hit.value].alive ==>
              effects == [CubeDown] && Exploded(BurstOf(snapshot), particles, particles', enemies[hit.value])
    ensures (keep, enemies') == Shot(m, p, pr, enemies, dt)
    ensures effects == ShotEffects(m, p, pr, enemies, dt)
    ensures ShotKill(m, pr, enemies, dt).None? ==> particles' == particles
    ensures ShotKill(m, pr, enemies, dt).Some? ==>
              Exploded(BurstOf(snapshot), particles, particles', ShotKill(m, pr, enemies, dt).value)
    ensures k >= k0
  {
    keep, hit, enemies', particles', effects, k := None, None, enemies, particles, [], k0;
    if !Flies(pr, dt) {
      return;
    }
    var q := Fly(pr, dt);
    if pr.from == FromPlayer {
      if Low(q) {
        hit := FindHit(m, enemies, q.x, q.y);
      }
      if hit.Some? {
        var e := enemies[hit.value];
        enemies' := enemies[hit.value := Damaged(e)];
        assert (keep, enemies') == Shot(m, p, pr, enemies, dt);
        if !Damaged(e).alive {
          effects := [CubeDown];
          particles', k := SpawnExplosion(BurstOf(snapshot), particles, e.x, e.y, e.color,
                                          None, m, rand, k0);
          SpawnedBurst(BurstOf(snapshot), particles, particles', e);
        }
      } else {
        keep := Some(q);
      }
    } else {
      if HitsPlayer(m, p, q) {
        effects := [LaserHit];
      } else {
        keep := Some(q);
      }
    }
  }

  /** `spawnExplosion`'s promise, index by index, is an `Exploded` particle list. */
  lemma SpawnedBurst(variant: Burst, before: seq<Particle>, after: seq<Particle>, e: Enemy)
    requires |after| >= |before| && after[..|before|] == before
    requires variant == Bounce ==> 24 <= |after| - |before| <= 39
    requires variant == Drift ==> 28 <= |after| - |before| <= 45
    requires forall i :: |before| <= i < |after| ==>
               WellBurst(variant, after[i], e.x, e.y, e.color, None) &&
               Outward(after[i], e.x, e.y, BurstOffset(variant))
    ensures Exploded(variant, before, after, e)
  {
    var b := after[|before|..];
    assert forall i :: 0 <= i < |b| ==> b[i] == after[|before| + i];
  }

  /** The total health of a list of enemies. */
  function SumHp(es: seq<Enemy>): int
    decreases |es|
  {
    if es == [] then 0 else es[0].hp + SumHp(es[1..])
  }

  /** The number of enemies alive in `before` and destroyed in `after`. */
  function Kills(before: seq<Enemy>, after: seq<Enemy>): nat
    requires |before| == |after|
    decreases |before|
  {
    if before == [] then 0
    else (if before[0].alive && !after[0].alive then 1 else 0) + Kills(before[1..], after[1..])
  }

  lemma {:induction false} SumHpUpdate(es: seq<Enemy>, j: nat, e: Enemy)
    requires j < |es|
    ensures SumHp(es[j := e]) == SumHp(es) - es[j].hp + e.hp
    decreases |es|
  {
    if j == 0 {
      assert es[j := e][1..] == es[1..];
    } else {
      assert es[j := e][1..] == es[1..][j - 1 := e];
      SumHpUpdate(es[1..], j - 1, e);
    }
  }

  lemma {:induction false} KillsUpdate(before: seq<Enemy>, after: seq<Enemy>, j: nat, e: Enemy)
    requires |before| == |after| && j < |after|
    ensures Kills(before, after[j := e]) ==
              Kills(before, after) - (if before[j].alive && !after[j].alive then 1 else 0)
                                   + (if before[j].alive && !e.alive then 1 else 0)
    decreases |before|
  {
    if j == 0 {
      assert after[j := e][1..] == after[1..];
    } else {
      assert after[j := e][1..] == after[1..][j - 1 := e];
      KillsUpdate(before[1..], after[1..], j - 1, e);
    }
  }

  lemma {:induction false} KillsNone(es: seq<Enemy>)
    ensures Kills(es, es) == 0
    decreases |es|
  {
    if es != [] {
      KillsNone(es[1..]);
    }
  }

  /** What the projectile loop may do to one enemy: lower its health and destroy it, nothing
      else; a dead enemy is untouched and a well-formed one stays well-formed. */
  predicate Wounded(e: Enemy, e': Enemy) {
    e' == e.(hp := e'.hp, alive := e'.alive) && e'.hp <= e.hp && (e'.alive ==> e.alive) &&
    (!e.alive ==> e' == e) && (EnemyOk(e) ==> EnemyOk(e'))
  }

  /** What the projectile loop keeps about its working copies. */
  ghost predicate ProjectilesSoFar(projectiles: seq<Projectile>, done: nat, survivors: seq<Projectile>,
                                   enemies: seq<Enemy>, enemies': seq<Enemy>,
                                   particles: seq<Particle>, particles': seq<Particle>,
                                   effects: seq<HudEffect>, hits: nat)
  {
    SurvivorsSoFar(projectiles, done, survivors) &&
    EnemiesSoFar(enemies, enemies', effects, done, hits) &&
    ParticlesSoFar(particles, particles')
  }

  /** The survivors so far: no more than the projectiles stepped, well-formed when the
      input was, and none inside a wall. */
  ghost predicate SurvivorsSoFar(projectiles: seq<Projectile>, done: nat, survivors: seq<Projectile>) {
    done <= |projectiles| && |survivors| <= done &&
    ((forall pr :: pr in projectiles ==> ProjectileOk(pr)) ==>
       forall pr :: pr in survivors ==> ProjectileOk(pr)) &&
    (forall pr :: pr in survivors ==> !IsWall(pr.x, pr.y))
  }

  /** The enemies so far: each only wounded, 60 health lost per hit, and one `CubeDown` per
      destroyed cube. */
  ghost predicate EnemiesSoFar(enemies: seq<Enemy>, enemies': seq<Enemy>, effects: seq<HudEffect>,
                               done: nat, hits: nat)
  {
    |enemies'| == |enemies| &&
    (forall i :: 0 <= i < |enemies| ==> Wounded(enemies[i], enemies'[i])) &&
    hits <= done && SumHp(enemies') == SumHp(enemies) - 60 * hits &&
    CountOf(effects, CubeDown) == Kills(enemies, enemies') &&
    (forall ef :: ef in effects ==> ef == CubeDown || ef == LaserHit)
  }

  /** The particles so far: the old ones first and unchanged, all well-formed when the old
      ones were. */
  ghost predicate ParticlesSoFar(particles: seq<Particle>, particles': seq<Particle>) {
    |particles'| >= |particles| && particles'[..|particles|] == particles &&
    ((forall q :: q in particles ==> ParticleOk(q)) ==> forall q :: q in particles' ==> ParticleOk(q))
  }

  /** Every fresh explosion fragment is a live particle above the floor. */
  lemma ExplodedOk(variant: Burst, before: seq<Particle>, after: seq<Particle>, e: Enemy)
    requires Exploded(variant, before, after, e)
    requires forall q :: q in before ==> ParticleOk(q)
    ensures forall q :: q in after ==> ParticleOk(q)
  {
    forall q | q in after
      ensures ParticleOk(q)
    {
      var i :| 0 <= i < |after| && after[i] == q;
      if i < |before| {
        assert q == after[..|before|][i];
      } else {
        assert q == after[|before|..][i - |before|];
      }
    }
  }

  /** The projectile loop: every projectile stepped in order against the current enemies,
      and the survivors kept in order. Each hit costs its enemy exactly 60 health, and each
      destroyed cube yields exactly one `CubeDown`. */
  method ProjectilePhase(snapshot: Snapshot, m: Trig, p: Player, projectiles: seq<Projectile>,
                         enemies: seq<Enemy>, particles: seq<Particle>,
                         dt: real, rand: Rand, k0: nat)
    returns (survivors: seq<Projectile>, enemies': seq<Enemy>, particles': seq<Particle>,
             effects: seq<HudEffect>, hits: nat, k: nat, ghost bursts: seq<seq<Particle>>)
    requires UnitStream(rand) && Lawful(m)
    ensures |survivors| <= |projectiles|
    ensures (forall pr :: pr in projectiles ==> ProjectileOk(pr)) ==>
              forall pr :: pr in survivors ==> ProjectileOk(pr)
    ensures forall pr :: pr in survivors ==> !IsWall(pr.x, pr.y)
    ensures |enemies'| == |enemies|
    ensures forall i :: 0 <= i < |enemies| ==> Wounded(enemies[i], enemies'[i])
    ensures hits <= |projectiles| && SumHp(enemies') == SumHp(enemies) - 60 * hits
    ensures CountOf(effects, CubeDown) == Kills(enemies, enemies')
    ensures forall ef :: ef in effects ==> ef == CubeDown || ef == LaserHit
    ensures |particles'| >= |particles| && particles'[..|particles|] == particles
    ensures (forall q :: q in particles ==> ParticleOk(q)) ==> forall q :: q in particles' ==> ParticleOk(q)
    ensures (survivors, enemies') == Volley(m, p, projectiles, enemies, dt)
    ensures effects == VolleyEffects(m, p, projectiles, enemies, dt)
    ensures CountOf(effects, LaserHit) == PlayerHits(m, p, projectiles, dt)
    ensures particles' == particles + Joined(bursts)
    ensures Exploding(BurstOf(snapshot), bursts, VolleyKills(m, p, projectiles, enemies, dt))
    ensures k >= k0
  {
    survivors, enemies', particles', effects, hits, k := [], enemies, particles, [], 0, k0;
    ghost var kills := [];
    bursts := [];
    KillsNone(enemies);
    VolleyStart(m, p, projectiles, enemies, dt);
    TallyStart(snapshot, m, p, projectiles, enemies, particles, dt);
    for i := 0 to |projectiles|
      invariant ProjectilesSoFar(projectiles, i, survivors, enemies, enemies', particles,
                                 particles', effects, hits)
      invariant VolleyRest(m, p, projectiles, enemies, dt, i, survivors, enemies')
      invariant TallyRest(snapshot, m, p, projectiles, enemies, particles, dt, i, enemies',
                          particles', effects, kills, bursts)
      invariant k >= k0
    {
      survivors, enemies', particles', effects, hits, k, kills, bursts :=
        ProjectilePass(snapshot, m, p, projectiles, i, survivors, enemies, enemies', particles,
                       particles', effects, hits, dt, rand, k, kills, bursts);
    }
    VolleyDone(m, p, projectiles, enemies, dt, survivors, enemies');
    TallyDone(snapshot, m, p, projectiles, enemies, particles, dt, enemies', particles',
              effects, kills, bursts);
    VolleyLaserHits(m, p, projectiles, enemies, dt);
  }

  /** The body of the projectile loop: projectile `i` is stepped against the current enemies
      and particles, and the loop's working copies are brought up to date. */
  method ProjectilePass(snapshot: Snapshot, m: Trig, p: Player, projectiles: seq<Projectile>, i: nat,
                        survivors: seq<Projectile>, enemies: seq<Enemy>, enemies': seq<Enemy>,
                        particles: seq<Particle>, particles': seq<Particle>,
                        effects: seq<HudEffect>, hits: nat, dt: real, rand: Rand, k0: nat,
                        ghost kills: seq<Enemy>, ghost bursts: seq<seq<Particle>>)
    returns (survivors2: seq<Projectile>, enemies2: seq<Enemy>, particles2: seq<Particle>,
             effects2: seq<HudEffect>, hits2: nat, k: nat,
             ghost kills2: seq<Enemy>, ghost bursts2: seq<seq<Particle>>)
    requires UnitStream(rand) && Lawful(m) && i < |projectiles|
    requires ProjectilesSoFar(projectiles, i, survivors, enemies, enemies', particles,
                              particles', effects, hits)
    requires VolleyRest(m, p, projectiles, enemies, dt, i, survivors, enemies')
    requires TallyRest(snapshot, m, p, projectiles, enemies, particles, dt, i, enemies',
                       particles', effects, kills, bursts)
    ensures ProjectilesSoFar(projectiles, i + 1, survivors2, enemies, enemies2, particles,
                             particles2, effects2, hits2)
    ensures VolleyRest(m, p, projectiles, enemies, dt, i + 1, survivors2, enemies2)
    ensures TallyRest(snapshot, m, p, projectiles, enemies, particles, dt, i + 1, enemies2,
                      particles2, effects2, kills2, bursts2)
    ensures k >= k0
  {
    var keep, hit, es, ps, fx;
    keep, hit, es, ps, fx, k := StepProjectile(snapshot, m, p, projectiles[i], enemies',
                                               particles', dt, rand, k0);
    StepProjectileKeeps(projectiles, i, survivors, enemies, enemies', particles, particles',
                        effects, hits, dt, keep, hit, es, ps, fx, snapshot, m);
    VolleyGrows(m, p, projectiles, enemies, dt, i, survivors, enemies', keep, es);
    kills2, bursts2 := TallyGrows(snapshot, m, p, projectiles, enemies, particles, dt, i, enemies',
                                  particles', effects, kills, bursts, es, ps, fx);
    survivors2 := survivors + (if keep.Some? then [keep.value] else []);
    hits2 := hits + (if hit.Some? then 1 else 0);
    enemies2, particles2, effects2 := es, ps, effects + fx;
  }

  /** The projectile loop after `i` projectiles: what is kept so far, followed by what the
      rest of the loop keeps from the current enemies, is the whole `Volley`. */
  ghost predicate VolleyRest(m: Trig, p: Player, projectiles: seq<Projectile>, enemies: seq<Enemy>,
                             dt: real, i: nat, survivors: seq<Projectile>, enemies': seq<Enemy>)
  {
    i <= |projectiles| &&
    var rest := Volley(m, p, projectiles[i..], enemies', dt);
    Volley(m, p, projectiles, enemies, dt) == (survivors + rest.0, rest.1)
  }

  /** Before the first projectile, all of `Volley` is still to come. */
  lemma VolleyStart(m: Trig, p: Player, projectiles: seq<Projectile>, enemies: seq<Enemy>, dt: real)
    ensures VolleyRest(m, p, projectiles, enemies, dt, 0, [], enemies)
  {
    assert projectiles[0..] == projectiles;
    assert [] + Volley(m, p, projectiles, enemies, dt).0 == Volley(m, p, projectiles, enemies, dt).0;
  }

  /** One more `Shot` keeps `VolleyRest`. */
  lemma VolleyGrows(m: Trig, p: Player, projectiles: seq<Projectile>, enemies: seq<Enemy>,
                    dt: real, i: nat, survivors: seq<Projectile>, enemies': seq<Enemy>,
                    keep: Option<Projectile>, es: seq<Enemy>)
    requires VolleyRest(m, p, projectiles, enemies, dt, i, survivors, enemies') && i < |projectiles|
    requires (keep, es) == Shot(m, p, projectiles[i], enemies', dt)
    ensures VolleyRest(m, p, projectiles, enemies, dt, i + 1,
                       survivors + (if keep.Some? then [keep.value] else []), es)
  {
    var rest := projectiles[i..];
    assert rest[0] == projectiles[i] && rest[1..] == projectiles[i + 1..];
    var kept := if keep.Some? then [keep.value] else [];
    var tail := Volley(m, p, projectiles[i + 1..], es, dt);
    assert Volley(m, p, rest, enemies', dt) == (kept + tail.0, tail.1);
    assert survivors + (kept + tail.0) == (survivors + kept) + tail.0;
  }

  /** Once every projectile is stepped, the survivors and enemies are the whole `Volley`. */
  lemma VolleyDone(m: Trig, p: Player, projectiles: seq<Projectile>, enemies: seq<Enemy>,
                   dt: real, survivors: seq<Projectile>, enemies': seq<Enemy>)
    requires VolleyRest(m, p, projectiles, enemies, dt, |projectiles|, survivors, enemies')
    ensures (survivors, enemies') == Volley(m, p, projectiles, enemies, dt)
  {
    assert projectiles[|projectiles|..] == [];
    assert survivors + [] == survivors;
  }

  /** The projectile loop's record after `i` projectiles: the HUD updates queued and the
      cubes destroyed so far, followed by those the rest of the loop yields from the current
      enemies, are the whole volley's; and the particle list is the old one followed by one
      burst per destroyed cube. */
  ghost predicate TallyRest(snapshot: Snapshot, m: Trig, p: Player, projectiles: seq<Projectile>,
                            enemies: seq<Enemy>, particles: seq<Particle>, dt: real, i: nat,
                            enemies': seq<Enemy>, particles': seq<Particle>,
                            effects: seq<HudEffect>, kills: seq<Enemy>, bursts: seq<seq<Particle>>)
  {
    i <= |projectiles| &&
    VolleyEffects(m, p, projectiles, enemies, dt) ==
      effects + VolleyEffects(m, p, projectiles[i..], enemies', dt) &&
    VolleyKills(m, p, projectiles, enemies, dt) ==
      kills + VolleyKills(m, p, projectiles[i..], enemies', dt) &&
    particles' == particles + Joined(bursts) &&
    Exploding(BurstOf(snapshot), bursts, kills)
  }

  /** Before the first projectile, the whole record is still to come. */
  lemma TallyStart(snapshot: Snapshot, m: Trig, p: Player, projectiles: seq<Projectile>,
                   enemies: seq<Enemy>, particles: seq<Particle>, dt: real)
    ensures TallyRest(snapshot, m, p, projectiles, enemies, particles, dt, 0, enemies, particles,
                      [], [], [])
  {
    assert projectiles[0..] == projectiles;
    assert particles + [] == particles;
  }

  /** Once every projectile is stepped, the record is the whole volley's. */
  lemma TallyDone(snapshot: Snapshot, m: Trig, p: Player, projectiles: seq<Projectile>,
                  enemies: seq<Enemy>, particles: seq<Particle>, dt: real, enemies': seq<Enemy>,
                  particles': seq<Particle>, effects: seq<HudEffect>, kills: seq<Enemy>,
                  bursts: seq<seq<Particle>>)
    requires TallyRest(snapshot, m, p, projectiles, enemies, particles, dt, |projectiles|,
                       enemies', particles', effects, kills, bursts)
    ensures effects == VolleyEffects(m, p, projectiles, enemies, dt)
    ensures kills == VolleyKills(m, p, projectiles, enemies, dt)
  {
    assert projectiles[|projectiles|..] == [];
    assert effects + [] == effects && kills + [] == kills;
  }

  /** One more shot, as `StepProjectile` states it, keeps `TallyRest`: its HUD update and
      its kill are recorded, and its burst is the tail of the new particle list. */
  lemma TallyGrows(snapshot: Snapshot, m: Trig, p: Player, projectiles: seq<Projectile>,
                   enemies: seq<Enemy>, particles: seq<Particle>, dt: real, i: nat,
                   enemies': seq<Enemy>, particles': seq<Particle>, effects: seq<HudEffect>,
                   kills: seq<Enemy>, bursts: seq<seq<Particle>>,
                   es: seq<Enemy>, ps: seq<Particle>, fx: seq<HudEffect>)
    returns (kills2: seq<Enemy>, bursts2: seq<seq<Particle>>)
    requires i < |projectiles|
    requires TallyRest(snapshot, m, p, projectiles, enemies, particles, dt, i, enemies',
                       particles', effects, kills, bursts)
    requires es == Shot(m, p, projectiles[i], enemies', dt).1
    requires fx == ShotEffects(m, p, projectiles[i], enemies', dt)
    requires ShotKill(m, projectiles[i], enemies', dt).None? ==> ps == particles'
    requires ShotKill(m, projectiles[i], enemies', dt).Some? ==>
               Exploded(BurstOf(snapshot), particles', ps, ShotKill(m, projectiles[i], enemies', dt).value)
    ensures TallyRest(snapshot, m, p, projectiles, enemies, particles, dt, i + 1, es, ps,
                      effects + fx, kills2, bursts2)
  {
    var kill := ShotKill(m, projectiles[i], enemies', dt);
    var killed := if kill.Some? then [kill.value] else [];
    VolleyStep(m, p, projectiles, i, enemies', dt);
    Regroup(effects, fx, VolleyEffects(m, p, projectiles[i + 1..], es, dt));
    Regroup(kills, killed, VolleyKills(m, p, projectiles[i + 1..], es, dt));
    kills2 := kills + killed;
    if kill.Some? {
      var b := ps[|particles'|..];
      bursts2 := bursts + [b];
      BurstAppended(BurstOf(snapshot), particles, particles', ps, bursts, kills, kill.value);
    } else {
      bursts2 := bursts;
    }
  }

  /** The volley from projectile `i` on is its shot followed by the volley after it, taken
      against the enemies that shot leaves. */
  lemma VolleyStep(m: Trig, p: Player, projectiles: seq<Projectile>, i: nat, enemies: seq<Enemy>,
                   dt: real)
    requires i < |projectiles|
    ensures var after := Shot(m, p, projectiles[i], enemies, dt).1;
            var kill := ShotKill(m, projectiles[i], enemies, dt);
            VolleyEffects(m, p, projectiles[i..], enemies, dt) ==
              ShotEffects(m, p, projectiles[i], enemies, dt) +
              VolleyEffects(m, p, projectiles[i + 1..], after, dt) &&
            VolleyKills(m, p, projectiles[i..], enemies, dt) ==
              (if kill.Some? then [kill.value] else []) +
              VolleyKills(m, p, projectiles[i + 1..], after, dt)
  {
    var rest := projectiles[i..];
    assert rest[0] == projectiles[i] && rest[1..] == projectiles[i + 1..];
  }

  lemma Regroup<T>(a: seq<T>, b: seq<T>, c: seq<T>)
    ensures a + (b + c) == (a + b) + c
  {
  }

  /** An explosion after those recorded so far is recorded as one more burst. */
  lemma BurstAppended(variant: Burst, particles: seq<Particle>, particles': seq<Particle>,
                      ps: seq<Particle>, bursts: seq<seq<Particle>>, kills: seq<Enemy>, e: Enemy)
    requires particles' == particles + Joined(bursts) && Exploding(variant, bursts, kills)
    requires Exploded(variant, particles', ps, e)
    ensures ps == particles + Joined(bursts + [ps[|particles'|..]])
    ensures Exploding(variant, bursts + [ps[|particles'|..]], kills + [e])
  {
    var b := ps[|particles'|..];
    assert (bursts + [b])[..|bursts|] == bursts;
    assert ps == particles' + b;
    assert Joined(bursts + [b]) == Joined(bursts) + b;
  }

  /** The step lemma of the projectile loop: one projectile's outcome, as `StepProjectile`
      describes it, keeps `ProjectilesSoFar`. */
  lemma StepProjectileKeeps(projectiles: seq<Projectile>, i: nat, survivors: seq<Projectile>,
                            enemies: seq<Enemy>, enemies': seq<Enemy>,
                            particles: seq<Particle>, particles': seq<Particle>,
                            effects: seq<HudEffect>, hits: nat, dt: real,
                            keep: Option<Projectile>, hit: Option<nat>, es: seq<Enemy>,
                            ps: seq<Particle>, fx: seq<HudEffect>, snapshot: Snapshot, m: Trig)
    requires i < |projectiles|
    requires ProjectilesSoFar(projectiles, i, survivors, enemies, enemies', particles,
                              particles', effects, hits)
    requires keep.Some? ==> keep.value == Fly(projectiles[i], dt) && Flies(projectiles[i], dt)
    requires hit.None? ==> es == enemies' && ps == particles' && CountOf(fx, CubeDown) == 0
    requires forall ef :: ef in fx ==> ef == CubeDown || ef == LaserHit
    requires hit.Some? ==> hit.value < |enemies'| && enemies'[hit.value].alive &&
                           es == enemies'[hit.value := Damaged(enemies'[hit.value])]
    requires hit.Some? && es[hit.value].alive ==> fx == [] && ps == particles'
    requires hit.Some? && !es[hit.value].alive ==>
               fx == [CubeDown] && Exploded(BurstOf(snapshot), particles', ps, enemies'[hit.value])
    ensures ProjectilesSoFar(projectiles, i + 1,
                             survivors + (if keep.Some? then [keep.value] else []),
                             enemies, es, particles, ps, effects + fx,
                             hits + (if hit.Some? then 1 else 0))
  {
    SurvivorsStep(projectiles, i, survivors, dt, keep);
    EnemiesStep(enemies, enemies', effects, i, hits, hit, es, fx);
    if hit.Some? && !es[hit.value].alive {
      ParticlesStep(particles, particles', ps, BurstOf(snapshot), enemies'[hit.value]);
    }
  }

  /** One projectile's outcome keeps `SurvivorsSoFar`. */
  lemma SurvivorsStep(projectiles: seq<Projectile>, i: nat, survivors: seq<Projectile>, dt: real,
                      keep: Option<Projectile>)
    requires i < |projectiles| && SurvivorsSoFar(projectiles, i, survivors)
    requires keep.Some? ==> keep.value == Fly(projectiles[i], dt) && Flies(projectiles[i], dt)
    ensures SurvivorsSoFar(projectiles, i + 1, survivors + (if keep.Some? then [keep.value] else []))
  {
    if (forall pr :: pr in projectiles ==> ProjectileOk(pr)) && keep.Some? {
      assert projectiles[i] in projectiles;
      FlyKeepsOk(projectiles[i], dt);
    }
  }

  /** One projectile's outcome keeps `EnemiesSoFar`. */
  lemma EnemiesStep(enemies: seq<Enemy>, enemies': seq<Enemy>, effects: seq<HudEffect>, i: nat,
                    hits: nat, hit: Option<nat>, es: seq<Enemy>, fx: seq<HudEffect>)
    requires EnemiesSoFar(enemies, enemies', effects, i, hits)
    requires hit.None? ==> es == enemies' && CountOf(fx, CubeDown) == 0
    requires forall ef :: ef in fx ==> ef == CubeDown || ef == LaserHit
    requires hit.Some? ==> hit.value < |enemies'| && enemies'[hit.value].alive &&
                           es == enemies'[hit.value := Damaged(enemies'[hit.value])]
    requires hit.Some? && es[hit.value].alive ==> fx == []
    requires hit.Some? && !es[hit.value].alive ==> fx == [CubeDown]
    ensures EnemiesSoFar(enemies, es, effects + fx, i + 1, hits + (if hit.Some? then 1 else 0))
  {
    CountOfAppend(effects, fx, CubeDown);
    if hit.Some? {
      var j := hit.value;
      SumHpUpdate(enemies', j, Damaged(enemies'[j]));
      KillsUpdate(enemies, enemies', j, Damaged(enemies'[j]));
      assert Wounded(enemies[j], enemies'[j]);
      if !es[j].alive {
        assert CountOf(fx, CubeDown) == 1;
      } else {
        assert CountOf(fx, CubeDown) == 0;
      }
      assert forall k :: 0 <= k < |enemies| && k != j ==> es[k] == enemies'[k];
    }
  }

  /** An explosion keeps `ParticlesSoFar`. */
  lemma ParticlesStep(particles: seq<Particle>, particles': seq<Particle>, ps: seq<Particle>,
                      variant: Burst, e: Enemy)
    requires ParticlesSoFar(particles, particles') && Exploded(variant, particles', ps, e)
    ensures ParticlesSoFar(particles, ps)
  {
    if forall q :: q in particles ==> ParticleOk(q) {
      ExplodedOk(variant, particles', ps, e);
    }
    assert ps[..|particles|] == ps[..|particles'|][..|particles|];
  }

  /* ---------------------------------------------------------------------------------- */
  /* Particles                                                                            */

  /** Touching the floor: height 0, the vertical speed reversed at 35% (dropped below 0.2),
      the horizontal speed cut to 82% (dropped below 0.05). */
  function Land(m: Trig, q: Particle): Particle {
    var vh := q.vh * -0.35;
    var vx, vy := q.vx * 0.82, q.vy * 0.82;
    var slow := m.hypot(vx, vy) < 0.05;
    q.(h := 0.0, vh := if Abs(vh) < 0.2 then 0.0 else vh,
       vx := if slow then 0.0 else vx, vy := if slow then 0.0 else vy)
  }

  /** One pass of the particle loop: a particle whose time runs out is dropped; the rest fall
      under gravity (the `noGravity` flag is not consulted), land if they sink below the
      floor, and drift. In the component a particle that ends inside a wall bounces back at
      a quarter of its speed. */
  function StepParticle(snapshot: Snapshot, m: Trig, q: Particle, dt: real): (r: Option<Particle>)
    ensures r.None? <==> q.ttl - dt <= 0.0
    ensures r.Some? ==> ParticleOk(r.value)
    ensures r.Some? ==> r.value == q.(x := r.value.x, y := r.value.y, vx := r.value.vx,
                                      vy := r.value.vy, h := r.value.h, vh := r.value.vh,
                                      ttl := q.ttl - dt)
  {
    if q.ttl - dt <= 0.0 then None
    else
      var moved := Glide(Settle(m, Fall(q, dt)), dt);
      if snapshot == Canvas && IsWall(moved.x, moved.y) then Some(Rebound(moved)) else Some(moved)
  }

  /** Gravity for one tick: the time left runs down, the vertical speed drops by 9.8 dt and
      the height moves by the new vertical speed. */
  function Fall(q: Particle, dt: real): Particle {
    var vh := q.vh + (-9.8) * dt;
    q.(ttl := q.ttl - dt, vh := vh, h := q.h + vh * dt)
  }

  /** A fragment below the floor lands. */
  function Settle(m: Trig, q: Particle): Particle {
    if q.h < 0.0 then Land(m, q) else q
  }

  /** The horizontal move by the fragment's speed. */
  function Glide(q: Particle, dt: real): Particle {
    q.(x := q.x + q.vx * dt, y := q.y + q.vy * dt)
  }

  /** The bounce off a wall: back at a quarter of the speed. */
  function Rebound(q: Particle): Particle {
    q.(vx := q.vx * -0.25, vy := q.vy * -0.25)
  }

  /** Contact with the floor or a wall only ever slows a fragment down: its horizontal speed
      after a tick is never more than after gravity alone, and a landing fragment keeps at
      most 35% of its vertical speed. */
  lemma {:induction false} StepParticleDamps(snapshot: Snapshot, m: Trig, q: Particle, dt: real)
    requires q.ttl - dt > 0.0
    ensures var r := StepParticle(snapshot, m, q, dt).value;
            r.vx * r.vx + r.vy * r.vy <= q.vx * q.vx + q.vy * q.vy
    ensures var r := StepParticle(snapshot, m, q, dt).value;
            var vh := q.vh + (-9.8) * dt;
            q.h + vh * dt < 0.0 ==> r.h == 0.0 && Abs(r.vh) <= 0.35 * Abs(vh)
  {
    var fallen := Fall(q, dt);
    var moved := Glide(Settle(m, fallen), dt);
    var r := StepParticle(snapshot, m, q, dt).value;
    assert r == moved || r == Rebound(moved);
    if fallen.h < 0.0 {
      LandDamps(m, fallen);
    }
    ScaledSquares(moved.vx, moved.vy, -0.25);
  }

  /** Landing zeroes the height, keeps at most 35% of the vertical speed and never speeds
      the fragment up. */
  lemma LandDamps(m: Trig, q: Particle)
    ensures var l := Land(m, q);
            l.h == 0.0 && Abs(l.vh) <= 0.35 * Abs(q.vh) &&
            l.vx * l.vx + l.vy * l.vy <= q.vx * q.vx + q.vy * q.vy
  {
    ScaledSquares(q.vx, q.vy, 0.82);
    assert Abs(q.vh * -0.35) == 0.35 * Abs(q.vh);
  }

  /** Scaling both components by a factor of at most 1 in size never lengthens a vector. */
  lemma ScaledSquares(a: real, b: real, k: real)
    requires -1.0 <= k <= 1.0
    ensures (a * k) * (a * k) + (b * k) * (b * k) <= a * a + b * b
  {
    assert (a * k) * (a * k) == (k * k) * (a * a);
    assert (b * k) * (b * k) == (k * k) * (b * b);
    assert 0.0 <= k * k <= 1.0 by {
      if k >= 0.0 { assert k * k <= k * 1.0; } else { assert k * k <= (-k) * 1.0; }
    }
    assert (1.0 - k * k) * (a * a + b * b) >= 0.0;
  }

  /** The particles that survive a tick, stepped, in their original order. */
  function Survivors(snapshot: Snapshot, m: Trig, ps: seq<Particle>, dt: real): (out: seq<Particle>)
    ensures |out| <= |ps|
    ensures forall q :: q in out ==> ParticleOk(q)
    decreases |ps|
  {
    if ps == [] then []
    else
      var r := StepParticle(snapshot, m, ps[|ps| - 1], dt);
      Survivors(snapshot, m, ps[..|ps| - 1], dt) + (if r.Some? then [r.value] else [])
  }

  /** A particle survives exactly when its time outlasts the tick. */
  lemma {:induction false} SurvivorsCount(snapshot: Snapshot, m: Trig, ps: seq<Particle>, dt: real)
    ensures |Survivors(snapshot, m, ps, dt)| == |set i | 0 <= i < |ps| && ps[i].ttl - dt > 0.0|
    decreases |ps|
  {
    if ps != [] {
      var n := |ps| - 1;
      SurvivorsCount(snapshot, m, ps[..n], dt);
      var front := set i | 0 <= i < |ps[..n]| && ps[..n][i].ttl - dt > 0.0;
      var all := set i | 0 <= i < |ps| && ps[i].ttl - dt > 0.0;
      if ps[n].ttl - dt > 0.0 {
        assert all == front + {n};
      } else {
        assert all == front;
      }
    }
  }

  /** The particle loop and the filter after it. */
  method ParticlePhase(snapshot: Snapshot, m: Trig, ps: seq<Particle>, dt: real)
    returns (out: seq<Particle>)
    ensures out == Survivors(snapshot, m, ps, dt)
  {
    out := [];
    for i := 0 to |ps|
      invariant out == Survivors(snapshot, m, ps[..i], dt)
    {
      assert ps[..i + 1][..i] == ps[..i];
      var r := StepParticle(snapshot, m, ps[i], dt);
      if r.Some? {
        out := out + [r.value];
      }
    }
    assert ps[..|ps|] == ps;
  }

  /* ---------------------------------------------------------------------------------- */
  /* The exit and the whole tick                                                          */

  /** `baseMap[idx(floor(p.x), floor(p.y))] === 2`. */
  predicate AtExit(p: Player) {
    MapCell(Idx(p.x.Floor, p.y.Floor)) == Some(ExitTile)
  }

  /** A player on open ground has reached the exit exactly when standing in cell (14, 14). */
  lemma ExitIsOneCell(p: Player)
    requires !IsWall(p.x, p.y)
    ensures AtExit(p) <==> p.x.Floor == 14 && p.y.Floor == 14
  {
    PassableIsInside(p.x, p.y);
    var gx, gy := p.x.Floor, p.y.Floor;
    assert InMap(gx, gy);
    assert MapCell(Idx(gx, gy)) == Some(BaseMap[gy][gx]);
  }

  lemma {:induction false} KillsSameAlive(a: seq<Enemy>, b: seq<Enemy>, c: seq<Enemy>)
    requires |a| == |b| == |c|
    requires forall i :: 0 <= i < |a| ==> a[i].alive == b[i].alive
    ensures Kills(a, c) == Kills(b, c)
    decreases |a|
  {
    if a != [] {
      KillsSameAlive(a[1..], b[1..], c[1..]);
    }
  }

  /** The part of the game state a tick changes. */
  datatype Frame = Frame(player: Player, enemies: seq<Enemy>, projectiles: seq<Projectile>,
                         particles: seq<Particle>, shootCooldown: real, reloadTime: real,
                         won: bool)

  /** The facts `GameState.Valid` keeps, on a frame. */
  ghost predicate FrameOk(f: Frame) {
    f.shootCooldown >= 0.0 && f.reloadTime >= 0.0 &&
    -PitchLimit <= f.player.pitch <= PitchLimit &&
    (forall e :: e in f.enemies ==> EnemyOk(e)) &&
    (forall pr :: pr in f.projectiles ==> ProjectileOk(pr)) &&
    (forall q :: q in f.particles ==> ParticleOk(q))
  }

  /** The first half of a tick: the player moves and looks, every enemy steps (possibly
      firing a laser), and the enemies are pushed apart. */
  method ActorPhase(m: Trig, f: Frame, keys: Keys, moveVec: Vec, turnStickX: real,
                    turnStickY: real, dt: real, rand: Rand, k0: nat)
    returns (p: Player, enemies1: seq<Enemy>, enemies2: seq<Enemy>,
             projectiles1: seq<Projectile>, boops: seq<HudEffect>, k: nat)
    requires Lawful(m) && UnitStream(rand) && 0.0 <= dt
    ensures p == f.player.(x := p.x, y := p.y, dir := p.dir, pitch := p.pitch)
    ensures -PitchLimit <= p.pitch <= PitchLimit
    ensures Clear(m, f.player.x, f.player.y, PlayerRadius) ==> Clear(m, p.x, p.y, PlayerRadius)
    ensures |enemies1| == |f.enemies| && |enemies2| == |enemies1|
    ensures forall i :: 0 <= i < |f.enemies| ==> StepKept(m, f.enemies[i], enemies1[i])
    ensures forall i :: 0 <= i < |f.enemies| ==> EnemyStepped(m, p, f.enemies[i], enemies1[i], dt)
    ensures projectiles1 == f.projectiles + FiredLasers(m, p, f.enemies, enemies1, dt)
    ensures enemies2 == Physics.ResolveFrom(m, enemies1, 0)
    ensures forall i :: 0 <= i < |enemies1| ==> Physics.SameButPosition(enemies2[i], enemies1[i])
    ensures forall i :: 0 <= i < |enemies1| && !enemies1[i].alive ==> enemies2[i] == enemies1[i]
    ensures ClearKept(m, enemies1, enemies2)
    ensures (forall pr :: pr in f.projectiles ==> ProjectileOk(pr)) ==>
              forall pr :: pr in projectiles1 ==> ProjectileOk(pr)
    ensures forall ef :: ef in boops ==> ef == Boop
    ensures p == Look(PlayerMoved(m, f.player, MoveTarget(m, f.player, keys, moveVec, dt)),
                      keys, turnStickX, turnStickY, dt)
    ensures boops == Boops(m, p, f.enemies, enemies1, dt, rand, k0)
    ensures k == k0 + Draws(m, p, f.enemies, enemies1, dt)
    ensures k >= k0
  {
    var moved := MovePlayer(m, f.player, MoveTarget(m, f.player, keys, moveVec, dt));
    p := Look(moved, keys, turnStickX, turnStickY, dt);
    enemies1, projectiles1, boops, k := EnemyPhase(m, p, f.enemies, f.projectiles, dt, rand, k0);
    enemies2 := ResolveEnemyOverlaps(m, enemies1);
    if forall pr :: pr in f.projectiles ==> ProjectileOk(pr) {
      FreshLasersOk(f.projectiles, projectiles1);
    }
  }

  /** The second half of a tick: the projectiles fly and hit, the particles step, the timers
      run down and the exit is checked. The enemy facts are stated against the enemies as
      the tick found them. */
  method MissilePhase(snapshot: Snapshot, m: Trig, f: Frame, p: Player, enemies1: seq<Enemy>,
                      enemies2: seq<Enemy>, projectiles1: seq<Projectile>, boops: seq<HudEffect>,
                      dt: real, rand: Rand, k0: nat)
    returns (f': Frame, effects: seq<HudEffect>, k: nat, ghost bursts: seq<seq<Particle>>)
    requires Lawful(m) && UnitStream(rand)
    requires |enemies1| == |f.enemies| && |enemies2| == |enemies1|
    requires forall i :: 0 <= i < |f.enemies| ==> StepKept(m, f.enemies[i], enemies1[i])
    requires forall i :: 0 <= i < |enemies1| ==> Physics.SameButPosition(enemies2[i], enemies1[i])
    requires forall i :: 0 <= i < |enemies1| && !enemies1[i].alive ==> enemies2[i] == enemies1[i]
    requires ClearKept(m, enemies1, enemies2)
    requires forall ef :: ef in boops ==> ef == Boop
    ensures var volley := Volley(m, p, projectiles1, enemies2, dt);
            f' == Frame(p, volley.1, volley.0, Survivors(snapshot, m, f.particles + Joined(bursts), dt),
                        RunDown(f.shootCooldown, dt), RunDown(f.reloadTime, dt), f.won || AtExit(p))
    ensures effects == boops + VolleyEffects(m, p, projectiles1, enemies2, dt) +
                       (if AtExit(p) then [LevelComplete] else [])
    ensures Exploding(BurstOf(snapshot), bursts, VolleyKills(m, p, projectiles1, enemies2, dt))
    ensures CountOf(effects, LaserHit) == PlayerHits(m, p, projectiles1, dt)
    ensures CountOf(effects, CubeDown) == Kills(f.enemies, f'.enemies)
    ensures LevelComplete in effects <==> AtExit(p)
    ensures (forall pr :: pr in projectiles1 ==> ProjectileOk(pr)) ==>
              forall pr :: pr in f'.projectiles ==> ProjectileOk(pr)
    ensures forall pr :: pr in f'.projectiles ==> !IsWall(pr.x, pr.y)
    ensures |f'.enemies| == |f.enemies|
    ensures EnemiesKept(m, f.enemies, f'.enemies)
    ensures (forall q :: q in f.particles ==> ParticleOk(q)) ==> forall q :: q in f'.particles ==> ParticleOk(q)
    ensures k >= k0
  {
    var projectiles3, enemies3, particles3, shots, hits;
    projectiles3, enemies3, particles3, shots, hits, k, bursts :=
      ProjectilePhase(snapshot, m, p, projectiles1, enemies2, f.particles, dt, rand, k0);
    var particles4 := ParticlePhase(snapshot, m, particles3, dt);
    var exit := AtExit(p);
    effects := boops + shots + (if exit then [LevelComplete] else []);
    EffectsOfTick(boops, shots, exit);
    f' := Frame(p, enemies3, projectiles3, particles4,
                RunDown(f.shootCooldown, dt), RunDown(f.reloadTime, dt), f.won || exit);
    EnemiesAfterTick(m, f.enemies, enemies1, enemies2, f'.enemies);
  }

  /** The whole tick, stated against the frame it found. The player moves and looks; every
      enemy steps (into `enemies1`) against the moved player; the enemies are separated;
      the old projectiles and the fresh lasers fly against them; one burst per destroyed
      cube is appended and then the particles step; the timers run down and the exit is
      checked. The HUD updates are the boops, then the volley's, then `LevelComplete`. */
  ghost predicate Ticked(snapshot: Snapshot, m: Trig, f: Frame, keys: Keys, moveVec: Vec,
                         turnStickX: real, turnStickY: real, dt: real, rand: Rand, k0: nat,
                         f': Frame, effects: seq<HudEffect>, enemies1: seq<Enemy>,
                         bursts: seq<seq<Particle>>)
  {
    var p := Look(PlayerMoved(m, f.player, MoveTarget(m, f.player, keys, moveVec, dt)),
                  keys, turnStickX, turnStickY, dt);
    |enemies1| == |f.enemies| &&
    (forall i :: 0 <= i < |f.enemies| ==> EnemyStepped(m, p, f.enemies[i], enemies1[i], dt)) &&
    var projectiles1 := f.projectiles + FiredLasers(m, p, f.enemies, enemies1, dt);
    var enemies2 := Physics.ResolveFrom(m, enemies1, 0);
    var volley := Volley(m, p, projectiles1, enemies2, dt);
    Exploding(BurstOf(snapshot), bursts, VolleyKills(m, p, projectiles1, enemies2, dt)) &&
    f' == Frame(p, volley.1, volley.0, Survivors(snapshot, m, f.particles + Joined(bursts), dt),
                RunDown(f.shootCooldown, dt), RunDown(f.reloadTime, dt), f.won || AtExit(p)) &&
    effects == Boops(m, p, f.enemies, enemies1, dt, rand, k0) +
               VolleyEffects(m, p, projectiles1, enemies2, dt) +
               (if AtExit(p) then [LevelComplete] else [])
  }

  /** The body of `update`, on values: the player moves and looks, the timers run down, the
      enemies step and are separated, the projectiles and then the particles step, and the
      exit is checked. */
  method Step(snapshot: Snapshot, m: Trig, f: Frame, keys: Keys, moveVec: Vec,
              turnStickX: real, turnStickY: real, dt: real, rand: Rand, k0: nat)
    returns (f': Frame, effects: seq<HudEffect>, k: nat,
             ghost enemies1: seq<Enemy>, ghost bursts: seq<seq<Particle>>)
    requires Lawful(m) && UnitStream(rand) && 0.0 <= dt
    ensures Ticked(snapshot, m, f, keys, moveVec, turnStickX, turnStickY, dt, rand, k0,
                   f', effects, enemies1, bursts)
    ensures CountOf(effects, LaserHit) ==
              PlayerHits(m, f'.player, f.projectiles + FiredLasers(m, f'.player, f.enemies, enemies1, dt), dt)
    ensures FrameOk(f) ==> FrameOk(f')
    ensures f'.shootCooldown == RunDown(f.shootCooldown, dt)
    ensures f'.reloadTime == RunDown(f.reloadTime, dt)
    ensures f'.player == f.player.(x := f'.player.x, y := f'.player.y,
                                   dir := f'.player.dir, pitch := f'.player.pitch)
    ensures Clear(m, f.player.x, f.player.y, PlayerRadius) ==>
              Clear(m, f'.player.x, f'.player.y, PlayerRadius)
    ensures |f'.enemies| == |f.enemies|
    ensures ClearKept(m, f.enemies, f'.enemies)
    ensures forall i :: 0 <= i < |f'.enemies| && !f.enemies[i].alive ==> f'.enemies[i] == f.enemies[i]
    ensures forall i :: 0 <= i < |f'.enemies| ==>
              f'.enemies[i].hp <= f.enemies[i].hp && (f'.enemies[i].alive ==> f.enemies[i].alive)
    ensures CountOf(effects, CubeDown) == Kills(f.enemies, f'.enemies)
    ensures forall pr :: pr in f'.projectiles ==> !IsWall(pr.x, pr.y)
    ensures f'.won == (f.won || AtExit(f'.player))
    ensures LevelComplete in effects <==> AtExit(f'.player)
    ensures k >= k0
  {
    var p, stepped, enemies2, projectiles1, boops;
    p, stepped, enemies2, projectiles1, boops, k :=
      ActorPhase(m, f, keys, moveVec, turnStickX, turnStickY, dt, rand, k0);
    enemies1 := stepped;

    f', effects, k, bursts :=
      MissilePhase(snapshot, m, f, p, stepped, enemies2, projectiles1, boops, dt, rand, k);
  }

  /** `update(state, dt, setHud)` on the state in place. Returns the HUD updates in the order
      the tick issues them. */
  method Update(s: GameState, dt: real, m: Trig, rand: Rand, k0: nat)
    returns (effects: seq<HudEffect>, k: nat,
             ghost enemies1: seq<Enemy>, ghost bursts: seq<seq<Particle>>)
    requires Lawful(m) && UnitStream(rand) && 0.0 <= dt
    requires s.Valid()
    modifies s
    ensures s.Valid()
    ensures Ticked(s.snapshot, m, Frame(old(s.player), old(s.enemies), old(s.projectiles),
                                        old(s.particles), old(s.shootCooldown),
                                        old(s.reloadTime), old(s.won)),
                   old(s.keys), old(s.moveVec), old(s.turnStickX), old(s.turnStickY), dt, rand, k0,
                   Frame(s.player, s.enemies, s.projectiles, s.particles, s.shootCooldown,
                         s.reloadTime, s.won), effects, enemies1, bursts)
    ensures s.keys == old(s.keys) && s.moveVec == old(s.moveVec)
    ensures s.turnStickX == old(s.turnStickX) && s.turnStickY == old(s.turnStickY)
    ensures s.shootCooldown == RunDown(old(s.shootCooldown), dt)
    ensures s.reloadTime == RunDown(old(s.reloadTime), dt)
    ensures Clear(m, old(s.player.x), old(s.player.y), PlayerRadius) ==>
              Clear(m, s.player.x, s.player.y, PlayerRadius)
    ensures |s.enemies| == |old(s.enemies)| && ClearKept(m, old(s.enemies), s.enemies)
    ensures CountOf(effects, CubeDown) == Kills(old(s.enemies), s.enemies)
    ensures s.won == (old(s.won) || AtExit(s.player))
    ensures LevelComplete in effects <==> AtExit(s.player)
  {
    var f := Frame(s.player, s.enemies, s.projectiles, s.particles,
                   s.shootCooldown, s.reloadTime, s.won);
    var f';
    f', effects, k, enemies1, bursts := Step(s.snapshot, m, f, s.keys, s.moveVec, s.turnStickX,
                                             s.turnStickY, dt, rand, k0);
    Commit(s, f');
  }

  /** Writes a frame back into the state, leaving the inputs as they were. */
  method Commit(s: GameState, f': Frame)
    modifies s
    ensures Frame(s.player, s.enemies, s.projectiles, s.particles, s.shootCooldown,
                  s.reloadTime, s.won) == f'
    ensures s.keys == old(s.keys) && s.moveVec == old(s.moveVec)
    ensures s.turnStickX == old(s.turnStickX) && s.turnStickY == old(s.turnStickY)
  {
    s.player, s.enemies, s.projectiles, s.particles := f'.player, f'.enemies, f'.projectiles, f'.particles;
    s.shootCooldown, s.reloadTime, s.won := f'.shootCooldown, f'.reloadTime, f'.won;
  }

  /** Appending the lasers fired this tick keeps every projectile well-formed. */
  lemma FreshLasersOk(before: seq<Projectile>, after: seq<Projectile>)
    requires forall pr :: pr in before ==> ProjectileOk(pr)
    requires |after| >= |before| && after[..|before|] == before
    requires forall j :: |before| <= j < |after| ==> IsFreshLaser(after[j])
    ensures forall pr :: pr in after ==> ProjectileOk(pr)
  {
    forall pr | pr in after
      ensures ProjectileOk(pr)
    {
      var j :| 0 <= j < |after| && after[j] == pr;
      if j < |before| {
        assert pr == after[..|before|][j];
      }
    }
  }

  /** What a tick keeps of the enemies: as many of them, each well-formed one still
      well-formed, clear ones still clear, dead ones untouched, and health and life never
      restored. */
  ghost predicate EnemiesKept(m: Trig, before: seq<Enemy>, after: seq<Enemy>) {
    |after| == |before| &&
    ((forall e :: e in before ==> EnemyOk(e)) ==> forall e :: e in after ==> EnemyOk(e)) &&
    ClearKept(m, before, after) &&
    (forall i :: 0 <= i < |after| && !before[i].alive ==> after[i] == before[i]) &&
    (forall i :: 0 <= i < |after| ==> after[i].hp <= before[i].hp && (after[i].alive ==> before[i].alive))
  }

  /** The enemies after the three phases that touch them. */
  lemma EnemiesAfterTick(m: Trig, enemies0: seq<Enemy>, enemies1: seq<Enemy>,
                         enemies2: seq<Enemy>, enemies3: seq<Enemy>)
    requires |enemies1| == |enemies0| && |enemies2| == |enemies1| && |enemies3| == |enemies2|
    requires forall i :: 0 <= i < |enemies0| ==> StepKept(m, enemies0[i], enemies1[i])
    requires forall i :: 0 <= i < |enemies1| ==> Physics.SameButPosition(enemies2[i], enemies1[i])
    requires forall i :: 0 <= i < |enemies1| && !enemies1[i].alive ==> enemies2[i] == enemies1[i]
    requires ClearKept(m, enemies1, enemies2)
    requires forall i :: 0 <= i < |enemies2| ==> Wounded(enemies2[i], enemies3[i])
    ensures EnemiesKept(m, enemies0, enemies3)
    ensures Kills(enemies0, enemies3) == Kills(enemies2, enemies3)
  {
    EnemyPhasesKeep(m, enemies0, enemies1, enemies2);
    KillsSameAlive(enemies0, enemies2, enemies3);
    if forall e :: e in enemies0 ==> EnemyOk(e) {
      forall e | e in enemies3
        ensures EnemyOk(e)
      {
        var j :| 0 <= j < |enemies3| && enemies3[j] == e;
        assert EnemyOk(enemies0[j]);
      }
    }
  }

  /** The tick's HUD updates: boops, then shots landing, then the exit. */
  lemma EffectsOfTick(boops: seq<HudEffect>, shots: seq<HudEffect>, exit: bool)
    requires forall ef :: ef in boops ==> ef == Boop
    requires forall ef :: ef in shots ==> ef == CubeDown || ef == LaserHit
    ensures var effects := boops + shots + (if exit then [LevelComplete] else []);
            CountOf(effects, CubeDown) == CountOf(shots, CubeDown) &&
            CountOf(effects, LaserHit) == CountOf(shots, LaserHit) &&
            (LevelComplete in effects <==> exit)
  {
    var tail := if exit then [LevelComplete] else [];
    CountOfAbsent(boops, CubeDown);
    CountOfAbsent(tail, CubeDown);
    CountOfAppend(boops, shots, CubeDown);
    CountOfAppend(boops + shots, tail, CubeDown);
    CountOfAbsent(boops, LaserHit);
    CountOfAbsent(tail, LaserHit);
    CountOfAppend(boops, shots, LaserHit);
    CountOfAppend(boops + shots, tail, LaserHit);
  }

  /** The enemy loop followed by the overlap pass keeps each enemy well-formed, health and
      life unchanged, dead enemies untouched, and enemies clear of the walls clear. */
  lemma EnemyPhasesKeep(m: Trig, enemies0: seq<Enemy>, enemies1: seq<Enemy>, enemies2: seq<Enemy>)
    requires |enemies1| == |enemies0| && |enemies2| == |enemies1|
    requires forall i :: 0 <= i < |enemies0| ==> StepKept(m, enemies0[i], enemies1[i])
    requires forall i :: 0 <= i < |enemies1| ==> Physics.SameButPosition(enemies2[i], enemies1[i])
    requires forall i :: 0 <= i < |enemies1| && !enemies1[i].alive ==> enemies2[i] == enemies1[i]
    requires ClearKept(m, enemies1, enemies2)
    ensures forall i :: 0 <= i < |enemies0| ==>
              enemies2[i].hp == enemies0[i].hp && enemies2[i].alive == enemies0[i].alive &&
              (EnemyOk(enemies0[i]) ==> EnemyOk(enemies2[i])) &&
              (!enemies0[i].alive ==> enemies2[i] == enemies0[i])
    ensures ClearKept(m, enemies0, enemies2)
  {
  }
}
