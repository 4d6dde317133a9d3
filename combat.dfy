/** Shooting: aim assist, projectile spawning and the fire/reload gates of
    src/game/combat.js:10-59 and src/components/DoomLiteCanvas.jsx:551-605. */
module Combat {
  import opened Maths
  import opened Wrappers
  import opened Utils
  import opened Grid
  import opened Entities
  import opened World

  /** The aim assist looks 8 degrees either side and 9 units ahead. */
  const MaxAim: real := 8.0 * Pi / 180.0
  const MaxAimDist: real := 9.0

  function AimAngle(m: Trig, p: Player, e: Enemy): real { m.atan2(e.y - p.y, e.x - p.x) }
  function AimDist(m: Trig, p: Player, e: Enemy): real { m.hypot(e.x - p.x, e.y - p.y) }

  /** How far the enemy's bearing is from the base direction, the short way round. */
  function AimDiff(m: Trig, p: Player, e: Enemy, baseDir: real): (d: real)
    ensures 0.0 <= d <= Pi
  {
    Abs(NormalizeAngle(AimAngle(m, p, e) - baseDir))
  }

  /** An enemy the loop does not skip: alive, close enough, in sight and inside the cone. */
  predicate IsAimCandidate(m: Trig, p: Player, e: Enemy, baseDir: real) {
    e.alive && AimDist(m, p, e) <= MaxAimDist && Visible(m, p.x, p.y, e.x, e.y) &&
    AimDiff(m, p, e, baseDir) <= MaxAim
  }

  /** The candidate the loop keeps: strictly closer in angle than every earlier candidate
      and no farther than any later one, so the earliest of equals wins. */
  predicate IsBestTarget(m: Trig, p: Player, enemies: seq<Enemy>, baseDir: real, t: int) {
    0 <= t < |enemies| && IsAimCandidate(m, p, enemies[t], baseDir) &&
    (forall i :: 0 <= i < t && IsAimCandidate(m, p, enemies[i], baseDir) ==>
       AimDiff(m, p, enemies[i], baseDir) > AimDiff(m, p, enemies[t], baseDir)) &&
    (forall i :: t < i < |enemies| && IsAimCandidate(m, p, enemies[i], baseDir) ==>
       AimDiff(m, p, enemies[i], baseDir) >= AimDiff(m, p, enemies[t], baseDir))
  }

  lemma BestTargetUnique(m: Trig, p: Player, enemies: seq<Enemy>, baseDir: real, t1: int, t2: int)
    requires IsBestTarget(m, p, enemies, baseDir, t1) && IsBestTarget(m, p, enemies, baseDir, t2)
    ensures t1 == t2
  {
  }

  /** `0.6 * closeness * (0.5 + 0.5 * distanceFactor)`. */
  function AimStrength(diff: real, dist: real): real {
    var closeness := 1.0 - diff / MaxAim;
    var distanceFactor := Max(0.0, Min(1.0, 1.0 - dist / MaxAimDist));
    0.6 * closeness * (0.5 + 0.5 * distanceFactor)
  }

  /** The blend never exceeds 0.6, and a dead-centre target at point-blank range gets all
      of it. */
  lemma {:induction false} AimStrengthBounds(diff: real, dist: real)
    requires 0.0 <= diff <= MaxAim
    ensures 0.0 <= AimStrength(diff, dist) <= 0.6
    ensures diff == 0.0 && dist <= 0.0 ==> AimStrength(diff, dist) == 0.6
  {
    var closeness := 1.0 - diff / MaxAim;
    assert 0.0 <= diff / MaxAim <= 1.0;
    var f := 0.5 + 0.5 * Max(0.0, Min(1.0, 1.0 - dist / MaxAimDist));
    assert 0.5 <= f <= 1.0;
    assert 0.0 <= closeness * f <= 1.0;
  }

  /** The direction the loop returns once it has settled on enemy e. */
  function AimedDirection(m: Trig, p: Player, e: Enemy, baseDir: real): real {
    LerpAngles(baseDir, AimAngle(m, p, e), AimStrength(AimDiff(m, p, e, baseDir), AimDist(m, p, e)))
  }

  /** Turning toward a target inside the cone moves the aim by at most 0.6 of the cone. */
  lemma {:induction false} AimedDirectionBounded(m: Trig, p: Player, e: Enemy, baseDir: real)
    requires AimDiff(m, p, e, baseDir) <= MaxAim
    ensures -0.6 * MaxAim <= AimedDirection(m, p, e, baseDir) - baseDir <= 0.6 * MaxAim
  {
    var diff, dist := AimDiff(m, p, e, baseDir), AimDist(m, p, e);
    AimStrengthBounds(diff, dist);
    TurnTowardBounded(baseDir, AimAngle(m, p, e), AimStrength(diff, dist));
  }

  /** Turning the short way toward an angle inside the cone, by a fraction of at most 0.6,
      moves at most 0.6 of the cone. */
  lemma TurnTowardBounded(a: real, b: real, t: real)
    requires Abs(NormalizeAngle(b - a)) <= MaxAim && 0.0 <= t <= 0.6
    ensures -0.6 * MaxAim <= LerpAngles(a, b, t) - a <= 0.6 * MaxAim
  {
    ScaledTurn(NormalizeAngle(b - a), t, MaxAim);
  }

  /** A turn of at most A, scaled by at most 0.6, is at most 0.6 A. */
  lemma ScaledTurn(d: real, s: real, a: real)
    requires -a <= d <= a && 0.0 <= s <= 0.6
    ensures -0.6 * a <= d * s <= 0.6 * a
  {
    assert a >= 0.0;
    NonNegProduct(a - d, s);
    NonNegProduct(a + d, s);
    NonNegProduct(a, 0.6 - s);
  }

  lemma NonNegProduct(x: real, y: real)
    requires x >= 0.0 && y >= 0.0
    ensures x * y >= 0.0
  {
  }

  /** What the aim-assist loop knows after looking at the first i enemies: no target while
      none of them is a candidate, otherwise the kept candidate, its angle difference, and
      that it beats every earlier candidate and ties or beats every later one so far. */
  ghost predicate Scanned(m: Trig, p: Player, enemies: seq<Enemy>, baseDir: real, i: int,
                          target: Option<nat>, bestDiff: real) {
    0 <= i <= |enemies| &&
    (target.None? ==> forall j :: 0 <= j < i ==> !IsAimCandidate(m, p, enemies[j], baseDir)) &&
    (target.Some? ==>
       target.value < i && IsAimCandidate(m, p, enemies[target.value], baseDir) &&
       bestDiff == AimDiff(m, p, enemies[target.value], baseDir) &&
       (forall j :: 0 <= j < target.value && IsAimCandidate(m, p, enemies[j], baseDir) ==>
          AimDiff(m, p, enemies[j], baseDir) > bestDiff) &&
       (forall j :: target.value < j < i && IsAimCandidate(m, p, enemies[j], baseDir) ==>
          AimDiff(m, p, enemies[j], baseDir) >= bestDiff))
  }

  /** An enemy the loop skips leaves what it knows unchanged. */
  lemma ScanSkip(m: Trig, p: Player, enemies: seq<Enemy>, baseDir: real, i: nat,
                 target: Option<nat>, bestDiff: real)
    requires i < |enemies| && Scanned(m, p, enemies, baseDir, i, target, bestDiff)
    requires !IsAimCandidate(m, p, enemies[i], baseDir)
    ensures Scanned(m, p, enemies, baseDir, i + 1, target, bestDiff)
  {
  }

  /** A candidate no closer in angle than the kept one leaves it kept. */
  lemma ScanKeep(m: Trig, p: Player, enemies: seq<Enemy>, baseDir: real, i: nat,
                 target: Option<nat>, bestDiff: real)
    requires i < |enemies| && Scanned(m, p, enemies, baseDir, i, target, bestDiff)
    requires IsAimCandidate(m, p, enemies[i], baseDir)
    requires target.Some? && AimDiff(m, p, enemies[i], baseDir) >= bestDiff
    ensures Scanned(m, p, enemies, baseDir, i + 1, target, bestDiff)
  {
  }

  /** The first candidate, or one strictly closer in angle, becomes the kept one. */
  lemma ScanTake(m: Trig, p: Player, enemies: seq<Enemy>, baseDir: real, i: nat,
                 target: Option<nat>, bestDiff: real)
    requires i < |enemies| && Scanned(m, p, enemies, baseDir, i, target, bestDiff)
    requires IsAimCandidate(m, p, enemies[i], baseDir)
    requires target.None? || AimDiff(m, p, enemies[i], baseDir) < bestDiff
    ensures Scanned(m, p, enemies, baseDir, i + 1, Some(i), AimDiff(m, p, enemies[i], baseDir))
  {
  }

  /** `computeAimAssistDirection(state, baseDir)`: the best candidate, if any, pulls the aim
      toward itself; without one the base direction comes back unchanged. */
  method ComputeAimAssistDirection(m: Trig, p: Player, enemies: seq<Enemy>, baseDir: real)
    returns (dir: real, target: Option<nat>)
    ensures target.None? <==> forall i :: 0 <= i < |enemies| ==> !IsAimCandidate(m, p, enemies[i], baseDir)
    ensures target.None? ==> dir == baseDir
    ensures target.Some? ==> IsBestTarget(m, p, enemies, baseDir, target.value) &&
                             dir == AimedDirection(m, p, enemies[target.value], baseDir)
    ensures -0.6 * MaxAim <= dir - baseDir <= 0.6 * MaxAim
  {
    target := None;
    var bestDiff := 0.0;
    for i := 0 to |enemies|
      invariant Scanned(m, p, enemies, baseDir, i, target, bestDiff)
    {
      var e := enemies[i];
      if !e.alive {
        ScanSkip(m, p, enemies, baseDir, i, target, bestDiff);
        continue;
      }
      var dist := m.hypot(e.x - p.x, e.y - p.y);
      if dist > MaxAimDist {
        ScanSkip(m, p, enemies, baseDir, i, target, bestDiff);
        continue;
      }
      if !Visible(m, p.x, p.y, e.x, e.y) {
        ScanSkip(m, p, enemies, baseDir, i, target, bestDiff);
        continue;
      }
      var ang := m.atan2(e.y - p.y, e.x - p.x);
      var diff := Abs(NormalizeAngle(ang - baseDir));
      if diff > MaxAim {
        ScanSkip(m, p, enemies, baseDir, i, target, bestDiff);
        continue;
      }
      assert diff == AimDiff(m, p, e, baseDir);
      if target.None? || diff < bestDiff {
        ScanTake(m, p, enemies, baseDir, i, target, bestDiff);
        target := Some(i);
        bestDiff := diff;
      } else {
        ScanKeep(m, p, enemies, baseDir, i, target, bestDiff);
      }
    }
    if target.None? {
      return baseDir, None;
    }
    dir := AimedDirection(m, p, enemies[target.value], baseDir);
    AimedDirectionBounded(m, p, enemies[target.value], baseDir);
  }

  /** The record `spawnProjectile` pushes: 0.2 ahead of (x, y) along dir, its horizontal
      heading scaled by cos(pitch), its vertical speed sin(pitch) * spd. */
  function MakeProjectile(m: Trig, x: real, y: real, dir: real, spd: real, ttl: real,
                          from: Owner, kind: Kind, z0: real, pitch: real): (pr: Projectile)
    ensures pr.spd == spd && pr.ttl == ttl && pr.from == from && pr.kind == kind && pr.z == z0
    ensures pr.trail.Some? <==> kind == Laser
    ensures pr.trail.Some? ==> pr.trail.value == []
  {
    var cosP := m.cos(pitch);
    Projectile(x + m.cos(dir) * 0.2, y + m.sin(dir) * 0.2,
               m.cos(dir) * cosP, m.sin(dir) * cosP, spd, ttl, from, kind, z0,
               m.sin(pitch) * spd,
               if kind == Laser then Some([]) else None)
  }

  /** The projectile starts 0.2 from the shooter, on the line of its heading, and its
      horizontal heading has length |cos(pitch)|; unless the pitch turns it over
      (cos(pitch) < 0), that heading points away from the shooter. Its vertical speed is
      sin(pitch) * spd, zero for a level shot. */
  lemma {:induction false} MakeProjectileGeometry(m: Trig, x: real, y: real, dir: real, spd: real,
                                                  ttl: real, from: Owner, kind: Kind, z0: real,
                                                  pitch: real)
    requires Lawful(m)
    ensures var pr := MakeProjectile(m, x, y, dir, spd, ttl, from, kind, z0, pitch);
            (pr.x - x) * (pr.x - x) + (pr.y - y) * (pr.y - y) == 0.2 * 0.2 &&
            pr.dx * pr.dx + pr.dy * pr.dy == m.cos(pitch) * m.cos(pitch) &&
            (pr.x - x) * pr.dy == (pr.y - y) * pr.dx
    ensures var pr := MakeProjectile(m, x, y, dir, spd, ttl, from, kind, z0, pitch);
            (pr.x - x) * pr.dx + (pr.y - y) * pr.dy == 0.2 * m.cos(pitch) &&
            (m.cos(pitch) >= 0.0 ==> (pr.x - x) * pr.dx + (pr.y - y) * pr.dy >= 0.0)
    ensures MakeProjectile(m, x, y, dir, spd, ttl, from, kind, z0, pitch).vz == m.sin(pitch) * spd
    ensures pitch == 0.0 ==> MakeProjectile(m, x, y, dir, spd, ttl, from, kind, z0, pitch).vz == 0.0
  {
    var pr := MakeProjectile(m, x, y, dir, spd, ttl, from, kind, z0, pitch);
    HeadingAlgebra(m.cos(dir), m.sin(dir), m.cos(pitch), pr.x - x, pr.y - y, pr.dx, pr.dy);
  }

  /** An offset (ox, oy) of 0.2 along a unit direction (c, s) and a heading (dx, dy) of
      length |cp| along it: the offset has length 0.2, lies on the heading's line, and its
      dot product with the heading is 0.2·cp. */
  lemma HeadingAlgebra(c: real, s: real, cp: real, ox: real, oy: real, dx: real, dy: real)
    requires c * c + s * s == 1.0
    requires ox == c * 0.2 && oy == s * 0.2 && dx == c * cp && dy == s * cp
    ensures ox * ox + oy * oy == 0.2 * 0.2
    ensures dx * dx + dy * dy == cp * cp
    ensures ox * dy == oy * dx
    ensures ox * dx + oy * dy == 0.2 * cp
  {
    assert ox * dx + oy * dy == (c * c + s * s) * (0.2 * cp);
    assert ox * ox + oy * oy == (c * c + s * s) * (0.2 * 0.2);
    assert dx * dx + dy * dy == (c * c + s * s) * (cp * cp);
  }

  /** The shot cooldown and bullet lifetime differ between the two copies. */
  function ShotCooldown(snapshot: Snapshot): real {
    if snapshot == Canvas then 0.15 else 0.12
  }

  function BulletTtl(snapshot: Snapshot): real {
    if snapshot == Canvas then 1.2 else 1.4
  }

  /** Whether `tryShoot` gets past its two guards. */
  predicate CanShoot(s: GameState?)
    reads s
  {
    s != null && !s.won && !(s.reloadTime > 0.0) && !(s.shootCooldown > 0.0)
  }

  /** `tryShoot(state, setHud)`: behind its guards, queue the ammo updater, start the
      cooldown and fire one player bullet down the aim-assisted direction. The bullet
      leaves even with no ammo; only the HUD message differs. */
  method TryShoot(s: GameState?, m: Trig)
    returns (effects: seq<HudEffect>, aimDir: real, target: Option<nat>)
    requires s != null ==> s.Valid()
    modifies s
    ensures !old(CanShoot(s)) ==> effects == [] && (s != null ==> unchanged(s))
    ensures old(CanShoot(s)) ==>
      effects == [Shot] &&
      s.shootCooldown == ShotCooldown(s.snapshot) &&
      -0.6 * MaxAim <= aimDir - old(s.player.dir) <= 0.6 * MaxAim &&
      (target.None? <==> forall i :: 0 <= i < |s.enemies| ==>
                           !IsAimCandidate(m, s.player, s.enemies[i], s.player.dir)) &&
      (target.None? ==> aimDir == s.player.dir) &&
      (target.Some? ==> IsBestTarget(m, s.player, s.enemies, s.player.dir, target.value) &&
                        aimDir == AimedDirection(m, s.player, s.enemies[target.value], s.player.dir)) &&
      s.projectiles == old(s.projectiles) +
        [MakeProjectile(m, s.player.x, s.player.y, aimDir, 12.0, BulletTtl(s.snapshot),
                        FromPlayer, Bullet, 0.35, s.player.pitch)] &&
      s.player == old(s.player) && s.enemies == old(s.enemies) &&
      s.particles == old(s.particles) && s.reloadTime == old(s.reloadTime) &&
      s.won == old(s.won) && s.keys == old(s.keys) && s.moveVec == old(s.moveVec) &&
      s.turnStickX == old(s.turnStickX) && s.turnStickY == old(s.turnStickY)
    ensures s != null ==> s.Valid()
  {
    aimDir, target := 0.0, None;
    if s == null || s.won {
      return [], aimDir, target;
    }
    if s.reloadTime > 0.0 || s.shootCooldown > 0.0 {
      return [], aimDir, target;
    }
    effects := [Shot];
    s.shootCooldown := ShotCooldown(s.snapshot);
    var p := s.player;
    aimDir, target := ComputeAimAssistDirection(m, p, s.enemies, p.dir);
    s.projectiles := s.projectiles +
      [MakeProjectile(m, p.x, p.y, aimDir, 12.0, BulletTtl(s.snapshot), FromPlayer, Bullet, 0.35, p.pitch)];
  }

  /** `reload(state, setHud)`, without the timer that later refills the ammunition: unless
      a reload is already running, queue the message and start the 0.9 s reload. */
  method Reload(s: GameState?) returns (effects: seq<HudEffect>)
    requires s != null ==> s.Valid()
    modifies s
    ensures s == null || old(s.reloadTime) > 0.0 ==> effects == [] && (s != null ==> unchanged(s))
    ensures s != null && !(old(s.reloadTime) > 0.0) ==>
      effects == [Reloading] && s.reloadTime == 0.9 &&
      s.player == old(s.player) && s.enemies == old(s.enemies) &&
      s.projectiles == old(s.projectiles) && s.particles == old(s.particles) &&
      s.shootCooldown == old(s.shootCooldown) && s.won == old(s.won) &&
      s.keys == old(s.keys) && s.moveVec == old(s.moveVec) &&
      s.turnStickX == old(s.turnStickX) && s.turnStickY == old(s.turnStickY)
    ensures s != null ==> s.Valid()
  {
    if s == null {
      return [];
    }
    if s.reloadTime > 0.0 {
      return [];
    }
    effects := [Reloading];
    s.reloadTime := 0.9;
  }
}
