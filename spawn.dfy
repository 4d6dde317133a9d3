/** Rejection-sampled enemy placement and explosion bursts: `spawnEnemies` of
    src/game/enemies.js:3-26 (also src/components/DoomLiteCanvas.jsx:196-219) and of
    src/game/spawn.js:4-30, and `spawnExplosion` of src/game/effects.js:1-20 (also
    src/components/DoomLiteCanvas.jsx:380-399) and of src/game/spawn.js:55-74. Every
    `Math.random()` is a draw from the stream `rand`, taken in the order the code makes it. */
module Spawn {
  import opened Maths
  import opened Wrappers
  import opened Grid
  import opened Entities
  import opened Utils

  /** Where candidate positions come from: uniformly in [2, 14) on both axes
      (enemies.js and the component), or around the map centre with a spread of 4.48,
      clamped into [1.5, 14.5] (spawn.js). */
  datatype Placement = Uniform | Spread

  const MaxTries: int := 2000
  /** `max(2.5, min(MAP_W, MAP_H) * 0.28)`. */
  const SpreadRadius: real := 4.48

  function Candidate(variant: Placement, r1: real, r2: real): Vec {
    match variant
    case Uniform => Vec(2.0 + r1 * 12.0, 2.0 + r2 * 12.0)
    case Spread =>
      Vec(Max(1.5, Min(14.5, 8.0 + (r1 * 2.0 - 1.0) * SpreadRadius)),
          Max(1.5, Min(14.5, 8.0 + (r2 * 2.0 - 1.0) * SpreadRadius)))
  }

  /** `Math.floor(r * k)` for a draw r in [0, 1). */
  function FloorScaled(r: real, k: nat): (n: int)
    requires 0.0 <= r < 1.0
    ensures 0 <= n < k || (k == 0 && n == 0)
  {
    var v := r * k as real;
    assert 0.0 <= v && (k > 0 ==> v < k as real);
    v.Floor
  }

  /** The record pushed for an accepted position; it takes draws k .. k+9. */
  function NewEnemy(variant: Placement, pos: Vec, rand: Rand, k: nat): Enemy
    requires UnitStream(rand)
  {
    var baseG := 180 + FloorScaled(rand(k), 60);
    Enemy(pos.x, pos.y, 60, true,
          0.5 + rand(k + 1) * 0.8,
          0.7 + rand(k + 2) * 0.9,
          if variant == Uniform then rand(k + 3) * 0.30 - 0.05 else 0.05 + rand(k + 3) * 0.25,
          if variant == Uniform then 0.12 + rand(k + 4) * 0.16 else 0.02 + rand(k + 4) * 0.04,
          rand(k + 5) * 10.0,
          rand(k + 6) * Pi * 2.0,
          (rand(k + 7) * 1.5 + 0.5) * (if rand(k + 8) < 0.5 then -1.0 else 1.0),
          0.32 + rand(k + 9) * 0.12,
          baseG, 0.28)
  }

  /** Everything the source promises of a freshly spawned enemy. */
  ghost predicate WellSpawned(variant: Placement, e: Enemy) {
    TileAt(e.x, e.y) == FloorTile &&
    (variant == Uniform ==> 2.0 <= e.x < 14.0 && 2.0 <= e.y < 14.0) &&
    (variant == Spread ==> 1.5 <= e.x <= 14.5 && 1.5 <= e.y <= 14.5) &&
    e.hp == 60 && e.alive && e.rad == 0.28 &&
    0.5 <= e.cool < 1.3 && 0.7 <= e.speed < 1.6 && 0.32 <= e.sizeMul < 0.44 &&
    0.5 <= Abs(e.rotSpd) < 2.0 && 0.0 <= e.t < 10.0 && 0.0 <= e.rot < TwoPi &&
    180 <= e.color < 240 &&
    (variant == Uniform ==> -0.05 <= e.zBase < 0.25 && 0.12 <= e.bobAmp < 0.28) &&
    (variant == Spread ==> 0.05 <= e.zBase < 0.30 && 0.02 <= e.bobAmp < 0.06)
  }

  lemma {:induction false} CandidateRange(variant: Placement, r1: real, r2: real)
    requires 0.0 <= r1 < 1.0 && 0.0 <= r2 < 1.0
    ensures var c := Candidate(variant, r1, r2);
            (variant == Uniform ==> 2.0 <= c.x < 14.0 && 2.0 <= c.y < 14.0) &&
            (variant == Spread ==> 1.5 <= c.x <= 14.5 && 1.5 <= c.y <= 14.5)
  {
  }

  lemma {:induction false} NewEnemyWellSpawned(variant: Placement, pos: Vec, rand: Rand, k: nat)
    requires UnitStream(rand)
    requires TileAt(pos.x, pos.y) == FloorTile
    requires variant == Uniform ==> 2.0 <= pos.x < 14.0 && 2.0 <= pos.y < 14.0
    requires variant == Spread ==> 1.5 <= pos.x <= 14.5 && 1.5 <= pos.y <= 14.5
    ensures WellSpawned(variant, NewEnemy(variant, pos, rand, k))
  {
    var r7, r8 := rand(k + 7), rand(k + 8);
    assert 0.0 <= r7 < 1.0 && 0.0 <= r8 < 1.0;
    var mag := r7 * 1.5 + 0.5;
    assert 0.5 <= mag < 2.0;
    var r6 := rand(k + 6);
    assert 0.0 <= r6 < 1.0;
    assert r6 * Pi * 2.0 < TwoPi;
  }

  /** `spawnEnemies(n)`: up to 2000 candidates, keeping those on a floor tile, until n are
      kept. Each try takes two draws, each kept enemy ten more. */
  method SpawnEnemies(variant: Placement, n: int, rand: Rand, k0: nat)
    returns (arr: seq<Enemy>, tries: int, k: nat)
    requires UnitStream(rand)
    ensures n >= 0 ==> |arr| <= n
    ensures n <= 0 ==> arr == [] && tries == 0
    ensures 0 <= tries <= MaxTries
    ensures |arr| < n ==> tries == MaxTries
    ensures |arr| <= tries
    ensures forall e :: e in arr ==> WellSpawned(variant, e)
    ensures k == k0 + 2 * tries + 10 * |arr|
  {
    arr, tries, k := [], 0, k0;
    while |arr| < n && tries < MaxTries
      invariant 0 <= tries <= MaxTries
      invariant n >= 0 ==> |arr| <= n
      invariant n <= 0 ==> arr == [] && tries == 0
      invariant |arr| <= tries
      invariant forall e :: e in arr ==> WellSpawned(variant, e)
      invariant k == k0 + 2 * tries + 10 * |arr|
    {
      tries := tries + 1;
      var pos := Candidate(variant, rand(k), rand(k + 1));
      CandidateRange(variant, rand(k), rand(k + 1));
      k := k + 2;
      if TileAt(pos.x, pos.y) != FloorTile {
        continue;
      }
      NewEnemyWellSpawned(variant, pos, rand, k);
      arr := arr + [NewEnemy(variant, pos, rand, k)];
      k := k + 10;
    }
  }

  /** Which burst: effects.js and the component throw fragments up and let them fall
      (`Bounce`); spawn.js scatters them flat, marked `noGravity` (`Drift`). */
  datatype Burst = Bounce | Drift

  /** The distance of each fragment from the centre at birth. */
  function BurstOffset(variant: Burst): real {
    if variant == Bounce then 0.02 else 0.06
  }

  /** `n = 24 + floor(r*16)` or `n = 28 + floor(r*18)`. */
  function BurstCount(variant: Burst, r: real): (n: int)
    requires 0.0 <= r < 1.0
    ensures variant == Bounce ==> 24 <= n <= 39
    ensures variant == Drift ==> 28 <= n <= 45
  {
    if variant == Bounce then 24 + FloorScaled(r, 16) else 28 + FloorScaled(r, 18)
  }

  /** The number of draws one fragment takes. */
  function DrawsPerFragment(variant: Burst, height: Option<real>): nat {
    if variant == Bounce then 6 else if height.Some? then 4 else 5
  }

  /** One fragment, drawn from k on: angle, speed, then height (and upward speed), life
      and size. */
  function NewFragment(variant: Burst, x: real, y: real, color: int, height: Option<real>,
                       m: Trig, rand: Rand, k: nat): Particle
  {
    var a := rand(k) * Pi * 2.0;
    var off := BurstOffset(variant);
    match variant
    case Bounce =>
      var sp := 2.0 + rand(k + 1) * 3.5;
      Particle(x + m.cos(a) * off, y + m.sin(a) * off, m.cos(a) * sp, m.sin(a) * sp,
               0.30 + rand(k + 2) * 0.35, 1.2 + rand(k + 3) * 1.3,
               0.9 + rand(k + 4) * 0.7, 0.10 + rand(k + 5) * 0.18, color, false)
    case Drift =>
      var sp := 2.2 + rand(k + 1) * 3.8;
      var h0 := if height.Some? then Max(0.0, height.value) else 0.12 + rand(k + 2) * 0.10;
      var j := if height.Some? then k + 2 else k + 3;
      Particle(x + m.cos(a) * off, y + m.sin(a) * off, m.cos(a) * sp, m.sin(a) * sp,
               h0, 0.0, 0.9 + rand(j) * 0.9, 0.08 + rand(j + 1) * 0.16, color, true)
  }

  /** The fragment flies straight out from the centre: it starts `off` away, and its
      velocity points the same way as its offset. */
  ghost predicate Outward(p: Particle, x: real, y: real, off: real) {
    var ox, oy := p.x - x, p.y - y;
    ox * ox + oy * oy == off * off &&
    ox * p.vy == oy * p.vx &&
    ox * p.vx + oy * p.vy > 0.0
  }

  /** Everything the source promises of a fresh fragment. */
  ghost predicate WellBurst(variant: Burst, p: Particle, x: real, y: real, color: int,
                            height: Option<real>)
  {
    p.color == color &&
    (variant == Bounce ==>
       0.30 <= p.h < 0.65 && 1.2 <= p.vh < 2.5 && 0.9 <= p.ttl < 1.6 &&
       0.10 <= p.size < 0.28 && !p.noGravity &&
       4.0 <= p.vx * p.vx + p.vy * p.vy < 5.5 * 5.5) &&
    (variant == Drift ==>
       p.vh == 0.0 && p.noGravity && 0.9 <= p.ttl < 1.8 && 0.08 <= p.size < 0.24 &&
       (height.Some? ==> p.h == Max(0.0, height.value)) &&
       (height.None? ==> 0.12 <= p.h < 0.22) &&
       2.2 * 2.2 <= p.vx * p.vx + p.vy * p.vy < 6.0 * 6.0)
  }

  /** A fragment placed at angle (c, s) on a circle of radius off, moving at speed sp. */
  lemma {:induction false} OutwardOnCircle(p: Particle, x: real, y: real, c: real, s: real,
                                           off: real, sp: real)
    requires c * c + s * s == 1.0 && off > 0.0 && sp > 0.0
    requires p.x == x + c * off && p.y == y + s * off && p.vx == c * sp && p.vy == s * sp
    ensures Outward(p, x, y, off)
    ensures p.vx * p.vx + p.vy * p.vy == sp * sp
  {
    assert p.x - x == c * off && p.y - y == s * off;
    assert (c * off) * (c * off) + (s * off) * (s * off) == (c * c + s * s) * (off * off);
    assert (c * sp) * (c * sp) + (s * sp) * (s * sp) == (c * c + s * s) * (sp * sp);
    assert (c * off) * (s * sp) == (s * off) * (c * sp);
    assert (c * off) * (c * sp) + (s * off) * (s * sp) == (c * c + s * s) * (off * sp);
  }

  lemma UnitCircle(m: Trig, a: real)
    requires Lawful(m)
    ensures m.cos(a) * m.cos(a) + m.sin(a) * m.sin(a) == 1.0
  {
  }

  lemma {:induction false} NewFragmentWell(variant: Burst, x: real, y: real, color: int,
                                           height: Option<real>, m: Trig, rand: Rand, k: nat)
    requires UnitStream(rand) && Lawful(m)
    ensures var p := NewFragment(variant, x, y, color, height, m, rand, k);
            WellBurst(variant, p, x, y, color, height) && Outward(p, x, y, BurstOffset(variant))
  {
    UnitCircle(m, rand(k) * Pi * 2.0);
    assert 0.0 <= rand(k + 1) < 1.0 && 0.0 <= rand(k + 2) < 1.0;
    assert 0.0 <= rand(k + 3) < 1.0 && 0.0 <= rand(k + 4) < 1.0 && 0.0 <= rand(k + 5) < 1.0;
    if variant == Bounce {
      BounceFragmentWell(x, y, color, height, m, rand, k);
    } else {
      DriftFragmentWell(x, y, color, height, m, rand, k);
    }
  }

  lemma {:induction false} BounceFragmentWell(x: real, y: real, color: int,
                                              height: Option<real>, m: Trig, rand: Rand, k: nat)
    requires m.cos(rand(k) * Pi * 2.0) * m.cos(rand(k) * Pi * 2.0) +
             m.sin(rand(k) * Pi * 2.0) * m.sin(rand(k) * Pi * 2.0) == 1.0
    requires forall j :: k < j <= k + 5 ==> 0.0 <= rand(j) < 1.0
    ensures var p := NewFragment(Bounce, x, y, color, height, m, rand, k);
            WellBurst(Bounce, p, x, y, color, height) && Outward(p, x, y, 0.02)
  {
    var a := rand(k) * Pi * 2.0;
    var p := NewFragment(Bounce, x, y, color, height, m, rand, k);
    var sp := 2.0 + rand(k + 1) * 3.5;
    assert 0.0 <= rand(k + 1) < 1.0;
    OutwardOnCircle(p, x, y, m.cos(a), m.sin(a), 0.02, sp);
    SquareBetween(2.0, sp, 5.5);
    assert 0.0 <= rand(k + 2) < 1.0 && 0.0 <= rand(k + 3) < 1.0;
    assert 0.0 <= rand(k + 4) < 1.0 && 0.0 <= rand(k + 5) < 1.0;
  }

  lemma {:induction false} DriftFragmentWell(x: real, y: real, color: int,
                                             height: Option<real>, m: Trig, rand: Rand, k: nat)
    requires m.cos(rand(k) * Pi * 2.0) * m.cos(rand(k) * Pi * 2.0) +
             m.sin(rand(k) * Pi * 2.0) * m.sin(rand(k) * Pi * 2.0) == 1.0
    requires forall j :: k < j <= k + 4 ==> 0.0 <= rand(j) < 1.0
    ensures var p := NewFragment(Drift, x, y, color, height, m, rand, k);
            WellBurst(Drift, p, x, y, color, height) && Outward(p, x, y, 0.06)
  {
    var a := rand(k) * Pi * 2.0;
    var p := NewFragment(Drift, x, y, color, height, m, rand, k);
    var sp := 2.2 + rand(k + 1) * 3.8;
    assert 0.0 <= rand(k + 1) < 1.0;
    OutwardOnCircle(p, x, y, m.cos(a), m.sin(a), 0.06, sp);
    SquareBetween(2.2, sp, 6.0);
    var j := if height.Some? then k + 2 else k + 3;
    assert 0.0 <= rand(k + 2) < 1.0;
    assert 0.0 <= rand(j) < 1.0 && 0.0 <= rand(j + 1) < 1.0;
  }

  /** `spawnExplosion(state, x, y, color[, height])`: append a burst of fragments to the
      particle list, leaving the ones already there as they were. */
  method SpawnExplosion(variant: Burst, particles: seq<Particle>, x: real, y: real, color: int,
                        height: Option<real>, m: Trig, rand: Rand, k0: nat)
    returns (out: seq<Particle>, k: nat)
    requires UnitStream(rand) && Lawful(m)
    ensures |out| >= |particles| && out[..|particles|] == particles
    ensures variant == Bounce ==> 24 <= |out| - |particles| <= 39
    ensures variant == Drift ==> 28 <= |out| - |particles| <= 45
    ensures forall i :: |particles| <= i < |out| ==>
              WellBurst(variant, out[i], x, y, color, height) &&
              Outward(out[i], x, y, BurstOffset(variant))
    ensures k == k0 + 1 + (|out| - |particles|) * DrawsPerFragment(variant, height)
    ensures k > k0
  {
    var n := BurstCount(variant, rand(k0));
    k := k0 + 1;
    out := particles;
    var i := 0;
    while i < n
      invariant 0 <= i <= n
      invariant |out| == |particles| + i
      invariant BurstSoFar(variant, particles, out, x, y, color, height)
      invariant k == k0 + 1 + i * DrawsPerFragment(variant, height)
    {
      var q := NewFragment(variant, x, y, color, height, m, rand, k);
      NewFragmentWell(variant, x, y, color, height, m, rand, k);
      BurstGrows(variant, particles, out, q, x, y, color, height);
      out := out + [q];
      k := k + DrawsPerFragment(variant, height);
      i := i + 1;
    }
  }

  /** What the fragment loop keeps: the old particles are untouched and every appended one
      is a well-formed fragment moving outward. */
  ghost predicate BurstSoFar(variant: Burst, particles: seq<Particle>, out: seq<Particle>,
                             x: real, y: real, color: int, height: Option<real>)
  {
    |out| >= |particles| && out[..|particles|] == particles &&
    forall j :: |particles| <= j < |out| ==>
      WellBurst(variant, out[j], x, y, color, height) &&
      Outward(out[j], x, y, BurstOffset(variant))
  }

  lemma BurstGrows(variant: Burst, particles: seq<Particle>, out: seq<Particle>, q: Particle,
                   x: real, y: real, color: int, height: Option<real>)
    requires BurstSoFar(variant, particles, out, x, y, color, height)
    requires WellBurst(variant, q, x, y, color, height) && Outward(q, x, y, BurstOffset(variant))
    ensures BurstSoFar(variant, particles, out + [q], x, y, color, height)
  {
    var out' := out + [q];
    assert forall j :: 0 <= j < |out| ==> out'[j] == out[j];
  }
}
