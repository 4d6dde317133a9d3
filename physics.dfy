/** Movement against the walls and between enemies: `trySlide` and `resolveEnemyOverlaps`
    of src/game/physics.js:14-35, repeated verbatim in src/game/spawn.js:32-53 and
    src/components/DoomLiteCanvas.jsx:221-244. */
module Physics {
  import opened Maths
  import opened Grid
  import opened Entities

  /** The default radius of `collide` and `trySlide`. */
  const PlayerRadius: real := 0.18

  /** An entity that is not touching a wall at its own radius. */
  ghost predicate Clear(m: Trig, x: real, y: real, radius: real) {
    !Collide(m, x, y, radius)
  }

  /** `trySlide(entity, nx, ny, radius)`: take the new x if that spot is free, otherwise the
      new y if that spot is free, otherwise stay put. */
  method TrySlide(m: Trig, x: real, y: real, nx: real, ny: real, radius: real)
    returns (x': real, y': real, moved: bool)
    ensures !Collide(m, nx, y, radius) ==> x' == nx && y' == y && moved
    ensures Collide(m, nx, y, radius) && !Collide(m, x, ny, radius) ==> x' == x && y' == ny && moved
    ensures Collide(m, nx, y, radius) && Collide(m, x, ny, radius) ==> x' == x && y' == y && !moved
    ensures x' == x || y' == y
    ensures moved ==> Clear(m, x', y', radius)
    ensures Clear(m, x, y, radius) ==> Clear(m, x', y', radius)
  {
    if !Collide(m, nx, y, radius) {
      return nx, y, true;
    }
    if !Collide(m, x, ny, radius) {
      return x, ny, true;
    }
    return x, y, false;
  }

  /** The enemy is the same apart, perhaps, from its position. */
  predicate SameButPosition(e': Enemy, e: Enemy) {
    e' == e.(x := e'.x, y := e'.y)
  }

  /** Two live enemies whose circles overlap, and not at the same point. */
  predicate Overlapping(a: Enemy, b: Enemy) {
    var dx, dy := b.x - a.x, b.y - a.y;
    var minDist := EffectiveRad(a) + EffectiveRad(b);
    0.0 < dx * dx + dy * dy < minDist * minDist
  }

  /** The distance the pair step divides by: `Math.sqrt(d2) || 0.0001`. */
  function PairDistance(m: Trig, a: Enemy, b: Enemy): real {
    var dx, dy := b.x - a.x, b.y - a.y;
    var s := m.sqrt(dx * dx + dy * dy);
    if s == 0.0 then 0.0001 else s
  }

  /** The position each of the pair is pushed to: half the overlap along the line between
      them, a backwards and b forwards. */
  function PushedA(m: Trig, a: Enemy, b: Enemy): Vec {
    var d := PairDistance(m, a, b);
    var overlap := EffectiveRad(a) + EffectiveRad(b) - d;
    Vec(a.x - (b.x - a.x) / d * overlap * 0.5, a.y - (b.y - a.y) / d * overlap * 0.5)
  }

  function PushedB(m: Trig, a: Enemy, b: Enemy): Vec {
    var d := PairDistance(m, a, b);
    var overlap := EffectiveRad(a) + EffectiveRad(b) - d;
    Vec(b.x + (b.x - a.x) / d * overlap * 0.5, b.y + (b.y - a.y) / d * overlap * 0.5)
  }

  /** One pair of the double loop: when they overlap, each is moved to its pushed position
      unless that spot collides at its own radius. The wall test takes `rad` as it is, without
      the `|| 0.28` the overlap test uses; a record with no radius at all would be tested at
      collide's default 0.18, which the model leaves out since every spawned enemy has rad 0.28
      (`Spawn.WellSpawned`). */
  function SeparatePair(m: Trig, a: Enemy, b: Enemy): (r: (Enemy, Enemy))
    ensures SameButPosition(r.0, a) && SameButPosition(r.1, b)
    ensures !Overlapping(a, b) ==> r == (a, b)
    ensures r.0 != a ==> Vec(r.0.x, r.0.y) == PushedA(m, a, b) && Clear(m, r.0.x, r.0.y, a.rad)
    ensures r.1 != b ==> Vec(r.1.x, r.1.y) == PushedB(m, a, b) && Clear(m, r.1.x, r.1.y, b.rad)
    ensures Overlapping(a, b) && !Collide(m, PushedA(m, a, b).x, PushedA(m, a, b).y, a.rad) ==>
              Vec(r.0.x, r.0.y) == PushedA(m, a, b)
    ensures Overlapping(a, b) && !Collide(m, PushedB(m, a, b).x, PushedB(m, a, b).y, b.rad) ==>
              Vec(r.1.x, r.1.y) == PushedB(m, a, b)
    ensures Overlapping(a, b) && Collide(m, PushedA(m, a, b).x, PushedA(m, a, b).y, a.rad) ==> r.0 == a
    ensures Overlapping(a, b) && Collide(m, PushedB(m, a, b).x, PushedB(m, a, b).y, b.rad) ==> r.1 == b
    ensures Clear(m, a.x, a.y, a.rad) ==> Clear(m, r.0.x, r.0.y, a.rad)
    ensures Clear(m, b.x, b.y, b.rad) ==> Clear(m, r.1.x, r.1.y, b.rad)
  {
    if Overlapping(a, b) then
      var pa, pb := PushedA(m, a, b), PushedB(m, a, b);
      (if !Collide(m, pa.x, pa.y, a.rad) then a.(x := pa.x, y := pa.y) else a,
       if !Collide(m, pb.x, pb.y, b.rad) then b.(x := pb.x, y := pb.y) else b)
    else (a, b)
  }

  /** The two pushes are equal and opposite, so when both are committed the pair's midpoint
      stays where it was. */
  lemma PushesAreOpposite(m: Trig, a: Enemy, b: Enemy)
    ensures PushedA(m, a, b).x - a.x == -(PushedB(m, a, b).x - b.x)
    ensures PushedA(m, a, b).y - a.y == -(PushedB(m, a, b).y - b.y)
  {
  }

  /** With an exact square root, a pair that is pushed both ways ends exactly touching: its
      distance becomes the sum of the radii. */
  lemma {:induction false} PushesSeparateExactly(m: Trig, a: Enemy, b: Enemy)
    requires RootsLawful(m)
    requires Overlapping(a, b)
    ensures var pa, pb := PushedA(m, a, b), PushedB(m, a, b);
            var minDist := EffectiveRad(a) + EffectiveRad(b);
            (pb.x - pa.x) * (pb.x - pa.x) + (pb.y - pa.y) * (pb.y - pa.y) == minDist * minDist
  {
    var dx, dy := b.x - a.x, b.y - a.y;
    var d2 := dx * dx + dy * dy;
    var s := m.sqrt(d2);
    assert 0.0 <= s && s * s == d2;
    assert s != 0.0;
    var d := PairDistance(m, a, b);
    assert d == s;
    PushGeometry(a.x, a.y, b.x, b.y, d, EffectiveRad(a) + EffectiveRad(b));
  }

  /** The arithmetic of the pair step: pushing each end of a segment of length d half the
      overlap outwards gives a segment of length minDist. */
  lemma PushGeometry(x0: real, y0: real, x1: real, y1: real, d: real, minDist: real)
    requires d > 0.0 && d * d == (x1 - x0) * (x1 - x0) + (y1 - y0) * (y1 - y0)
    ensures var ov := minDist - d;
            var pax, pay := x0 - (x1 - x0) / d * ov * 0.5, y0 - (y1 - y0) / d * ov * 0.5;
            var pbx, pby := x1 + (x1 - x0) / d * ov * 0.5, y1 + (y1 - y0) / d * ov * 0.5;
            (pbx - pax) * (pbx - pax) + (pby - pay) * (pby - pay) == minDist * minDist
  {
    var dx, dy := x1 - x0, y1 - y0;
    var ov := minDist - d;
    var k := minDist / d;
    ScaleStep(dx, d, minDist);
    ScaleStep(dy, d, minDist);
    var pbx := x1 + dx / d * ov * 0.5;
    var pax := x0 - dx / d * ov * 0.5;
    var pby := y1 + dy / d * ov * 0.5;
    var pay := y0 - dy / d * ov * 0.5;
    assert pbx - pax == dx + dx / d * ov * 0.5 * 2.0;
    assert pby - pay == dy + dy / d * ov * 0.5 * 2.0;
    assert pbx - pax == dx * k;
    assert pby - pay == dy * k;
    SquareOfScaled(dx, dy, k, d * d);
    assert d * k == minDist;
    assert (d * d) * (k * k) == (d * k) * (d * k);
  }

  lemma ScaleStep(v: real, d: real, minDist: real)
    requires d != 0.0
    ensures v / d * (minDist - d) * 0.5 * 2.0 == v * (minDist / d) - v
  {
    assert v / d * (minDist - d) == v * (minDist / d) - v / d * d;
  }

  lemma SquareOfScaled(dx: real, dy: real, k: real, d2: real)
    requires d2 == dx * dx + dy * dy
    ensures (dx * k) * (dx * k) + (dy * k) * (dy * k) == d2 * (k * k)
  {
  }

  /** Every enemy that starts clear of the walls is still clear. */
  ghost predicate ClearKept(m: Trig, before: seq<Enemy>, after: seq<Enemy>)
    requires |before| == |after|
  {
    forall k :: 0 <= k < |after| && Clear(m, before[k].x, before[k].y, before[k].rad) ==>
      Clear(m, after[k].x, after[k].y, after[k].rad)
  }

  /** What the loop of `ResolveEnemyOverlaps` keeps about its working copy. */
  ghost predicate ResolvedSoFar(m: Trig, enemies: seq<Enemy>, out: seq<Enemy>) {
    |out| == |enemies| &&
    (forall k :: 0 <= k < |out| ==> SameButPosition(out[k], enemies[k])) &&
    (forall k :: 0 <= k < |out| && !enemies[k].alive ==> out[k] == enemies[k]) &&
    ClearKept(m, enemies, out)
  }

  lemma SeparateAtKeeps(m: Trig, enemies: seq<Enemy>, out: seq<Enemy>, i: int, j: int)
    requires ResolvedSoFar(m, enemies, out)
    requires 0 <= i < j < |out| && out[i].alive && out[j].alive
    ensures var pair := SeparatePair(m, out[i], out[j]);
            ResolvedSoFar(m, enemies, out[i := pair.0][j := pair.1])
  {
    var pair := SeparatePair(m, out[i], out[j]);
    var out' := out[i := pair.0][j := pair.1];
    assert forall k :: 0 <= k < |out'| && k != i && k != j ==> out'[k] == out[k];
  }

  /** The inner loop of `resolveEnemyOverlaps` for enemy i, from j on: each live enemy j
      is separated from enemy i by `SeparatePair`, in order. */
  function SeparateFrom(m: Trig, es: seq<Enemy>, i: nat, j: nat): (r: seq<Enemy>)
    requires i < |es|
    ensures |r| == |es|
    decreases |es| - j
  {
    if j >= |es| then es
    else if es[j].alive then
      var pair := SeparatePair(m, es[i], es[j]);
      SeparateFrom(m, es[i := pair.0][j := pair.1], i, j + 1)
    else SeparateFrom(m, es, i, j + 1)
  }

  /** The outer loop of `resolveEnemyOverlaps` from i on: each live enemy i in turn is
      separated from every later one. */
  function ResolveFrom(m: Trig, es: seq<Enemy>, i: nat): (r: seq<Enemy>)
    ensures |r| == |es|
    decreases |es| - i
  {
    if i >= |es| then es
    else if es[i].alive then ResolveFrom(m, SeparateFrom(m, es, i, i + 1), i + 1)
    else ResolveFrom(m, es, i + 1)
  }

  /** `resolveEnemyOverlaps(enemies)`: every pair i < j of live enemies, in order, is
      separated in place by `SeparatePair`. */
  method ResolveEnemyOverlaps(m: Trig, enemies: seq<Enemy>) returns (out: seq<Enemy>)
    ensures out == ResolveFrom(m, enemies, 0)
    ensures |out| == |enemies|
    ensures forall k :: 0 <= k < |out| ==> SameButPosition(out[k], enemies[k])
    ensures forall k :: 0 <= k < |out| && !enemies[k].alive ==> out[k] == enemies[k]
    ensures ClearKept(m, enemies, out)
  {
    out := enemies;
    var i := 0;
    while i < |out|
      invariant i <= |out|
      invariant ResolvedSoFar(m, enemies, out)
      invariant ResolveFrom(m, out, i) == ResolveFrom(m, enemies, 0)
    {
      if out[i].alive {
        var j := i + 1;
        while j < |out|
          invariant i < j <= |out|
          invariant ResolvedSoFar(m, enemies, out)
          invariant ResolveFrom(m, SeparateFrom(m, out, i, j), i + 1) == ResolveFrom(m, enemies, 0)
        {
          if out[j].alive {
            var pair := SeparatePair(m, out[i], out[j]);
            SeparateAtKeeps(m, enemies, out, i, j);
            out := out[i := pair.0][j := pair.1];
          }
          j := j + 1;
        }
      }
      i := i + 1;
    }
  }
}
