/** `projectBillboard` of src/game/visibility.js:1-9 (repeated at
    src/components/DoomLiteCanvas.jsx:534-542): where a point of the world lands on the
    screen as a camera-facing sprite, or nothing when it is too close or outside the view. */
module Visibility {
  import opened Maths
  import opened Wrappers
  import opened Utils
  import opened Entities

  /** The projected sprite: its depth, its screen x and its size in pixels. */
  datatype Projection = Projection(z: real, x: real, s: real)

  /** The relative angle as the code wraps it: `((ang + PI) % (2 PI)) - PI`. JavaScript's
      `%` keeps the sign of a negative dividend, and unlike `normalizeAngle` nothing adds
      the turn back, so below -PI the result stays below -PI. */
  function WrapAsWritten(ang: real): (a: real)
    ensures ang >= -Pi ==> -Pi <= a < Pi
    ensures ang < -Pi ==> a <= -Pi
  {
    RemTwoPi(ang + Pi) - Pi
  }

  /** From -PI up the written wrap agrees with `normalizeAngle`. */
  lemma WrapAsWrittenAgrees(ang: real)
    requires ang >= -Pi
    ensures WrapAsWritten(ang) == NormalizeAngle(ang)
  {
  }

  /** The sprite size: inverse distance times 0.9 of the screen width, capped at 9999. */
  function SpriteSize(dist: real, screenW: real): real
    requires dist >= 0.05
  {
    Min(9999.0, (1.0 / (dist + 0.0001)) * (screenW * 0.9))
  }

  /** The projection from the relative angle a, once the point has passed the distance
      test; nothing when a lies outside the field of view. */
  function Place(fov: real, screenW: real, dist: real, a: real): (r: Option<Projection>)
    requires fov > 0.0 && dist >= 0.05
    ensures r.None? <==> Abs(a) > fov
    ensures r.Some? ==> r.value.z == dist && r.value.s <= 9999.0
    ensures r.Some? && screenW > 0.0 ==> r.value.s > 0.0
    ensures r.Some? && screenW >= 0.0 ==> -0.5 * screenW <= r.value.x <= 1.5 * screenW
    ensures r.Some? && a == 0.0 ==> r.value.x == 0.5 * screenW
  {
    if Abs(a) > fov then None
    else
      assert -1.0 <= a / fov <= 1.0;
      ScreenXBounds(a / fov, screenW);
      SizePositive(dist, screenW);
      Some(Projection(dist, (0.5 + a / fov) * screenW, SpriteSize(dist, screenW)))
  }

  lemma ScreenXBounds(u: real, w: real)
    requires -1.0 <= u <= 1.0
    ensures w >= 0.0 ==> -0.5 * w <= (0.5 + u) * w <= 1.5 * w
  {
    assert (0.5 + u) * w == 0.5 * w + u * w;
    if w >= 0.0 {
      assert -w <= u * w <= w;
    }
  }

  lemma SizePositive(dist: real, w: real)
    requires dist >= 0.05
    ensures w > 0.0 ==> (1.0 / (dist + 0.0001)) * (w * 0.9) > 0.0
  {
  }

  /** `projectBillboard(p, screenW, x, y)` as written: nothing closer than 0.05, otherwise
      the angle to the point relative to the view direction, wrapped by `WrapAsWritten`. */
  function ProjectBillboardAsWritten(m: Trig, p: Player, screenW: real, x: real, y: real)
    : (r: Option<Projection>)
    requires p.fov > 0.0
    ensures r.None? <==> m.hypot(x - p.x, y - p.y) < 0.05 ||
                         Abs(WrapAsWritten(m.atan2(y - p.y, x - p.x) - p.dir)) > p.fov
    ensures r.Some? ==> r.value.z == m.hypot(x - p.x, y - p.y) && r.value.z >= 0.05 &&
                        r.value.s <= 9999.0
  {
    var dist := m.hypot(x - p.x, y - p.y);
    if dist < 0.05 then None
    else Place(p.fov, screenW, dist, WrapAsWritten(m.atan2(y - p.y, x - p.x) - p.dir))
  }

  /** The corrected `projectBillboard`: the relative angle wrapped by `normalizeAngle`
      (src/game/utils.js:5-9) instead of the uncorrected wrap that both copies of the code
      use (src/game/visibility.js:4, src/components/DoomLiteCanvas.jsx:537). The two agree
      whenever the angle before wrapping is at least -PI (`AsWrittenAgrees`). */
  function ProjectBillboard(m: Trig, p: Player, screenW: real, x: real, y: real)
    : (r: Option<Projection>)
    requires p.fov > 0.0
    ensures r.None? <==> m.hypot(x - p.x, y - p.y) < 0.05 ||
                         Abs(NormalizeAngle(m.atan2(y - p.y, x - p.x) - p.dir)) > p.fov
    ensures r.Some? ==> r.value.z == m.hypot(x - p.x, y - p.y) && r.value.z >= 0.05 &&
                        r.value.s <= 9999.0
    ensures r.Some? && screenW > 0.0 ==> r.value.s > 0.0
    ensures r.Some? && screenW >= 0.0 ==> -0.5 * screenW <= r.value.x <= 1.5 * screenW
  {
    var dist := m.hypot(x - p.x, y - p.y);
    if dist < 0.05 then None
    else Place(p.fov, screenW, dist, NormalizeAngle(m.atan2(y - p.y, x - p.x) - p.dir))
  }

  /** The code as written and the corrected projection differ only when the angle to the
      point, less the view direction, falls below -PI. */
  lemma AsWrittenAgrees(m: Trig, p: Player, screenW: real, x: real, y: real)
    requires p.fov > 0.0 && m.atan2(y - p.y, x - p.x) - p.dir >= -Pi
    ensures ProjectBillboardAsWritten(m, p, screenW, x, y) == ProjectBillboard(m, p, screenW, x, y)
  {
    WrapAsWrittenAgrees(m.atan2(y - p.y, x - p.x) - p.dir);
  }

  /** Two angles in [-PI, PI) that point the same way are equal. */
  lemma {:induction false} SameDirectionUnique(r1: real, r2: real)
    requires -Pi <= r1 < Pi && -Pi <= r2 < Pi && SameDirection(r1, r2)
    ensures r1 == r2
  {
    var q := (r1 - r2) / TwoPi;
    assert q == q.Floor as real;
    assert -1.0 < q < 1.0;
  }

  /** Normalising an angle one turn smaller gives the same result. */
  lemma {:induction false} NormalizeFullTurn(ang: real)
    ensures NormalizeAngle(ang - TwoPi) == NormalizeAngle(ang)
  {
    var r1, r2 := NormalizeAngle(ang - TwoPi), NormalizeAngle(ang);
    assert SameDirection(r1, r2) by {
      var k1, k2 := (r1 - (ang - TwoPi)) / TwoPi, (r2 - ang) / TwoPi;
      assert (r1 - r2) / TwoPi == k1 - k2 - 1.0;
      assert k1 == k1.Floor as real && k2 == k2.Floor as real;
      assert k1 - k2 - 1.0 == (k1.Floor - k2.Floor - 1) as real;
    }
    SameDirectionUnique(r1, r2);
  }

  /** A full turn of the player changes nothing on screen. */
  lemma {:induction false} ProjectBillboardFullTurn(m: Trig, p: Player, screenW: real, x: real, y: real)
    requires p.fov > 0.0
    ensures ProjectBillboard(m, p.(dir := p.dir + TwoPi), screenW, x, y) ==
            ProjectBillboard(m, p, screenW, x, y)
  {
    var ang := m.atan2(y - p.y, x - p.x) - p.dir;
    NormalizeFullTurn(ang);
    assert m.atan2(y - p.y, x - p.x) - (p.dir + TwoPi) == ang - TwoPi;
    var dist := m.hypot(x - p.x, y - p.y);
    if dist >= 0.05 {
      assert Place(p.fov, screenW, dist, NormalizeAngle(ang - TwoPi)) ==
             Place(p.fov, screenW, dist, NormalizeAngle(ang));
    }
  }

  /** The facts about `Math.hypot` and `Math.atan2` the self-test relies on. */
  ghost predicate AxisFacts(m: Trig) {
    m.hypot(2.0, 0.0) == 2.0 && m.hypot(-2.0, 0.0) == 2.0 &&
    m.atan2(0.0, 2.0) == 0.0 && m.atan2(0.0, -2.0) == Pi
  }

  /** The player of the component's self-test: at the origin, facing east, default fov. */
  const TestPlayer: Player := Player(0.0, 0.0, 0.0, 0.0, Pi / 3.0, 2.6)

  /** The self-test (DoomLiteCanvas.jsx:738-742): on an 800-pixel screen a point 2 ahead is
      projected at positive depth, a point 2 behind is not. */
  lemma SelfTest(m: Trig)
    requires AxisFacts(m)
    ensures ProjectBillboardAsWritten(m, TestPlayer, 800.0, 2.0, 0.0).Some?
    ensures ProjectBillboardAsWritten(m, TestPlayer, 800.0, 2.0, 0.0).value.z > 0.0
    ensures ProjectBillboardAsWritten(m, TestPlayer, 800.0, -2.0, 0.0).None?
  {
    assert RemTwoPi(Pi) == Pi;
    assert RemTwoPi(TwoPi) == 0.0 by {
      assert TwoPi / TwoPi == 1.0;
    }
  }

  /** The counterexample: after the player has turned one full turn to the right
      (dir = 2 PI, which the tick never wraps back), a point straight ahead is culled by
      the code as written, although it is visible with the wrap corrected. */
  lemma AheadLostAfterFullTurn(m: Trig)
    requires AxisFacts(m)
    ensures ProjectBillboardAsWritten(m, TestPlayer.(dir := TwoPi), 800.0, 2.0, 0.0).None?
    ensures ProjectBillboard(m, TestPlayer.(dir := TwoPi), 800.0, 2.0, 0.0).Some?
  {
    assert RemTwoPi(-Pi) == -Pi by {
      assert -Pi / TwoPi == -0.5;
    }
    ProjectBillboardFullTurn(m, TestPlayer, 800.0, 2.0, 0.0);
    assert RemTwoPi(Pi) == Pi;
  }
}
