/** The arithmetic both touch-control files share: the movement pad's clamped offset turned
    into a world-space move vector, and the look stick's clamp and dead-zone remap
    (src/controls/touch.js:20-26 and 42-45, src/controls/touchControls.js:14, 32 and 54,
    constants from src/game/constants.js:2-3). */
module Stick {
  import opened Maths
  import opened Utils
  import opened Entities

  /** A touch of an event's `changedTouches`: its `identifier`, `clientX` and `clientY`. */
  datatype TouchPoint = TouchPoint(id: int, x: real, y: real)

  /** `LOOK_RADIUS`: a look drag of this many pixels turns at full rate. */
  const LookRadius: real := 90.0
  /** `DEADZONE`: look deflections below this fraction are ignored. */
  const DeadZone: real := 0.10
  /** The movement pad's `max`: a drag of this many pixels walks at full speed. */
  const PadRadius: real := 80.0

  /** `(v - Math.sign(v) * DEADZONE) / (1 - DEADZONE)`, or 0 inside the dead zone, for a
      deflection v already clamped to [-1, 1]. */
  function Remap(v: real): (r: real)
  {
    if Abs(v) < DeadZone then 0.0 else (v - Sign(v) * DeadZone) / (1.0 - DeadZone)
  }

  /** One look axis: the drag clamped to one look radius, then remapped. The result is a
      full-range deflection with the sign of the drag, zero in the dead zone and at full
      deflection from one radius on. */
  function LookAxis(d: real): (r: real)
    ensures -1.0 <= r <= 1.0
    ensures Abs(Clamp(d / LookRadius, -1.0, 1.0)) < DeadZone ==> r == 0.0
    ensures r > 0.0 <==> d > DeadZone * LookRadius
    ensures r < 0.0 <==> d < -DeadZone * LookRadius
    ensures d >= LookRadius ==> r == 1.0
    ensures d <= -LookRadius ==> r == -1.0
  {
    Remap(Clamp(d / LookRadius, -1.0, 1.0))
  }

  /** A longer drag never turns less. */
  lemma LookAxisMonotone(d1: real, d2: real)
    requires d1 <= d2
    ensures LookAxis(d1) <= LookAxis(d2)
  {
    var v1 := Clamp(d1 / LookRadius, -1.0, 1.0);
    var v2 := Clamp(d2 / LookRadius, -1.0, 1.0);
    assert v1 <= v2;
  }

  /** Dragging the other way turns the other way by the same amount. */
  lemma LookAxisOdd(d: real)
    ensures LookAxis(-d) == -LookAxis(d)
  {
    assert Clamp(-d / LookRadius, -1.0, 1.0) == -Clamp(d / LookRadius, -1.0, 1.0);
  }

  /** `tsNorm(dx, dy)`: both axes of a look drag. */
  function TsNorm(dx: real, dy: real): (n: Vec)
    ensures -1.0 <= n.x <= 1.0 && -1.0 <= n.y <= 1.0
    ensures n == Vec(LookAxis(dx), LookAxis(dy))
  {
    Vec(LookAxis(dx), LookAxis(dy))
  }

  /** One pad axis: `clamp(d / max, -1, 1)`. */
  function PadAxis(d: real): (r: real)
    ensures -1.0 <= r <= 1.0
    ensures -PadRadius <= d <= PadRadius ==> r == d / PadRadius
  {
    Clamp(d / PadRadius, -1.0, 1.0)
  }

  /** `f * (-ny) + r * nx`: the forward vector f scaled by the upward pad deflection plus the
      right vector r scaled by the sideways one. */
  function Blend(f: Vec, r: Vec, nx: real, ny: real): Vec {
    Vec(f.x * -ny + r.x * nx, f.y * -ny + r.y * nx)
  }

  /** Unit-bounded vectors and deflections blend to a vector within 2 on each axis. */
  lemma BlendBounded(f: Vec, r: Vec, nx: real, ny: real)
    requires -1.0 <= f.x <= 1.0 && -1.0 <= f.y <= 1.0 && -1.0 <= r.x <= 1.0 && -1.0 <= r.y <= 1.0
    requires -1.0 <= nx <= 1.0 && -1.0 <= ny <= 1.0
    ensures -2.0 <= Blend(f, r, nx, ny).x <= 2.0 && -2.0 <= Blend(f, r, nx, ny).y <= 2.0
  {
    ProductBounded(f.x, -ny);
    ProductBounded(r.x, nx);
    ProductBounded(f.y, -ny);
    ProductBounded(r.y, nx);
  }

  /** The move vector of a pad drag (dx, dy) for a player facing `dir`, with f the facing
      and r the facing turned a right angle. */
  function MoveVector(m: Trig, dir: real, dx: real, dy: real): (v: Vec)
  {
    Blend(Vec(m.cos(dir), m.sin(dir)), Vec(m.cos(dir + Pi / 2.0), m.sin(dir + Pi / 2.0)),
          PadAxis(dx), PadAxis(dy))
  }

  /** Dragging straight up walks straight ahead (screen y grows downwards), at a speed that
      grows with the drag; a pad at rest gives no movement. */
  lemma MoveVectorStraight(m: Trig, dir: real, dy: real)
    ensures MoveVector(m, dir, 0.0, dy) ==
            Vec(m.cos(dir) * -PadAxis(dy), m.sin(dir) * -PadAxis(dy))
    ensures MoveVector(m, dir, 0.0, 0.0) == Vec(0.0, 0.0)
  {
  }

  /** With bounded trigonometry each component of the move vector is at most 2. */
  lemma MoveVectorBounded(m: Trig, dir: real, dx: real, dy: real)
    requires Bounded(m)
    ensures -2.0 <= MoveVector(m, dir, dx, dy).x <= 2.0
    ensures -2.0 <= MoveVector(m, dir, dx, dy).y <= 2.0
  {
    var f := Vec(m.cos(dir), m.sin(dir));
    var r := Vec(m.cos(dir + Pi / 2.0), m.sin(dir + Pi / 2.0));
    assert -1.0 <= f.x <= 1.0 && -1.0 <= f.y <= 1.0 && -1.0 <= r.x <= 1.0 && -1.0 <= r.y <= 1.0;
    BlendBounded(f, r, PadAxis(dx), PadAxis(dy));
  }

  lemma ProductBounded(a: real, b: real)
    requires -1.0 <= a <= 1.0 && -1.0 <= b <= 1.0
    ensures -1.0 <= a * b <= 1.0
  {
    if b >= 0.0 {
      ScaleDown(a, b);
    } else {
      ScaleDown(a, -b);
      assert a * -b == -(a * b);
    }
  }
}
