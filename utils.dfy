/** The numeric helpers of src/game/utils.js (the same three functions are copied into
    src/game/combat.js and src/components/DoomLiteCanvas.jsx): clamping a value into a
    range and wrapping angles. */
module Utils {
  import opened Maths

  /** `clamp(v, a, b) = max(a, min(b, v))`. */
  function Clamp(v: real, a: real, b: real): (r: real)
    ensures a <= b ==> a <= r <= b
    ensures a <= v <= b ==> r == v
    ensures a <= b && v < a ==> r == a
    ensures a <= b && b < v ==> r == b
  {
    Max(a, Min(b, v))
  }

  lemma ClampIdempotent(v: real, a: real, b: real)
    ensures Clamp(Clamp(v, a, b), a, b) == Clamp(v, a, b)
  {
  }

  /** The three checks of the development self-test. */
  lemma ClampDevTests()
    ensures Clamp(2.0, 0.0, 1.0) == 1.0
    ensures Clamp(-1.0, 0.0, 1.0) == 0.0
    ensures Clamp(0.5, 0.0, 1.0) == 0.5
  {
  }

  /** Two angles that name the same direction: they differ by whole turns. */
  ghost predicate SameDirection(a: real, b: real) {
    IsWhole((a - b) / TwoPi)
  }

  /** `normalizeAngle`: wrap `(a + PI) % (2 PI)` into [0, 2 PI), then shift back by PI. */
  function NormalizeAngle(a: real): (r: real)
    ensures -Pi <= r < Pi
    ensures SameDirection(r, a)
  {
    var x := RemTwoPi(a + Pi);
    var x' := if x < 0.0 then x + TwoPi else x;
    var turns := if x < 0.0 then 1 - Trunc((a + Pi) / TwoPi) else -Trunc((a + Pi) / TwoPi);
    assert x' - Pi - a == turns as real * TwoPi;
    assert (x' - Pi - a) / TwoPi == turns as real;
    x' - Pi
  }

  lemma {:induction false} NormalizeAngleIdentity(a: real)
    requires -Pi <= a < Pi
    ensures NormalizeAngle(a) == a
  {
    assert 0.0 <= (a + Pi) / TwoPi < 1.0;
    assert Trunc((a + Pi) / TwoPi) == 0;
  }

  /** `lerpAngles(a, b, t) = a + normalizeAngle(b - a) * t`: turn from a toward b by the
      shorter way round. */
  function LerpAngles(a: real, b: real, t: real): real
  {
    a + NormalizeAngle(b - a) * t
  }

  /** The turn never exceeds half a revolution per unit of t. */
  lemma LerpAnglesStep(a: real, b: real, t: real)
    requires 0.0 <= t
    ensures -Pi * t <= LerpAngles(a, b, t) - a <= Pi * t
  {
    var d := NormalizeAngle(b - a);
    assert (d + Pi) * t >= 0.0;
    assert (Pi - d) * t >= 0.0;
  }

  lemma LerpAnglesEnds(a: real, b: real)
    ensures LerpAngles(a, b, 0.0) == a
    ensures SameDirection(LerpAngles(a, b, 1.0), b)
  {
    var d := NormalizeAngle(b - a);
    assert SameDirection(d, b - a);
    assert (a + d - b) / TwoPi == (d - (b - a)) / TwoPi;
  }

  /** The development test's endpoints, on either side of the wrap at PI. */
  const WrapA: real := Pi - 0.1
  const WrapB: real := -Pi + 0.1

  /** As written, tests/utils.test.js expects the across-wrap midpoint to normalise to an
      angle near 0; it normalises to -PI instead, so that assertion fails. */
  lemma DevTestAcrossWrapFails()
    ensures !(Abs(NormalizeAngle(LerpAngles(WrapA, WrapB, 0.5))) < 0.5)
  {
    LerpAcrossWrapShortWay();
  }

  /** What the test evidently means: lerping across the wrap takes the short way, a step of
      0.2, so the midpoint lies on the wrap itself, 0.1 from either endpoint. */
  lemma LerpAcrossWrapShortWay()
    ensures NormalizeAngle(WrapB - WrapA) == 0.2
    ensures LerpAngles(WrapA, WrapB, 0.5) == Pi
    ensures NormalizeAngle(LerpAngles(WrapA, WrapB, 0.5)) == -Pi
  {
    var v := WrapB - WrapA + Pi;
    assert -1.0 < v / TwoPi < 0.0;
    assert Trunc(v / TwoPi) == 0;
    assert NormalizeAngle(WrapB - WrapA) == 0.2;
    assert (Pi + Pi) / TwoPi == 1.0;
    assert Trunc((Pi + Pi) / TwoPi) == 1;
  }
}
