/** The part of JavaScript's number arithmetic the game relies on: `Math.PI`, the
    truncating `%` operator, `Math.round`, `Math.sign`, and the transcendental
    functions, which this model does not compute but receives as values. */
module Maths {

  /** `Math.PI`, written out to the digits of its double value. */
  const Pi: real := 3.141592653589793
  const TwoPi: real := 2.0 * Pi

  /** `Math.cos`, `Math.sin`, `Math.atan2`, `Math.hypot` and `Math.sqrt`. The model treats
      them as given functions; `Lawful` lists the facts about them that the proofs use. */
  datatype Trig = Trig(
    cos: real -> real,
    sin: real -> real,
    atan2: (real, real) -> real,
    hypot: (real, real) -> real,
    sqrt: real -> real)

  ghost predicate Lawful(m: Trig) {
    (forall a :: -1.0 <= m.cos(a) <= 1.0) &&
    (forall a :: -1.0 <= m.sin(a) <= 1.0) &&
    (forall a :: m.cos(a) * m.cos(a) + m.sin(a) * m.sin(a) == 1.0) &&
    m.cos(0.0) == 1.0 && m.sin(0.0) == 0.0
  }

  /** The bounds alone, for proofs that need nothing else of the trigonometry. */
  ghost predicate Bounded(m: Trig) {
    (forall a :: -1.0 <= m.cos(a) <= 1.0) && (forall a :: -1.0 <= m.sin(a) <= 1.0)
  }

  lemma LawfulBounded(m: Trig)
    requires Lawful(m)
    ensures Bounded(m)
  {
  }

  /** `Math.sqrt` and `Math.hypot` on exact reals. */
  ghost predicate RootsLawful(m: Trig) {
    (forall v :: 0.0 <= v ==> 0.0 <= m.sqrt(v) && m.sqrt(v) * m.sqrt(v) == v) &&
    (forall a, b :: 0.0 <= m.hypot(a, b) && m.hypot(a, b) * m.hypot(a, b) == a * a + b * b)
  }

  /** `Math.random()`, as a stream of draws: draw number k is `rand(k)`. */
  type Rand = nat -> real

  ghost predicate UnitStream(rand: Rand) {
    forall k :: 0.0 <= rand(k) < 1.0
  }

  function Min(a: real, b: real): real { if a <= b then a else b }
  function Max(a: real, b: real): real { if a >= b then a else b }
  function Abs(a: real): real { if a < 0.0 then -a else a }

  /** Scaling by a factor in [0, 1] moves a value toward 0 without changing its sign. */
  lemma ScaleDown(v: real, f: real)
    requires 0.0 <= f <= 1.0
    ensures Abs(v * f) <= Abs(v) && (v * f) * v >= 0.0
  {
    if v >= 0.0 {
      assert v * f <= v * 1.0;
    } else {
      assert v * f >= v * 1.0;
    }
    assert (v * f) * v == f * (v * v);
  }

  /** `Math.trunc`: the integer part, rounded toward zero. */
  function Trunc(r: real): (n: int)
    ensures r >= 0.0 ==> n as real <= r < n as real + 1.0
    ensures r < 0.0 ==> n as real - 1.0 < r <= n as real
  {
    if r >= 0.0 then r.Floor else -((-r).Floor)
  }

  /** `a % (2*Math.PI)`: JavaScript's remainder keeps the sign of the dividend. */
  function RemTwoPi(a: real): (r: real)
    ensures a >= 0.0 ==> 0.0 <= r < TwoPi
    ensures a < 0.0 ==> -TwoPi < r <= 0.0
    ensures a - r == Trunc(a / TwoPi) as real * TwoPi
  {
    a - Trunc(a / TwoPi) as real * TwoPi
  }

  /** `Math.ceil`. */
  function Ceil(r: real): (n: int)
    ensures r <= n as real < r + 1.0
  {
    -((-r).Floor)
  }

  /** `Math.round`: halves round up. */
  function Round(r: real): (n: int)
    ensures r - 0.5 < n as real <= r + 0.5
  {
    (r + 0.5).Floor
  }

  /** `Math.sign` on a non-zero argument. */
  function Sign(r: real): real { if r > 0.0 then 1.0 else if r < 0.0 then -1.0 else 0.0 }

  /** A real that is a whole number. */
  predicate IsWhole(r: real) { r == r.Floor as real }

  /** Squaring is monotone on the non-negative reals. */
  lemma SquareBetween(lo: real, v: real, hi: real)
    requires 0.0 <= lo <= v < hi
    ensures lo * lo <= v * v < hi * hi
  {
    var d, e := v - lo, hi - v;
    assert v * v == lo * lo + 2.0 * lo * d + d * d;
    assert lo * d >= 0.0 && d * d >= 0.0;
    assert hi * hi == v * v + 2.0 * v * e + e * e;
    assert v * e >= 0.0 && e * e > 0.0;
  }
}
