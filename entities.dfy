/** The records the game keeps in its state (src/components/DoomLiteCanvas.jsx:66-79,
    src/game/update.js:118-133) and the HUD updates the tick and the buttons ask for. */
module Entities {
  import opened Wrappers

  datatype Vec = Vec(x: real, y: real)

  /** The player: position, view direction, vertical look angle, field of view, walk speed. */
  datatype Player = Player(x: real, y: real, dir: real, pitch: real, fov: real, speed: real)

  /** A floating cube. `color` is the grey level g of its `rgb(g,g,g)` string. */
  datatype Enemy = Enemy(
    x: real, y: real,
    hp: int, alive: bool,
    cool: real, speed: real,
    zBase: real, bobAmp: real, t: real,
    rot: real, rotSpd: real,
    sizeMul: real, color: int, rad: real)

  /** `rad || 0.28`: a zero radius falls back to the default. */
  function EffectiveRad(e: Enemy): (r: real)
    ensures e.rad != 0.0 ==> r == e.rad
    ensures e.rad == 0.0 ==> r == 0.28
  {
    if e.rad == 0.0 then 0.28 else e.rad
  }

  datatype Owner = FromPlayer | FromEnemy
  datatype Kind = Bullet | Laser

  /** A shot: position, horizontal direction, speed, time to live, owner, kind, height,
      vertical speed, and for a laser the trail of its earlier positions. */
  datatype Projectile = Projectile(
    x: real, y: real, dx: real, dy: real, spd: real, ttl: real,
    from: Owner, kind: Kind, z: real, vz: real, trail: Option<seq<Vec>>)

  /** An explosion fragment with height h above the floor and vertical speed vh. */
  datatype Particle = Particle(
    x: real, y: real, vx: real, vy: real, h: real, vh: real,
    ttl: real, size: real, color: int, noGravity: bool)

  /** The keys the tick reads from `state.keys`. */
  datatype Keys = Keys(w: bool, s: bool, a: bool, d: bool,
                       left: bool, right: bool, up: bool, down: bool)

  const NoKeys := Keys(false, false, false, false, false, false, false, false)

  /** The HUD record kept by the component: `{ hp, ammo, score, msg }`. */
  datatype Hud = Hud(hp: int, ammo: int, score: int, msg: string)

  const InitialHud := Hud(100, 6, 0, "")

  /** One `setHud` updater. */
  datatype HudEffect =
    | Shot           // tryShoot
    | Reloading      // reload
    | Boop           // an enemy touching the player
    | LaserHit       // an enemy laser hitting the player
    | CubeDown       // a cube destroyed
    | LevelComplete  // the exit reached

  ghost predicate HudValid(h: Hud) {
    h.hp >= 0 && h.ammo >= 0
  }

  /** What each updater returns for the HUD it is given. */
  function ApplyEffect(h: Hud, e: HudEffect): (h': Hud)
    ensures e == Shot && h.ammo <= 0 ==> h' == h.(msg := "Click! (Leeg)")
    ensures e == Shot && h.ammo > 0 ==> h' == h.(ammo := h.ammo - 1, msg := "Bang!")
    ensures e == Boop ==> h'.hp == Max0(h.hp - 1) && h'.ammo == h.ammo && h'.score == h.score
    ensures e == LaserHit ==> h'.hp == Max0(h.hp - 12) && h'.ammo == h.ammo && h'.score == h.score
    ensures e == CubeDown ==> h' == h.(score := h.score + 120, msg := "Cube down")
    ensures e in {Reloading, LevelComplete} ==> h'.hp == h.hp && h'.ammo == h.ammo && h'.score == h.score
  {
    match e
    case Shot => if h.ammo <= 0 then h.(msg := "Click! (Leeg)") else h.(ammo := h.ammo - 1, msg := "Bang!")
    case Reloading => h.(msg := "Reloading…")
    case Boop => h.(hp := Max0(h.hp - 1), msg := "Kubus-boop")
    case LaserHit => h.(hp := Max0(h.hp - 12), msg := "Laser hit!")
    case CubeDown => h.(score := h.score + 120, msg := "Cube down")
    case LevelComplete => h.(msg := "Level complete!")
  }

  function Max0(n: int): int { if n < 0 then 0 else n }

  /** The updaters applied in the order they were queued. */
  function ApplyEffects(h: Hud, es: seq<HudEffect>): Hud
    decreases |es|
  {
    if es == [] then h else ApplyEffects(ApplyEffect(h, es[0]), es[1..])
  }

  /** Health and ammunition never go negative, health never rises, the score never falls,
      whatever updaters are queued. */
  lemma {:induction false} ApplyEffectsKeepsBounds(h: Hud, es: seq<HudEffect>)
    requires HudValid(h)
    ensures HudValid(ApplyEffects(h, es))
    ensures ApplyEffects(h, es).hp <= h.hp
    ensures ApplyEffects(h, es).ammo <= h.ammo
    ensures ApplyEffects(h, es).score >= h.score
    decreases |es|
  {
    if es != [] {
      ApplyEffectsKeepsBounds(ApplyEffect(h, es[0]), es[1..]);
    }
  }

  lemma {:induction false} ApplyEffectsAppend(h: Hud, es: seq<HudEffect>, fs: seq<HudEffect>)
    ensures ApplyEffects(h, es + fs) == ApplyEffects(ApplyEffects(h, es), fs)
    decreases |es|
  {
    if es != [] {
      assert (es + fs)[1..] == es[1..] + fs;
      ApplyEffectsAppend(ApplyEffect(h, es[0]), es[1..], fs);
    } else {
      assert es + fs == fs;
    }
  }

  /** Each cube destroyed adds exactly 120 points. */
  lemma {:induction false} ScoreCountsCubes(h: Hud, es: seq<HudEffect>)
    ensures ApplyEffects(h, es).score == h.score + 120 * CountOf(es, CubeDown)
    decreases |es|
  {
    if es != [] {
      assert ApplyEffect(h, es[0]).score == h.score + (if es[0] == CubeDown then 120 else 0);
      ScoreCountsCubes(ApplyEffect(h, es[0]), es[1..]);
    }
  }

  function CountOf(es: seq<HudEffect>, e: HudEffect): nat
    decreases |es|
  {
    if es == [] then 0 else (if es[0] == e then 1 else 0) + CountOf(es[1..], e)
  }

  lemma {:induction false} CountOfAppend(es: seq<HudEffect>, fs: seq<HudEffect>, e: HudEffect)
    ensures CountOf(es + fs, e) == CountOf(es, e) + CountOf(fs, e)
    decreases |es|
  {
    if es == [] {
      assert es + fs == fs;
    } else {
      assert (es + fs)[1..] == es[1..] + fs;
      CountOfAppend(es[1..], fs, e);
    }
  }

  lemma {:induction false} CountOfAbsent(es: seq<HudEffect>, e: HudEffect)
    requires e !in es
    ensures CountOf(es, e) == 0
    decreases |es|
  {
    if es != [] {
      assert es[0] in es;
      assert forall f :: f in es[1..] ==> f in es;
      CountOfAbsent(es[1..], e);
    }
  }
}
