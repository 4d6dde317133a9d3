/** The billboard part of the component's `render` (src/components/DoomLiteCanvas.jsx:420-445):
    every live enemy, projectile, laser-trail point and particle is projected to the screen,
    the billboards are sorted far to near, and each is drawn only when one of its sample
    columns finds it in front of the wall depth stored for that column. */
module Sprites {
  import opened Maths
  import opened Wrappers
  import opened Entities
  import opened Visibility
  import Raycast

  /** What a billboard shows: `kind` and the `extra` fields the drawing reads. */
  datatype Sort =
    | EnemySprite(hp: int)
    | ShotSprite(kind: Kind)
    | TrailSprite(alpha: real)
    | ParticleSprite

  /** A projected billboard: distance z, screen column x, size s. */
  datatype Billboard = Billboard(z: real, x: real, s: real, sort: Sort)

  /** What every collected billboard satisfies: the projection's bounds and, for a trail
      point, an opacity in (0, 1]. */
  predicate Projected(b: Billboard) {
    b.z >= 0.05 && b.s <= 9999.0 &&
    (b.sort.TrailSprite? ==> 0.0 < b.sort.alpha <= 1.0)
  }

  predicate AllProjected(bs: seq<Billboard>) {
    forall k :: 0 <= k < |bs| ==> Projected(bs[k])
  }

  /* ---------------------------------------------------------------------------------- */
  /* Collection                                                                           */

  /** A billboard at (x, y) when it projects, none otherwise. */
  function BillAt(m: Trig, p: Player, w: real, x: real, y: real, sort: Sort): (bs: seq<Billboard>)
    requires p.fov > 0.0
    requires sort.TrailSprite? ==> 0.0 < sort.alpha <= 1.0
    ensures |bs| <= 1 && AllProjected(bs)
    ensures |bs| == 1 <==> ProjectBillboard(m, p, w, x, y).Some?
    ensures |bs| == 1 ==> bs[0].sort == sort && bs[0].z == m.hypot(x - p.x, y - p.y)
  {
    match ProjectBillboard(m, p, w, x, y)
    case None => []
    case Some(q) => [Billboard(q.z, q.x, q.s, sort)]
  }

  /** The enemy billboards: one per live enemy that projects, carrying its hp. */
  function EnemyBills(m: Trig, p: Player, w: real, es: seq<Enemy>): (bs: seq<Billboard>)
    requires p.fov > 0.0
    ensures |bs| <= |es| && AllProjected(bs)
    ensures |bs| == LiveSeen(m, p, w, es)
  {
    if |es| == 0 then []
    else
      var e := es[|es| - 1];
      EnemyBills(m, p, w, es[..|es| - 1]) +
      (if e.alive then BillAt(m, p, w, e.x, e.y, EnemySprite(e.hp)) else [])
  }

  /** A dead enemy never gets a billboard: every enemy billboard carries the hp of a live
      enemy at its distance. */
  lemma {:induction false} EnemyBillsFromLive(m: Trig, p: Player, w: real, es: seq<Enemy>, k: nat)
    requires p.fov > 0.0 && k < |EnemyBills(m, p, w, es)|
    ensures exists e :: e in es && e.alive &&
              EnemyBills(m, p, w, es)[k] == Billboard(m.hypot(e.x - p.x, e.y - p.y),
                                                      EnemyBills(m, p, w, es)[k].x,
                                                      EnemyBills(m, p, w, es)[k].s, EnemySprite(e.hp))
  {
    var init := es[..|es| - 1];
    var e := es[|es| - 1];
    if k < |EnemyBills(m, p, w, init)| {
      EnemyBillsFromLive(m, p, w, init, k);
      var e' :| e' in init && e'.alive &&
        EnemyBills(m, p, w, init)[k] == Billboard(m.hypot(e'.x - p.x, e'.y - p.y),
                                                  EnemyBills(m, p, w, init)[k].x,
                                                  EnemyBills(m, p, w, init)[k].s, EnemySprite(e'.hp));
      assert e' in es;
    } else {
      assert e.alive && EnemyBills(m, p, w, es)[k] == BillAt(m, p, w, e.x, e.y, EnemySprite(e.hp))[0];
    }
  }

  /** The opacity of trail point t of len: (t + 1) / len, so the newest point is opaque. */
  function Opacity(t: nat, len: nat): (a: real)
    requires t < len
    ensures 0.0 < a <= 1.0
    ensures t == len - 1 ==> a == 1.0
  {
    (t + 1) as real / len as real
  }

  /** The first n points of a laser trail; point t gets opacity (t + 1) / len. */
  function TrailBills(m: Trig, p: Player, w: real, trail: seq<Vec>, n: nat): (bs: seq<Billboard>)
    requires p.fov > 0.0 && n <= |trail|
    ensures |bs| <= n && AllProjected(bs)
    ensures |bs| == TrailSeen(m, p, w, trail, n)
  {
    if n == 0 then []
    else
      TrailBills(m, p, w, trail, n - 1) +
      BillAt(m, p, w, trail[n - 1].x, trail[n - 1].y,
             TrailSprite(Opacity(n - 1, |trail|)))
  }

  /** The billboards of one projectile: its own (kind `type || 'bullet'`), then for a laser
      that has a trail, one per trail point. */
  function ShotBills(m: Trig, p: Player, w: real, pr: Projectile): (bs: seq<Billboard>)
    requires p.fov > 0.0
    ensures AllProjected(bs)
    ensures pr.kind == Bullet ==> |bs| <= 1
    ensures |bs| == ShotSeen(m, p, w, pr)
  {
    BillAt(m, p, w, pr.x, pr.y, ShotSprite(pr.kind)) +
    (if pr.kind == Laser && pr.trail.Some?
     then TrailBills(m, p, w, pr.trail.value, |pr.trail.value|) else [])
  }

  function ShotsBills(m: Trig, p: Player, w: real, ps: seq<Projectile>): (bs: seq<Billboard>)
    requires p.fov > 0.0
    ensures AllProjected(bs)
    ensures |bs| == ShotsSeen(m, p, w, ps)
  {
    if |ps| == 0 then []
    else ShotsBills(m, p, w, ps[..|ps| - 1]) + ShotBills(m, p, w, ps[|ps| - 1])
  }

  function ParticleBills(m: Trig, p: Player, w: real, qs: seq<Particle>): (bs: seq<Billboard>)
    requires p.fov > 0.0
    ensures |bs| <= |qs| && AllProjected(bs)
    ensures |bs| == ParticlesSeen(m, p, w, qs)
  {
    if |qs| == 0 then []
    else
      var q := qs[|qs| - 1];
      ParticleBills(m, p, w, qs[..|qs| - 1]) + BillAt(m, p, w, q.x, q.y, ParticleSprite)
  }

  /** `bills` before sorting: enemies, then projectiles with their trails, then particles. */
  function CollectBills(m: Trig, p: Player, w: real, es: seq<Enemy>, ps: seq<Projectile>,
                        qs: seq<Particle>): (bs: seq<Billboard>)
    requires p.fov > 0.0
    ensures AllProjected(bs)
    ensures |bs| == LiveSeen(m, p, w, es) + ShotsSeen(m, p, w, ps) + ParticlesSeen(m, p, w, qs)
    ensures bs[..LiveSeen(m, p, w, es)] == EnemyBills(m, p, w, es)
    ensures bs[LiveSeen(m, p, w, es)..LiveSeen(m, p, w, es) + ShotsSeen(m, p, w, ps)] == ShotsBills(m, p, w, ps)
    ensures bs[LiveSeen(m, p, w, es) + ShotsSeen(m, p, w, ps)..] == ParticleBills(m, p, w, qs)
  {
    var front, shots, parts := EnemyBills(m, p, w, es), ShotsBills(m, p, w, ps), ParticleBills(m, p, w, qs);
    assert (front + shots + parts)[..|front|] == front;
    assert (front + shots + parts)[|front|..|front| + |shots|] == shots;
    assert (front + shots + parts)[|front| + |shots|..] == parts;
    front + shots + parts
  }

  /* ---------------------------------------------------------------------------------- */
  /* What the collection holds                                                            */

  /** Whether a point gets a billboard at all. */
  predicate Projects(m: Trig, p: Player, w: real, x: real, y: real)
    requires p.fov > 0.0
  {
    ProjectBillboard(m, p, w, x, y).Some?
  }

  /** How many of the enemies are alive and project. */
  function LiveSeen(m: Trig, p: Player, w: real, es: seq<Enemy>): nat
    requires p.fov > 0.0
  {
    if |es| == 0 then 0
    else
      var e := es[|es| - 1];
      LiveSeen(m, p, w, es[..|es| - 1]) + (if e.alive && Projects(m, p, w, e.x, e.y) then 1 else 0)
  }

  /** How many of the first n trail points project. */
  function TrailSeen(m: Trig, p: Player, w: real, trail: seq<Vec>, n: nat): nat
    requires p.fov > 0.0 && n <= |trail|
  {
    if n == 0 then 0
    else TrailSeen(m, p, w, trail, n - 1) + (if Projects(m, p, w, trail[n - 1].x, trail[n - 1].y) then 1 else 0)
  }

  /** How many billboards a projectile is owed: its own when it projects, and one per
      projecting trail point of a laser. */
  function ShotSeen(m: Trig, p: Player, w: real, pr: Projectile): nat
    requires p.fov > 0.0
  {
    (if Projects(m, p, w, pr.x, pr.y) then 1 else 0) +
    (if pr.kind == Laser && pr.trail.Some?
     then TrailSeen(m, p, w, pr.trail.value, |pr.trail.value|) else 0)
  }

  function ShotsSeen(m: Trig, p: Player, w: real, ps: seq<Projectile>): nat
    requires p.fov > 0.0
  {
    if |ps| == 0 then 0 else ShotsSeen(m, p, w, ps[..|ps| - 1]) + ShotSeen(m, p, w, ps[|ps| - 1])
  }

  /** How many of the particles project. */
  function ParticlesSeen(m: Trig, p: Player, w: real, qs: seq<Particle>): nat
    requires p.fov > 0.0
  {
    if |qs| == 0 then 0
    else
      var q := qs[|qs| - 1];
      ParticlesSeen(m, p, w, qs[..|qs| - 1]) + (if Projects(m, p, w, q.x, q.y) then 1 else 0)
  }

  /** A live enemy that projects has its billboard, in source order: after those of the
      live projecting enemies before it. */
  lemma {:induction false} EnemyBillAt(m: Trig, p: Player, w: real, es: seq<Enemy>, i: nat)
    requires p.fov > 0.0 && i < |es| && es[i].alive && Projects(m, p, w, es[i].x, es[i].y)
    ensures LiveSeen(m, p, w, es[..i]) < |EnemyBills(m, p, w, es)|
    ensures EnemyBills(m, p, w, es)[LiveSeen(m, p, w, es[..i])] ==
            BillAt(m, p, w, es[i].x, es[i].y, EnemySprite(es[i].hp))[0]
  {
    var init := es[..|es| - 1];
    if i == |es| - 1 {
      assert es[..i] == init;
    } else {
      assert init[..i] == es[..i] && init[i] == es[i];
      EnemyBillAt(m, p, w, init, i);
    }
  }

  /** A trail point that projects has its billboard, with opacity (t + 1) / len, after those
      of the projecting points before it. */
  lemma {:induction false} TrailBillAt(m: Trig, p: Player, w: real, trail: seq<Vec>, n: nat, t: nat)
    requires p.fov > 0.0 && t < n <= |trail| && Projects(m, p, w, trail[t].x, trail[t].y)
    ensures TrailSeen(m, p, w, trail, t) < |TrailBills(m, p, w, trail, n)|
    ensures TrailBills(m, p, w, trail, n)[TrailSeen(m, p, w, trail, t)] ==
            BillAt(m, p, w, trail[t].x, trail[t].y, TrailSprite(Opacity(t, |trail|)))[0]
  {
    if t < n - 1 {
      TrailBillAt(m, p, w, trail, n - 1, t);
    }
  }

  /** A projectile that projects has its own billboard first, before its trail's. */
  lemma ShotOwnBill(m: Trig, p: Player, w: real, pr: Projectile)
    requires p.fov > 0.0 && Projects(m, p, w, pr.x, pr.y)
    ensures ShotBills(m, p, w, pr)[0] == BillAt(m, p, w, pr.x, pr.y, ShotSprite(pr.kind))[0]
  {
  }

  /** One more projectile adds its own billboards at the end. */
  lemma ShotsBillsStep(m: Trig, p: Player, w: real, ps: seq<Projectile>, i: nat)
    requires p.fov > 0.0 && i < |ps|
    ensures ShotsBills(m, p, w, ps[..i + 1]) == ShotsBills(m, p, w, ps[..i]) + ShotBills(m, p, w, ps[i])
    ensures ShotsSeen(m, p, w, ps[..i + 1]) == ShotsSeen(m, p, w, ps[..i]) + ShotSeen(m, p, w, ps[i])
  {
    assert ps[..i + 1][..i] == ps[..i] && ps[..i + 1][i] == ps[i];
  }

  /** The billboards of the first n projectiles begin the list of all of them. */
  lemma {:induction false} ShotsBillsPrefix(m: Trig, p: Player, w: real, ps: seq<Projectile>, n: nat)
    requires p.fov > 0.0 && n <= |ps|
    ensures ShotsSeen(m, p, w, ps[..n]) <= |ShotsBills(m, p, w, ps)|
    ensures ShotsBills(m, p, w, ps)[..ShotsSeen(m, p, w, ps[..n])] == ShotsBills(m, p, w, ps[..n])
    decreases |ps| - n
  {
    if n == |ps| {
      assert ps[..n] == ps;
    } else {
      ShotsBillsPrefix(m, p, w, ps, n + 1);
      ShotsBillsStep(m, p, w, ps, n);
      SliceAfter(ShotsBills(m, p, w, ps), ShotsBills(m, p, w, ps[..n]), ShotBills(m, p, w, ps[n]));
    }
  }

  /** A list that begins with a + b begins with a, and holds b right after it. */
  lemma SliceAfter<T>(whole: seq<T>, a: seq<T>, b: seq<T>)
    requires |a + b| <= |whole| && whole[..|a + b|] == a + b
    ensures whole[..|a|] == a
    ensures whole[|a|..|a| + |b|] == b
  {
    assert whole[..|a|] == whole[..|a + b|][..|a|];
    assert whole[|a|..|a| + |b|] == whole[..|a + b|][|a|..];
  }

  /** Projectile i's billboards stand together, in source order: right after those of the
      projectiles before it. */
  lemma ShotBillsAt(m: Trig, p: Player, w: real, ps: seq<Projectile>, i: nat)
    requires p.fov > 0.0 && i < |ps|
    ensures ShotsSeen(m, p, w, ps[..i]) + ShotSeen(m, p, w, ps[i]) <= |ShotsBills(m, p, w, ps)|
    ensures ShotsBills(m, p, w, ps)[ShotsSeen(m, p, w, ps[..i])..ShotsSeen(m, p, w, ps[..i]) + ShotSeen(m, p, w, ps[i])] ==
            ShotBills(m, p, w, ps[i])
  {
    ShotsBillsPrefix(m, p, w, ps, i + 1);
    ShotsBillsStep(m, p, w, ps, i);
    SliceAfter(ShotsBills(m, p, w, ps), ShotsBills(m, p, w, ps[..i]), ShotBills(m, p, w, ps[i]));
  }

  /** A particle that projects has its billboard, after those of the projecting particles
      before it. */
  lemma {:induction false} ParticleBillAt(m: Trig, p: Player, w: real, qs: seq<Particle>, i: nat)
    requires p.fov > 0.0 && i < |qs| && Projects(m, p, w, qs[i].x, qs[i].y)
    ensures ParticlesSeen(m, p, w, qs[..i]) < |ParticleBills(m, p, w, qs)|
    ensures ParticleBills(m, p, w, qs)[ParticlesSeen(m, p, w, qs[..i])] ==
            BillAt(m, p, w, qs[i].x, qs[i].y, ParticleSprite)[0]
  {
    var init := qs[..|qs| - 1];
    if i == |qs| - 1 {
      assert qs[..i] == init;
    } else {
      assert init[..i] == qs[..i] && init[i] == qs[i];
      ParticleBillAt(m, p, w, init, i);
    }
  }

  /* ---------------------------------------------------------------------------------- */
  /* Depth sort                                                                           */

  /** Far to near: `bills.sort((a, b) => b.z - a.z)`. */
  predicate FarToNear(s: seq<Billboard>) {
    forall i, j :: 0 <= i < j < |s| ==> s[i].z >= s[j].z
  }

  /** The insertion loop's picture: positions 0..hi are in order apart from position j,
      whose billboard is farther than every one it has passed. */
  predicate Inserting(s: seq<Billboard>, j: nat, hi: nat)
    requires j <= hi < |s|
  {
    (forall k, l :: 0 <= k < l <= hi && k != j && l != j ==> s[k].z >= s[l].z) &&
    (forall l :: j < l <= hi ==> s[j].z > s[l].z)
  }

  /** Starting to insert position i into the ordered prefix before it. */
  lemma InsertStart(s: seq<Billboard>, i: nat)
    requires i < |s| && FarToNear(s[..i])
    ensures Inserting(s, i, i)
  {
    forall k, l | 0 <= k < l <= i && k != i && l != i
      ensures s[k].z >= s[l].z
    {
      assert s[..i][k] == s[k] && s[..i][l] == s[l];
    }
  }

  /** One swap moves the inserted billboard a place to the left. */
  lemma InsertSwap(s: seq<Billboard>, j: nat, hi: nat)
    requires 0 < j <= hi < |s| && Inserting(s, j, hi) && s[j - 1].z < s[j].z
    ensures Inserting(s[j - 1 := s[j]][j := s[j - 1]], j - 1, hi)
    ensures multiset(s[j - 1 := s[j]][j := s[j - 1]]) == multiset(s)
  {
    var t := s[j - 1 := s[j]][j := s[j - 1]];
    forall k, l | 0 <= k < l <= hi && k != j - 1 && l != j - 1
      ensures t[k].z >= t[l].z
    {
      if l == j {
        assert t[l] == s[j - 1];
      } else if k == j {
        assert t[k] == s[j - 1];
        assert s[j - 1].z >= s[l].z;
      }
    }
    assert t == s[..j - 1] + [s[j], s[j - 1]] + s[j + 1..];
    assert s == s[..j - 1] + [s[j - 1], s[j]] + s[j + 1..];
  }

  /** When the inserted billboard stops, positions 0..hi are in order. */
  lemma InsertDone(s: seq<Billboard>, j: nat, hi: nat)
    requires j <= hi < |s| && Inserting(s, j, hi) && (j == 0 || s[j - 1].z >= s[j].z)
    ensures FarToNear(s[..hi + 1])
  {
    forall k, l | 0 <= k < l < hi + 1
      ensures s[k].z >= s[l].z
    {
      if k == j {
      } else if l == j {
        assert s[k].z >= s[j - 1].z || k == j - 1;
      }
    }
  }

  /** The sort, in place, by insertion: each billboard moves left past the nearer ones. */
  method SortFarToNear(a: array<Billboard>)
    modifies a
    ensures FarToNear(a[..])
    ensures multiset(a[..]) == multiset(old(a[..]))
  {
    if a.Length == 0 {
      return;
    }
    var i := 1;
    while i < a.Length
      invariant 1 <= i <= a.Length
      invariant FarToNear(a[..i])
      invariant multiset(a[..]) == multiset(old(a[..]))
    {
      InsertStart(a[..], i);
      var j := i;
      while j > 0 && a[j - 1].z < a[j].z
        invariant 0 <= j <= i
        invariant Inserting(a[..], j, i)
        invariant multiset(a[..]) == multiset(old(a[..]))
      {
        InsertSwap(a[..], j, i);
        a[j - 1], a[j] := a[j], a[j - 1];
        j := j - 1;
      }
      InsertDone(a[..], j, i);
      i := i + 1;
    }
    assert a[..a.Length] == a[..];
  }

  /* ---------------------------------------------------------------------------------- */
  /* Occlusion against the depth buffer                                                   */

  /** `Math.max(2, b.s * 0.45)`. */
  function SpriteWidth(b: Billboard): (sw: real)
    ensures sw >= 2.0
  {
    Max(2.0, b.s * 0.45)
  }

  /** `Math.max(5, Math.floor(spriteW / colW2))` with colW2 = W / cols. */
  function Samples(b: Billboard, w: real, cols: nat): (n: int)
    requires w > 0.0 && cols > 0
    ensures n >= 5
  {
    var f := (SpriteWidth(b) / (w / cols as real)).Floor;
    if f >= 5 then f else 5
  }

  /** Sample s of `samples` spread evenly from the sprite's left edge to its right edge. */
  function SampleX(b: Billboard, s: nat, samples: int): (px: real)
    requires samples >= 5 && s < samples
    ensures b.x - SpriteWidth(b) / 2.0 <= px <= b.x + SpriteWidth(b) / 2.0
  {
    var left := b.x - SpriteWidth(b) / 2.0;
    var right := b.x + SpriteWidth(b) / 2.0;
    var f := s as real / (samples - 1) as real;
    assert 0.0 <= f <= 1.0;
    ScaleDown(right - left, f);
    left + f * (right - left)
  }

  /** `clamp(Math.floor(px / colW2), 0, cols - 1)`: always a column of the depth buffer. */
  function SampleColumn(px: real, w: real, cols: nat): (c: nat)
    requires w > 0.0 && cols > 0
    ensures c < cols
    ensures 0 <= (px / (w / cols as real)).Floor < cols ==> c == (px / (w / cols as real)).Floor
  {
    var f := (px / (w / cols as real)).Floor;
    if f < 0 then 0 else if f > cols - 1 then cols - 1 else f
  }

  /** The wall's distance along the ray through column c: the stored perpendicular depth over
      `Math.max(0.0001, Math.cos(camX))`. */
  function WallDistance(m: Trig, fov: real, depths: seq<real>, c: nat): (d: real)
    requires c < |depths|
  {
    depths[c] / Max(0.0001, m.cos(Raycast.CamX(c, |depths|, fov)))
  }

  /** Sample s finds the sprite in front of the wall, with the 0.02 margin. */
  predicate SampleSees(m: Trig, fov: real, w: real, depths: seq<real>, b: Billboard, s: nat)
    requires w > 0.0 && |depths| > 0 && s < Samples(b, w, |depths|)
  {
    var c := SampleColumn(SampleX(b, s, Samples(b, w, |depths|)), w, |depths|);
    b.z < WallDistance(m, fov, depths, c) - 0.02
  }

  /** Whether some sample among the first n sees the sprite. */
  predicate SeenBy(m: Trig, fov: real, w: real, depths: seq<real>, b: Billboard, n: nat)
    requires w > 0.0 && |depths| > 0 && n <= Samples(b, w, |depths|)
  {
    exists s: nat :: s < n && SampleSees(m, fov, w, depths, b, s)
  }

  /** The sampling loop: stop at the first sample that sees the sprite. */
  method SpriteVisible(m: Trig, fov: real, w: real, depths: array<real>, b: Billboard)
    returns (visible: bool)
    requires w > 0.0 && depths.Length > 0
    ensures visible <==> SeenBy(m, fov, w, depths[..], b, Samples(b, w, depths.Length))
  {
    var samples := Samples(b, w, depths.Length);
    visible := false;
    var s := 0;
    while s < samples
      invariant 0 <= s <= samples
      invariant !SeenBy(m, fov, w, depths[..], b, s)
    {
      var px := SampleX(b, s, samples);
      var col := SampleColumn(px, w, depths.Length);
      var cosCam := Max(0.0001, m.cos(Raycast.CamX(col, depths.Length, fov)));
      if b.z < depths[col] / cosCam - 0.02 {
        assert SampleSees(m, fov, w, depths[..], b, s);
        visible := true;
        return;
      }
      assert !SampleSees(m, fov, w, depths[..], b, s);
      s := s + 1;
    }
  }

  /** A sprite in front of every wall, by more than the margin, is drawn: dividing a depth
      by a cosine of at most 1 never brings the wall nearer. */
  lemma FrontSpriteSeen(m: Trig, fov: real, w: real, depths: seq<real>, b: Billboard)
    requires Bounded(m) && w > 0.0 && |depths| > 0
    requires forall c :: 0 <= c < |depths| ==> depths[c] >= 0.0 && b.z < depths[c] - 0.02
    ensures SeenBy(m, fov, w, depths, b, Samples(b, w, |depths|))
  {
    var c := SampleColumn(SampleX(b, 0, Samples(b, w, |depths|)), w, |depths|);
    var k := Max(0.0001, m.cos(Raycast.CamX(c, |depths|, fov)));
    assert 0.0 < k <= 1.0;
    DivideByFraction(depths[c], k);
    assert SampleSees(m, fov, w, depths, b, 0);
  }

  lemma DivideByFraction(d: real, k: real)
    requires d >= 0.0 && 0.0 < k <= 1.0
    ensures d / k >= d
  {
    var q := d / k;
    assert q * k == d;
    assert q >= 0.0;
    assert q * k <= q;
  }

  /* ---------------------------------------------------------------------------------- */
  /* The draw list                                                                        */

  /** The billboards that pass the occlusion test, in their order. */
  function Drawn(m: Trig, fov: real, w: real, depths: seq<real>, bs: seq<Billboard>)
    : (ds: seq<Billboard>)
    requires w > 0.0 && |depths| > 0
    ensures |ds| <= |bs|
    ensures forall d :: d in ds ==> d in bs && SeenBy(m, fov, w, depths, d, Samples(d, w, |depths|))
  {
    if |bs| == 0 then []
    else
      var b := bs[|bs| - 1];
      Drawn(m, fov, w, depths, bs[..|bs| - 1]) +
      (if SeenBy(m, fov, w, depths, b, Samples(b, w, |depths|)) then [b] else [])
  }

  /** Skipping hidden billboards keeps the far-to-near order of the ones drawn. */
  lemma {:induction false} DrawnFarToNear(m: Trig, fov: real, w: real, depths: seq<real>,
                                          bs: seq<Billboard>)
    requires w > 0.0 && |depths| > 0 && FarToNear(bs)
    ensures FarToNear(Drawn(m, fov, w, depths, bs))
  {
    if |bs| > 0 {
      var init := bs[..|bs| - 1];
      var b := bs[|bs| - 1];
      assert FarToNear(init);
      DrawnFarToNear(m, fov, w, depths, init);
      forall d | d in Drawn(m, fov, w, depths, init)
        ensures d.z >= b.z
      {
        var k :| 0 <= k < |init| && init[k] == d;
        assert bs[k] == d;
      }
    }
  }

  /** The drawing loop over the sorted billboards, without the drawing: the sprites it
      draws, in the order it draws them. */
  method DrawList(m: Trig, fov: real, w: real, depths: array<real>, bills: array<Billboard>)
    returns (drawn: seq<Billboard>)
    requires w > 0.0 && depths.Length > 0
    ensures drawn == Drawn(m, fov, w, depths[..], bills[..])
  {
    drawn := [];
    for i := 0 to bills.Length
      invariant drawn == Drawn(m, fov, w, depths[..], bills[..i])
    {
      var b := bills[i];
      var visible := SpriteVisible(m, fov, w, depths, b);
      assert bills[..i + 1][..i] == bills[..i];
      if visible {
        drawn := drawn + [b];
      }
    }
    assert bills[..bills.Length] == bills[..];
  }
}
