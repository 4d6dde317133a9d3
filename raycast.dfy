/** The depth passes of the renderers: the per-column ray march of
    src/components/DoomLiteCanvas.jsx:409-413 and src/game/render.js:288-293, and the
    rotated-block intersection and closest-hit pass of src/game/render.js:5-55 and
    166-187. */
module Raycast {
  import opened Maths
  import opened Wrappers
  import opened Grid
  import opened Entities

  /* ---------------------------------------------------------------------------------- */
  /* Ray march over the tile map                                                          */

  /** The march takes at most MAX_DEPTH / STEP steps. */
  const MarchSteps: nat := 1000

  /** A tile that stops a ray: a wall or the exit. */
  predicate Blocks(t: Tile) {
    t == WallTile || t == ExitTile
  }

  /** A coordinate after n strides of s, accumulated one stride at a time as `x += sx`
      does. */
  function Walk(start: real, s: real, n: nat): real {
    if n == 0 then start else Walk(start, s, n - 1) + s
  }

  /** n strides move a coordinate by n times the stride. */
  lemma {:induction false} WalkIsLinear(start: real, s: real, n: nat)
    ensures Walk(start, s, n) == start + n as real * s
  {
    if n > 0 {
      WalkIsLinear(start, s, n - 1);
      assert (n - 1) as real * s + s == n as real * s;
    }
  }

  /** The point the march tests at step n: n + 1 strides of (sx, sy) from the eye. */
  function MarchPoint(px: real, py: real, sx: real, sy: real, n: nat): Vec {
    Vec(Walk(px, sx, n + 1), Walk(py, sy, n + 1))
  }

  /** A tile lookup: the renderers pass the map's `tileAt`. */
  type Lookup = (real, real) -> Tile

  predicate BlockedAt(look: Lookup, px: real, py: real, sx: real, sy: real, n: nat) {
    var q := MarchPoint(px, py, sx, sy, n);
    Blocks(look(q.x, q.y))
  }

  /** No step before n is blocked. */
  predicate ClearBefore(look: Lookup, px: real, py: real, sx: real, sy: real, n: nat) {
    forall j :: 0 <= j < n ==> !BlockedAt(look, px, py, sx, sy, j)
  }

  /** The march from step n on: the first blocked step at or after n, or `MarchSteps`
      when none of the remaining steps is. */
  ghost function FirstBlockFrom(look: Lookup, px: real, py: real, sx: real, sy: real, n: nat): (k: nat)
    requires n <= MarchSteps
    ensures n <= k <= MarchSteps
    ensures k < MarchSteps ==> BlockedAt(look, px, py, sx, sy, k)
    ensures forall j :: n <= j < k ==> !BlockedAt(look, px, py, sx, sy, j)
    decreases MarchSteps - n
  {
    if n == MarchSteps || BlockedAt(look, px, py, sx, sy, n) then n
    else FirstBlockFrom(look, px, py, sx, sy, n + 1)
  }

  /** The first blocked step of the march, or `MarchSteps` when none of its steps is. */
  ghost function FirstBlock(look: Lookup, px: real, py: real, sx: real, sy: real): (k: nat)
    ensures k <= MarchSteps
    ensures k < MarchSteps ==> BlockedAt(look, px, py, sx, sy, k)
    ensures ClearBefore(look, px, py, sx, sy, k)
  {
    FirstBlockFrom(look, px, py, sx, sy, 0)
  }

  /** The first blocked step is the only step that is blocked with none blocked before it. */
  lemma FirstBlockUnique(look: Lookup, px: real, py: real, sx: real, sy: real, n: nat)
    requires n <= MarchSteps && ClearBefore(look, px, py, sx, sy, n)
    requires n < MarchSteps ==> BlockedAt(look, px, py, sx, sy, n)
    ensures FirstBlock(look, px, py, sx, sy) == n
  {
  }

  /** The tile the march stops at: the first blocked one, or floor when the ray ran out. */
  ghost function MarchHit(look: Lookup, px: real, py: real, sx: real, sy: real): (t: Tile)
    ensures t != FloorTile <==> FirstBlock(look, px, py, sx, sy) < MarchSteps
    ensures t != FloorTile ==> Blocks(t)
  {
    var k := FirstBlock(look, px, py, sx, sy);
    if k < MarchSteps then look(MarchPoint(px, py, sx, sy, k).x, MarchPoint(px, py, sx, sy, k).y)
    else FloorTile
  }

  /** The inner loop `for (dist = 0; dist < MAX_DEPTH; dist += STEP)`: the ray advances a
      stride per step and stops at the first wall or exit tile. The distance reported is the
      one before the stopping stride, and `MAX_DEPTH` when nothing is hit. */
  method MarchRay(look: Lookup, px: real, py: real, sx: real, sy: real) returns (dist: real, hit: Tile)
    ensures dist == FirstBlock(look, px, py, sx, sy) as real * Step
    ensures hit == MarchHit(look, px, py, sx, sy)
  {
    dist, hit := 0.0, FloorTile;
    var x, y := px, py;
    ghost var n: nat := 0;
    while dist < MaxDepth
      invariant n <= MarchSteps && dist == n as real * Step
      invariant x == Walk(px, sx, n) && y == Walk(py, sy, n)
      invariant ClearBefore(look, px, py, sx, sy, n)
      decreases MarchSteps - n
    {
      x, y := x + sx, y + sy;
      var t := look(x, y);
      MarchStep(look, px, py, sx, sy, n, x, y);
      if t == WallTile || t == ExitTile {
        FirstBlockUnique(look, px, py, sx, sy, n);
        hit := t;
        return;
      }
      dist, n := dist + Step, n + 1;
    }
    FirstBlockUnique(look, px, py, sx, sy, n);
  }

  /** One stride of the march: the point reached is the one step n tests. */
  lemma MarchStep(look: Lookup, px: real, py: real, sx: real, sy: real, n: nat, x: real, y: real)
    requires x == Walk(px, sx, n) + sx && y == Walk(py, sy, n) + sy
    ensures MarchPoint(px, py, sx, sy, n) == Vec(x, y)
    ensures BlockedAt(look, px, py, sx, sy, n) <==> Blocks(look(x, y))
  {
  }

  /** `camX = (i / cols - 0.5) * fov`: the angle of column i off the view direction. */
  function CamX(i: nat, cols: nat, fov: real): real
    requires cols > 0
  {
    (i as real / cols as real - 0.5) * fov
  }

  /** The stride of a ray at angle `ray`: `(cos(ray) * STEP, sin(ray) * STEP)`. */
  function Stride(m: Trig, ray: real): Vec {
    Vec(m.cos(ray) * Step, m.sin(ray) * Step)
  }

  /** The march of the ray `camX` off the view direction: the specification of the column
      loops, which cast one ray per column. */
  ghost function RaySteps(m: Trig, look: Lookup, p: Player, camX: real): (k: nat)
    ensures k <= MarchSteps
  {
    var s := Stride(m, p.dir + camX);
    FirstBlock(look, p.x, p.y, s.x, s.y)
  }

  /** The fisheye correction: a distance along the ray at camX, times `cos(camX)`. */
  function Corrected(m: Trig, dist: real, camX: real): real {
    dist * m.cos(camX)
  }

  /** The fisheye-corrected depth of a march: `dist * cos(camX)`. */
  ghost function RayDepth(m: Trig, look: Lookup, p: Player, camX: real): real {
    Corrected(m, RaySteps(m, look, p, camX) as real * Step, camX)
  }

  /** The tile the ray stopped at. */
  ghost function RayHit(m: Trig, look: Lookup, p: Player, camX: real): Tile {
    var s := Stride(m, p.dir + camX);
    MarchHit(look, p.x, p.y, s.x, s.y)
  }

  /** Every column depth lies within `MAX_DEPTH` of the eye. */
  lemma RayDepthBound(m: Trig, look: Lookup, p: Player, camX: real)
    requires Bounded(m)
    ensures Abs(RayDepth(m, look, p, camX)) <= MaxDepth
  {
    var k := RaySteps(m, look, p, camX);
    assert 0.0 <= k as real * Step <= MaxDepth;
    CorrectedBound(m, k as real * Step, camX);
  }

  /** The correction never lengthens a distance. */
  lemma CorrectedBound(m: Trig, dist: real, camX: real)
    requires Bounded(m) && dist >= 0.0
    ensures Abs(Corrected(m, dist, camX)) <= dist
  {
    var c := m.cos(camX);
    assert -1.0 <= c <= 1.0;
    UnitScale(dist, c);
  }

  /** A non-negative number times a factor in [-1, 1] stays within the number. */
  lemma UnitScale(d: real, c: real)
    requires d >= 0.0 && -1.0 <= c <= 1.0
    ensures -d <= d * c <= d
  {
    assert d * (1.0 - c) >= 0.0 && d * (c + 1.0) >= 0.0;
  }

  /** Column i of `cols` holds the depth and tile of its own ray. */
  ghost predicate ColumnCast(m: Trig, look: Lookup, p: Player, cols: nat, i: nat, depth: real, hit: Tile)
    requires cols > 0
  {
    var camX := CamX(i, cols, p.fov);
    depth == RayDepth(m, look, p, camX) && hit == RayHit(m, look, p, camX)
  }

  /** What one march of column i reports is that column's depth and tile. */
  lemma ColumnFromMarch(m: Trig, look: Lookup, p: Player, cols: nat, i: nat, dist: real, hit: Tile)
    requires cols > 0
    requires var s := Stride(m, p.dir + CamX(i, cols, p.fov));
             dist == FirstBlock(look, p.x, p.y, s.x, s.y) as real * Step &&
             hit == MarchHit(look, p.x, p.y, s.x, s.y)
    ensures ColumnCast(m, look, p, cols, i, Corrected(m, dist, CamX(i, cols, p.fov)), hit)
  {
  }

  /** One column of pass 1: the march along the column's ray, then the fisheye
      correction of its distance. */
  method CastColumn(m: Trig, look: Lookup, p: Player, cols: nat, i: nat) returns (depth: real, hit: Tile)
    requires cols > 0
    ensures ColumnCast(m, look, p, cols, i, depth, hit)
  {
    var camX := CamX(i, cols, p.fov);
    var s := Stride(m, p.dir + camX);
    var dist;
    dist, hit := MarchRay(look, p.x, p.y, s.x, s.y);
    ColumnFromMarch(m, look, p, cols, i, dist, hit);
    depth := Corrected(m, dist, camX);
  }

  /** Pass 1 of the indoor renderer (and the wall loop of the component): one march per
      column `i < floor(W / 2)`, filling the depth and hit buffers. */
  method CastColumns(m: Trig, look: Lookup, p: Player, w: nat)
    returns (depths: array<real>, hits: array<Tile>)
    ensures fresh(depths) && fresh(hits)
    ensures depths.Length == w / 2 && hits.Length == w / 2
    ensures forall i :: 0 <= i < depths.Length ==> ColumnCast(m, look, p, w / 2, i, depths[i], hits[i])
  {
    var cols := w / 2;
    depths := new real[cols];
    hits := new Tile[cols];
    for i := 0 to cols
      invariant forall j :: 0 <= j < i ==> ColumnCast(m, look, p, cols, j, depths[j], hits[j])
    {
      var depth, hit := CastColumn(m, look, p, cols, i);
      ghost var before, hitsBefore := depths[..], hits[..];
      depths[i], hits[i] := depth, hit;
      assert forall j :: 0 <= j < i ==> depths[j] == before[j] && hits[j] == hitsBefore[j];
    }
  }

  /* ---------------------------------------------------------------------------------- */
  /* Rotated blocks                                                                       */

  /** An outdoor block: centre, rotation, width and depth. */
  datatype Block = Block(x: real, y: real, rotation: real, width: real, depth: real)

  /** The ray parameters one axis allows: every t (`Free`, a parallel ray inside the slab)
      or the interval between the two slab planes. */
  datatype Slab = Free | Span(lo: real, hi: real)

  /** One axis of the slab test; `None` when the ray runs parallel outside the slab. */
  function SlabOf(o: real, d: real, half: real): (r: Option<Slab>)
    ensures r.None? <==> Abs(d) <= 0.0001 && Abs(o) > half
    ensures r == Some(Free) <==> Abs(d) <= 0.0001 && Abs(o) <= half
  {
    if Abs(d) > 0.0001 then
      var t1, t2 := (-half - o) / d, (half - o) / d;
      Some(Span(Min(t1, t2), Max(t1, t2)))
    else if Abs(o) > half then None
    else Some(Free)
  }

  /** `tmin = max(...)`, `tmax = min(...)` over the axes, with a free axis adding nothing. */
  function Meet(a: Slab, b: Slab): Slab {
    if a.Free? then b
    else if b.Free? then a
    else Span(Max(a.lo, b.lo), Min(a.hi, b.hi))
  }

  /** The final test: a non-empty interval that reaches t >= 0 and starts before
      `MAX_DEPTH`, reported from t = 0 on. With no bounding axis, tmin is -Infinity. */
  function Entry(s: Slab): (r: Option<real>)
    ensures r.Some? ==> 0.0 <= r.value < MaxDepth
    ensures s.Span? ==> (r.Some? <==> s.lo <= s.hi && s.hi >= 0.0 && s.lo < MaxDepth)
    ensures s.Free? ==> r == Some(0.0)
  {
    if s.Free? then Some(0.0)
    else if s.lo <= s.hi && s.hi >= 0.0 && s.lo < MaxDepth then Some(Max(0.0, s.lo))
    else None
  }

  /** A vector turned by -rotation into the block's frame. */
  function ToLocal(m: Trig, b: Block, v: Vec): Vec {
    var c, s := m.cos(-b.rotation), m.sin(-b.rotation);
    Vec(v.x * c - v.y * s, v.x * s + v.y * c)
  }

  /** `rayBlockIntersection(rayOrigin, rayDir, block)`. */
  function RayBlockIntersection(m: Trig, origin: Vec, dir: Vec, b: Block): (r: Option<real>)
    ensures r.Some? ==> 0.0 <= r.value < MaxDepth
    ensures var lo := ToLocal(m, b, Vec(origin.x - b.x, origin.y - b.y));
            var ld := ToLocal(m, b, dir);
            (Abs(ld.x) <= 0.0001 && Abs(lo.x) > b.width / 2.0 ==> r.None?) &&
            (Abs(ld.y) <= 0.0001 && Abs(lo.y) > b.depth / 2.0 ==> r.None?)
  {
    var lo := ToLocal(m, b, Vec(origin.x - b.x, origin.y - b.y));
    var ld := ToLocal(m, b, dir);
    var sx := SlabOf(lo.x, ld.x, b.width / 2.0);
    var sy := SlabOf(lo.y, ld.y, b.depth / 2.0);
    if sx.None? || sy.None? then None
    else Entry(Meet(sx.value, sy.value))
  }

  /** Along one axis, the local coordinate of the point at parameter t lies in the slab:
      within the two planes when the ray crosses them, or the origin itself when the ray
      runs parallel. */
  predicate InSlab(o: real, d: real, half: real, t: real) {
    if Abs(d) > 0.0001 then -half <= o + t * d <= half else Abs(o) <= half
  }

  lemma {:induction false} SlabContains(o: real, d: real, half: real, t: real)
    requires half >= 0.0 && Abs(d) > 0.0001
    requires SlabOf(o, d, half).value.lo <= t <= SlabOf(o, d, half).value.hi
    ensures -half <= o + t * d <= half
  {
    var t1, t2 := (-half - o) / d, (half - o) / d;
    assert SlabOf(o, d, half).value == Span(Min(t1, t2), Max(t1, t2));
    assert t1 * d == -half - o && t2 * d == half - o;
    BetweenScaled(t1, t2, t, d);
  }

  /** Scaling by a non-zero factor keeps a number between the two scaled ends. */
  lemma BetweenScaled(t1: real, t2: real, t: real, d: real)
    requires d != 0.0 && Min(t1, t2) <= t <= Max(t1, t2)
    ensures Min(t1 * d, t2 * d) <= t * d <= Max(t1 * d, t2 * d)
  {
    if t1 <= t2 {
      OrderScaled(t1, t, t2, d);
    } else {
      OrderScaled(t2, t, t1, d);
    }
  }

  /** a <= b <= c, scaled by d, keeps b * d between the other two in one order or the
      other. */
  lemma OrderScaled(a: real, b: real, c: real, d: real)
    requires a <= b <= c && d != 0.0
    ensures d > 0.0 ==> a * d <= b * d <= c * d
    ensures d < 0.0 ==> c * d <= b * d <= a * d
  {
    assert (b - a) * d == b * d - a * d;
    assert (c - b) * d == c * d - b * d;
    if d > 0.0 {
      assert (b - a) * d >= 0.0 && (c - b) * d >= 0.0;
    } else {
      assert (b - a) * d <= 0.0 && (c - b) * d <= 0.0;
    }
  }

  /** Whatever `Entry` reports lies inside the interval it was given. */
  lemma EntryWithin(s: Slab)
    requires Entry(s).Some? && s.Span?
    ensures s.lo <= Entry(s).value <= s.hi
  {
  }

  /** A parameter inside the meet of two slabs is inside each of them. */
  lemma MeetWithin(a: Slab, b: Slab, t: real)
    requires Meet(a, b).Span? ==> Meet(a, b).lo <= t <= Meet(a, b).hi
    ensures a.Span? ==> a.lo <= t <= a.hi
    ensures b.Span? ==> b.lo <= t <= b.hi
  {
  }

  /** One axis of the slab test keeps the point at any parameter it allows inside the slab. */
  lemma AxisInSlab(o: real, d: real, half: real, t: real)
    requires half >= 0.0 && SlabOf(o, d, half).Some?
    requires SlabOf(o, d, half).value.Span? ==>
               SlabOf(o, d, half).value.lo <= t <= SlabOf(o, d, half).value.hi
    ensures InSlab(o, d, half, t)
  {
    if Abs(d) > 0.0001 {
      SlabContains(o, d, half, t);
    }
  }

  /** The reported distance is on the block: at that parameter the ray's local point is
      inside the rectangle along every axis the ray crosses, and the ray lies within the
      slab of any axis it runs parallel to. */
  lemma HitOnBlock(m: Trig, origin: Vec, dir: Vec, b: Block)
    requires b.width >= 0.0 && b.depth >= 0.0
    requires RayBlockIntersection(m, origin, dir, b).Some?
    ensures var t := RayBlockIntersection(m, origin, dir, b).value;
            var lo := ToLocal(m, b, Vec(origin.x - b.x, origin.y - b.y));
            var ld := ToLocal(m, b, dir);
            InSlab(lo.x, ld.x, b.width / 2.0, t) && InSlab(lo.y, ld.y, b.depth / 2.0, t)
  {
    var lo := ToLocal(m, b, Vec(origin.x - b.x, origin.y - b.y));
    var ld := ToLocal(m, b, dir);
    var ox := SlabOf(lo.x, ld.x, b.width / 2.0);
    var oy := SlabOf(lo.y, ld.y, b.depth / 2.0);
    var s := Meet(ox.value, oy.value);
    var t := Entry(s).value;
    assert RayBlockIntersection(m, origin, dir, b).value == t;
    if s.Span? {
      EntryWithin(s);
    }
    MeetWithin(ox.value, oy.value, t);
    AxisInSlab(lo.x, ld.x, b.width / 2.0, t);
    AxisInSlab(lo.y, ld.y, b.depth / 2.0, t);
  }

  /** The closest block hit along a ray, starting from `MAX_DEPTH`: the value
      `closestDist` holds after the inner loop. */
  function Closest(m: Trig, origin: Vec, dir: Vec, blocks: seq<Block>): (c: real)
    ensures 0.0 <= c <= MaxDepth
    decreases |blocks|
  {
    if blocks == [] then MaxDepth
    else
      var n := |blocks| - 1;
      var c := Closest(m, origin, dir, blocks[..n]);
      var d := RayBlockIntersection(m, origin, dir, blocks[n]);
      if d.Some? && d.value < c then d.value else c
  }

  /** `Closest` is the least distance at which the ray meets a block, and it is below
      `MAX_DEPTH` exactly when the ray meets some block. */
  lemma {:induction false} ClosestIsLeast(m: Trig, origin: Vec, dir: Vec, blocks: seq<Block>)
    ensures var c := Closest(m, origin, dir, blocks);
            (forall k :: 0 <= k < |blocks| && RayBlockIntersection(m, origin, dir, blocks[k]).Some? ==>
               c <= RayBlockIntersection(m, origin, dir, blocks[k]).value) &&
            (c < MaxDepth <==>
               exists k :: 0 <= k < |blocks| && RayBlockIntersection(m, origin, dir, blocks[k]).Some?) &&
            (c < MaxDepth ==>
               exists k :: 0 <= k < |blocks| && RayBlockIntersection(m, origin, dir, blocks[k]) == Some(c))
    decreases |blocks|
  {
    if blocks != [] {
      var n := |blocks| - 1;
      ClosestIsLeast(m, origin, dir, blocks[..n]);
      assert forall k :: 0 <= k < n ==> blocks[..n][k] == blocks[k];
    }
  }

  /** The inner loop of outdoor pass 1: the nearest hit over all blocks, and whether any
      block was hit. */
  method ClosestBlock(m: Trig, origin: Vec, dir: Vec, blocks: seq<Block>)
    returns (closest: real, hitBlock: bool)
    ensures closest == Closest(m, origin, dir, blocks)
    ensures hitBlock <==> closest < MaxDepth
  {
    closest, hitBlock := MaxDepth, false;
    for i := 0 to |blocks|
      invariant closest == Closest(m, origin, dir, blocks[..i])
      invariant hitBlock <==> closest < MaxDepth
    {
      assert blocks[..i + 1][..i] == blocks[..i];
      var d := RayBlockIntersection(m, origin, dir, blocks[i]);
      if d.Some? && d.value < closest {
        closest, hitBlock := d.value, true;
      }
    }
    assert blocks[..|blocks|] == blocks;
  }

  /** The unit vector at angle a. */
  function Heading(m: Trig, a: real): Vec {
    Vec(m.cos(a), m.sin(a))
  }

  /** The nearest block along the ray `camX` off the view direction. */
  function RayClosest(m: Trig, p: Player, blocks: seq<Block>, camX: real): real {
    Closest(m, Vec(p.x, p.y), Heading(m, p.dir + camX), blocks)
  }

  /** What outdoor pass 1 stores for the column at camX: the nearest block's distance, that
      distance corrected by `cos(camX)`, and whether a block is shown. */
  predicate OutdoorColumn(m: Trig, p: Player, blocks: seq<Block>, camX: real, depth: real,
                          corrected: real, hit: bool) {
    depth == RayClosest(m, p, blocks, camX) && corrected == Corrected(m, depth, camX) &&
    (hit <==> depth < MaxDepth)
  }

  /** One column of outdoor pass 1: the closest block along the column's ray and its
      corrected depth. */
  method OutdoorColumnAt(m: Trig, p: Player, cols: nat, i: nat, blocks: seq<Block>)
    returns (depth: real, corrected: real, hit: bool)
    requires cols > 0
    ensures OutdoorColumn(m, p, blocks, CamX(i, cols, p.fov), depth, corrected, hit)
  {
    var camX := CamX(i, cols, p.fov);
    var closest, hitBlock := ClosestBlock(m, Vec(p.x, p.y), Heading(m, p.dir + camX), blocks);
    depth, corrected, hit := closest, Corrected(m, closest, camX), hitBlock && closest < MaxDepth;
  }

  /** Outdoor pass 1: per column the nearest block, its corrected depth, and whether the
      column shows a block. */
  method OutdoorColumns(m: Trig, p: Player, w: nat, blocks: seq<Block>)
    returns (depths: array<real>, corrected: array<real>, hits: array<bool>)
    ensures fresh(depths) && fresh(corrected) && fresh(hits)
    ensures depths.Length == w / 2 && corrected.Length == w / 2 && hits.Length == w / 2
    ensures forall i :: 0 <= i < depths.Length ==>
              OutdoorColumn(m, p, blocks, CamX(i, w / 2, p.fov), depths[i], corrected[i], hits[i])
  {
    var cols := w / 2;
    depths, corrected, hits := new real[cols], new real[cols], new bool[cols];
    for i := 0 to cols
      invariant forall j :: 0 <= j < i ==>
                  OutdoorColumn(m, p, blocks, CamX(j, cols, p.fov), depths[j], corrected[j], hits[j])
    {
      var depth, corr, hit := OutdoorColumnAt(m, p, cols, i, blocks);
      ghost var before, correctedBefore, hitsBefore := depths[..], corrected[..], hits[..];
      depths[i], corrected[i], hits[i] := depth, corr, hit;
      assert forall j :: 0 <= j < i ==>
        depths[j] == before[j] && corrected[j] == correctedBefore[j] && hits[j] == hitsBefore[j];
    }
  }
}
