/** The grid world of src/components/DoomLiteCanvas.jsx:15-48 and 594-598: a fixed 16x16
    tile map and the point queries the simulation and the renderer ask of it. */
module Grid {
  import opened Maths
  import opened Wrappers

  const MapW: int := 16
  const MapH: int := 16
  /** The march step of the ray caster and of the line-of-sight test. */
  const Step: real := 0.02
  const MaxDepth: real := 20.0

  /** A tile code: 0 = floor, 1 = wall, 2 = exit. */
  type Tile = t: int | 0 <= t <= 2

  const FloorTile: Tile := 0
  const WallTile: Tile := 1
  const ExitTile: Tile := 2

  /** `baseMap`, kept as its sixteen rows; the flat array is read through `MapCell`. */
  const BaseMap: seq<seq<Tile>> := [
    [1,1,1,1,1,1,1,1,1,1,1,1,1,1,1,1],
    [1,0,0,0,0,0,0,0,0,0,0,0,0,0,0,1],
    [1,0,0,0,0,1,1,0,0,0,0,0,0,0,0,1],
    [1,0,0,0,0,1,0,0,0,1,1,1,0,1,0,1],
    [1,0,0,1,0,1,0,0,0,0,0,1,0,1,0,1],
    [1,0,0,1,0,1,0,0,0,0,0,1,0,1,0,1],
    [1,0,0,1,0,1,0,0,0,1,0,1,0,0,0,1],
    [1,0,0,1,0,1,0,0,0,1,0,0,0,0,0,1],
    [1,0,0,0,0,0,0,0,0,1,0,0,0,0,0,1],
    [1,0,0,0,0,0,0,0,0,1,0,0,0,0,0,1],
    [1,0,0,1,0,1,0,0,0,1,0,1,0,1,0,1],
    [1,0,0,1,0,1,0,0,0,1,0,1,0,1,0,1],
    [1,0,0,1,0,0,0,0,0,1,0,1,0,1,0,1],
    [1,0,0,1,0,0,0,0,0,0,0,1,0,0,0,1],
    [1,0,0,0,0,0,0,0,0,0,0,0,0,0,2,1],
    [1,1,1,1,1,1,1,1,1,1,1,1,1,1,1,1]
  ]

  lemma BaseMapShape()
    ensures |BaseMap| == MapH
    ensures forall y :: 0 <= y < MapH ==> |BaseMap[y]| == MapW
  {
  }

  predicate InMap(gx: int, gy: int) { 0 <= gx < MapW && 0 <= gy < MapH }

  /** `idx(x, y) = y * MAP_W + x`, the row-major position of a cell. */
  function Idx(x: int, y: int): (i: int)
    ensures InMap(x, y) ==> 0 <= i < MapW * MapH && i / MapW == y && i % MapW == x
  {
    y * MapW + x
  }

  /** `baseMap[i]`: the flat array read at position i, `None` past either end (where
      JavaScript reads `undefined`). */
  function MapCell(i: int): (t: Option<Tile>)
    ensures 0 <= i < MapW * MapH <==> t.Some?
  {
    BaseMapShape();
    if 0 <= i < MapW * MapH then Some(BaseMap[i / MapW][i % MapW]) else None
  }

  /** `tileAt`: the tile under a point; any cell off the map reads as wall. */
  function TileAt(px: real, py: real): (t: Tile)
    ensures !InMap(px.Floor, py.Floor) ==> t == WallTile
    ensures InMap(px.Floor, py.Floor) ==> MapCell(Idx(px.Floor, py.Floor)) == Some(t)
  {
    BaseMapShape();
    var gx, gy := px.Floor, py.Floor;
    if gx < 0 || gy < 0 || gx >= MapW || gy >= MapH then WallTile else BaseMap[gy][gx]
  }

  /** The map is closed: every border cell is a wall, so any point that is not a wall lies
      strictly inside the outer ring of cells. */
  lemma {:induction false} PassableIsInside(px: real, py: real)
    requires TileAt(px, py) != WallTile
    ensures 1.0 <= px < 15.0 && 1.0 <= py < 15.0
  {
    var gx, gy := px.Floor, py.Floor;
    assert InMap(gx, gy);
    assert BaseMap[0][gx] == WallTile && BaseMap[15][gx] == WallTile;
    assert BaseMap[gy][0] == WallTile && BaseMap[gy][15] == WallTile;
  }

  /** `isWall`: only tile 1 blocks; the exit tile is walkable. */
  predicate IsWall(px: real, py: real) {
    TileAt(px, py) == WallTile
  }

  lemma ExitTilePassable()
    ensures TileAt(14.5, 14.5) == ExitTile && !IsWall(14.5, 14.5)
    ensures forall px, py :: TileAt(px, py) == ExitTile ==> !IsWall(px, py)
  {
  }

  /** The angle of sample i of the ten points `collide` tests: i tenths of a full turn. */
  function SampleAngle(i: nat): real { i as real / 10.0 * Pi * 2.0 }

  predicate SampleIsWall(m: Trig, px: real, py: real, radius: real, i: nat) {
    IsWall(px + m.cos(SampleAngle(i)) * radius, py + m.sin(SampleAngle(i)) * radius)
  }

  /** The loop of `collide` from sample i on, returning at the first wall sample. */
  function CollideFrom(m: Trig, px: real, py: real, radius: real, i: nat): (hit: bool)
    requires i <= 10
    ensures hit <==> exists j :: i <= j < 10 && SampleIsWall(m, px, py, radius, j)
    decreases 10 - i
  {
    if i == 10 then false
    else SampleIsWall(m, px, py, radius, i) || CollideFrom(m, px, py, radius, i + 1)
  }

  /** `collide(px, py, radius)`: some of ten points spaced evenly on the circle is a wall. */
  function Collide(m: Trig, px: real, py: real, radius: real): (hit: bool)
    ensures hit <==> exists j :: 0 <= j < 10 && SampleIsWall(m, px, py, radius, j)
  {
    CollideFrom(m, px, py, radius, 0)
  }

  lemma CollideZeroRadius(m: Trig, px: real, py: real)
    ensures Collide(m, px, py, 0.0) == IsWall(px, py)
  {
    assert SampleIsWall(m, px, py, 0.0, 0) == IsWall(px, py);
  }

  /** The number of sub-steps `visible` divides a segment into: `ceil(dist / STEP)`. */
  function LosSteps(m: Trig, x0: real, y0: real, x1: real, y1: real): int {
    Ceil(m.hypot(x1 - x0, y1 - y0) / Step)
  }

  /** Whether interior point i of `steps` on the segment is a wall. */
  predicate LosSampleIsWall(x0: real, y0: real, x1: real, y1: real, steps: int, i: int)
    requires 0 < steps
  {
    var t := i as real / steps as real;
    IsWall(x0 + (x1 - x0) * t, y0 + (y1 - y0) * t)
  }

  /** The loop of `visible` from sub-step i on, failing at the first wall sample. */
  function VisibleFrom(x0: real, y0: real, x1: real, y1: real, steps: int, i: int): (v: bool)
    requires 1 <= i
    ensures v <==> forall j :: i <= j < steps ==> !LosSampleIsWall(x0, y0, x1, y1, steps, j)
    decreases steps - i
  {
    if i >= steps then true
    else !LosSampleIsWall(x0, y0, x1, y1, steps, i) && VisibleFrom(x0, y0, x1, y1, steps, i + 1)
  }

  /** `visible(x0, y0, x1, y1)`: no interior sample of the segment is a wall. The end
      points themselves are never tested, and a segment of at most one step has no
      interior samples at all. */
  function Visible(m: Trig, x0: real, y0: real, x1: real, y1: real): (v: bool)
    ensures m.hypot(x1 - x0, y1 - y0) <= Step ==> v
    ensures v <==> forall j :: 1 <= j < LosSteps(m, x0, y0, x1, y1) ==>
                                !LosSampleIsWall(x0, y0, x1, y1, LosSteps(m, x0, y0, x1, y1), j)
  {
    VisibleFrom(x0, y0, x1, y1, LosSteps(m, x0, y0, x1, y1), 1)
  }
}
