/** The shading arithmetic of the renderers: wall height and brightness of the component
    (src/components/DoomLiteCanvas.jsx:414-418), and the three column passes of
    src/game/render.js, indoors (296-347) and outdoors (190-249): base grey, ambient
    occlusion from neighbouring depths, darker wall edges and the ground contact shadow.
    Only the numbers are modelled; drawing them is not. */
module Shading {
  import opened Maths
  import opened Utils
  import opened Grid
  import opened Wrappers

  /* ---------------------------------------------------------------------------------- */
  /* Per-column terms                                                                     */

  /** `Math.min(H, (H / (corrected + 0.0001)) * k)`: the wall's height on screen. At a zero
      denominator JavaScript divides to Infinity and the minimum is H. */
  function WallHeight(h: nat, corrected: real, k: real): (r: real)
    ensures r <= h as real
    ensures corrected + 0.0001 > 0.0 && k >= 0.0 ==> r >= 0.0
    ensures corrected + 0.0001 > 0.0 && k >= 0.0 ==> r == Min(h as real, h as real / (corrected + 0.0001) * k)
  {
    if corrected + 0.0001 == 0.0 then h as real
    else
      var q := h as real / (corrected + 0.0001) * k;
      assert corrected + 0.0001 > 0.0 && k >= 0.0 ==> q >= 0.0 by {
        if corrected + 0.0001 > 0.0 && k >= 0.0 {
          assert h as real / (corrected + 0.0001) >= 0.0;
        }
      }
      Min(h as real, q)
  }

  /** `clamp(1 - corrected / 10, 0, 1)`: full brightness at the eye, black from 10 on. */
  function Shade(corrected: real): (s: real)
    ensures 0.0 <= s <= 1.0
    ensures corrected <= 0.0 ==> s == 1.0
    ensures corrected >= 10.0 ==> s == 0.0
  {
    Clamp(1.0 - corrected / 10.0, 0.0, 1.0)
  }

  /** Nearer walls are never darker. */
  lemma ShadeNearerBrighter(near: real, far: real)
    requires near <= far
    ensures Shade(far) <= Shade(near)
  {
  }

  /** The component's wall grey: `floor(200 * shade)`, or `floor(220 * shade)` for the exit. */
  function CanvasGrey(hit: Tile, corrected: real): (g: int)
    ensures 0 <= g <= (if hit == ExitTile then 220 else 200)
    ensures hit == ExitTile ==> CanvasGrey(WallTile, corrected) <= g
  {
    var s := Shade(corrected);
    if hit == ExitTile then (220.0 * s).Floor else (200.0 * s).Floor
  }

  /** `Math.max(0, Math.min(255, Math.floor(g * (1 - ao))))`. */
  function Darken(g: int, ao: real): (r: int)
    ensures 0 <= r <= 255
    ensures 0 <= g <= 255 && 0.0 <= ao <= 1.0 ==> r <= g
    ensures 0 <= g <= 255 && ao == 0.0 ==> r == g
  {
    var v := (g as real * (1.0 - ao)).Floor;
    assert 0 <= g && 0.0 <= ao <= 1.0 ==> v <= g by {
      if 0 <= g && 0.0 <= ao <= 1.0 {
        ScaleDown(g as real, 1.0 - ao);
      }
    }
    if v < 0 then 0 else if v > 255 then 255 else v
  }

  /** `Math.floor(g * (1 - edgeAO))`: the grey at the top and bottom of a wall strip. */
  function EdgeGrey(g: int, edgeAO: real): (r: int)
    requires 0 <= g && 0.0 <= edgeAO <= 1.0
    ensures 0 <= r <= g
  {
    ScaleDown(g as real, 1.0 - edgeAO);
    (g as real * (1.0 - edgeAO)).Floor
  }

  /** The depths either side of column i, a missing neighbour standing in with the column's
      own depth: `l = i > 0 ? c[i-1] : c`, `r = i < cols-1 ? c[i+1] : c`. */
  function Contrast(cs: seq<real>, i: nat): (d: real)
    requires i < |cs|
    ensures d >= 0.0
    ensures (i == 0 || cs[i - 1] == cs[i]) && (i == |cs| - 1 || cs[i + 1] == cs[i]) ==> d == 0.0
  {
    var c := cs[i];
    var l := if i > 0 then cs[i - 1] else c;
    var r := if i < |cs| - 1 then cs[i + 1] else c;
    Abs(l - c) + Abs(r - c)
  }

  /** `clamp(contrast * k, 0, cap)`: screen-space occlusion from depth steps. */
  function Occlusion(contrast: real, k: real, cap: real): (ao: real)
    requires cap >= 0.0
    ensures 0.0 <= ao <= cap
  {
    Clamp(contrast * k, 0.0, cap)
  }

  /** `clamp(cap * (1 - clamp(corrected / 12, 0, 1)), 0, cap)`: the edge darkening, strongest
      next to the eye and gone from 12 on. */
  function EdgeOcclusion(corrected: real, cap: real): (e: real)
    requires cap >= 0.0
    ensures 0.0 <= e <= cap
    ensures corrected >= 12.0 ==> e == 0.0
  {
    Clamp(cap * (1.0 - Clamp(corrected / 12.0, 0.0, 1.0)), 0.0, cap)
  }

  /** A wall strip as the second pass computes it: the three greys of its gradient and its
      top and bottom on screen. */
  datatype Strip = Strip(top: int, mid: int, bottom: int, yTop: real, yBot: real)

  /** A strip whose greys are bytes, darker at the edges than in the middle, and no taller
      than the screen. */
  predicate StripOk(h: nat, s: Strip) {
    0 <= s.top == s.bottom <= s.mid <= 255 && s.yBot - s.yTop <= h as real
  }

  /** The indoor grey before occlusion: `floor(255 * shade)`, the exit `floor(200 + 55 * shade)`,
      so the exit never drops below 200 however far away it is. */
  function IndoorBase(hit: Tile, corrected: real): (g: int)
    ensures 0 <= g <= 255
    ensures hit == ExitTile ==> 200 <= g
    ensures hit != ExitTile && corrected >= 10.0 ==> g == 0
  {
    var shade := Shade(corrected);
    if hit == ExitTile then (200.0 + 55.0 * shade).Floor else (255.0 * shade).Floor
  }

  /** Column i of indoor pass 2 (render.js:296-324): occlusion only darkens the base grey,
      and a column level with its neighbours keeps it. */
  function IndoorStrip(h: nat, horizon: real, cs: seq<real>, hit: Tile, i: nat): (s: Strip)
    requires i < |cs|
    ensures StripOk(h, s)
    ensures s.mid <= IndoorBase(hit, cs[i])
    ensures Contrast(cs, i) == 0.0 ==> s.mid == IndoorBase(hit, cs[i])
    ensures s.yBot - s.yTop == WallHeight(h, cs[i], 0.9)
  {
    var c := cs[i];
    var wallH := WallHeight(h, c, 0.9);
    var g := Darken(IndoorBase(hit, c), Occlusion(Contrast(cs, i), 0.125, 0.35));
    var edge := EdgeGrey(g, EdgeOcclusion(c, 0.225));
    var yTop := horizon - wallH / 2.0;
    Strip(edge, g, edge, yTop, yTop + wallH)
  }

  /** `0.45 + 0.55 * clamp(corrected / 15, 0, 1)`: outdoors far blocks fade towards white,
      never below 0.45. */
  function Luminance(corrected: real): (l: real)
    ensures 0.45 <= l <= 1.0
  {
    0.45 + (1.0 - 0.45) * Clamp(corrected / 15.0, 0.0, 1.0)
  }

  /** The outdoor grey before occlusion, `floor(255 * lum)`. */
  function OutdoorBase(corrected: real): (g: int)
    ensures 114 <= g <= 255
  {
    (255.0 * Luminance(corrected)).Floor
  }

  /** Column i of outdoor pass 2 (render.js:190-218); it is drawn only when a block was hit.
      As indoors, occlusion only darkens, and a level column keeps its base grey. */
  function OutdoorStrip(h: nat, horizon: real, cs: seq<real>, i: nat): (s: Strip)
    requires i < |cs|
    ensures StripOk(h, s)
    ensures s.mid <= OutdoorBase(cs[i])
    ensures Contrast(cs, i) == 0.0 ==> s.mid == OutdoorBase(cs[i])
    ensures s.yBot - s.yTop == WallHeight(h, cs[i], 0.7)
  {
    var c := cs[i];
    var wallH := WallHeight(h, c, 0.7);
    var g := Darken(OutdoorBase(c), Occlusion(Contrast(cs, i), 0.10, 0.325));
    var edge := EdgeGrey(g, EdgeOcclusion(c, 0.175));
    var yTop := horizon - wallH / 2.0;
    Strip(edge, g, edge, yTop, yTop + wallH)
  }

  /** The contact shadow under a wall strip: its opacity and its length in pixels. */
  datatype Shadow = Shadow(contact: real, length: int)

  /** `Math.max(6, Math.floor((H - yBot) * 0.18))`. */
  function MaxShadow(h: nat, yBot: real): (n: int)
    ensures n >= 6
  {
    var v := ((h as real - yBot) * 0.18).Floor;
    if v >= 6 then v else 6
  }

  /** Pass 3 for one column (render.js:327-347): strongest next to the eye and at depth
      steps, never longer than the room below the strip allows (or the base length 8). */
  function ContactShadow(h: nat, cs: seq<real>, i: nat, yBot: real): (s: Shadow)
    requires i < |cs|
    ensures 0.0 <= s.contact <= 0.325
    ensures 6 <= s.length <= (if MaxShadow(h, yBot) >= 8 then MaxShadow(h, yBot) else 8)
    ensures cs[i] >= 12.0 && Contrast(cs, i) == 0.0 ==> s == Shadow(0.0, 8)
  {
    var c := cs[i];
    var edgeContrast := Clamp(Contrast(cs, i) * 0.5, 0.0, 1.0);
    var nearFactor := Clamp(1.0 - c / 12.0, 0.0, 1.0);
    var contact := Clamp(0.175 * nearFactor + 0.125 * edgeContrast, 0.0, 0.325);
    var maxShadow := MaxShadow(h, yBot);
    var v := (8.0 + (maxShadow - 8) as real * (nearFactor * 0.8)).Floor;
    ShadowLengthBound(maxShadow, nearFactor * 0.8);
    Shadow(contact, if v >= 6 then v else 6)
  }

  lemma ShadowLengthBound(maxShadow: int, f: real)
    requires 0.0 <= f <= 1.0
    ensures (8.0 + (maxShadow - 8) as real * f).Floor <= (if maxShadow >= 8 then maxShadow else 8)
  {
    var d := (maxShadow - 8) as real;
    if maxShadow >= 8 {
      assert d * f <= d * 1.0;
    } else {
      assert d * f <= 0.0;
    }
  }

  /* ---------------------------------------------------------------------------------- */
  /* The column passes                                                                    */

  /** Indoor pass 2: a strip for every column, hit or not (the indoor pass does not skip
      columns whose ray ran out). */
  method IndoorWallPass(h: nat, horizon: real, corrected: array<real>, hits: array<Tile>)
    returns (strips: array<Strip>)
    requires hits.Length == corrected.Length
    ensures fresh(strips) && strips.Length == corrected.Length
    ensures forall i :: 0 <= i < strips.Length ==>
              strips[i] == IndoorStrip(h, horizon, corrected[..], hits[i], i) && StripOk(h, strips[i])
  {
    strips := new Strip[corrected.Length];
    for i := 0 to corrected.Length
      invariant forall j :: 0 <= j < i ==>
                  strips[j] == IndoorStrip(h, horizon, corrected[..], hits[j], j) && StripOk(h, strips[j])
    {
      strips[i] := IndoorStrip(h, horizon, corrected[..], hits[i], i);
    }
  }

  /** Outdoor pass 2: a strip only for the columns that show a block. */
  method OutdoorWallPass(h: nat, horizon: real, corrected: array<real>, hits: array<bool>)
    returns (strips: array<Option<Strip>>)
    requires hits.Length == corrected.Length
    ensures fresh(strips) && strips.Length == corrected.Length
    ensures forall i :: 0 <= i < strips.Length ==>
              (strips[i].Some? <==> hits[i]) &&
              (hits[i] ==> strips[i].value == OutdoorStrip(h, horizon, corrected[..], i) &&
                           StripOk(h, strips[i].value))
  {
    strips := new Option<Strip>[corrected.Length];
    for i := 0 to corrected.Length
      invariant forall j :: 0 <= j < i ==>
                  (strips[j].Some? <==> hits[j]) &&
                  (hits[j] ==> strips[j].value == OutdoorStrip(h, horizon, corrected[..], j) &&
                               StripOk(h, strips[j].value))
    {
      strips[i] := if hits[i] then Some(OutdoorStrip(h, horizon, corrected[..], i)) else None;
    }
  }

  /** Pass 3: a contact shadow under every column that shows a wall, from the strip
      bottoms of pass 2. */
  method ContactPass(h: nat, corrected: array<real>, shown: array<bool>, yBots: array<real>)
    returns (shadows: array<Option<Shadow>>)
    requires shown.Length == corrected.Length && yBots.Length == corrected.Length
    ensures fresh(shadows) && shadows.Length == corrected.Length
    ensures forall i :: 0 <= i < shadows.Length ==>
              (shadows[i].Some? <==> shown[i]) &&
              (shown[i] ==> shadows[i].value == ContactShadow(h, corrected[..], i, yBots[i]))
  {
    shadows := new Option<Shadow>[corrected.Length];
    for i := 0 to corrected.Length
      invariant forall j :: 0 <= j < i ==>
                  (shadows[j].Some? <==> shown[j]) &&
                  (shown[j] ==> shadows[j].value == ContactShadow(h, corrected[..], j, yBots[j]))
    {
      shadows[i] := if shown[i] then Some(ContactShadow(h, corrected[..], i, yBots[i])) else None;
    }
  }
}
