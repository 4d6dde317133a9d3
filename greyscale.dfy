/** The greyscale post-process that ends every rendered frame (src/game/render.js:354-365):
    each RGBA pixel of the frame's image data gets the Rec. 709 luma of its colour in all
    three colour channels, and keeps its alpha. */
module Greyscale {
  import opened Maths

  /** One channel of a canvas pixel. */
  type Byte = x: int | 0 <= x < 256

  function Least(a: int, b: int): int { if a <= b then a else b }
  function Most(a: int, b: int): int { if a >= b then a else b }

  /** `Math.round(0.2126 r + 0.7152 g + 0.0722 b)`: a weighted average, so it lies between
      the darkest and the brightest channel and leaves a grey unchanged. */
  function Luma(r: Byte, g: Byte, b: Byte): (y: Byte)
    ensures Least(r, Least(g, b)) <= y <= Most(r, Most(g, b))
    ensures r == g == b ==> y == r
  {
    var lo := Least(r, Least(g, b)) as real;
    var hi := Most(r, Most(g, b)) as real;
    var v := 0.2126 * r as real + 0.7152 * g as real + 0.0722 * b as real;
    assert lo <= v <= hi;
    Round(v)
  }

  /** The image after the pass, one four-channel pixel at a time: the luma in the three
      colour channels and the unchanged alpha. */
  function GreyOf(d: seq<Byte>): (e: seq<Byte>)
    requires |d| % 4 == 0
    ensures |e| == |d|
    decreases |d|
  {
    if |d| == 0 then []
    else
      var y := Luma(d[0], d[1], d[2]);
      [y, y, y, d[3]] + GreyOf(d[4..])
  }

  /** The pass works pixel by pixel: images can be split between pixels. */
  lemma {:induction false} GreyOfAppend(a: seq<Byte>, b: seq<Byte>)
    requires |a| % 4 == 0 && |b| % 4 == 0
    ensures GreyOf(a + b) == GreyOf(a) + GreyOf(b)
    decreases |a|
  {
    if |a| > 0 {
      assert (a + b)[4..] == a[4..] + b;
      GreyOfAppend(a[4..], b);
    } else {
      assert a + b == b;
    }
  }

  /** Every pixel of the result is grey, and opacity is kept. */
  lemma {:induction false} GreyOfIsGrey(d: seq<Byte>, p: nat)
    requires |d| % 4 == 0 && 4 * p + 3 < |d|
    ensures GreyOf(d)[4 * p] == GreyOf(d)[4 * p + 1] == GreyOf(d)[4 * p + 2]
    ensures GreyOf(d)[4 * p + 3] == d[4 * p + 3]
    decreases p
  {
    if p > 0 {
      GreyOfIsGrey(d[4..], p - 1);
    }
  }

  /** Applying the pass to an image it already made changes nothing. */
  lemma {:induction false} GreyOfIdempotent(d: seq<Byte>)
    requires |d| % 4 == 0
    ensures GreyOf(GreyOf(d)) == GreyOf(d)
    decreases |d|
  {
    if |d| > 0 {
      var y := Luma(d[0], d[1], d[2]);
      var rest := GreyOf(d[4..]);
      var e := GreyOf(d);
      assert e == [y, y, y, d[3]] + rest;
      assert e[..4] == [y, y, y, d[3]] && e[4..] == rest;
      assert Luma(y, y, y) == y;
      GreyOfIdempotent(d[4..]);
      assert GreyOf(e) == [y, y, y, d[3]] + GreyOf(rest);
    }
  }

  /** The loop over the image data, four channels at a time. */
  method ToGreyscale(d: array<Byte>)
    requires d.Length % 4 == 0
    modifies d
    ensures d[..] == GreyOf(old(d[..]))
  {
    ghost var orig := d[..];
    var i := 0;
    while i < d.Length
      invariant 0 <= i <= d.Length && i % 4 == 0
      invariant d[..] == GreyOf(orig[..i]) + orig[i..]
    {
      ghost var before := d[..];
      PixelFits(i, d.Length);
      var y := Luma(d[i], d[i + 1], d[i + 2]);
      d[i] := y;
      d[i + 1] := y;
      d[i + 2] := y;
      WriteStep(orig, before, y, i);
      i := i + 4;
    }
    assert orig[..i] == orig;
  }

  /** A pixel that starts inside the image ends inside it. */
  lemma PixelFits(i: nat, n: nat)
    requires i % 4 == 0 && n % 4 == 0 && i < n
    ensures i + 4 <= n
  {
  }

  /** One loop step: writing the luma of pixel i / 4 over its colour channels extends the
      greyed prefix by that pixel. */
  lemma WriteStep(orig: seq<Byte>, before: seq<Byte>, y: Byte, i: nat)
    requires i % 4 == 0 && i + 4 <= |orig|
    requires before == GreyOf(orig[..i]) + orig[i..]
    requires y == Luma(before[i], before[i + 1], before[i + 2])
    ensures before[i := y][i + 1 := y][i + 2 := y] == GreyOf(orig[..i + 4]) + orig[i + 4..]
  {
    var g := GreyOf(orig[..i]);
    var px := orig[i..i + 4];
    assert forall k :: i <= k < |before| ==> before[k] == orig[k];
    assert orig[..i + 4] == orig[..i] + px;
    GreyOfAppend(orig[..i], px);
    assert px[4..] == [];
    assert GreyOf(px) == [y, y, y, px[3]];
    var after := before[i := y][i + 1 := y][i + 2 := y];
    var want := g + [y, y, y, px[3]] + orig[i + 4..];
    forall k | 0 <= k < |after|
      ensures after[k] == want[k]
    {
      if k < i {
        assert after[k] == before[k] == g[k] == want[k];
      } else if k < i + 4 {
        assert want[k] == [y, y, y, px[3]][k - i];
      } else {
        assert after[k] == before[k] == orig[k] == want[k];
      }
    }
  }
}
