/**
 * What `rasterizeFace`, `drawPixelRow` and `drawPixel` of Renderer.java do
 * to the depth and colour buffers, stated on values. A face is drawn row by
 * row between bounds worked out from its corners sorted by `y`; a pixel is
 * written when its buffered depth is 0 (never drawn) or greater than the
 * face's interpolated depth there.
 */
module Raster {
  import opened JavaMath
  import opened Vec3
  import opened Grids
  import opened Textures
  import opened Triangles
  import opened Wrappers
  import opened Projection

  // ---------------------------------------------------------------------
  // The row plan of `rasterizeFace`
  // ---------------------------------------------------------------------

  /**
   * What `rasterizeFace` works out before drawing: the sorted corners, the
   * clamped rows of the top, the break (middle corner) and the bottom, the
   * four bound slopes and whether the middle corner lies right of the long
   * edge.
   */
  datatype Plan = Plan(top: Vector3, mid: Vector3, bot: Vector3,
                       yTop: int, yBreak: int, yBottom: int,
                       leftTop: real, rightTop: real, leftBot: real, rightBot: real,
                       midRight: bool)

  /** `Math.min`/`Math.max` clamping of a row into `[0, height - 1]`, as for `yBreak`. */
  function ClampRow(y: int, height: int): int {
    if y >= height then height - 1 else if y < 0 then 0 else y
  }

  /**
   * The middle corner lies right of the long edge from `top` to `bot`,
   * whose slope (change in `x` as `y` decreases) is `topBot`.
   */
  predicate MidIsRight(top: Vector3, mid: Vector3, topBot: real) {
    mid.x > top.x + (top.y - mid.y) * topBot
  }

  /**
   * The plan for the screen triangle `a, b, c`, or `None` where
   * `rasterizeFace` returns early: its top row is above the screen
   * (`(int) top.y < 0`) or its bottom row is below it (`(int) bot.y >= height`).
   */
  function MakePlan(a: Vector3, b: Vector3, c: Vector3, height: int): (p: Option<Plan>)
    ensures p.None? <==> IntCast(SortByY(a, b, c).0.y) < 0 || IntCast(SortByY(a, b, c).2.y) >= height
    ensures p.Some? && height > 0 ==> p.value.yTop < height && 0 <= p.value.yBreak < height && 0 <= p.value.yBottom
  {
    var sorted := SortByY(a, b, c);
    var top, mid, bot := sorted.0, sorted.1, sorted.2;
    var yt, yb := IntCast(top.y), IntCast(bot.y);
    if yt < 0 || yb >= height then None
    else
      var topMid := SafeDiv(mid.x - top.x, top.y - mid.y);
      var topBot := SafeDiv(bot.x - top.x, top.y - bot.y);
      var midBot := SafeDiv(bot.x - mid.x, mid.y - bot.y);
      var midRight := MidIsRight(top, mid, topBot);
      Some(Plan(top, mid, bot,
                if yt >= height then height - 1 else yt,
                ClampRow(IntCast(mid.y), height),
                if yb < 0 then 0 else yb,
                if midRight then topBot else topMid,
                if midRight then topMid else topBot,
                if midRight then topBot else midBot,
                if midRight then midBot else topBot,
                midRight))
  }

  /** The separate middle row is drawn only strictly between the other two breaks and on screen. */
  predicate MiddleDrawn(p: Plan, height: int) {
    p.yBreak != p.yTop && p.yBreak != p.yBottom && 0.0 < p.mid.y < height as real
  }

  /** `(int) Math.floor(from.x + slope * (from.y - y))`, a left bound. */
  function LeftAt(from: Vector3, slope: real, y: int): int {
    IntCast(Floor(from.x + slope * (from.y - y as real)))
  }

  /** `(int) Math.ceil(from.x + slope * (from.y - y))`, a right bound. */
  function RightAt(from: Vector3, slope: real, y: int): int {
    IntCast(Ceil(from.x + slope * (from.y - y as real)))
  }

  /**
   * The bounds `drawPixelRow` is given for row `y`, or `None` if no call
   * draws that row: the top loop covers `(yBreak, yTop]` from the top
   * corner, the middle row is `(int) mid.y` (which is `yBreak` whenever it
   * is drawn, `MiddleRowIsBreak`), the bottom loop covers `[yBottom,
   * yBreak)` from the bottom corner.
   */
  function RowSpan(p: Plan, y: int, height: int): Option<(int, int)> {
    if p.yBreak < y <= p.yTop then
      Some((LeftAt(p.top, p.leftTop, y), RightAt(p.top, p.rightTop, y)))
    else if y == p.yBreak && MiddleDrawn(p, height) then
      var row := IntCast(p.mid.y);
      if p.midRight then Some((LeftAt(p.top, p.leftTop, row), IntCast(p.mid.x)))
      else Some((IntCast(p.mid.x), RightAt(p.top, p.rightTop, row)))
    else if p.yBottom <= y < p.yBreak then
      Some((LeftAt(p.bot, p.leftBot, y), RightAt(p.bot, p.rightBot, y)))
    else None
  }

  /**
   * Pixel `(x, y)` is visited: its row is drawn and `x` lies within the
   * row's bounds and on screen (`drawPixelRow` returns when the bounds miss
   * the screen and clamps them otherwise).
   */
  predicate Covers(p: Option<Plan>, y: int, x: int, width: int, height: int) {
    p.Some? && RowSpan(p.value, y, height).Some? &&
    RowSpan(p.value, y, height).value.0 <= x <= RowSpan(p.value, y, height).value.1 &&
    0 <= x < width
  }

  /** The middle row `(int) mid.y` is the break row whenever it is drawn. */
  lemma MiddleRowIsBreak(a: Vector3, b: Vector3, c: Vector3, height: int)
    requires height > 0 && MakePlan(a, b, c, height).Some?
    requires MiddleDrawn(MakePlan(a, b, c, height).value, height)
    ensures IntCast(MakePlan(a, b, c, height).value.mid.y) == MakePlan(a, b, c, height).value.yBreak
  {
    var p := MakePlan(a, b, c, height).value;
    var m := p.mid.y;
    assert 0.0 <= m && m < IntMax as real;
    assert IntCast(m) as real <= m < height as real;
  }

  /** Every drawn row lies on screen, between the clamped bottom and top rows. */
  lemma DrawnRowsOnScreen(a: Vector3, b: Vector3, c: Vector3, height: int, y: int)
    requires height > 0 && MakePlan(a, b, c, height).Some?
    requires RowSpan(MakePlan(a, b, c, height).value, y, height).Some?
    ensures 0 <= y < height
  {
  }

  /**
   * The slopes `rasterizeFace` may compute from a zero denominator are never
   * used on a drawn row: when the top and middle corners share their `y`
   * there is no top band and no middle row, when the middle and bottom ones
   * do there is no bottom band, and when top and bottom do nothing is drawn.
   */
  lemma DegenerateSlopesUnused(a: Vector3, b: Vector3, c: Vector3, height: int, y: int)
    requires height > 0 && MakePlan(a, b, c, height).Some?
    ensures var p := MakePlan(a, b, c, height).value;
      (p.top.y == p.mid.y ==> !(p.yBreak < y <= p.yTop) && !MiddleDrawn(p, height)) &&
      (p.mid.y == p.bot.y ==> !(p.yBottom <= y < p.yBreak)) &&
      (p.top.y == p.bot.y ==> RowSpan(p, y, height).None?)
  {
    var p := MakePlan(a, b, c, height).value;
    IntCastMonotone(p.mid.y, p.top.y);
    IntCastMonotone(p.bot.y, p.mid.y);
  }

  // ---------------------------------------------------------------------
  // One pixel (`drawPixel`)
  // ---------------------------------------------------------------------

  /** The depth test: the cell has never been drawn (0) or lies behind the new depth. */
  predicate ZTest(old_z: real, z: real) {
    old_z == 0.0 || old_z > z
  }

  /**
   * What `drawPixel` needs of a face: with a texture, a valid image and
   * three texture-coordinate indices that exist (Java throws otherwise).
   */
  predicate Paintable(tex: Option<Texture>, texCoords: seq<Vector3>, f: Face) {
    tex.Some? ==>
      tex.value.Valid() && |f.texCoords| >= 3 &&
      forall k :: 0 <= k < 3 ==> 0 <= f.texCoords[k] < |texCoords|
  }

  /**
   * The colour `drawPixel` stores: black (0) without a texture, otherwise
   * the texel at the barycentric blend of the three texture coordinates,
   * each clamped into `[0, 1]`.
   */
  function PixelColor(tex: Option<Texture>, texCoords: seq<Vector3>, f: Face, w: seq<real>): (c: int)
    requires Paintable(tex, texCoords, f) && |w| == 3
    ensures 0 <= c < 0x100_0000
    ensures tex.None? ==> c == 0
  {
    if tex.None? then 0
    else
      var aT, bT, cT := texCoords[f.texCoords[0]], texCoords[f.texCoords[1]], texCoords[f.texCoords[2]];
      var u := Clamp01(w[0] * aT.x + w[1] * bT.x + w[2] * cT.x);
      var v := Clamp01(w[0] * aT.y + w[1] * bT.y + w[2] * cT.y);
      UnitCoordinatesInRange(tex.value, u, v);
      tex.value.GetPixel(u, v)
  }

  // ---------------------------------------------------------------------
  // The buffers as values
  // ---------------------------------------------------------------------

  /** The depth buffer and the colour buffer, row `y` then column `x`. */
  datatype Canvas = Canvas(z: seq<seq<real>>, rgb: seq<seq<int>>)

  predicate Sized(cv: Canvas, width: nat, height: nat) {
    |cv.z| == height && |cv.rgb| == height &&
    (forall y :: 0 <= y < height ==> |cv.z[y]| == width) &&
    (forall y :: 0 <= y < height ==> |cv.rgb[y]| == width)
  }

  /** A cleared canvas: every depth 0 (nothing drawn) and every colour black. */
  function Blank(width: nat, height: nat): (cv: Canvas)
    ensures Sized(cv, width, height)
  {
    Canvas(seq(height, _ => seq(width, _ => 0.0)), seq(height, _ => seq(width, _ => 0)))
  }

  /** The corners of face `f` among the screen vertices `verts`. */
  function FaceCorners(verts: seq<Vector3>, f: Face): (cs: seq<Vector3>)
    requires |f.coords| >= 3 && forall k :: 0 <= k < 3 ==> 0 <= f.coords[k] < |verts|
    ensures |cs| == 3
  {
    [verts[f.coords[0]], verts[f.coords[1]], verts[f.coords[2]]]
  }

  /** The depth a cell holds after a face passes over it with depth `d` (`hit` when it is visited). */
  function DepthAfter(old_z: real, hit: bool, d: real): real {
    if hit && ZTest(old_z, d) then d else old_z
  }

  /** The colour a cell holds after a face passes over it. */
  function ColorAfter(old_z: real, old_c: int, hit: bool, d: real, c: int): int {
    if hit && ZTest(old_z, d) then c else old_c
  }

  /** The depth of cell `(y, x)`, 0 outside the canvas. */
  function ZAt(cv: Canvas, y: int, x: int): real {
    if 0 <= y < |cv.z| && 0 <= x < |cv.z[y]| then cv.z[y][x] else 0.0
  }

  /** The colour of cell `(y, x)`, 0 outside the canvas. */
  function RgbAt(cv: Canvas, y: int, x: int): int {
    if 0 <= y < |cv.rgb| && 0 <= x < |cv.rgb[y]| then cv.rgb[y][x] else 0
  }

  /** On a sized canvas the total accessors read the cells themselves. */
  lemma CellsAt(cv: Canvas, width: nat, height: nat)
    requires Sized(cv, width, height)
    ensures forall y, x :: 0 <= y < height && 0 <= x < width ==> ZAt(cv, y, x) == cv.z[y][x] && RgbAt(cv, y, x) == cv.rgb[y][x]
  {
  }

  /**
   * What the face would give each pixel if it were drawn there: the depth
   * interpolated from the corners' `z` and the pixel colour at the
   * barycentric weights of the pixel.
   */
  function Shading(cs: seq<Vector3>, tex: Option<Texture>, texCoords: seq<Vector3>, f: Face,
                   width: nat, height: nat): (sh: Canvas)
    requires |cs| == 3 && Paintable(tex, texCoords, f)
    ensures Sized(sh, width, height)
  {
    var g := BaryGrid(cs[0], cs[1], cs[2]);
    Canvas(
      seq(height, y => seq(width, x => Depth(g, cs, x as real, y as real))),
      seq(height, y => seq(width, x => PixelColor(tex, texCoords, f, Weights(g, x as real, y as real)))))
  }

  /**
   * `sh` holds, at every pixel, the depth and colour the face with corners
   * `cs` gives it when `g` is its barycentric matrix.
   */
  predicate Shades(sh: Canvas, g: Grid, cs: seq<Vector3>, tex: Option<Texture>, texCoords: seq<Vector3>, f: Face,
                   width: nat, height: nat)
    requires Square(g, 3) && |cs| == 3 && Paintable(tex, texCoords, f)
  {
    Sized(sh, width, height) &&
    forall y, x :: 0 <= y < height && 0 <= x < width ==>
      sh.z[y][x] == Depth(g, cs, x as real, y as real) &&
      sh.rgb[y][x] == PixelColor(tex, texCoords, f, Weights(g, x as real, y as real))
  }

  /** `Shading` does, for the face's own barycentric matrix. */
  lemma ShadingShades(cs: seq<Vector3>, tex: Option<Texture>, texCoords: seq<Vector3>, f: Face, width: nat, height: nat)
    requires |cs| == 3 && Paintable(tex, texCoords, f)
    ensures Shades(Shading(cs, tex, texCoords, f, width, height), BaryGrid(cs[0], cs[1], cs[2]), cs, tex, texCoords, f, width, height)
  {
    var g := BaryGrid(cs[0], cs[1], cs[2]);
    var sh := Shading(cs, tex, texCoords, f, width, height);
    forall y, x | 0 <= y < height && 0 <= x < width
      ensures sh.z[y][x] == Depth(g, cs, x as real, y as real)
      ensures sh.rgb[y][x] == PixelColor(tex, texCoords, f, Weights(g, x as real, y as real))
    {
    }
  }

  /** And it is the only canvas that does. */
  lemma ShadingUnique(cs: seq<Vector3>, tex: Option<Texture>, texCoords: seq<Vector3>, f: Face, width: nat, height: nat)
    requires |cs| == 3 && Paintable(tex, texCoords, f)
    ensures forall sh :: Shades(sh, BaryGrid(cs[0], cs[1], cs[2]), cs, tex, texCoords, f, width, height) ==>
      sh == Shading(cs, tex, texCoords, f, width, height)
  {
    forall sh | Shades(sh, BaryGrid(cs[0], cs[1], cs[2]), cs, tex, texCoords, f, width, height)
      ensures sh == Shading(cs, tex, texCoords, f, width, height)
    {
      CanvasEq(sh, Shading(cs, tex, texCoords, f, width, height), width, height);
    }
  }

  /**
   * Every pixel the plan `p` visits goes through the depth test with the
   * depth and colour of `sh`; every other pixel keeps its own.
   */
  function Paint(cv: Canvas, sh: Canvas, p: Option<Plan>, width: nat, height: nat): (r: Canvas)
    ensures Sized(r, width, height)
  {
    Canvas(
      seq(height, y => seq(width, x => DepthAfter(ZAt(cv, y, x), Covers(p, y, x, width, height), ZAt(sh, y, x)))),
      seq(height, y => seq(width, x =>
        ColorAfter(ZAt(cv, y, x), RgbAt(cv, y, x), Covers(p, y, x, width, height), ZAt(sh, y, x), RgbAt(sh, y, x)))))
  }

  /**
   * `rasterizeFace` on the canvas: every visited pixel whose depth test
   * passes takes the interpolated depth and the pixel colour; every other
   * pixel keeps its depth and colour.
   */
  function Rasterize(cv: Canvas, cs: seq<Vector3>, tex: Option<Texture>, texCoords: seq<Vector3>, f: Face,
                     width: nat, height: nat): (r: Canvas)
    requires Sized(cv, width, height) && |cs| == 3 && Paintable(tex, texCoords, f)
    ensures Sized(r, width, height)
  {
    Paint(cv, Shading(cs, tex, texCoords, f, width, height), MakePlan(cs[0], cs[1], cs[2], height), width, height)
  }

  /** Only visited pixels change. */
  lemma RasterizeTouchesOnlyCovered(cv: Canvas, cs: seq<Vector3>, tex: Option<Texture>, texCoords: seq<Vector3>,
                                    f: Face, width: nat, height: nat, y: int, x: int)
    requires Sized(cv, width, height) && |cs| == 3 && Paintable(tex, texCoords, f)
    requires 0 <= y < height && 0 <= x < width
    requires !Covers(MakePlan(cs[0], cs[1], cs[2], height), y, x, width, height)
    ensures Rasterize(cv, cs, tex, texCoords, f, width, height).z[y][x] == cv.z[y][x]
    ensures Rasterize(cv, cs, tex, texCoords, f, width, height).rgb[y][x] == cv.rgb[y][x]
  {
  }

  /**
   * The z-buffer only moves closer: a pixel's depth either stays, or was
   * 0 (empty), or decreases. A changed colour comes with a passed test.
   */
  lemma RasterizeDepthOnlyDecreases(cv: Canvas, cs: seq<Vector3>, tex: Option<Texture>, texCoords: seq<Vector3>,
                                    f: Face, width: nat, height: nat, y: int, x: int)
    requires Sized(cv, width, height) && |cs| == 3 && Paintable(tex, texCoords, f)
    requires 0 <= y < height && 0 <= x < width
    ensures var r := Rasterize(cv, cs, tex, texCoords, f, width, height);
      r.z[y][x] == cv.z[y][x] || cv.z[y][x] == 0.0 || r.z[y][x] < cv.z[y][x]
    ensures var r := Rasterize(cv, cs, tex, texCoords, f, width, height);
      r.rgb[y][x] != cv.rgb[y][x] ==> ZTest(cv.z[y][x], r.z[y][x])
  {
  }

  /** A face cut off above or below the screen leaves the canvas as it was. */
  lemma OffScreenFaceLeavesCanvas(cv: Canvas, cs: seq<Vector3>, tex: Option<Texture>, texCoords: seq<Vector3>,
                                  f: Face, width: nat, height: nat)
    requires Sized(cv, width, height) && |cs| == 3 && Paintable(tex, texCoords, f)
    requires MakePlan(cs[0], cs[1], cs[2], height).None?
    ensures Rasterize(cv, cs, tex, texCoords, f, width, height) == cv
  {
    var r := Rasterize(cv, cs, tex, texCoords, f, width, height);
    forall y | 0 <= y < height
      ensures r.z[y] == cv.z[y] && r.rgb[y] == cv.rgb[y]
    {
    }
  }

  /** One pixel of `Rasterize`, read off the definition. */
  lemma RasterizeAt(cv: Canvas, cs: seq<Vector3>, tex: Option<Texture>, texCoords: seq<Vector3>,
                    f: Face, width: nat, height: nat, y: int, x: int)
    requires Sized(cv, width, height) && |cs| == 3 && Paintable(tex, texCoords, f)
    requires 0 <= y < height && 0 <= x < width
    ensures var g := BaryGrid(cs[0], cs[1], cs[2]);
      Rasterize(cv, cs, tex, texCoords, f, width, height).z[y][x] ==
      DepthAfter(cv.z[y][x], Covers(MakePlan(cs[0], cs[1], cs[2], height), y, x, width, height),
                 Depth(g, cs, x as real, y as real))
  {
  }

  /**
   * A non-degenerate face whose corner `k` sits exactly on a visited pixel
   * whose depth test passes draws that pixel at the corner's own depth.
   */
  lemma CornerDepth(cv: Canvas, cs: seq<Vector3>, tex: Option<Texture>, texCoords: seq<Vector3>,
                    f: Face, width: nat, height: nat, k: nat, x: int, y: int)
    requires Sized(cv, width, height) && |cs| == 3 && Paintable(tex, texCoords, f) && k < 3
    requires TwiceArea(cs[0], cs[1], cs[2]) != 0.0
    requires cs[k].x == x as real && cs[k].y == y as real && 0 <= x < width && 0 <= y < height
    requires Covers(MakePlan(cs[0], cs[1], cs[2], height), y, x, width, height)
    requires ZTest(cv.z[y][x], cs[k].z)
    ensures Rasterize(cv, cs, tex, texCoords, f, width, height).z[y][x] == cs[k].z
  {
    RasterizeAt(cv, cs, tex, texCoords, f, width, height, y, x);
    DepthAtCorner(cs, k, x, y);
  }

  /** `DepthAtCorners` for corner `k` of a sequence of three corners. */
  lemma DepthAtCorner(cs: seq<Vector3>, k: nat, x: int, y: int)
    requires |cs| == 3 && k < 3 && TwiceArea(cs[0], cs[1], cs[2]) != 0.0
    requires cs[k].x == x as real && cs[k].y == y as real
    ensures Depth(BaryGrid(cs[0], cs[1], cs[2]), cs, x as real, y as real) == cs[k].z
  {
    var a, b, c := cs[0], cs[1], cs[2];
    assert cs == [a, b, c];
    DepthAtCorners(a, b, c);
  }
  /** Two canvases of one size that agree on every pixel are the same. */
  lemma CanvasEq(a: Canvas, b: Canvas, width: nat, height: nat)
    requires Sized(a, width, height) && Sized(b, width, height)
    requires forall y, x :: 0 <= y < height && 0 <= x < width ==> a.z[y][x] == b.z[y][x] && a.rgb[y][x] == b.rgb[y][x]
    ensures a == b
  {
    forall y | 0 <= y < height
      ensures a.z[y] == b.z[y] && a.rgb[y] == b.rgb[y]
    {
    }
  }
  // ---------------------------------------------------------------------
  // The rows of `rasterizeFace`, one call of `drawPixelRow` at a time
  // ---------------------------------------------------------------------

  /** Entry `i` of a row, 0 outside it. */
  function RealAt(row: seq<real>, i: int): real {
    if 0 <= i < |row| then row[i] else 0.0
  }

  /** Entry `i` of a row of colours, 0 outside it. */
  function IntAt(row: seq<int>, i: int): int {
    if 0 <= i < |row| then row[i] else 0
  }

  /**
   * `drawPixel` on the canvas: cell `(y, x)` goes through the depth test
   * with depth `d` and colour `c`; every other cell stays.
   */
  function Plot(cv: Canvas, y: int, x: int, d: real, c: int): (out: Canvas)
    ensures |out.z| == |cv.z| && |out.rgb| == |cv.rgb|
  {
    if 0 <= y < |cv.z| && y < |cv.rgb| && 0 <= x < |cv.z[y]| && x < |cv.rgb[y]| then
      Canvas(cv.z[y := cv.z[y][x := DepthAfter(cv.z[y][x], true, d)]],
             cv.rgb[y := cv.rgb[y][x := ColorAfter(cv.z[y][x], cv.rgb[y][x], true, d, c)]])
    else cv
  }

  /** A depth row after the pixels `l..r` go through the depth test with the shading row `shade`. */
  function ZRow(row: seq<real>, shade: seq<real>, l: int, r: int): (out: seq<real>)
    ensures |out| == |row|
  {
    seq(|row|, x => DepthAfter(RealAt(row, x), l <= x <= r, RealAt(shade, x)))
  }

  /** The matching colour row; the test reads the depth row `zs` as it was before. */
  function RgbRow(zs: seq<real>, row: seq<int>, shadeZ: seq<real>, shadeRgb: seq<int>, l: int, r: int): (out: seq<int>)
    ensures |out| == |row|
  {
    seq(|row|, x => ColorAfter(RealAt(zs, x), IntAt(row, x), l <= x <= r, RealAt(shadeZ, x), IntAt(shadeRgb, x)))
  }

  /**
   * One call of `drawPixelRow` with shading `sh`: the pixels `l..r` of row
   * `y` that lie on screen go through the depth test; every other pixel
   * stays.
   */
  function PaintRow(cv: Canvas, sh: Canvas, y: int, l: int, r: int): (out: Canvas)
    ensures |out.z| == |cv.z| && |out.rgb| == |cv.rgb|
  {
    if 0 <= y < |cv.z| && y < |cv.rgb| && y < |sh.z| && y < |sh.rgb| then
      Canvas(cv.z[y := ZRow(cv.z[y], sh.z[y], l, r)],
             cv.rgb[y := RgbRow(cv.z[y], cv.rgb[y], sh.z[y], sh.rgb[y], l, r)])
    else cv
  }

  /** The cells of `PaintRow` on a sized canvas. */
  lemma PaintRowAt(cv: Canvas, sh: Canvas, y: int, l: int, r: int, width: nat, height: nat)
    requires Sized(cv, width, height) && Sized(sh, width, height)
    ensures Sized(PaintRow(cv, sh, y, l, r), width, height)
    ensures forall yy, x :: 0 <= yy < height && 0 <= x < width ==>
      PaintRow(cv, sh, y, l, r).z[yy][x] == DepthAfter(cv.z[yy][x], yy == y && l <= x <= r, sh.z[yy][x]) &&
      PaintRow(cv, sh, y, l, r).rgb[yy][x] ==
        ColorAfter(cv.z[yy][x], cv.rgb[yy][x], yy == y && l <= x <= r, sh.z[yy][x], sh.rgb[yy][x])
  {
  }

  /** A row whose bounds hold no pixel on screen changes nothing. */
  lemma EmptyRow(cv: Canvas, sh: Canvas, y: int, l: int, r: int, width: nat, height: nat)
    requires Sized(cv, width, height) && Sized(sh, width, height)
    requires l >= width || r < 0 || r < l
    ensures PaintRow(cv, sh, y, l, r) == cv
  {
    PaintRowAt(cv, sh, y, l, r, width, height);
    CanvasEq(PaintRow(cv, sh, y, l, r), cv, width, height);
  }

  /** Clamping the bounds to the screen, as `drawPixelRow` does, changes nothing. */
  lemma ClampedRow(cv: Canvas, sh: Canvas, y: int, l: int, r: int, width: nat, height: nat)
    requires Sized(cv, width, height) && Sized(sh, width, height)
    ensures PaintRow(cv, sh, y, if l < 0 then 0 else l, if r >= width then width - 1 else r) == PaintRow(cv, sh, y, l, r)
  {
    var l', r' := if l < 0 then 0 else l, if r >= width then width - 1 else r;
    PaintRowAt(cv, sh, y, l, r, width, height);
    PaintRowAt(cv, sh, y, l', r', width, height);
    CanvasEq(PaintRow(cv, sh, y, l', r'), PaintRow(cv, sh, y, l, r), width, height);
  }

  /**
   * The step of `drawPixelRow`'s loop: plotting pixel `x` with its shading
   * after the pixels `l .. x - 1` extends the row by one pixel.
   */
  lemma RowGrows(cv: Canvas, sh: Canvas, y: int, l: int, x: int, width: nat, height: nat)
    requires Sized(cv, width, height) && Sized(sh, width, height)
    requires 0 <= y < height && 0 <= l <= x < width
    ensures Plot(PaintRow(cv, sh, y, l, x - 1), y, x, sh.z[y][x], sh.rgb[y][x]) == PaintRow(cv, sh, y, l, x)
  {
    var before := PaintRow(cv, sh, y, l, x - 1);
    assert before.z[y][x] == cv.z[y][x];
    assert ZRow(cv.z[y], sh.z[y], l, x - 1)[x := DepthAfter(cv.z[y][x], true, sh.z[y][x])] == ZRow(cv.z[y], sh.z[y], l, x);
    assert RgbRow(cv.z[y], cv.rgb[y], sh.z[y], sh.rgb[y], l, x - 1)[x := ColorAfter(cv.z[y][x], cv.rgb[y][x], true, sh.z[y][x], sh.rgb[y][x])]
        == RgbRow(cv.z[y], cv.rgb[y], sh.z[y], sh.rgb[y], l, x);
  }

  /**
   * The rows `lo..hi` drawn one after the other, row `y` between the floor
   * of the edge with slope `ls` and the ceiling of the edge with slope `rs`
   * through `from`, as the top and bottom loops of `rasterizeFace` do.
   */
  function PaintBand(cv: Canvas, sh: Canvas, lo: int, hi: int, from: Vector3, ls: real, rs: real,
                     width: nat, height: nat): (out: Canvas)
    ensures Sized(out, width, height)
  {
    Canvas(
      seq(height, yy => seq(width, x =>
        DepthAfter(ZAt(cv, yy, x), lo <= yy <= hi && LeftAt(from, ls, yy) <= x <= RightAt(from, rs, yy), ZAt(sh, yy, x)))),
      seq(height, yy => seq(width, x =>
        ColorAfter(ZAt(cv, yy, x), RgbAt(cv, yy, x), lo <= yy <= hi && LeftAt(from, ls, yy) <= x <= RightAt(from, rs, yy),
                   ZAt(sh, yy, x), RgbAt(sh, yy, x)))))
  }

  /** An empty band changes nothing. */
  lemma EmptyBand(cv: Canvas, sh: Canvas, lo: int, hi: int, from: Vector3, ls: real, rs: real, width: nat, height: nat)
    requires Sized(cv, width, height) && Sized(sh, width, height) && hi < lo
    ensures PaintBand(cv, sh, lo, hi, from, ls, rs, width, height) == cv
  {
    var out := PaintBand(cv, sh, lo, hi, from, ls, rs, width, height);
    forall y, x | 0 <= y < height && 0 <= x < width
      ensures out.z[y][x] == cv.z[y][x] && out.rgb[y][x] == cv.rgb[y][x]
    {
      PaintBandCell(cv, sh, lo, hi, from, ls, rs, width, height, y, x);
    }
    CanvasEq(out, cv, width, height);
  }

  /** The top loop's step: drawing row `y` below the band `y + 1 .. hi` extends it down by one row. */
  lemma BandGrowsDown(cv: Canvas, sh: Canvas, y: int, hi: int, from: Vector3, ls: real, rs: real,
                      width: nat, height: nat)
    requires Sized(cv, width, height) && Sized(sh, width, height) && y <= hi
    ensures PaintRow(PaintBand(cv, sh, y + 1, hi, from, ls, rs, width, height), sh,
                     y, LeftAt(from, ls, y), RightAt(from, rs, y))
         == PaintBand(cv, sh, y, hi, from, ls, rs, width, height)
  {
    var before := PaintBand(cv, sh, y + 1, hi, from, ls, rs, width, height);
    CellsAt(cv, width, height);
    CellsAt(sh, width, height);
    PaintRowAt(before, sh, y, LeftAt(from, ls, y), RightAt(from, rs, y), width, height);
    CanvasEq(PaintRow(before, sh, y, LeftAt(from, ls, y), RightAt(from, rs, y)),
             PaintBand(cv, sh, y, hi, from, ls, rs, width, height), width, height);
  }

  /** The bottom loop's step: drawing row `y` above the band `lo .. y - 1` extends it up by one row. */
  lemma BandGrowsUp(cv: Canvas, sh: Canvas, lo: int, y: int, from: Vector3, ls: real, rs: real,
                    width: nat, height: nat)
    requires Sized(cv, width, height) && Sized(sh, width, height) && lo <= y
    ensures PaintRow(PaintBand(cv, sh, lo, y - 1, from, ls, rs, width, height), sh,
                     y, LeftAt(from, ls, y), RightAt(from, rs, y))
         == PaintBand(cv, sh, lo, y, from, ls, rs, width, height)
  {
    var before := PaintBand(cv, sh, lo, y - 1, from, ls, rs, width, height);
    CellsAt(cv, width, height);
    CellsAt(sh, width, height);
    PaintRowAt(before, sh, y, LeftAt(from, ls, y), RightAt(from, rs, y), width, height);
    CanvasEq(PaintRow(before, sh, y, LeftAt(from, ls, y), RightAt(from, rs, y)),
             PaintBand(cv, sh, lo, y, from, ls, rs, width, height), width, height);
  }

  /**
   * The top loop as it runs: row `y` drawn after the rows `y + 1 .. hi`
   * above it, each between the bounds of the edges through `from`.
   */
  function DownSweep(cv: Canvas, sh: Canvas, y: int, hi: int, from: Vector3, ls: real, rs: real): (out: Canvas)
    decreases hi - y
  {
    if y > hi then cv
    else PaintRow(DownSweep(cv, sh, y + 1, hi, from, ls, rs), sh, y, LeftAt(from, ls, y), RightAt(from, rs, y))
  }

  /** The bottom loop as it runs: row `y` drawn after the rows `lo .. y - 1` below it. */
  function UpSweep(cv: Canvas, sh: Canvas, lo: int, y: int, from: Vector3, ls: real, rs: real): (out: Canvas)
    decreases y - lo
  {
    if y < lo then cv
    else PaintRow(UpSweep(cv, sh, lo, y - 1, from, ls, rs), sh, y, LeftAt(from, ls, y), RightAt(from, rs, y))
  }

  /** Drawing the rows one at a time from `hi` down to `lo` paints the band `lo .. hi`. */
  lemma {:induction false} DownSweepIsBand(cv: Canvas, sh: Canvas, lo: int, hi: int, from: Vector3, ls: real, rs: real,
                                           width: nat, height: nat)
    requires Sized(cv, width, height) && Sized(sh, width, height)
    ensures DownSweep(cv, sh, lo, hi, from, ls, rs) == PaintBand(cv, sh, lo, hi, from, ls, rs, width, height)
    decreases hi - lo
  {
    if lo > hi {
      EmptyBand(cv, sh, lo, hi, from, ls, rs, width, height);
    } else {
      DownSweepIsBand(cv, sh, lo + 1, hi, from, ls, rs, width, height);
      BandGrowsDown(cv, sh, lo, hi, from, ls, rs, width, height);
    }
  }

  /** Drawing the rows one at a time from `lo` up to `hi` paints the band `lo .. hi`. */
  lemma {:induction false} UpSweepIsBand(cv: Canvas, sh: Canvas, lo: int, hi: int, from: Vector3, ls: real, rs: real,
                                         width: nat, height: nat)
    requires Sized(cv, width, height) && Sized(sh, width, height)
    ensures UpSweep(cv, sh, lo, hi, from, ls, rs) == PaintBand(cv, sh, lo, hi, from, ls, rs, width, height)
    decreases hi - lo
  {
    if lo > hi {
      EmptyBand(cv, sh, lo, hi, from, ls, rs, width, height);
    } else {
      UpSweepIsBand(cv, sh, lo, hi - 1, from, ls, rs, width, height);
      BandGrowsUp(cv, sh, lo, hi, from, ls, rs, width, height);
    }
  }

  /** The bounds of the separate middle row: up to the middle corner on the side it lies. */
  function MiddleBounds(p: Plan): (int, int) {
    var row := IntCast(p.mid.y);
    if p.midRight then (LeftAt(p.top, p.leftTop, row), IntCast(p.mid.x))
    else (IntCast(p.mid.x), RightAt(p.top, p.rightTop, row))
  }

  /**
   * The three stages of `rasterizeFace` for plan `p` as its loops run:
   * the top band row by row downwards, the middle row if it is drawn, the
   * bottom band row by row upwards.
   */
  function Staged(cv: Canvas, sh: Canvas, p: Plan, height: nat): Canvas {
    var upper := DownSweep(cv, sh, p.yBreak + 1, p.yTop, p.top, p.leftTop, p.rightTop);
    UpSweep(MiddleRow(upper, sh, p, height), sh, p.yBottom, p.yBreak - 1, p.bot, p.leftBot, p.rightBot)
  }

  /** The middle stage: the separate middle row drawn over `upper` when the plan draws it. */
  function MiddleRow(upper: Canvas, sh: Canvas, p: Plan, height: nat): Canvas {
    if MiddleDrawn(p, height)
    then PaintRow(upper, sh, IntCast(p.mid.y), MiddleBounds(p).0, MiddleBounds(p).1)
    else upper
  }

  /** The same three stages, each band in closed form. */
  function Banded(cv: Canvas, sh: Canvas, p: Plan, width: nat, height: nat): Canvas {
    var upper := PaintBand(cv, sh, p.yBreak + 1, p.yTop, p.top, p.leftTop, p.rightTop, width, height);
    PaintBand(MiddleRow(upper, sh, p, height), sh, p.yBottom, p.yBreak - 1, p.bot, p.leftBot, p.rightBot, width, height)
  }

  /** Running the loops row by row is drawing each band at once. */
  lemma StagedIsBanded(cv: Canvas, sh: Canvas, p: Plan, width: nat, height: nat)
    requires Sized(cv, width, height) && Sized(sh, width, height)
    ensures Staged(cv, sh, p, height) == Banded(cv, sh, p, width, height)
  {
    var swept := DownSweep(cv, sh, p.yBreak + 1, p.yTop, p.top, p.leftTop, p.rightTop);
    var upper := PaintBand(cv, sh, p.yBreak + 1, p.yTop, p.top, p.leftTop, p.rightTop, width, height);
    DownSweepIsBand(cv, sh, p.yBreak + 1, p.yTop, p.top, p.leftTop, p.rightTop, width, height);
    assert swept == upper;
    var middle := MiddleRow(upper, sh, p, height);
    PaintRowAt(upper, sh, IntCast(p.mid.y), MiddleBounds(p).0, MiddleBounds(p).1, width, height);
    UpSweepIsBand(middle, sh, p.yBottom, p.yBreak - 1, p.bot, p.leftBot, p.rightBot, width, height);
  }

  /** One cell of a band. */
  lemma PaintBandCell(cv: Canvas, sh: Canvas, lo: int, hi: int, from: Vector3, ls: real, rs: real,
                      width: nat, height: nat, y: int, x: int)
    requires Sized(cv, width, height) && Sized(sh, width, height)
    requires 0 <= y < height && 0 <= x < width
    ensures var hit := lo <= y <= hi && LeftAt(from, ls, y) <= x <= RightAt(from, rs, y);
      PaintBand(cv, sh, lo, hi, from, ls, rs, width, height).z[y][x] == DepthAfter(cv.z[y][x], hit, sh.z[y][x]) &&
      PaintBand(cv, sh, lo, hi, from, ls, rs, width, height).rgb[y][x] ==
        ColorAfter(cv.z[y][x], cv.rgb[y][x], hit, sh.z[y][x], sh.rgb[y][x])
  {
    assert ZAt(cv, y, x) == cv.z[y][x] && RgbAt(cv, y, x) == cv.rgb[y][x];
    assert ZAt(sh, y, x) == sh.z[y][x] && RgbAt(sh, y, x) == sh.rgb[y][x];
  }

  /** One cell of `Paint`. */
  lemma PaintCell(cv: Canvas, sh: Canvas, p: Option<Plan>, width: nat, height: nat, y: int, x: int)
    requires Sized(cv, width, height) && Sized(sh, width, height)
    requires 0 <= y < height && 0 <= x < width
    ensures var hit := Covers(p, y, x, width, height);
      Paint(cv, sh, p, width, height).z[y][x] == DepthAfter(cv.z[y][x], hit, sh.z[y][x]) &&
      Paint(cv, sh, p, width, height).rgb[y][x] == ColorAfter(cv.z[y][x], cv.rgb[y][x], hit, sh.z[y][x], sh.rgb[y][x])
  {
    assert ZAt(cv, y, x) == cv.z[y][x] && RgbAt(cv, y, x) == cv.rgb[y][x];
    assert ZAt(sh, y, x) == sh.z[y][x] && RgbAt(sh, y, x) == sh.rgb[y][x];
  }

  /** The canvas between the two bands of `Banded`: the top band and then the middle row. */
  function AfterMiddle(cv: Canvas, sh: Canvas, p: Plan, width: nat, height: nat): (out: Canvas)
    requires Sized(cv, width, height) && Sized(sh, width, height)
    ensures Sized(out, width, height)
  {
    var upper := PaintBand(cv, sh, p.yBreak + 1, p.yTop, p.top, p.leftTop, p.rightTop, width, height);
    PaintRowAt(upper, sh, IntCast(p.mid.y), MiddleBounds(p).0, MiddleBounds(p).1, width, height);
    MiddleRow(upper, sh, p, height)
  }

  /** Pixel `(x, y)` is drawn by the top band or the middle row exactly when the plan covers it at or above the break row. */
  lemma AfterMiddleCell(cv: Canvas, sh: Canvas, p: Plan, width: nat, height: nat, y: int, x: int)
    requires Sized(cv, width, height) && Sized(sh, width, height)
    requires MiddleDrawn(p, height) ==> IntCast(p.mid.y) == p.yBreak
    requires 0 <= y < height && 0 <= x < width
    ensures var hit := Covers(Some(p), y, x, width, height) && y >= p.yBreak;
      AfterMiddle(cv, sh, p, width, height).z[y][x] == DepthAfter(cv.z[y][x], hit, sh.z[y][x]) &&
      AfterMiddle(cv, sh, p, width, height).rgb[y][x] == ColorAfter(cv.z[y][x], cv.rgb[y][x], hit, sh.z[y][x], sh.rgb[y][x])
  {
    var upper := PaintBand(cv, sh, p.yBreak + 1, p.yTop, p.top, p.leftTop, p.rightTop, width, height);
    PaintBandCell(cv, sh, p.yBreak + 1, p.yTop, p.top, p.leftTop, p.rightTop, width, height, y, x);
    PaintRowAt(upper, sh, IntCast(p.mid.y), MiddleBounds(p).0, MiddleBounds(p).1, width, height);
  }

  /** One cell of the stages in closed form: it is painted exactly when the plan covers it. */
  lemma BandedCell(cv: Canvas, sh: Canvas, p: Plan, width: nat, height: nat, y: int, x: int)
    requires Sized(cv, width, height) && Sized(sh, width, height)
    requires MiddleDrawn(p, height) ==> IntCast(p.mid.y) == p.yBreak
    requires 0 <= y < height && 0 <= x < width
    ensures Banded(cv, sh, p, width, height).z[y][x] == Paint(cv, sh, Some(p), width, height).z[y][x]
    ensures Banded(cv, sh, p, width, height).rgb[y][x] == Paint(cv, sh, Some(p), width, height).rgb[y][x]
  {
    var middle := AfterMiddle(cv, sh, p, width, height);
    assert Banded(cv, sh, p, width, height)
        == PaintBand(middle, sh, p.yBottom, p.yBreak - 1, p.bot, p.leftBot, p.rightBot, width, height);
    AfterMiddleCell(cv, sh, p, width, height, y, x);
    PaintBandCell(middle, sh, p.yBottom, p.yBreak - 1, p.bot, p.leftBot, p.rightBot, width, height, y, x);
    PaintCell(cv, sh, Some(p), width, height, y, x);
  }

  /** The stages in closed form paint exactly what the plan covers. */
  lemma BandedIsPaint(cv: Canvas, sh: Canvas, p: Plan, width: nat, height: nat)
    requires Sized(cv, width, height) && Sized(sh, width, height)
    requires MiddleDrawn(p, height) ==> IntCast(p.mid.y) == p.yBreak
    ensures Banded(cv, sh, p, width, height) == Paint(cv, sh, Some(p), width, height)
  {
    var out := Banded(cv, sh, p, width, height);
    forall y, x | 0 <= y < height && 0 <= x < width
      ensures out.z[y][x] == Paint(cv, sh, Some(p), width, height).z[y][x]
      ensures out.rgb[y][x] == Paint(cv, sh, Some(p), width, height).rgb[y][x]
    {
      BandedCell(cv, sh, p, width, height, y, x);
    }
    CanvasEq(out, Paint(cv, sh, Some(p), width, height), width, height);
  }

  /**
   * Running the three stages paints exactly what the plan covers: the
   * bands and the middle row are disjoint, and together they are the rows
   * `RowSpan` draws, with the same bounds.
   */
  lemma StagedIsPaint(cv: Canvas, sh: Canvas, p: Plan, width: nat, height: nat)
    requires Sized(cv, width, height) && Sized(sh, width, height)
    requires MiddleDrawn(p, height) ==> IntCast(p.mid.y) == p.yBreak
    ensures Staged(cv, sh, p, height) == Paint(cv, sh, Some(p), width, height)
  {
    StagedIsBanded(cv, sh, p, width, height);
    BandedIsPaint(cv, sh, p, width, height);
  }

  /** So running the stages of a face's own plan is `Rasterize`. */
  lemma StagedIsRasterize(cv: Canvas, cs: seq<Vector3>, tex: Option<Texture>, texCoords: seq<Vector3>, f: Face,
                          width: nat, height: nat)
    requires Sized(cv, width, height) && |cs| == 3 && Paintable(tex, texCoords, f) && height > 0
    requires MakePlan(cs[0], cs[1], cs[2], height).Some?
    ensures Staged(cv, Shading(cs, tex, texCoords, f, width, height), MakePlan(cs[0], cs[1], cs[2], height).value, height)
         == Rasterize(cv, cs, tex, texCoords, f, width, height)
  {
    var p := MakePlan(cs[0], cs[1], cs[2], height).value;
    if MiddleDrawn(p, height) {
      MiddleRowIsBreak(cs[0], cs[1], cs[2], height);
    }
    StagedIsPaint(cv, Shading(cs, tex, texCoords, f, width, height), p, width, height);
  }

  // ---------------------------------------------------------------------
  // The depth test and the order of faces
  // ---------------------------------------------------------------------

  /**
   * A pixel as the depth buffer means it: nothing drawn yet, or the depth
   * and colour of the nearest face drawn there so far.
   */
  datatype Cell = Empty | Drawn(depth: real, color: int)

  /**
   * The depth test with an explicit empty state: an empty pixel takes any
   * face, a drawn one only a nearer face (smaller depth).
   */
  function PlotCell(cell: Cell, d: real, c: int): (r: Cell)
    ensures r.Drawn? && r.depth <= d && (cell.Drawn? ==> r.depth <= cell.depth)
    ensures r == cell || r == Drawn(d, c)
  {
    if cell.Empty? || cell.depth > d then Drawn(d, c) else cell
  }

  /** With the explicit empty state, two faces of different depths may be drawn in either order. */
  lemma PlotCellOrderIndependent(cell: Cell, a: real, ca: int, b: real, cb: int)
    requires a != b
    ensures PlotCell(PlotCell(cell, a, ca), b, cb) == PlotCell(PlotCell(cell, b, cb), a, ca)
  {
  }

  /** How the depth buffer stores a pixel: depth 0 marks it as never drawn. */
  function Decode(z: real, c: int): Cell {
    if z == 0.0 then Empty else Drawn(z, c)
  }

  /** For every depth but 0, the buffers' test is `PlotCell` on the pixel they encode. */
  lemma ZTestIsPlotCell(z: real, c: int, d: real, dc: int)
    requires d != 0.0
    ensures Decode(DepthAfter(z, true, d), ColorAfter(z, c, true, d, dc)) == PlotCell(Decode(z, c), d, dc)
    ensures DepthAfter(z, true, d) != 0.0 || z == 0.0
  {
  }

  /**
   * Two faces over one pixel, as the buffers store it: wherever both visit
   * it with different non-zero depths, the order they are drawn in does not
   * change the depth or the colour the pixel ends with.
   */
  lemma {:induction false} ZTestOrderIndependent(z: real, c: int, hitA: bool, a: real, ca: int, hitB: bool, b: real, cb: int)
    requires hitA && hitB ==> a != 0.0 && b != 0.0 && a != b
    ensures var zA := DepthAfter(z, hitA, a);
            var zB := DepthAfter(z, hitB, b);
            DepthAfter(zA, hitB, b) == DepthAfter(zB, hitA, a) &&
            ColorAfter(zA, ColorAfter(z, c, hitA, a, ca), hitB, b, cb) ==
              ColorAfter(zB, ColorAfter(z, c, hitB, b, cb), hitA, a, ca)
  {
    if hitA && hitB {
      var zA, cA := DepthAfter(z, true, a), ColorAfter(z, c, true, a, ca);
      var zB, cB := DepthAfter(z, true, b), ColorAfter(z, c, true, b, cb);
      ZTestIsPlotCell(z, c, a, ca);
      ZTestIsPlotCell(z, c, b, cb);
      ZTestIsPlotCell(zA, cA, b, cb);
      ZTestIsPlotCell(zB, cB, a, ca);
      PlotCellOrderIndependent(Decode(z, c), a, ca, b, cb);
    }
  }

  /**
   * Two faces over one canvas: where every pixel both cover has different
   * non-zero depths in the two shadings, drawing them in either order gives
   * the same buffers.
   */
  lemma PaintOrderIndependent(cv: Canvas, sh1: Canvas, p1: Option<Plan>, sh2: Canvas, p2: Option<Plan>,
                              width: nat, height: nat)
    requires Sized(cv, width, height) && Sized(sh1, width, height) && Sized(sh2, width, height)
    requires forall y, x ::
               (0 <= y < height && 0 <= x < width &&
                Covers(p1, y, x, width, height) && Covers(p2, y, x, width, height)) ==>
               sh1.z[y][x] != 0.0 && sh2.z[y][x] != 0.0 && sh1.z[y][x] != sh2.z[y][x]
    ensures Paint(Paint(cv, sh1, p1, width, height), sh2, p2, width, height)
         == Paint(Paint(cv, sh2, p2, width, height), sh1, p1, width, height)
  {
    var one := Paint(cv, sh1, p1, width, height);
    var two := Paint(cv, sh2, p2, width, height);
    var oneTwo := Paint(one, sh2, p2, width, height);
    var twoOne := Paint(two, sh1, p1, width, height);
    forall y, x | 0 <= y < height && 0 <= x < width
      ensures oneTwo.z[y][x] == twoOne.z[y][x] && oneTwo.rgb[y][x] == twoOne.rgb[y][x]
    {
      PaintCell(cv, sh1, p1, width, height, y, x);
      PaintCell(cv, sh2, p2, width, height, y, x);
      PaintCell(one, sh2, p2, width, height, y, x);
      PaintCell(two, sh1, p1, width, height, y, x);
      ZTestOrderIndependent(cv.z[y][x], cv.rgb[y][x], Covers(p1, y, x, width, height), sh1.z[y][x], sh1.rgb[y][x],
                            Covers(p2, y, x, width, height), sh2.z[y][x], sh2.rgb[y][x]);
    }
    CanvasEq(oneTwo, twoOne, width, height);
  }

  /**
   * So two faces rasterized over the same buffers give the same image in
   * either order, wherever the pixels both visit have different non-zero
   * interpolated depths.
   */
  lemma RasterizeOrderIndependent(cv: Canvas, cs1: seq<Vector3>, tex1: Option<Texture>, texCoords1: seq<Vector3>, f1: Face,
                                  cs2: seq<Vector3>, tex2: Option<Texture>, texCoords2: seq<Vector3>, f2: Face,
                                  width: nat, height: nat)
    requires Sized(cv, width, height) && |cs1| == 3 && |cs2| == 3
    requires Paintable(tex1, texCoords1, f1) && Paintable(tex2, texCoords2, f2)
    requires forall y, x ::
               (0 <= y < height && 0 <= x < width &&
                Covers(MakePlan(cs1[0], cs1[1], cs1[2], height), y, x, width, height) &&
                Covers(MakePlan(cs2[0], cs2[1], cs2[2], height), y, x, width, height)) ==>
               Shading(cs1, tex1, texCoords1, f1, width, height).z[y][x] != 0.0 &&
               Shading(cs2, tex2, texCoords2, f2, width, height).z[y][x] != 0.0 &&
               Shading(cs1, tex1, texCoords1, f1, width, height).z[y][x] !=
                 Shading(cs2, tex2, texCoords2, f2, width, height).z[y][x]
    ensures Rasterize(Rasterize(cv, cs1, tex1, texCoords1, f1, width, height), cs2, tex2, texCoords2, f2, width, height)
         == Rasterize(Rasterize(cv, cs2, tex2, texCoords2, f2, width, height), cs1, tex1, texCoords1, f1, width, height)
  {
    PaintOrderIndependent(cv, Shading(cs1, tex1, texCoords1, f1, width, height), MakePlan(cs1[0], cs1[1], cs1[2], height),
                          Shading(cs2, tex2, texCoords2, f2, width, height), MakePlan(cs2[0], cs2[1], cs2[2], height),
                          width, height);
  }

  /**
   * The buffers' test reads a stored depth of 0 as "never drawn", yet 0 is
   * an ordinary depth (the orthographic projection maps depths onto
   * `[-1, 1]`). On a blank 1x1 canvas, a face at depth 0 drawn before a
   * face at depth 0.5 loses to the farther face; drawn after it, it wins.
   */
  lemma ZeroDepthLosesWhenFirst()
    ensures Plot(Plot(Blank(1, 1), 0, 0, 0.0, 1), 0, 0, 0.5, 2).rgb[0][0] == 2
    ensures Plot(Plot(Blank(1, 1), 0, 0, 0.5, 2), 0, 0, 0.0, 1).rgb[0][0] == 1
  {
    var cv := Blank(1, 1);
    assert cv.z[0][0] == 0.0 && cv.rgb[0][0] == 0;
    var zeroFirst := Plot(cv, 0, 0, 0.0, 1);
    assert zeroFirst.z[0][0] == 0.0 && zeroFirst.rgb[0][0] == 1;
    var halfFirst := Plot(cv, 0, 0, 0.5, 2);
    assert halfFirst.z[0][0] == 0.5 && halfFirst.rgb[0][0] == 2;
  }

  /** With the explicit empty state the nearer face wins in both orders. */
  lemma ZeroDepthWinsWithEmptyState()
    ensures PlotCell(PlotCell(Empty, 0.0, 1), 0.5, 2) == Drawn(0.0, 1)
    ensures PlotCell(PlotCell(Empty, 0.5, 2), 0.0, 1) == Drawn(0.0, 1)
  {
  }
}
