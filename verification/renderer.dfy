/**
 * Renderer.java: the renderer object with its depth buffer, colour buffer,
 * current render mode and the transforms of the last `renderScene`. Its
 * methods are proved against the value-level descriptions in Projection,
 * Raster and Clipping: `rasterizeFace` against `Rasterize`, `drawSolid`
 * against the face loop `DrawFaces`, `checkChildren` against the pre-order
 * list of the solids below a node.
 */
module Rendering {
  import opened JavaMath
  import opened Vec3
  import opened Vec4
  import opened Grids
  import opened Quaternions
  import opened Mat33
  import opened Mat44
  import opened Textures
  import opened Triangles
  import opened Solids
  import opened Nodes
  import opened Cameras
  import opened Wrappers
  import opened Projection
  import opened Raster
  import opened Clipping

  class Renderer {
    const width: nat
    const height: nat
    const camera: Node
    var currentMode: RenderMode
    /** The depth of each pixel, `zBuffer[y][x]`; 0 where nothing has been drawn. */
    var zBuffer: array2<real>
    /** The RGB value of each pixel of the image buffer, row `y`, column `x`. */
    var colors: array2<int>
    var vertTransform: Matrix44
    /** `None` where the inverse of a singular matrix would be taken. */
    var normTransform: Option<Matrix33>
    /** The solids handed to `drawSolid` since the last `renderScene` began, in order. */
    ghost var drawn: seq<Node>
    /** The depth buffer and the image buffer as one value. */
    ghost var frame: Canvas

    /**
     * The panel is not empty, the buffers have its size, `frame` holds their cells, the
     * vertex transform is a 4x4 matrix over its own array and the camera is a camera node.
     */
    ghost predicate Valid()
      reads this`zBuffer, this`colors, this`vertTransform, this`frame, zBuffer, colors, vertTransform
    {
      0 < width && 0 < height &&
      zBuffer.Length0 == height && zBuffer.Length1 == width &&
      colors.Length0 == height && colors.Length1 == width &&
      vertTransform.Valid() && vertTransform.mat != zBuffer && camera.kind.CameraNode? && Sized(frame, width, height) &&
      forall y, x :: 0 <= y < height && 0 <= x < width ==>
        zBuffer[y, x] == frame.z[y][x] && colors[y, x] == frame.rgb[y][x]
    }

    /**
     * `Renderer(camera, panel)` for a panel of the given size: the image
     * buffer is black, the mode orthographic. Java leaves the depth buffer
     * and the transforms unset until `renderScene`; here they are
     * placeholders (zeroed, the identity, none) that `Prepare` replaces.
     */
    constructor (camera: Node, width: nat, height: nat)
      requires camera.kind.CameraNode? && 0 < width && 0 < height
      ensures Valid() && this.camera == camera && this.width == width && this.height == height
      ensures currentMode == Orthographic && frame == Blank(width, height)
      ensures fresh(zBuffer) && fresh(colors) && fresh(vertTransform) && fresh(vertTransform.mat)
      ensures vertTransform.Entries() == Identity(4) && normTransform == None && drawn == []
    {
      this.camera := camera;
      this.width := width;
      this.height := height;
      currentMode := Orthographic;
      zBuffer := new real[height, width]((_, _) => 0.0);
      colors := new int[height, width]((_, _) => 0);
      vertTransform := new Matrix44();
      normTransform := None;
      drawn := [];
      frame := Blank(width, height);
    }

    /** `setRenderMode(mode)`. */
    method SetRenderMode(mode: RenderMode)
      modifies this`currentMode
      ensures currentMode == mode
    {
      currentMode := mode;
    }

    // -------------------------------------------------------------------
    // Pixels
    // -------------------------------------------------------------------

    /**
     * `drawPixel`: pixel `(x, y)` goes through the depth test with depth
     * `zIndex` and the colour of the face at the barycentric weights
     * `bary`; nothing else changes.
     */
    method DrawPixel(x: int, y: int, zIndex: real, bary: Vector3, f: Face, solid: Mesh)
      requires Valid() && 0 <= x < width && 0 <= y < height
      requires Paintable(solid.texture, solid.texCoords, f)
      modifies this`frame, zBuffer, colors
      ensures Valid()
      ensures frame == Plot(old(frame), y, x, zIndex, PixelColor(solid.texture, solid.texCoords, f, bary.ToArray()))
    {
      if zBuffer[y, x] == 0.0 || zBuffer[y, x] > zIndex {
        zBuffer[y, x] := zIndex;
        colors[y, x] := PixelColor(solid.texture, solid.texCoords, f, bary.ToArray());
      }
      frame := Plot(frame, y, x, zIndex, PixelColor(solid.texture, solid.texCoords, f, bary.ToArray()));
    }

    /**
     * The body of `drawPixelRow`'s loop for pixel `(x, y)`: the weights the
     * barycentric matrix gives `(1, x, y)`, the depth they interpolate and
     * `drawPixel` with both; so the pixel goes through the depth test with
     * the depth and colour the shading holds for it.
     */
    method ShadePixel(x: int, y: int, f: Face, cs: seq<Vector3>, baryMat: Matrix33, solid: Mesh,
                      ghost g: Grid, ghost sh: Canvas)
      requires Valid() && baryMat.Valid() && 0 <= x < width && 0 <= y < height && |cs| == 3
      requires baryMat.Entries() == g && Paintable(solid.texture, solid.texCoords, f)
      requires Shades(sh, g, cs, solid.texture, solid.texCoords, f, width, height)
      modifies this`frame, zBuffer, colors
      ensures Valid() && frame == Plot(old(frame), y, x, sh.z[y][x], sh.rgb[y][x])
    {
      var baryCoords := baryMat.MultiplyVector(Vector3(1.0, x as real, y as real));
      var zIndex := baryCoords.x * cs[0].z + baryCoords.y * cs[1].z + baryCoords.z * cs[2].z;
      PixelShade(sh, g, cs, solid.texture, solid.texCoords, f, width, height, x, y, baryCoords);
      DrawPixel(x, y, zIndex, baryCoords, f, solid);
    }

    /**
     * `drawPixelRow`: every pixel of row `y` with `leftBound <= x <=
     * rightBound` that lies on screen goes through `drawPixel` with the
     * depth and colour the face `cs` gives it; all other pixels keep
     * their depth and colour.
     */
    method DrawPixelRow(y: int, leftBound: int, rightBound: int, f: Face, cs: seq<Vector3>,
                        baryMat: Matrix33, solid: Mesh, ghost g: Grid, ghost sh: Canvas)
      requires Valid() && baryMat.Valid() && baryMat.mat != zBuffer && 0 <= y < height && |cs| == 3
      requires baryMat.Entries() == g && Paintable(solid.texture, solid.texCoords, f)
      requires Shades(sh, g, cs, solid.texture, solid.texCoords, f, width, height)
      modifies this`frame, zBuffer, colors
      ensures Valid() && frame == PaintRow(old(frame), sh, y, leftBound, rightBound)
    {
      if leftBound >= width || rightBound < 0 {
        EmptyRow(frame, sh, y, leftBound, rightBound, width, height);
        return;
      }
      var l, r := leftBound, rightBound;
      if l < 0 {
        l := 0;
      }
      if r >= width {
        r := width - 1;
      }
      ClampedRow(frame, sh, y, leftBound, rightBound, width, height);
      DrawSpan(y, l, r, f, cs, baryMat, solid, g, sh);
    }

    /** The loop of `drawPixelRow` over the clamped bounds `l .. r`. */
    method DrawSpan(y: int, l: int, r: int, f: Face, cs: seq<Vector3>,
                    baryMat: Matrix33, solid: Mesh, ghost g: Grid, ghost sh: Canvas)
      requires Valid() && baryMat.Valid() && baryMat.mat != zBuffer && 0 <= y < height && |cs| == 3
      requires baryMat.Entries() == g && Paintable(solid.texture, solid.texCoords, f)
      requires Shades(sh, g, cs, solid.texture, solid.texCoords, f, width, height)
      requires 0 <= l && r < width
      modifies this`frame, zBuffer, colors
      ensures Valid() && frame == PaintRow(old(frame), sh, y, l, r)
    {
      ghost var cv0 := frame;
      EmptyRow(cv0, sh, y, l, l - 1, width, height);
      var x := l;
      while x <= r
        invariant x == l || l < x <= r + 1
        invariant Valid()
        invariant frame == PaintRow(cv0, sh, y, l, x - 1)
      {
        RowGrows(cv0, sh, y, l, x, width, height);
        ShadePixel(x, y, f, cs, baryMat, solid, g, sh);
        x := x + 1;
      }
      if r < l {
        EmptyRow(cv0, sh, y, l, r, width, height);
      }
    }

    // -------------------------------------------------------------------
    // Faces
    // -------------------------------------------------------------------

    /**
     * `calculateBarycentricMatrix`: the raw matrix of the corners, scaled in
     * place by the inverse of twice the signed area.
     */
    static method CalculateBarycentricMatrix(cs: seq<Vector3>) returns (r: Matrix33)
      requires |cs| == 3
      ensures fresh(r) && fresh(r.mat) && r.Valid()
      ensures r.Entries() == BaryGrid(cs[0], cs[1], cs[2])
    {
      var a, b, c := cs[0], cs[1], cs[2];
      var raw := ArrayOf(BaryRaw(a, b, c), 3);
      var m := new Matrix33.Wrap(raw);
      assert m.Entries() == BaryRaw(a, b, c);
      var scalar := SafeDiv(1.0, a.x * (b.y - c.y) + b.x * (c.y - a.y) + c.x * (a.y - b.y));
      assert scalar == InverseArea(a, b, c);
      r := m.Scale(scalar);
      assert m.Entries() == BaryGrid(a, b, c);
    }

    /**
     * The top loop of `rasterizeFace`: rows `yTop` down to `yBreak + 1`,
     * each bounded by the floor and the ceiling of the two top edges at that
     * row; no other row changes.
     */
    method DrawTopHalf(yTop: int, yBreak: int, top: Vector3, leftSlope: real, rightSlope: real,
                       f: Face, cs: seq<Vector3>, baryMat: Matrix33, solid: Mesh, ghost g: Grid, ghost sh: Canvas)
      requires Valid() && baryMat.Valid() && baryMat.mat != zBuffer && |cs| == 3 && baryMat.Entries() == g
      requires Paintable(solid.texture, solid.texCoords, f) && yTop < height && -1 <= yBreak
      requires Shades(sh, g, cs, solid.texture, solid.texCoords, f, width, height)
      modifies this`frame, zBuffer, colors
      ensures Valid() && frame == DownSweep(old(frame), sh, yBreak + 1, yTop, top, leftSlope, rightSlope)
    {
      ghost var cv0 := frame;
      var y := yTop;
      while y > yBreak
        invariant y <= yTop && (yBreak <= y || y == yTop)
        invariant Valid() && baryMat.Valid() && baryMat.Entries() == g
        invariant frame == DownSweep(cv0, sh, y + 1, yTop, top, leftSlope, rightSlope)
      {
        var leftBound := LeftAt(top, leftSlope, y);
        var rightBound := RightAt(top, rightSlope, y);
        DrawPixelRow(y, leftBound, rightBound, f, cs, baryMat, solid, g, sh);
        y := y - 1;
      }
    }

    /**
     * The bottom loop of `rasterizeFace`: rows `yBottom` up to `yBreak - 1`,
     * each bounded by the two bottom edges at that row; no other row changes.
     */
    method DrawBottomHalf(yBottom: int, yBreak: int, bot: Vector3, leftSlope: real, rightSlope: real,
                          f: Face, cs: seq<Vector3>, baryMat: Matrix33, solid: Mesh, ghost g: Grid, ghost sh: Canvas)
      requires Valid() && baryMat.Valid() && baryMat.mat != zBuffer && |cs| == 3 && baryMat.Entries() == g
      requires Paintable(solid.texture, solid.texCoords, f) && 0 <= yBottom && yBreak <= height
      requires Shades(sh, g, cs, solid.texture, solid.texCoords, f, width, height)
      modifies this`frame, zBuffer, colors
      ensures Valid() && frame == UpSweep(old(frame), sh, yBottom, yBreak - 1, bot, leftSlope, rightSlope)
    {
      ghost var cv0 := frame;
      var y := yBottom;
      while y < yBreak
        invariant yBottom <= y && (y <= yBreak || y == yBottom)
        invariant Valid() && baryMat.Valid() && baryMat.Entries() == g
        invariant frame == UpSweep(cv0, sh, yBottom, y - 1, bot, leftSlope, rightSlope)
      {
        var leftBound := LeftAt(bot, leftSlope, y);
        var rightBound := RightAt(bot, rightSlope, y);
        DrawPixelRow(y, leftBound, rightBound, f, cs, baryMat, solid, g, sh);
        y := y + 1;
      }
    }

    /**
     * The set-up of `rasterizeFace` for the screen corners `a, b, c`: the
     * corners sorted from top to bottom, the top, break and bottom rows
     * clamped to the screen (`None` at either early return), the three edge
     * slopes and the side the middle corner lies on. The ensures ties the
     * method to `MakePlan`; the lemmas about `MakePlan` (`MiddleRowIsBreak`,
     * `DrawnRowsOnScreen`, `DegenerateSlopesUnused`) state what the plan means.
     */
    static method PlanFace(a: Vector3, b: Vector3, c: Vector3, height: nat) returns (plan: Option<Plan>)
      ensures plan == MakePlan(a, b, c, height)
    {
      var sorted := SortByY(a, b, c);
      var top, mid, bot := sorted.0, sorted.1, sorted.2;
      var yTop: int := IntCast(top.y);
      if yTop >= height {
        yTop := height - 1;
      } else if yTop < 0 {
        return None;
      }
      assert yTop == if IntCast(top.y) >= height then height - 1 else IntCast(top.y);
      var yBreak: int := IntCast(mid.y);
      if yBreak >= height {
        yBreak := height - 1;
      } else if yBreak < 0 {
        yBreak := 0;
      }
      assert yBreak == ClampRow(IntCast(mid.y), height);
      var yBottom: int := IntCast(bot.y);
      if yBottom < 0 {
        yBottom := 0;
      } else if yBottom >= height {
        return None;
      }
      assert yBottom == if IntCast(bot.y) < 0 then 0 else IntCast(bot.y);
      assert IntCast(top.y) >= 0 && IntCast(bot.y) < height;
      var topMidSlope := SafeDiv(mid.x - top.x, top.y - mid.y);
      var topBotSlope := SafeDiv(bot.x - top.x, top.y - bot.y);
      var midBotSlope := SafeDiv(bot.x - mid.x, mid.y - bot.y);
      var isMidRight := MidIsRight(top, mid, topBotSlope);
      var leftTop, rightTop, leftBot, rightBot;
      if isMidRight {
        leftTop, rightTop, leftBot, rightBot := topBotSlope, topMidSlope, topBotSlope, midBotSlope;
      } else {
        leftTop, rightTop, leftBot, rightBot := topMidSlope, topBotSlope, midBotSlope, topBotSlope;
      }
      plan := Some(Plan(top, mid, bot, yTop, yBreak, yBottom, leftTop, rightTop, leftBot, rightBot, isMidRight));
    }

    /**
     * The three drawing stages of `rasterizeFace` once its set-up has
     * produced the plan `p`: the top loop, the middle row when it is drawn,
     * the bottom loop.
     */
    method DrawFacePlan(p: Plan, f: Face, cs: seq<Vector3>, baryMat: Matrix33, solid: Mesh, ghost g: Grid, ghost sh: Canvas)
      requires Valid() && baryMat.Valid() && baryMat.mat != zBuffer && |cs| == 3 && baryMat.Entries() == g
      requires Paintable(solid.texture, solid.texCoords, f)
      requires Shades(sh, g, cs, solid.texture, solid.texCoords, f, width, height)
      requires p.yTop < height && 0 <= p.yBreak < height && 0 <= p.yBottom
      modifies this`frame, zBuffer, colors
      ensures Valid() && frame == Staged(old(frame), sh, p, height)
    {
      // Top half: rows yTop down to yBreak + 1.
      DrawTopHalf(p.yTop, p.yBreak, p.top, p.leftTop, p.rightTop, f, cs, baryMat, solid, g, sh);
      // The middle row, through the middle corner.
      if p.yBreak != p.yTop && p.yBreak != p.yBottom && p.mid.y > 0.0 && p.mid.y < height as real {
        var (l, r) := MiddleBounds(p);
        DrawPixelRow(IntCast(p.mid.y), l, r, f, cs, baryMat, solid, g, sh);
      }
      // Bottom half: rows yBottom up to yBreak - 1.
      DrawBottomHalf(p.yBottom, p.yBreak, p.bot, p.leftBot, p.rightBot, f, cs, baryMat, solid, g, sh);
    }

    /**
     * `rasterizeFace`: the buffers afterwards are `Rasterize` of the
     * buffers before, for the face's three corners among `verts`.
     */
    method RasterizeFace(f: Face, solid: Mesh, verts: seq<Vector3>)
      requires Valid() && |f.coords| >= 3 && forall k :: 0 <= k < 3 ==> 0 <= f.coords[k] < |verts|
      requires Paintable(solid.texture, solid.texCoords, f)
      modifies this`frame, zBuffer, colors
      ensures Valid() && frame == Rasterize(old(frame), FaceCorners(verts, f), solid.texture, solid.texCoords, f, width, height)
    {
      var cs := FaceCorners(verts, f);
      var baryMat := CalculateBarycentricMatrix(cs);
      ghost var cv := frame;
      var plan := PlanFace(cs[0], cs[1], cs[2], height);
      if plan.None? {
        OffScreenFaceLeavesCanvas(cv, cs, solid.texture, solid.texCoords, f, width, height);
        return;
      }
      ghost var g := BaryGrid(cs[0], cs[1], cs[2]);
      ghost var sh := Shading(cs, solid.texture, solid.texCoords, f, width, height);
      ShadingShades(cs, solid.texture, solid.texCoords, f, width, height);
      DrawFacePlan(plan.value, f, cs, baryMat, solid, g, sh);
      StagedIsRasterize(cv, cs, solid.texture, solid.texCoords, f, width, height);
    }

    // -------------------------------------------------------------------
    // Solids
    // -------------------------------------------------------------------

    /**
     * The vertex loop of `drawSolid`: each vertex scaled componentwise by
     * `scale`, rotated by `rot`, moved by `pos` and multiplied by the vertex
     * transform as the point `(v, 1)`; the first three coordinates go to the
     * position list, `w` to the other.
     */
    method ProjectVertices(vs: seq<Vector3>, scale: Vector3, rot: Quaternion, pos: Vector3) returns (c: Clip)
      requires vertTransform.Valid()
      ensures c == Project(vertTransform.Entries(), vs, scale, rot, pos)
    {
      ghost var p := Project(vertTransform.Entries(), vs, scale, rot, pos);
      var clipVerts: seq<Vector3> := [];
      var clipVertW: seq<real> := [];
      for i := 0 to |vs|
        invariant |clipVerts| == i && |clipVertW| == i
        invariant forall j :: 0 <= j < i ==> clipVerts[j] == p.verts[j] && clipVertW[j] == p.ws[j]
      {
        var rotVertPos := Rotate(vs[i].ScaleBy(scale), rot).Add(pos);
        var clipVertPos := vertTransform.MultiplyPoint(rotVertPos, 1.0);
        clipVerts := clipVerts + [clipVertPos.ToVector3()];
        clipVertW := clipVertW + [clipVertPos.w];
      }
      c := Clip(clipVerts, clipVertW);
    }

    /**
     * The skip loop of `drawSolid`: the axes in turn, stopping at the first
     * on which every corner lies beyond its bound or every one below the
     * bound's negation. `skip` says whether there is such an axis.
     */
    static method SkipFace(verts: seq<Vector3>, bounds: seq<real>) returns (skip: bool)
      requires |verts| == 3 && |bounds| == 3
      ensures skip <==> PerspOutside(verts[0], verts[1], verts[2], bounds[0], bounds[1], bounds[2])
    {
      var v1C, v2C, v3C := verts[0].ToArray(), verts[1].ToArray(), verts[2].ToArray();
      skip := false;
      for axis := 0 to 3
        invariant !skip
        invariant forall a :: 0 <= a < axis ==> !OutsideOnAxis(verts[0], verts[1], verts[2], bounds[0], bounds[1], bounds[2], a)
      {
        if (v1C[axis] > bounds[0] && v2C[axis] > bounds[1] && v3C[axis] > bounds[2]) ||
           (v1C[axis] < -bounds[0] && v2C[axis] < -bounds[1] && v3C[axis] < -bounds[2]) {
          assert OutsideOnAxis(verts[0], verts[1], verts[2], bounds[0], bounds[1], bounds[2], axis);
          skip := true;
          break;
        }
      }
    }

    /**
     * The orthographic remap loop: each of the three corners whose `w`, as
     * read before the loop, is not -1 is remapped to the screen and gets
     * `w = -1`.
     */
    static method OrthoRemapCorners(c: Clip, f: Face, vertW: seq<real>, width: nat, height: nat) returns (r: Clip)
      requires Indexed(c, f) && |vertW| == 3
      ensures r == OrthoRemap(c, f, vertW, 3, width, height)
    {
      var verts, ws := c.verts, c.ws;
      for vert := 0 to 3
        invariant Clip(verts, ws) == OrthoRemap(c, f, vertW, vert, width, height)
      {
        if vertW[vert] != -1.0 {
          var i := f.coords[vert];
          verts := verts[i := Remap(verts[i], width, height)];
          ws := ws[i := -1.0];
        }
      }
      r := Clip(verts, ws);
    }

    /**
     * The perspective remap loop: each corner whose `w` is not 1 is divided
     * by `w` and remapped from its current position; no `w` is written.
     */
    static method PerspRemapCorners(c: Clip, f: Face, vertW: seq<real>, width: nat, height: nat) returns (r: Clip)
      requires Indexed(c, f) && |vertW| == 3
      ensures r == PerspRemap(c, f, vertW, 3, width, height)
    {
      var verts := c.verts;
      for vert := 0 to 3
        invariant Clip(verts, c.ws) == PerspRemap(c, f, vertW, vert, width, height)
      {
        if vertW[vert] != 1.0 {
          var i := f.coords[vert];
          verts := verts[i := verts[i].Scale(Recip(vertW[vert]))];
          verts := verts[i := Remap(verts[i], width, height)];
        }
      }
      r := Clip(verts, c.ws);
    }

    /**
     * The orthographic face-loop body up to `rasterizeFace`: the area test,
     * the skip test when no corner is mapped yet, then the remap loop;
     * `draw` says whether the face goes on to be rasterized.
     */
    static method OrthoFaceStep(c: Clip, f: Face, width: nat, height: nat) returns (r: Clip, draw: bool)
      requires Indexed(c, f)
      ensures (r, draw) == OrthoStep(c, f, width, height)
    {
      var verts := FaceCorners(c.verts, f);
      var vertW := CornerWs(c, f);
      if !Visible(verts[0], verts[1], verts[2]) {
        return c, false;
      }
      if vertW[0] != -1.0 && vertW[1] != -1.0 && vertW[2] != -1.0 {
        var skipFace := SkipFace(verts, [1.0, 1.0, 1.0]);
        if skipFace {
          return c, false;
        }
      }
      r := OrthoRemapCorners(c, f, vertW, width, height);
      draw := true;
    }

    /**
     * The perspective face-loop body up to `rasterizeFace`: the area test on
     * the corners divided by their `w`, the skip test when no corner has
     * `w = 1`, then the remap loop.
     */
    static method PerspFaceStep(c: Clip, f: Face, width: nat, height: nat) returns (r: Clip, draw: bool)
      requires Indexed(c, f)
      ensures (r, draw) == PerspStep(c, f, width, height)
    {
      var verts := FaceCorners(c.verts, f);
      var vertW := CornerWs(c, f);
      if !Visible(verts[0].Scale(Recip(vertW[0])), verts[1].Scale(Recip(vertW[1])), verts[2].Scale(Recip(vertW[2]))) {
        return c, false;
      }
      if vertW[0] != 1.0 && vertW[1] != 1.0 && vertW[2] != 1.0 {
        var skipFace := SkipFace(verts, vertW);
        if skipFace {
          return c, false;
        }
      }
      r := PerspRemapCorners(c, f, vertW, width, height);
      draw := true;
    }

    /**
     * One iteration of the face loop of `drawSolid` in the current mode: the
     * face's step, then `rasterizeFace` from the updated positions when the
     * step keeps the face.
     */
    method DrawFaceStep(c: Clip, f: Face, m: Mesh) returns (r: Clip)
      requires Valid() && Indexed(c, f) && Paintable(m.texture, m.texCoords, f)
      modifies this`frame, zBuffer, colors
      ensures Valid()
      ensures Drawing(r, frame) == DrawFace(currentMode, Drawing(c, old(frame)), f, m.texture, m.texCoords, width, height)
    {
      var draw;
      if currentMode == Perspective {
        r, draw := PerspFaceStep(c, f, width, height);
      } else {
        r, draw := OrthoFaceStep(c, f, width, height);
      }
      if draw {
        RasterizeFace(f, m, r.verts);
      }
    }

    /**
     * The face loop of `drawSolid`: every face of the mesh in turn, in
     * order. The faces are read as values once, since nothing in the loop
     * writes a triangle's index arrays.
     */
    method DrawFaceLoop(c0: Clip, fs: seq<Face>, m: Mesh)
      requires Valid() && |c0.ws| == |c0.verts| && Drawable(fs, |c0.verts|, m.texture, m.texCoords)
      modifies this`frame, zBuffer, colors
      ensures Valid()
      ensures frame == DrawFaces(currentMode, Drawing(c0, old(frame)), fs, m.texture, m.texCoords, width, height).canvas
    {
      ghost var d0 := Drawing(c0, frame);
      var c := c0;
      for i := 0 to |fs|
        invariant Valid()
        invariant Drawing(c, frame) == DrawFaces(currentMode, d0, fs[..i], m.texture, m.texCoords, width, height)
      {
        DrawFacesSnoc(currentMode, d0, fs, i, m.texture, m.texCoords, width, height);
        c := DrawFaceStep(c, fs[i], m);
      }
      assert fs[..|fs|] == fs;
    }

    /**
     * `drawSolid(solid)`: the vertex loop with the solid's scale and global
     * orientation and position, then the face loop for the current mode;
     * the solid joins the list of drawn solids.
     */
    method DrawSolid(solid: Node, ghost nodes: set<Node>, ghost k: nat)
      requires Valid() && solid.kind.SolidNode? && RootWithin(solid, nodes, k) && MeshDrawable(solid.kind.mesh)
      modifies this`frame, this`drawn, zBuffer, colors
      ensures Valid() && drawn == old(drawn) + [solid]
      ensures frame == old(SolidImage(currentMode, frame, vertTransform.Entries(), solid, nodes, k, width, height))
    {
      var m := solid.kind.mesh;
      var globalRot := solid.GlobalOrientation(nodes, k);
      var globalPos := solid.GlobalPosition(nodes, k);
      var globalScale := m.scale;
      var clip := ProjectVertices(m.vertices, globalScale, globalRot, globalPos);
      var fs := Views(m.faces);
      assert old(vertTransform.Entries()) == vertTransform.Entries();
      assert old(solid.GlobalOrientation(nodes, k)) == globalRot;
      assert old(solid.GlobalPosition(nodes, k)) == globalPos;
      assert old(Views(m.faces)) == fs;
      assert old(m.texCoords) == m.texCoords && old(m.vertices) == m.vertices && old(m.texture) == m.texture;
      assert old(SolidImage(currentMode, frame, vertTransform.Entries(), solid, nodes, k, width, height)) ==
        DrawFaces(currentMode, Drawing(clip, frame), fs, m.texture, m.texCoords, width, height).canvas;
      DrawFaceLoop(clip, fs, m);
      drawn := drawn + [solid];
    }

    /**
     * `checkChildren(parent)`: each child in turn is drawn when it is a
     * solid, then its own children are checked; so exactly the solids below
     * `parent` are drawn, in depth-first pre-order.
     */
    method CheckChildren(parent: Node, ghost nodes: set<Node>, ghost meshes: set<Mesh>, ghost arrays: set<array<int>>,
                         ghost k: nat, ghost d: nat)
      requires Valid() && DrawableScene(parent, nodes, meshes, arrays, k, d)
      modifies this`frame, this`drawn, zBuffer, colors
      ensures Valid() && drawn == old(drawn) + old(SolidsBelow(parent, nodes, d))
      decreases d, 0
    {
      ghost var drawn0 := drawn;
      ghost var e: nat := if d == 0 then 0 else d - 1;
      var children := parent.children;
      for i := 0 to |children|
        invariant Valid()
        invariant d > 0 || i == 0
        invariant drawn == drawn0 + old(SolidsOf(children[..i], nodes, e))
      {
        var child := children[i];
        assert children[..i + 1][..i] == children[..i] && children[..i + 1][i] == child;
        ChildScene(parent, i, nodes, meshes, arrays, k, d);
        ghost var listed := old(SolidsOf(children[..i], nodes, e));
        ghost var piece := (if child.kind.SolidNode? then [child] else []) + SolidsBelow(child, nodes, e);
        assert piece == (if child.kind.SolidNode? then [child] else []) + old(SolidsBelow(child, nodes, e));
        AppendRegroup(listed, if child.kind.SolidNode? then [child] else [], old(SolidsBelow(child, nodes, e)));
        assert old(SolidsOf(children[..i + 1], nodes, e)) == listed + piece;
        VisitChild(child, nodes, meshes, arrays, k + 1, d - 1);
        AppendRegroup(drawn0, listed, piece);
      }
      assert children[..|children|] == children;
    }

    /** One pass of the loop in `checkChildren`: draw `child` if it is a solid, then check its children. */
    method VisitChild(child: Node, ghost nodes: set<Node>, ghost meshes: set<Mesh>, ghost arrays: set<array<int>>,
                       ghost k: nat, ghost d: nat)
      requires Valid() && DrawableScene(child, nodes, meshes, arrays, k, d)
      requires child.kind.SolidNode? ==> MeshDrawable(child.kind.mesh)
      modifies this`frame, this`drawn, zBuffer, colors
      ensures Valid()
      ensures drawn == old(drawn) + old((if child.kind.SolidNode? then [child] else []) + SolidsBelow(child, nodes, d))
      decreases d, 1
    {
      if child.kind.SolidNode? {
        DrawSolid(child, nodes, k);
        assert unchanged(nodes);
      }
      CheckChildren(child, nodes, meshes, arrays, k, d);
    }

    // -------------------------------------------------------------------
    // The scene
    // -------------------------------------------------------------------

    /** `fillRect` of the whole image in black: every colour 0. */
    method ClearColors()
      requires colors.Length0 == height && colors.Length1 == width
      modifies colors
      ensures forall y, x :: 0 <= y < height && 0 <= x < width ==> colors[y, x] == 0
    {
      for y := 0 to height
        invariant forall yy, xx :: 0 <= yy < y && 0 <= xx < width ==> colors[yy, xx] == 0
      {
        for x := 0 to width
          invariant forall yy, xx :: 0 <= yy < height && 0 <= xx < width && (yy < y || (yy == y && xx < x)) ==>
            colors[yy, xx] == 0
        {
          colors[y, x] := 0;
        }
      }
    }

    /**
     * `renderScene(scene)`: both buffers cleared, the camera transforms set
     * up, then exactly the solids below the scene root are drawn, in
     * pre-order, with the new vertex transform.
     */
    method RenderScene(scene: Node, tan: real -> real, ghost nodes: set<Node>,
                       ghost meshes: set<Mesh>, ghost arrays: set<array<int>>, ghost kc: nat, ghost ks: nat, ghost d: nat)
      requires Valid() && RootWithin(camera, nodes, kc) && DrawableScene(scene, nodes, meshes, arrays, ks, d)
      modifies this`frame, this`drawn, this`zBuffer, this`vertTransform, this`normTransform, colors
      ensures Valid() && drawn == old(SolidsBelow(scene, nodes, d))
      ensures vertTransform.Entries() == old(CameraTransform(currentMode, camera, tan, nodes, kc))
      ensures NormalTransformOf(normTransform, vertTransform.Entries())
    {
      Prepare(tan, nodes, kc);
      ghost var v := vertTransform.Entries();
      CheckChildren(scene, nodes, meshes, arrays, ks, d);
      assert vertTransform.Entries() == v;
    }

    /** Everything `renderScene` does before `checkChildren`: the buffers cleared, then the transforms set. */
    method Prepare(tan: real -> real, ghost nodes: set<Node>, ghost kc: nat)
      requires Valid() && RootWithin(camera, nodes, kc)
      modifies this`frame, this`drawn, this`zBuffer, this`vertTransform, this`normTransform, colors
      ensures Valid() && frame == Blank(width, height) && drawn == [] && fresh(zBuffer)
      ensures normTransform.Some? ==> normTransform.value.mat != zBuffer
      ensures vertTransform.Entries() == old(CameraTransform(currentMode, camera, tan, nodes, kc))
      ensures NormalTransformOf(normTransform, vertTransform.Entries())
    {
      ClearBuffers();
      SetTransforms(tan, nodes, kc);
    }

    /**
     * The first lines of `renderScene`: the image filled with black, and a
     * fresh depth buffer of zeros; no solid has been drawn yet.
     */
    method ClearBuffers()
      requires Valid()
      modifies this`frame, this`drawn, this`zBuffer, colors
      ensures Valid() && frame == Blank(width, height) && fresh(zBuffer) && drawn == []
    {
      drawn := [];
      ClearColors();
      zBuffer := new real[height, width]((_, _) => 0.0);
      frame := Blank(width, height);
    }

    /**
     * The transforms of `renderScene`: the vertex transform is the
     * projection matrix of the current mode times the world-to-camera
     * matrix of the camera's global orientation and position; the normal
     * transform is the inverse transpose of its upper-left block (`None`
     * where that block is singular).
     */
    method SetTransforms(tan: real -> real, ghost nodes: set<Node>, ghost kc: nat)
      requires Valid() && RootWithin(camera, nodes, kc)
      modifies this`vertTransform, this`normTransform
      ensures Valid() && fresh(vertTransform.mat) && (normTransform.Some? ==> fresh(normTransform.value.mat))
      ensures vertTransform.Entries() == old(CameraTransform(currentMode, camera, tan, nodes, kc))
      ensures NormalTransformOf(normTransform, vertTransform.Entries())
    {
      var v := CameraMatrix(currentMode, camera, tan, nodes, kc);
      ghost var g := v.Entries();
      var nt := NormalMatrix(v);
      assert v.Entries() == g;
      vertTransform, normTransform := v, nt;
    }

    /** The world-to-camera matrix of the camera node, then the product with the projection matrix of `mode`. */
    static method CameraMatrix(mode: RenderMode, camera: Node, tan: real -> real, ghost nodes: set<Node>, ghost kc: nat)
      returns (v: Matrix44)
      requires camera.kind.CameraNode? && RootWithin(camera, nodes, kc)
      ensures fresh(v) && fresh(v.mat) && v.Valid()
      ensures v.Entries() == old(CameraTransform(mode, camera, tan, nodes, kc))
    {
      ghost var q, p := camera.GlobalOrientation(nodes, kc), camera.GlobalPosition(nodes, kc);
      ghost var goal := CameraTransform(mode, camera, tan, nodes, kc);
      var worldRot := camera.GlobalOrientation(nodes, kc).Conjugate().RotationMatrix();
      var worldCamTransform := worldRot.AddTranslation(camera.GlobalPosition(nodes, kc).Scale(-1.0));
      assert worldCamTransform.Entries() == WorldCameraGrid(q, p);
      var cam := camera.kind.camera;
      var n, f := cam.NearDistance(), cam.FarDistance();
      var r := cam.ViewportWidth(tan) / 2.0;
      var t := -cam.ViewportHeight(tan) / 2.0;
      var projectionTransform;
      if mode == Perspective {
        projectionTransform := Matrix44.FromGrid(PerspectiveGrid(n, f, r, t));
      } else {
        projectionTransform := Matrix44.FromGrid(OrthographicGrid(n, f, r, t));
      }
      ghost var a, b := projectionTransform.Entries(), worldCamTransform.Entries();
      assert a == ProjectionGrid(mode, cam, tan);
      assert goal == Product(a, b, 4);
      v := projectionTransform.Multiply(worldCamTransform);
      assert projectionTransform.Entries() == a && worldCamTransform.Entries() == b;
    }

    /** The normal transform: the inverse transpose of the upper-left block of `v`, `None` where it is singular. */
    static method NormalMatrix(v: Matrix44) returns (nt: Option<Matrix33>)
      requires v.Valid()
      ensures nt.Some? ==> fresh(nt.value) && fresh(nt.value.mat)
      ensures NormalTransformOf(nt, v.Entries())
    {
      var rotation := v.GetRotation();
      if rotation.Determinant() != 0.0 {
        var inverse := rotation.Inverse();
        var transposed := inverse.Transpose();
        nt := Some(transposed);
      } else {
        nt := None;
      }
    }
  }

  /** What `drawSolid` needs of a mesh: faces whose corners exist and whose colour `drawPixel` can read. */
  ghost predicate MeshDrawable(m: Mesh)
    reads m, FaceArrays(m.faces)
  {
    Drawable(Views(m.faces), |m.vertices|, m.texture, m.texCoords)
  }

  /**
   * A scene `checkChildren` can draw from `n`: a tree of height at most
   * `d` below `n`, a parent chain from `n` that reaches a root within `k`
   * steps, and a drawable mesh for every solid below `n`; `meshes` and
   * `arrays` hold those meshes and their triangles' index arrays.
   */
  ghost predicate DrawableScene(n: Node, nodes: set<Node>, meshes: set<Mesh>, arrays: set<array<int>>, k: nat, d: nat)
    reads nodes, meshes, arrays
  {
    Tree(n, nodes, d) && RootWithin(n, nodes, k) &&
    forall s :: s in nodes && s in SolidsBelow(n, nodes, d) && s.kind.SolidNode? ==>
      s.kind.mesh in meshes && FaceArrays(s.kind.mesh.faces) <= arrays && MeshDrawable(s.kind.mesh)
  }

  /** Each child of a drawable scene is the root of one, one level down and one step further from the root. */
  lemma ChildScene(n: Node, i: nat, nodes: set<Node>, meshes: set<Mesh>, arrays: set<array<int>>, k: nat, d: nat)
    requires DrawableScene(n, nodes, meshes, arrays, k, d) && i < |n.children|
    ensures d > 0 && DrawableScene(n.children[i], nodes, meshes, arrays, k + 1, d - 1)
    ensures n.children[i].kind.SolidNode? ==> MeshDrawable(n.children[i].kind.mesh)
  {
    ChildSolidsListed(n, i, nodes, d);
    SolidsInScene(n, nodes, d);
  }

  /** The buffers after `drawSolid` has drawn `solid` over `cv` with the vertex transform `g`. */
  ghost function SolidImage(mode: RenderMode, cv: Canvas, g: Grid, solid: Node, nodes: set<Node>, k: nat,
                            width: nat, height: nat): Canvas
    requires Square(g, 4) && Sized(cv, width, height) && solid.kind.SolidNode? && RootWithin(solid, nodes, k)
    requires MeshDrawable(solid.kind.mesh)
    reads nodes, solid.kind.mesh, FaceArrays(solid.kind.mesh.faces)
  {
    var m := solid.kind.mesh;
    var c := Project(g, m.vertices, m.scale, solid.GlobalOrientation(nodes, k), solid.GlobalPosition(nodes, k));
    DrawFaces(mode, Drawing(c, cv), Views(m.faces), m.texture, m.texCoords, width, height).canvas
  }

  /**
   * `nt` is the normal transform for the vertex transform `g`: the inverse
   * transpose of the upper-left 3x3 block of `g` when that block is
   * invertible, and `None` exactly when it is singular.
   */
  ghost predicate NormalTransformOf(nt: Option<Matrix33>, g: Grid)
    requires Square(g, 4)
    reads if nt.Some? then {nt.value, nt.value.mat} else {}
  {
    (nt.Some? <==> Det(UpperLeft(g)) != 0.0) &&
    (nt.Some? ==> nt.value.Valid() && nt.value.Entries() == Grids.Transpose(InverseGrid(UpperLeft(g)), 3))
  }

  /** The vertex transform `renderScene` sets: the camera's projection times its world-to-camera matrix. */
  ghost function CameraTransform(mode: RenderMode, camera: Node, tan: real -> real, nodes: set<Node>, kc: nat): (g: Grid)
    requires camera.kind.CameraNode? && RootWithin(camera, nodes, kc)
    reads nodes
    ensures Square(g, 4)
  {
    Product(ProjectionGrid(mode, camera.kind.camera, tan),
      WorldCameraGrid(camera.GlobalOrientation(nodes, kc), camera.GlobalPosition(nodes, kc)), 4)
  }

  /**
   * The projection matrix `renderScene` builds for the camera: the
   * perspective or orthographic matrix for near `n`, far `f`, right edge
   * half the viewport width and top edge minus half the viewport height.
   * Its last row decides `w`: `(0, 0, -1, 0)` in perspective, where `w`
   * becomes the depth, and `(0, 0, 0, 1)` in orthographic, where it is kept.
   */
  function ProjectionGrid(mode: RenderMode, cam: Camera, tan: real -> real): (g: Grid)
    ensures Square(g, 4)
    ensures g[3] == if mode == Perspective then [0.0, 0.0, -1.0, 0.0] else [0.0, 0.0, 0.0, 1.0]
  {
    var n, f := cam.NearDistance(), cam.FarDistance();
    var r, t := cam.ViewportWidth(tan) / 2.0, -cam.ViewportHeight(tan) / 2.0;
    if mode == Perspective then PerspectiveGrid(n, f, r, t) else OrthographicGrid(n, f, r, t)
  }

  /**
   * The depth `drawPixelRow` interpolates from the weights the barycentric
   * matrix gives for `(1, x, y)` is `Depth` at that pixel.
   */
  lemma InterpolatedDepth(g: Grid, cs: seq<Vector3>, x: real, y: real, b: Vector3)
    requires Square(g, 3) && |cs| == 3 && b.ToArray() == MulVec(g, Vector3(1.0, x, y).ToArray(), 3)
    ensures b.ToArray() == Weights(g, x, y)
    ensures b.x * cs[0].z + b.y * cs[1].z + b.z * cs[2].z == Depth(g, cs, x, y)
  {
    assert Vector3(1.0, x, y).ToArray() == [1.0, x, y];
    var w := Weights(g, x, y);
    assert w[0] == b.x && w[1] == b.y && w[2] == b.z;
  }

  /**
   * So the depth and colour `drawPixelRow` hands `drawPixel` for pixel
   * `(x, y)` are the ones the face's shading holds there.
   */
  lemma PixelShade(sh: Canvas, g: Grid, cs: seq<Vector3>, tex: Option<Texture>, texCoords: seq<Vector3>, f: Face,
                   width: nat, height: nat, x: int, y: int, b: Vector3)
    requires Square(g, 3) && |cs| == 3 && Paintable(tex, texCoords, f) && Shades(sh, g, cs, tex, texCoords, f, width, height)
    requires 0 <= y < height && 0 <= x < width
    requires b.ToArray() == MulVec(g, Vector3(1.0, x as real, y as real).ToArray(), 3)
    ensures sh.z[y][x] == b.x * cs[0].z + b.y * cs[1].z + b.z * cs[2].z
    ensures sh.rgb[y][x] == PixelColor(tex, texCoords, f, b.ToArray())
  {
    InterpolatedDepth(g, cs, x as real, y as real, b);
  }
}
