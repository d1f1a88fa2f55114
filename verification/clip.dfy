/**
 * The face loop of `drawSolid` in Renderer.java, stated on values. The
 * renderer keeps one list of transformed vertex positions and one of their
 * `w` coordinates per solid; each face reads its three corners from them,
 * is culled when its area is zero or when it lies wholly outside the view
 * volume on some axis, and otherwise has its corners mapped to the screen
 * in place before it is rasterized. In orthographic mode `w = -1` marks a
 * corner that is already mapped; in perspective mode no mark is written.
 */
module Clipping {
  import opened Vec3
  import opened Grids
  import opened Quaternions
  import opened Mat44
  import opened Triangles
  import opened Textures
  import opened Wrappers
  import opened Projection
  import opened Raster

  datatype RenderMode = Perspective | Orthographic

  /** The two lists `drawSolid` fills: clip positions and their `w`, one per mesh vertex. */
  datatype Clip = Clip(verts: seq<Vector3>, ws: seq<real>)

  /** The first three vertex indices of `f` address the lists of `c`. */
  predicate Indexed(c: Clip, f: Face) {
    |c.ws| == |c.verts| && |f.coords| >= 3 &&
    forall k :: 0 <= k < 3 ==> 0 <= f.coords[k] < |c.verts|
  }

  // ---------------------------------------------------------------------
  // The vertex loop
  // ---------------------------------------------------------------------

  /**
   * One vertex through the vertex loop: scaled componentwise by the solid's
   * scale, rotated by its global orientation, moved by its global position,
   * then multiplied by the vertex transform as the point `(v, 1)`.
   */
  function ClipPoint(g: Grid, v: Vector3, scale: Vector3, rot: Quaternion, pos: Vector3): (p: seq<real>)
    requires Square(g, 4)
    ensures |p| == 4
  {
    MulVec(g, Point(Rotate(v.ScaleBy(scale), rot).Add(pos), 1.0), 4)
  }

  /** The lists after the vertex loop: entry `i` is vertex `i` transformed. */
  function Project(g: Grid, vs: seq<Vector3>, scale: Vector3, rot: Quaternion, pos: Vector3): (c: Clip)
    requires Square(g, 4)
    ensures |c.verts| == |vs| && |c.ws| == |vs|
  {
    Clip(seq(|vs|, i requires 0 <= i < |vs| =>
               var p := ClipPoint(g, vs[i], scale, rot, pos); Vector3(p[0], p[1], p[2])),
         seq(|vs|, i requires 0 <= i < |vs| => ClipPoint(g, vs[i], scale, rot, pos)[3]))
  }

  /** With a last row `(0, 0, 0, 1)`, as in orthographic mode, every `w` is 1. */
  lemma ProjectKeepsUnitW(g: Grid, vs: seq<Vector3>, scale: Vector3, rot: Quaternion, pos: Vector3)
    requires Square(g, 4) && g[3] == [0.0, 0.0, 0.0, 1.0]
    ensures forall i :: 0 <= i < |vs| ==> Project(g, vs, scale, rot, pos).ws[i] == 1.0
  {
    forall i | 0 <= i < |vs|
      ensures Project(g, vs, scale, rot, pos).ws[i] == 1.0
    {
      var q := Point(Rotate(vs[i].ScaleBy(scale), rot).Add(pos), 1.0);
      MulVecByRows4(g, q);
    }
  }

  // ---------------------------------------------------------------------
  // Culling
  // ---------------------------------------------------------------------

  /**
   * The back-face test: `|(c - b) × (a - b)| > 0`. The magnitude is the
   * square root of the cross product with itself, which is positive exactly
   * when that dot product is.
   */
  predicate Visible(a: Vector3, b: Vector3, c: Vector3) {
    var n := c.Subtract(b).Cross(a.Subtract(b));
    n.Dot(n) > 0.0
  }

  /** A face with two equal corners, in particular one listing a vertex twice, has no area. */
  lemma EqualCornersInvisible(a: Vector3, b: Vector3, c: Vector3)
    requires a == b || b == c || a == c
    ensures !Visible(a, b, c)
  {
    var n := c.Subtract(b).Cross(a.Subtract(b));
    if a == c {
      CrossSelfIsZero(c.Subtract(b));
    }
    assert n == Vector3(0.0, 0.0, 0.0);
  }

  lemma CrossSelfIsZero(v: Vector3)
    ensures v.Cross(v) == Vector3(0.0, 0.0, 0.0)
  {
  }

  /** Coordinate `axis` of `v`, as `toArray()[axis]`. */
  function Coord(v: Vector3, axis: nat): real
    requires axis < 3
  {
    v.ToArray()[axis]
  }

  /** On `axis` every corner lies beyond its bound, or every one below the bound's negation. */
  predicate OutsideOnAxis(a: Vector3, b: Vector3, c: Vector3, wa: real, wb: real, wc: real, axis: nat)
    requires axis < 3
  {
    (Coord(a, axis) > wa && Coord(b, axis) > wb && Coord(c, axis) > wc) ||
    (Coord(a, axis) < -wa && Coord(b, axis) < -wb && Coord(c, axis) < -wc)
  }

  /** Perspective skip test: on some axis every corner lies beyond its `w`, or every one below `-w`. */
  predicate PerspOutside(a: Vector3, b: Vector3, c: Vector3, wa: real, wb: real, wc: real) {
    exists axis :: 0 <= axis < 3 && OutsideOnAxis(a, b, c, wa, wb, wc, axis)
  }

  /** Orthographic skip test: the same with every bound 1, so beyond 1 or below -1 on one axis. */
  predicate OrthoOutside(a: Vector3, b: Vector3, c: Vector3) {
    PerspOutside(a, b, c, 1.0, 1.0, 1.0)
  }

  // ---------------------------------------------------------------------
  // One face
  // ---------------------------------------------------------------------

  /** `1 / w` as `scale(1 / vertW[k])` computes it, 0 where Java would get an infinity. */
  function Recip(w: real): real {
    SafeDiv(1.0, w)
  }

  /**
   * The orthographic remap loop for corners `0 .. k-1` of `f`: a corner
   * whose `w` read before the loop (`ws`) is not -1 is remapped from its
   * current position and gets `w = -1`.
   */
  function OrthoRemap(c: Clip, f: Face, ws: seq<real>, k: nat, width: int, height: int): (r: Clip)
    requires Indexed(c, f) && |ws| == 3 && k <= 3
    ensures |r.verts| == |c.verts| && |r.ws| == |c.ws|
  {
    if k == 0 then c
    else
      var d := OrthoRemap(c, f, ws, k - 1, width, height);
      var i := f.coords[k - 1];
      if ws[k - 1] != -1.0 then Clip(d.verts[i := Remap(d.verts[i], width, height)], d.ws[i := -1.0])
      else d
  }

  /**
   * The perspective remap loop for corners `0 .. k-1`: a corner whose `w`
   * is not 1 is divided by `w` and remapped from its current position; the
   * `w` list is not written.
   */
  function PerspRemap(c: Clip, f: Face, ws: seq<real>, k: nat, width: int, height: int): (r: Clip)
    requires Indexed(c, f) && |ws| == 3 && k <= 3
    ensures |r.verts| == |c.verts| && r.ws == c.ws
  {
    if k == 0 then c
    else
      var d := PerspRemap(c, f, ws, k - 1, width, height);
      var i := f.coords[k - 1];
      if ws[k - 1] != 1.0 then Clip(d.verts[i := Remap(d.verts[i].Scale(Recip(ws[k - 1])), width, height)], d.ws)
      else d
  }

  /** The three `w` of the corners of `f`, read before any is changed. */
  function CornerWs(c: Clip, f: Face): (ws: seq<real>)
    requires Indexed(c, f)
    ensures |ws| == 3
  {
    [c.ws[f.coords[0]], c.ws[f.coords[1]], c.ws[f.coords[2]]]
  }

  /**
   * One orthographic face: the lists afterwards and whether the face goes
   * on to `rasterizeFace`. It is dropped when its corners span no area, or
   * when none of them is mapped yet and all lie outside on one axis.
   */
  function OrthoStep(c: Clip, f: Face, width: int, height: int): (r: (Clip, bool))
    requires Indexed(c, f)
    ensures |r.0.verts| == |c.verts| && |r.0.ws| == |c.ws|
  {
    var vs, ws := FaceCorners(c.verts, f), CornerWs(c, f);
    if !Visible(vs[0], vs[1], vs[2]) then (c, false)
    else if ws[0] != -1.0 && ws[1] != -1.0 && ws[2] != -1.0 && OrthoOutside(vs[0], vs[1], vs[2]) then (c, false)
    else (OrthoRemap(c, f, ws, 3, width, height), true)
  }

  /**
   * One perspective face: culled on the corners divided by their `w`,
   * skipped when no corner has `w = 1` and all lie outside on one axis,
   * otherwise divided and remapped.
   */
  function PerspStep(c: Clip, f: Face, width: int, height: int): (r: (Clip, bool))
    requires Indexed(c, f)
    ensures |r.0.verts| == |c.verts| && r.0.ws == c.ws
  {
    var vs, ws := FaceCorners(c.verts, f), CornerWs(c, f);
    if !Visible(vs[0].Scale(Recip(ws[0])), vs[1].Scale(Recip(ws[1])), vs[2].Scale(Recip(ws[2]))) then (c, false)
    else if ws[0] != 1.0 && ws[1] != 1.0 && ws[2] != 1.0 && PerspOutside(vs[0], vs[1], vs[2], ws[0], ws[1], ws[2]) then (c, false)
    else (PerspRemap(c, f, ws, 3, width, height), true)
  }

  function Step(mode: RenderMode, c: Clip, f: Face, width: int, height: int): (r: (Clip, bool))
    requires Indexed(c, f)
    ensures |r.0.verts| == |c.verts| && |r.0.ws| == |c.ws|
  {
    if mode == Perspective then PerspStep(c, f, width, height) else OrthoStep(c, f, width, height)
  }

  // ---------------------------------------------------------------------
  // The face loop
  // ---------------------------------------------------------------------

  /** The lists and the buffers as the face loop carries them. */
  datatype Drawing = Drawing(clip: Clip, canvas: Canvas)

  /** What the face loop needs of every face: corners that exist, and what `drawPixel` reads. */
  predicate Drawable(fs: seq<Face>, vertexCount: nat, tex: Option<Texture>, texCoords: seq<Vector3>) {
    forall f :: f in fs ==>
      |f.coords| >= 3 && (forall k :: 0 <= k < 3 ==> 0 <= f.coords[k] < vertexCount) &&
      Paintable(tex, texCoords, f)
  }

  /** One iteration: the step, then the rasterization of the face from the updated positions. */
  function DrawFace(mode: RenderMode, d: Drawing, f: Face, tex: Option<Texture>, texCoords: seq<Vector3>,
                    width: nat, height: nat): (r: Drawing)
    requires Indexed(d.clip, f) && Sized(d.canvas, width, height) && Paintable(tex, texCoords, f)
    ensures |r.clip.verts| == |d.clip.verts| && |r.clip.ws| == |d.clip.ws| && Sized(r.canvas, width, height)
  {
    var (c, drawn) := Step(mode, d.clip, f, width, height);
    Drawing(c, if drawn then Rasterize(d.canvas, FaceCorners(c.verts, f), tex, texCoords, f, width, height)
               else d.canvas)
  }

  /** The face loop over `fs`, in order. */
  function DrawFaces(mode: RenderMode, d: Drawing, fs: seq<Face>, tex: Option<Texture>, texCoords: seq<Vector3>,
                     width: nat, height: nat): (r: Drawing)
    requires |d.clip.ws| == |d.clip.verts| && Sized(d.canvas, width, height)
    requires Drawable(fs, |d.clip.verts|, tex, texCoords)
    ensures |r.clip.verts| == |d.clip.verts| && |r.clip.ws| == |d.clip.ws| && Sized(r.canvas, width, height)
    decreases |fs|
  {
    if fs == [] then d
    else
      var prev := DrawFaces(mode, d, fs[..|fs| - 1], tex, texCoords, width, height);
      DrawFace(mode, prev, fs[|fs| - 1], tex, texCoords, width, height)
  }

  /** The loop over the first `i + 1` faces is the loop over the first `i`, then face `i`. */
  lemma DrawFacesSnoc(mode: RenderMode, d: Drawing, fs: seq<Face>, i: nat, tex: Option<Texture>, texCoords: seq<Vector3>,
                      width: nat, height: nat)
    requires |d.clip.ws| == |d.clip.verts| && Sized(d.canvas, width, height)
    requires Drawable(fs, |d.clip.verts|, tex, texCoords) && i < |fs|
    ensures Drawable(fs[..i], |d.clip.verts|, tex, texCoords) && Drawable(fs[..i + 1], |d.clip.verts|, tex, texCoords)
    ensures var prev := DrawFaces(mode, d, fs[..i], tex, texCoords, width, height);
      Indexed(prev.clip, fs[i]) && Paintable(tex, texCoords, fs[i]) &&
      DrawFaces(mode, d, fs[..i + 1], tex, texCoords, width, height) == DrawFace(mode, prev, fs[i], tex, texCoords, width, height)
  {
    assert fs[..i + 1][..i] == fs[..i];
    assert forall f :: f in fs[..i + 1] ==> f in fs;
    assert fs[i] in fs;
  }

  // ---------------------------------------------------------------------
  // Orthographic mode maps every vertex once
  // ---------------------------------------------------------------------

  /**
   * The `w = -1` mark is faithful: every vertex either still has `w = 1`
   * and its projected position `P[i]`, or has `w = -1` and the remap of
   * `P[i]`.
   */
  predicate Mapped(c: Clip, ps: seq<Vector3>, width: int, height: int) {
    |c.verts| == |ps| && |c.ws| == |ps| &&
    forall i :: 0 <= i < |ps| ==>
      (c.ws[i] == 1.0 && c.verts[i] == ps[i]) || (c.ws[i] == -1.0 && c.verts[i] == Remap(ps[i], width, height))
  }

  /** A vertex list straight from the orthographic vertex loop is `Mapped` to itself. */
  lemma FreshClipMapped(c: Clip, width: int, height: int)
    requires |c.ws| == |c.verts| && forall i :: 0 <= i < |c.ws| ==> c.ws[i] == 1.0
    ensures Mapped(c, c.verts, width, height)
  {
  }

  /**
   * The remap loop on three distinct corners, cell by cell: the corners
   * seen so far end mapped (`w = -1`, remap of `P`), every other entry is
   * as before.
   */
  lemma {:induction false} OrthoRemapCells(c: Clip, f: Face, ps: seq<Vector3>, k: nat, width: int, height: int)
    requires Indexed(c, f) && Mapped(c, ps, width, height) && k <= 3
    requires f.coords[0] != f.coords[1] && f.coords[1] != f.coords[2] && f.coords[0] != f.coords[2]
    ensures var r := OrthoRemap(c, f, CornerWs(c, f), k, width, height);
      forall n :: 0 <= n < |ps| ==>
        if n in f.coords[..k] then r.ws[n] == -1.0 && r.verts[n] == Remap(ps[n], width, height)
        else r.verts[n] == c.verts[n] && r.ws[n] == c.ws[n]
  {
    if k > 0 {
      OrthoRemapCells(c, f, ps, k - 1, width, height);
      var ws := CornerWs(c, f);
      var d := OrthoRemap(c, f, ws, k - 1, width, height);
      var r := OrthoRemap(c, f, ws, k, width, height);
      var i := f.coords[k - 1];
      assert f.coords[..k] == f.coords[..k - 1] + [i];
      assert i !in f.coords[..k - 1];
      assert ws[k - 1] == c.ws[i];
      forall n | 0 <= n < |ps|
        ensures if n in f.coords[..k] then r.ws[n] == -1.0 && r.verts[n] == Remap(ps[n], width, height)
                else r.verts[n] == c.verts[n] && r.ws[n] == c.ws[n]
      {
        if n != i {
          assert r.verts[n] == d.verts[n] && r.ws[n] == d.ws[n];
        }
      }
    }
  }

  /**
   * So the remap loop keeps the mark faithful, leaves the three corners
   * mapped and every other entry as it was.
   */
  lemma OrthoRemapMaps(c: Clip, f: Face, ps: seq<Vector3>, width: int, height: int)
    requires Indexed(c, f) && Mapped(c, ps, width, height)
    requires f.coords[0] != f.coords[1] && f.coords[1] != f.coords[2] && f.coords[0] != f.coords[2]
    ensures var r := OrthoRemap(c, f, CornerWs(c, f), 3, width, height);
      Mapped(r, ps, width, height) &&
      (forall j :: 0 <= j < 3 ==> r.ws[f.coords[j]] == -1.0 && r.verts[f.coords[j]] == Remap(ps[f.coords[j]], width, height)) &&
      (forall i :: 0 <= i < |ps| && i !in f.coords[..3] ==> r.verts[i] == c.verts[i] && r.ws[i] == c.ws[i])
  {
    OrthoRemapCells(c, f, ps, 3, width, height);
    var r := OrthoRemap(c, f, CornerWs(c, f), 3, width, height);
    forall j | 0 <= j < 3
      ensures r.ws[f.coords[j]] == -1.0 && r.verts[f.coords[j]] == Remap(ps[f.coords[j]], width, height)
    {
      assert f.coords[j] in f.coords[..3];
    }
  }

  /**
   * One orthographic face keeps the mark faithful, and a face that is drawn
   * is drawn from the remapped projections of its corners: no corner is
   * left unmapped and none is mapped twice.
   */
  lemma OrthoStepMapsOnce(c: Clip, f: Face, ps: seq<Vector3>, width: int, height: int)
    requires Indexed(c, f) && Mapped(c, ps, width, height)
    ensures Mapped(OrthoStep(c, f, width, height).0, ps, width, height)
    ensures OrthoStep(c, f, width, height).1 ==>
      FaceCorners(OrthoStep(c, f, width, height).0.verts, f) == FaceCorners(RemapAll(ps, width, height), f)
  {
    var vs := FaceCorners(c.verts, f);
    if Visible(vs[0], vs[1], vs[2]) {
      if f.coords[0] == f.coords[1] || f.coords[1] == f.coords[2] || f.coords[0] == f.coords[2] {
        EqualCornersInvisible(vs[0], vs[1], vs[2]);
        assert false;
      }
      OrthoRemapMaps(c, f, ps, width, height);
    }
  }

  /** Every projected position remapped to the screen. */
  function RemapAll(ps: seq<Vector3>, width: int, height: int): (r: seq<Vector3>)
    ensures |r| == |ps| && forall i :: 0 <= i < |ps| ==> r[i] == Remap(ps[i], width, height)
  {
    seq(|ps|, i requires 0 <= i < |ps| => Remap(ps[i], width, height))
  }

  /**
   * Over the whole orthographic face loop the mark stays faithful, so every
   * face that reaches `rasterizeFace` is drawn from the screen images of its
   * projected corners, however many faces share them.
   */
  lemma {:induction false} OrthoFacesMapOnce(d: Drawing, fs: seq<Face>, ps: seq<Vector3>, tex: Option<Texture>,
                                             texCoords: seq<Vector3>, width: nat, height: nat)
    requires |d.clip.ws| == |d.clip.verts| && Sized(d.canvas, width, height)
    requires Drawable(fs, |d.clip.verts|, tex, texCoords)
    requires Mapped(d.clip, ps, width, height)
    ensures Mapped(DrawFaces(Orthographic, d, fs, tex, texCoords, width, height).clip, ps, width, height)
    decreases |fs|
  {
    if fs != [] {
      var init := fs[..|fs| - 1];
      assert forall f :: f in init ==> f in fs;
      OrthoFacesMapOnce(d, init, ps, tex, texCoords, width, height);
      var prev := DrawFaces(Orthographic, d, init, tex, texCoords, width, height);
      OrthoStepMapsOnce(prev.clip, fs[|fs| - 1], ps, width, height);
    }
  }

  // ---------------------------------------------------------------------
  // Perspective mode divides again
  // ---------------------------------------------------------------------

  /**
   * The perspective remap on three distinct corners: each corner with
   * `w != 1` becomes the remap of its current position divided by `w`;
   * every other entry is unchanged.
   */
  lemma {:induction false} PerspRemapDivides(c: Clip, f: Face, k: nat, width: int, height: int)
    requires Indexed(c, f) && k <= 3
    requires f.coords[0] != f.coords[1] && f.coords[1] != f.coords[2] && f.coords[0] != f.coords[2]
    ensures var r, ws := PerspRemap(c, f, CornerWs(c, f), k, width, height), CornerWs(c, f);
      (forall j :: 0 <= j < k ==>
        r.verts[f.coords[j]] == if ws[j] != 1.0 then Remap(c.verts[f.coords[j]].Scale(Recip(ws[j])), width, height)
                                else c.verts[f.coords[j]]) &&
      (forall i :: 0 <= i < |c.verts| && (forall j :: 0 <= j < k ==> i != f.coords[j]) ==> r.verts[i] == c.verts[i])
  {
    if k > 0 {
      PerspRemapDivides(c, f, k - 1, width, height);
    }
  }

  /**
   * A drawn perspective face divides and remaps each corner with `w != 1`
   * from its CURRENT position and leaves every `w` as it was. A vertex
   * shared with an earlier drawn face has already been divided and
   * remapped, so it is divided and remapped again.
   */
  lemma PerspStepDividesAgain(c: Clip, f: Face, width: int, height: int, k: nat)
    requires Indexed(c, f) && k < 3
    requires PerspStep(c, f, width, height).1
    ensures PerspStep(c, f, width, height).0.ws == c.ws
    ensures var i, w := f.coords[k], c.ws[f.coords[k]];
      w != 1.0 ==> PerspStep(c, f, width, height).0.verts[i] == Remap(c.verts[i].Scale(Recip(w)), width, height)
  {
    var vs, ws := FaceCorners(c.verts, f), CornerWs(c, f);
    if f.coords[0] == f.coords[1] || f.coords[1] == f.coords[2] || f.coords[0] == f.coords[2] {
      EqualCornersInvisible(vs[0].Scale(Recip(ws[0])), vs[1].Scale(Recip(ws[1])), vs[2].Scale(Recip(ws[2])));
      assert false;
    }
    PerspRemapDivides(c, f, 3, width, height);
  }
}
