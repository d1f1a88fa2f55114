/**
 * The arithmetic of Renderer.java that does not touch its buffers: the
 * projection and world-to-camera matrices `renderScene` builds, the remap of
 * normalised coordinates onto the screen, the barycentric matrix of a
 * screen triangle and the top-to-bottom sort of its corners.
 */
module Projection {
  import opened JavaMath
  import opened Vec3
  import opened Grids
  import opened Quaternions
  import opened Mat44

  // ---------------------------------------------------------------------
  // Projection matrices (`renderScene`)
  // ---------------------------------------------------------------------

  /**
   * `x / y` for Java doubles where `y` is never zero in the cases the
   * renderer gets right. Where Java divides by zero it gets an infinity or
   * NaN; this model takes 0 there.
   */
  function SafeDiv(x: real, y: real): (r: real)
    ensures y != 0.0 ==> r == x / y
  {
    if y == 0.0 then 0.0 else x / y
  }

  /**
   * The perspective matrix for near distance `n`, far distance `f`, right
   * edge `r` and top edge `t` of the near window (OpenGL's symmetric
   * frustum).
   */
  function PerspectiveGrid(n: real, f: real, r: real, t: real): (g: Grid)
    ensures Square(g, 4)
  {
    [[SafeDiv(n, r), 0.0, 0.0, 0.0],
     [0.0, SafeDiv(n, t), 0.0, 0.0],
     [0.0, 0.0, SafeDiv(-(f + n), f - n), SafeDiv(-2.0 * f * n, f - n)],
     [0.0, 0.0, -1.0, 0.0]]
  }

  /** The orthographic matrix for the same box. */
  function OrthographicGrid(n: real, f: real, r: real, t: real): (g: Grid)
    ensures Square(g, 4)
  {
    [[SafeDiv(1.0, r), 0.0, 0.0, 0.0],
     [0.0, SafeDiv(1.0, t), 0.0, 0.0],
     [0.0, 0.0, SafeDiv(-2.0, f - n), SafeDiv(-(f + n), f - n)],
     [0.0, 0.0, 0.0, 1.0]]
  }

  /** Orthographic projection keeps `w`: its last row is `(0, 0, 0, 1)`. */
  lemma OrthographicKeepsW(n: real, f: real, r: real, t: real, v: Vector3, w: real)
    ensures Square(OrthographicGrid(n, f, r, t), 4)
    ensures MulVec(OrthographicGrid(n, f, r, t), Point(v, w), 4)[3] == w
  {
    MulVecByRows4(OrthographicGrid(n, f, r, t), Point(v, w));
  }

  /** Perspective projection puts the depth `-z` into `w`: its last row is `(0, 0, -1, 0)`. */
  lemma PerspectiveWIsDepth(n: real, f: real, r: real, t: real, v: Vector3, w: real)
    ensures Square(PerspectiveGrid(n, f, r, t), 4)
    ensures MulVec(PerspectiveGrid(n, f, r, t), Point(v, w), 4)[3] == -v.z
  {
    MulVecByRows4(PerspectiveGrid(n, f, r, t), Point(v, w));
  }

  /** The depth rows of the orthographic matrix at `z = -n` and `z = -f`. */
  lemma OrthographicDepths(n: real, f: real)
    requires f != n
    ensures (-2.0 / (f - n)) * -n + -(f + n) / (f - n) == -1.0
    ensures (-2.0 / (f - n)) * -f + -(f + n) / (f - n) == 1.0
  {
    var d := f - n;
    var q := 1.0 / d;
    assert -2.0 / d == -2.0 * q && -(f + n) / d == -(f + n) * q;
    assert q * d == 1.0;
    assert (-2.0 * q) * -n + -(f + n) * q == -(q * d);
    assert (-2.0 * q) * -f + -(f + n) * q == q * d;
  }

  /** The depth rows of the perspective matrix at `z = -n` and `z = -f`. */
  lemma PerspectiveDepths(n: real, f: real)
    requires f != n
    ensures (-(f + n) / (f - n)) * -n + -2.0 * f * n / (f - n) == -n
    ensures (-(f + n) / (f - n)) * -f + -2.0 * f * n / (f - n) == f
  {
    var d := f - n;
    var q := 1.0 / d;
    assert -(f + n) / d == -(f + n) * q && -2.0 * f * n / d == -2.0 * f * n * q;
    assert q * d == 1.0;
    assert (-(f + n) * q) * -n + -2.0 * f * n * q == -n * (q * d);
    assert (-(f + n) * q) * -f + -2.0 * f * n * q == f * (q * d);
  }

  /** `(n / r) * r == n` and `(n / r) * (r * f / n) == f`. */
  lemma ScaleBack(n: real, r: real, f: real)
    requires r != 0.0 && n != 0.0
    ensures (n / r) * r == n
    ensures (n / r) * (r * f / n) == f
  {
    var a := 1.0 / r;
    var b := 1.0 / n;
    assert a * r == 1.0 && b * n == 1.0;
    assert n / r == n * a && r * f / n == r * f * b;
    assert (n * a) * (r * f * b) == (a * r) * (b * n) * f;
  }

  /**
   * The orthographic box maps onto the cube `[-1, 1]^3`: its corner
   * `(r, t, -n)` goes to `(1, 1, -1)` and the opposite corner `(-r, -t, -f)`
   * to `(-1, -1, 1)`.
   */
  lemma OrthographicMapsBoxToCube(n: real, f: real, r: real, t: real)
    requires r != 0.0 && t != 0.0 && f != n
    ensures Square(OrthographicGrid(n, f, r, t), 4)
    ensures MulVec(OrthographicGrid(n, f, r, t), Point(Vector3(r, t, -n), 1.0), 4) == [1.0, 1.0, -1.0, 1.0]
    ensures MulVec(OrthographicGrid(n, f, r, t), Point(Vector3(-r, -t, -f), 1.0), 4) == [-1.0, -1.0, 1.0, 1.0]
  {
    var g := OrthographicGrid(n, f, r, t);
    MulVecByRows4(g, Point(Vector3(r, t, -n), 1.0));
    MulVecByRows4(g, Point(Vector3(-r, -t, -f), 1.0));
    OrthographicDepths(n, f);
    ScaleBack(1.0, r, 1.0);
    ScaleBack(1.0, t, 1.0);
    var near, far := MulVec(g, Point(Vector3(r, t, -n), 1.0), 4), MulVec(g, Point(Vector3(-r, -t, -f), 1.0), 4);
    assert near[0] == 1.0 && near[1] == 1.0 && near[2] == -1.0 && near[3] == 1.0;
    assert far[0] == -1.0 && far[1] == -1.0 && far[2] == 1.0 && far[3] == 1.0;
  }

  /**
   * The perspective frustum maps onto the same cube after division by `w`:
   * the near corner `(r, t, -n)` goes to `(n, n, -n, n)` and the far corner
   * `(r f / n, t f / n, -f)` to `(f, f, f, f)`.
   */
  lemma PerspectiveMapsFrustumToCube(n: real, f: real, r: real, t: real)
    requires r != 0.0 && t != 0.0 && f != n && n != 0.0
    ensures Square(PerspectiveGrid(n, f, r, t), 4)
    ensures MulVec(PerspectiveGrid(n, f, r, t), Point(Vector3(r, t, -n), 1.0), 4) == [n, n, -n, n]
    ensures MulVec(PerspectiveGrid(n, f, r, t), Point(Vector3(r * f / n, t * f / n, -f), 1.0), 4) == [f, f, f, f]
  {
    var g := PerspectiveGrid(n, f, r, t);
    MulVecByRows4(g, Point(Vector3(r, t, -n), 1.0));
    MulVecByRows4(g, Point(Vector3(r * f / n, t * f / n, -f), 1.0));
    PerspectiveDepths(n, f);
    ScaleBack(n, r, f);
    ScaleBack(n, t, f);
    var near, far := MulVec(g, Point(Vector3(r, t, -n), 1.0), 4), MulVec(g, Point(Vector3(r * f / n, t * f / n, -f), 1.0), 4);
    assert near[0] == n && near[1] == n && near[2] == -n && near[3] == n;
    assert far[0] == f && far[1] == f && far[2] == f && far[3] == f;
  }

  /** The open cube `(-1, 1)^3` of normalised device coordinates. */
  predicate InOpenCube(x: real, y: real, z: real) {
    Unit(x) && Unit(y) && Unit(z)
  }

  /** Strictly between -1 and 1. */
  predicate Unit(x: real) {
    -1.0 < x < 1.0
  }

  /**
   * Strictly inside the view frustum with near distance `n`, far distance
   * `f` and near window `[-|r|, |r|] x [-|t|, |t|]`: between the two planes,
   * and inside the window scaled out to the point's depth `-z`.
   */
  predicate InFrustum(n: real, f: real, r: real, t: real, v: Vector3) {
    -f < v.z < -n && InWindow(v.x, n, r, -v.z) && InWindow(v.y, n, t, -v.z)
  }

  /** Coordinate `x` at depth `w` lies within the near half-width `|r|` at distance `n` scaled out to `w`. */
  predicate InWindow(x: real, n: real, r: real, w: real) {
    Abs(x) * n < Abs(r) * w
  }

  /** For `w > 0`: `a / w` lies strictly between -1 and 1 exactly when `a` lies strictly between `-w` and `w`. */
  lemma RatioInside(a: real, w: real)
    requires w > 0.0
    ensures (-1.0 < a / w < 1.0) <==> (-w < a < w)
  {
    var q := a / w;
    assert q * w == a;
    assert (q + 1.0) * w == a + w;
    assert (1.0 - q) * w == w - a;
  }

  /** One window axis: `x * (n / r)` lies within `(-w, w)` exactly when `|x| n < |r| w`. */
  lemma WindowAxis(x: real, n: real, r: real, w: real)
    requires n > 0.0 && r != 0.0 && w > 0.0
    ensures (-w < x * (n / r) < w) <==> Abs(x) * n < Abs(r) * w
  {
    var k := n / r;
    assert k * r == n;
    assert Abs(x * k) == Abs(x) * Abs(k);
    assert Abs(k) * Abs(r) == n;
    assert (-w < x * k < w) <==> Abs(x) * Abs(k) < w;
    assert (Abs(x) * Abs(k)) * Abs(r) == Abs(x) * n;
    assert Abs(x) * Abs(k) < w <==> (Abs(x) * Abs(k)) * Abs(r) < w * Abs(r);
  }

  /** A product with a positive factor has the sign of the other factor. */
  lemma PositiveFactor(p: real, k: real)
    requires k > 0.0
    ensures p * k > 0.0 <==> p > 0.0
  {
    if p > 0.0 {
      assert p * k > 0.0;
    } else {
      assert (-p) * k >= 0.0;
    }
  }

  /**
   * The depth axis in front of the camera (`z < 0`, so `w = -z > 0`): the
   * perspective depth `z A + B` lies within `(-w, w)` exactly when `z` lies
   * between the far and the near plane.
   */
  lemma DepthAxisInFront(n: real, f: real, z: real)
    requires 0.0 < n < f && z < 0.0
    ensures var a, b := -(f + n) / (f - n), -2.0 * f * n / (f - n);
      (z < z * a + b < -z) <==> (-f < z < -n)
  {
    var d := f - n;
    var a, b := -(f + n) / d, -2.0 * f * n / d;
    assert a * d == -(f + n) && b * d == -2.0 * f * n;
    var e := z * a + b;
    assert e * d == -(f + n) * z - 2.0 * f * n;
    // z < e exactly when z < -n
    assert (e - z) * d == (-(z + n)) * (2.0 * f);
    PositiveFactor(e - z, d);
    PositiveFactor(-(z + n), 2.0 * f);
    // e < -z exactly when -f < z
    assert (-z - e) * d == (z + f) * (2.0 * n);
    PositiveFactor(-z - e, d);
    PositiveFactor(z + f, 2.0 * n);
  }

  /** Behind the camera (`z > 0`, so `w = -z < 0`), the divided depth exceeds 1. */
  lemma DepthAxisBehind(n: real, f: real, z: real)
    requires 0.0 < n < f && z > 0.0
    ensures (z * (-(f + n) / (f - n)) + -2.0 * f * n / (f - n)) / -z > 1.0
  {
    var d := f - n;
    var a, b := -(f + n) / d, -2.0 * f * n / d;
    assert a * d == -(f + n) && b * d == -2.0 * f * n;
    var e := z * a + b;
    assert (-z - e) * d == (z + f) * (2.0 * n);
    PositiveFactor(z + f, 2.0 * n);
    PositiveFactor(-z - e, d);
    var q := e / -z;
    assert q * -z == e;
    assert (q - 1.0) * z == -z - e;
    PositiveFactor(q - 1.0, z);
    assert e == z * (-(f + n) / (f - n)) + -2.0 * f * n / (f - n);
  }

  /** The perspective image of a point, entry by entry. */
  lemma PerspectiveImage(n: real, f: real, r: real, t: real, v: Vector3)
    requires r != 0.0 && t != 0.0 && f != n
    ensures Square(PerspectiveGrid(n, f, r, t), 4)
    ensures MulVec(PerspectiveGrid(n, f, r, t), Point(v, 1.0), 4)
         == [v.x * (n / r), v.y * (n / t), v.z * (-(f + n) / (f - n)) + -2.0 * f * n / (f - n), -v.z]
  {
    var g := PerspectiveGrid(n, f, r, t);
    MulVecByRows4(g, Point(v, 1.0));
    var image := MulVec(g, Point(v, 1.0), 4);
    assert image[0] == v.x * (n / r) && image[1] == v.y * (n / t);
    assert image[2] == v.z * (-(f + n) / (f - n)) + -2.0 * f * n / (f - n) && image[3] == -v.z;
  }

  /** One window axis after the division by `w > 0`. */
  lemma WindowAxisDivided(x: real, n: real, r: real, w: real)
    requires n > 0.0 && r != 0.0 && w > 0.0
    ensures Unit(x * (n / r) / w) <==> InWindow(x, n, r, w)
  {
    RatioInside(x * (n / r), w);
    WindowAxis(x, n, r, w);
  }

  /** The depth axis after the division by `w = -z > 0`. */
  lemma DepthAxisDivided(n: real, f: real, z: real)
    requires 0.0 < n < f && z < 0.0
    ensures Unit((z * (-(f + n) / (f - n)) + -2.0 * f * n / (f - n)) / -z) <==> (-f < z < -n)
  {
    RatioInside(z * (-(f + n) / (f - n)) + -2.0 * f * n / (f - n), -z);
    DepthAxisInFront(n, f, z);
  }

  /** In front of the camera, the divided image is inside the cube exactly when the point is inside the frustum. */
  lemma FrontDividedInCube(n: real, f: real, r: real, t: real, v: Vector3)
    requires 0.0 < n < f && r != 0.0 && t != 0.0 && v.z < 0.0
    ensures InOpenCube(v.x * (n / r) / -v.z, v.y * (n / t) / -v.z,
                       (v.z * (-(f + n) / (f - n)) + -2.0 * f * n / (f - n)) / -v.z)
        <==> InFrustum(n, f, r, t, v)
  {
    XAxis(n, r, v);
    YAxis(n, t, v);
    ZAxis(n, f, v);
  }

  /** The `x` axis in front of the camera. */
  lemma XAxis(n: real, r: real, v: Vector3)
    requires 0.0 < n && r != 0.0 && v.z < 0.0
    ensures Unit(v.x * (n / r) / -v.z) <==> InWindow(v.x, n, r, -v.z)
  {
    WindowAxisDivided(v.x, n, r, -v.z);
  }

  /** The `y` axis in front of the camera. */
  lemma YAxis(n: real, t: real, v: Vector3)
    requires 0.0 < n && t != 0.0 && v.z < 0.0
    ensures Unit(v.y * (n / t) / -v.z) <==> InWindow(v.y, n, t, -v.z)
  {
    WindowAxisDivided(v.y, n, t, -v.z);
  }

  /** The depth axis in front of the camera. */
  lemma ZAxis(n: real, f: real, v: Vector3)
    requires 0.0 < n < f && v.z < 0.0
    ensures Unit((v.z * (-(f + n) / (f - n)) + -2.0 * f * n / (f - n)) / -v.z) <==> (-f < v.z < -n)
  {
    DepthAxisDivided(n, f, v.z);
  }

  /**
   * After the perspective matrix and the division by `w`, a point (not in
   * the camera plane `z = 0`) lands strictly inside the cube `(-1, 1)^3`
   * exactly when it lies strictly inside the frustum; a point outside leaves
   * the cube on some axis, and a point behind the camera on the depth axis.
   */
  lemma PerspectiveDividesFrustumIntoCube(n: real, f: real, r: real, t: real, v: Vector3)
    requires 0.0 < n < f && r != 0.0 && t != 0.0 && v.z != 0.0
    ensures Square(PerspectiveGrid(n, f, r, t), 4)
    ensures var image := MulVec(PerspectiveGrid(n, f, r, t), Point(v, 1.0), 4);
      var inCube := InOpenCube(SafeDiv(image[0], image[3]), SafeDiv(image[1], image[3]), SafeDiv(image[2], image[3]));
      inCube <==> InFrustum(n, f, r, t, v)
  {
    DividedImage(n, f, r, t, v);
    if v.z < 0.0 {
      FrontDividedInCube(n, f, r, t, v);
    } else {
      BehindOutside(n, f, v);
    }
  }

  /** The perspective image divided by its `w`, entry by entry. */
  lemma DividedImage(n: real, f: real, r: real, t: real, v: Vector3)
    requires r != 0.0 && t != 0.0 && f != n && v.z != 0.0
    ensures Square(PerspectiveGrid(n, f, r, t), 4)
    ensures var image := MulVec(PerspectiveGrid(n, f, r, t), Point(v, 1.0), 4);
      InOpenCube(SafeDiv(image[0], image[3]), SafeDiv(image[1], image[3]), SafeDiv(image[2], image[3]))
      == InOpenCube(v.x * (n / r) / -v.z, v.y * (n / t) / -v.z,
                    (v.z * (-(f + n) / (f - n)) + -2.0 * f * n / (f - n)) / -v.z)
  {
    PerspectiveImage(n, f, r, t, v);
  }

  /** Behind the camera the divided depth leaves the cube, and the point is outside the frustum. */
  lemma BehindOutside(n: real, f: real, v: Vector3)
    requires 0.0 < n < f && v.z > 0.0
    ensures !Unit((v.z * (-(f + n) / (f - n)) + -2.0 * f * n / (f - n)) / -v.z)
  {
    DepthAxisBehind(n, f, v.z);
  }

  /**
   * The world-to-camera matrix of `renderScene`: the rotation matrix of the
   * conjugated camera orientation, with `-position` added into column 3.
   */
  function WorldCameraGrid(orientation: Quaternion, position: Vector3): (g: Grid)
    ensures Square(g, 4)
  {
    WithTranslation(RotationGrid(orientation.Conjugate()), position.Scale(-1.0))
  }

  /**
   * A point is first rotated and then moved by `-position`: the camera
   * translation is not rotated, so the camera's own position reaches the
   * origin only when the rotation leaves it fixed. The last row stays
   * `(0, 0, 0, 1)`.
   */
  lemma WorldCameraMovesAfterRotating(orientation: Quaternion, position: Vector3, v: Vector3)
    ensures var g := WorldCameraGrid(orientation, position);
      var rotated := MulVec(RotationGrid(orientation.Conjugate()), Point(v, 1.0), 4);
      var image := MulVec(g, Point(v, 1.0), 4);
      image == [rotated[0] - position.x, rotated[1] - position.y, rotated[2] - position.z, 1.0]
    ensures WorldCameraGrid(orientation, position)[3] == [0.0, 0.0, 0.0, 1.0]
  {
    var q := orientation.Conjugate();
    RotationGridBorder(q);
    WithTranslationMovesImage(RotationGrid(q), position.Scale(-1.0), v, 1.0);
    MulVecByRows4(RotationGrid(q), Point(v, 1.0));
    var g := WorldCameraGrid(orientation, position);
    assert g[3][0] == 0.0 && g[3][1] == 0.0 && g[3][2] == 0.0 && g[3][3] == 1.0;
  }

  /** A product whose left factor has last row `(0, 0, 0, 1)` keeps the right factor's last row. */
  lemma ProductKeepsLastRow(a: Grid, b: Grid)
    requires Square(a, 4) && Square(b, 4)
    requires a[3] == [0.0, 0.0, 0.0, 1.0]
    ensures Product(a, b, 4)[3] == b[3]
  {
    var p := Product(a, b, 4);
    forall c | 0 <= c < 4
      ensures p[3][c] == b[3][c]
    {
      RowDot4(a[3], Column(b, c, 4));
    }
  }

  /**
   * So in orthographic mode the whole vertex transform keeps `w = 1`: its
   * last row is `(0, 0, 0, 1)`.
   */
  lemma OrthographicViewKeepsW(n: real, f: real, r: real, t: real, orientation: Quaternion, position: Vector3)
    ensures Square(OrthographicGrid(n, f, r, t), 4)
    ensures Product(OrthographicGrid(n, f, r, t), WorldCameraGrid(orientation, position), 4)[3] == [0.0, 0.0, 0.0, 1.0]
  {
    WorldCameraMovesAfterRotating(orientation, position, Origin);
    ProductKeepsLastRow(OrthographicGrid(n, f, r, t), WorldCameraGrid(orientation, position));
  }

  // ---------------------------------------------------------------------
  // Screen mapping
  // ---------------------------------------------------------------------

  /**
   * The remap of `drawSolid`: `x * width + width / 2`, `y * height +
   * height / 2`, `z` kept.
   */
  function Remap(v: Vector3, width: int, height: int): Vector3 {
    Vector3(v.x * width as real + width as real / 2.0, v.y * height as real + height as real / 2.0, v.z)
  }

  /**
   * The remap sends the centre of the cube to the centre of the screen and
   * stretches by the full width and height: `x` in `[-1, 1]` lands in
   * `[-width / 2, 3 width / 2]`, so only `x` in `[-1/2, 1/2]` reaches the
   * screen `[0, width]` (likewise for `y`).
   */
  lemma RemapStretchesByFullSize(v: Vector3, width: nat, height: nat)
    ensures Remap(Vector3(0.0, 0.0, v.z), width, height) == Vector3(width as real / 2.0, height as real / 2.0, v.z)
    ensures Remap(Vector3(1.0, 1.0, v.z), width, height) == Vector3(3.0 * width as real / 2.0, 3.0 * height as real / 2.0, v.z)
    ensures -1.0 <= v.x <= 1.0 ==> -(width as real) / 2.0 <= Remap(v, width, height).x <= 3.0 * width as real / 2.0
    ensures -0.5 <= v.x <= 0.5 ==> 0.0 <= Remap(v, width, height).x <= width as real
  {
    var w := width as real;
    RemapAxis(v.x, w, v.x * w);
  }

  /** One axis of the remap, `a * w + w / 2` with `p = a * w`, for a non-negative size `w`. */
  lemma RemapAxis(a: real, w: real, p: real)
    requires w >= 0.0 && p == a * w
    ensures -1.0 <= a <= 1.0 ==> -w / 2.0 <= p + w / 2.0 <= 3.0 * w / 2.0
    ensures -0.5 <= a <= 0.5 ==> 0.0 <= p + w / 2.0 <= w
  {
    if -1.0 <= a <= 1.0 {
      MulNonneg(a + 1.0, w);
      MulNonneg(1.0 - a, w);
      assert (a + 1.0) * w == p + w && (1.0 - a) * w == w - p;
    }
    if -0.5 <= a <= 0.5 {
      MulNonneg(a + 0.5, w);
      MulNonneg(0.5 - a, w);
      assert (a + 0.5) * w == p + 0.5 * w && (0.5 - a) * w == 0.5 * w - p;
    }
  }

  lemma MulNonneg(x: real, y: real)
    requires x >= 0.0 && y >= 0.0
    ensures x * y >= 0.0
  {
  }

  // ---------------------------------------------------------------------
  // Barycentric coordinates (`calculateBarycentricMatrix`)
  // ---------------------------------------------------------------------

  /**
   * Twice the signed area of the screen triangle `a, b, c` (x and y only):
   * the denominator of `calculateBarycentricMatrix`.
   */
  function TwiceArea(a: Vector3, b: Vector3, c: Vector3): real {
    a.x * (b.y - c.y) + b.x * (c.y - a.y) + c.x * (a.y - b.y)
  }

  /** The unscaled matrix: row `i` gives the weight of corner `i` against `(1, x, y)`. */
  function BaryRaw(a: Vector3, b: Vector3, c: Vector3): Grid {
    [[b.x * c.y - c.x * b.y, b.y - c.y, c.x - b.x],
     [c.x * a.y - a.x * c.y, c.y - a.y, a.x - c.x],
     [a.x * b.y - b.x * a.y, a.y - b.y, b.x - a.x]]
  }

  /** The scalar `1 / TwiceArea` of `calculateBarycentricMatrix`. */
  function InverseArea(a: Vector3, b: Vector3, c: Vector3): real {
    SafeDiv(1.0, TwiceArea(a, b, c))
  }

  /** The matrix `calculateBarycentricMatrix` returns: the raw matrix scaled by `InverseArea`. */
  function BaryGrid(a: Vector3, b: Vector3, c: Vector3): (g: Grid)
    ensures Square(g, 3)
  {
    ScaleGrid(BaryRaw(a, b, c), InverseArea(a, b, c), 3)
  }

  /** The barycentric weights of the pixel `(x, y)`: the matrix times `(1, x, y)`. */
  function Weights(g: Grid, x: real, y: real): (w: seq<real>)
    requires Square(g, 3)
    ensures |w| == 3
  {
    MulVec(g, [1.0, x, y], 3)
  }

  /** Row `i` of a 3x3 matrix against `(1, x, y)`. */
  lemma WeightsByRows(g: Grid, x: real, y: real)
    requires Square(g, 3)
    ensures forall i :: 0 <= i < 3 ==> Weights(g, x, y)[i] == g[i][0] + x * g[i][1] + y * g[i][2]
  {
    forall i | 0 <= i < 3
      ensures Weights(g, x, y)[i] == g[i][0] + x * g[i][1] + y * g[i][2]
    {
      RowDot3(g[i], [1.0, x, y]);
    }
  }

  /** The three raw rows against `(1, x, y)` add up to twice the area, whatever the point. */
  lemma RawWeightsSum(ax: real, ay: real, bx: real, b_y: real, cx: real, cy: real, x: real, y: real)
    ensures (bx * cy - cx * b_y) + x * (b_y - cy) + y * (cx - bx)
          + (cx * ay - ax * cy) + x * (cy - ay) + y * (ax - cx)
          + (ax * b_y - bx * ay) + x * (ay - b_y) + y * (bx - ax)
         == ax * (b_y - cy) + bx * (cy - ay) + cx * (ay - b_y)
  {
  }

  /** `InverseArea` inverts a non-zero area. */
  lemma InverseAreaInverts(a: Vector3, b: Vector3, c: Vector3)
    requires TwiceArea(a, b, c) != 0.0
    ensures TwiceArea(a, b, c) * InverseArea(a, b, c) == 1.0
  {
  }

  /** A row of the scaled matrix against `(1, x, y)` is the raw row's value, scaled. */
  lemma ScaledWeight(g: Grid, raw: Grid, s: real, x: real, y: real, i: nat)
    requires Square(raw, 3) && g == ScaleGrid(raw, s, 3) && i < 3
    ensures Weights(g, x, y)[i] == (raw[i][0] + x * raw[i][1] + y * raw[i][2]) * s
  {
    RowDot3(g[i], [1.0, x, y]);
    assert g[i][0] == raw[i][0] * s && g[i][1] == raw[i][1] * s && g[i][2] == raw[i][2] * s;
    Distribute(raw[i][0], raw[i][1], raw[i][2], x, y, s);
  }

  lemma Distribute(p: real, q: real, r: real, x: real, y: real, s: real)
    ensures p * s + q * s * x + r * s * y == (p + x * q + y * r) * s
    ensures p * s * 1.0 + q * s * x + r * s * y == (p + x * q + y * r) * s
  {
  }

  /** For a triangle of non-zero area the three weights of any pixel add up to 1. */
  lemma WeightsSumToOne(a: Vector3, b: Vector3, c: Vector3, x: real, y: real)
    requires TwiceArea(a, b, c) != 0.0
    ensures var w := Weights(BaryGrid(a, b, c), x, y); w[0] + w[1] + w[2] == 1.0
  {
    WeightsFromRaw(a, b, c, x, y);
    RawWeightsSum(a.x, a.y, b.x, b.y, c.x, c.y, x, y);
    InverseAreaInverts(a, b, c);
    SumScaled(RawWeight(a, b, c, 0, x, y), RawWeight(a, b, c, 1, x, y), RawWeight(a, b, c, 2, x, y), InverseArea(a, b, c));
  }

  lemma SumScaled(u0: real, u1: real, u2: real, s: real)
    ensures u0 * s + u1 * s + u2 * s == (u0 + u1 + u2) * s
  {
  }

  /** The raw row `i` against `(1, x, y)`. */
  function RawWeight(a: Vector3, b: Vector3, c: Vector3, i: nat, x: real, y: real): real
    requires i < 3
  {
    var raw := BaryRaw(a, b, c);
    raw[i][0] + x * raw[i][1] + y * raw[i][2]
  }

  /** At the first corner the raw rows give twice the area, 0 and 0. */
  lemma RawWeightsAtFirstCorner(a: Vector3, b: Vector3, c: Vector3)
    ensures RawWeight(a, b, c, 0, a.x, a.y) == TwiceArea(a, b, c)
    ensures RawWeight(a, b, c, 1, a.x, a.y) == 0.0 && RawWeight(a, b, c, 2, a.x, a.y) == 0.0
  {
  }

  /** At the second corner they give 0, twice the area and 0. */
  lemma RawWeightsAtSecondCorner(a: Vector3, b: Vector3, c: Vector3)
    ensures RawWeight(a, b, c, 1, b.x, b.y) == TwiceArea(a, b, c)
    ensures RawWeight(a, b, c, 0, b.x, b.y) == 0.0 && RawWeight(a, b, c, 2, b.x, b.y) == 0.0
  {
  }

  /** At the third corner they give 0, 0 and twice the area. */
  lemma RawWeightsAtThirdCorner(a: Vector3, b: Vector3, c: Vector3)
    ensures RawWeight(a, b, c, 2, c.x, c.y) == TwiceArea(a, b, c)
    ensures RawWeight(a, b, c, 0, c.x, c.y) == 0.0 && RawWeight(a, b, c, 1, c.x, c.y) == 0.0
  {
  }

  /** The scaled weights from the raw ones: `u0 * s`, `u1 * s`, `u2 * s`. */
  lemma WeightsFromRaw(a: Vector3, b: Vector3, c: Vector3, x: real, y: real)
    ensures Weights(BaryGrid(a, b, c), x, y)[0] == RawWeight(a, b, c, 0, x, y) * InverseArea(a, b, c)
    ensures Weights(BaryGrid(a, b, c), x, y)[1] == RawWeight(a, b, c, 1, x, y) * InverseArea(a, b, c)
    ensures Weights(BaryGrid(a, b, c), x, y)[2] == RawWeight(a, b, c, 2, x, y) * InverseArea(a, b, c)
  {
    WeightFromRaw(a, b, c, x, y, 0);
    WeightFromRaw(a, b, c, x, y, 1);
    WeightFromRaw(a, b, c, x, y, 2);
  }

  /** One scaled weight from its raw one. */
  lemma WeightFromRaw(a: Vector3, b: Vector3, c: Vector3, x: real, y: real, i: nat)
    requires i < 3
    ensures Weights(BaryGrid(a, b, c), x, y)[i] == RawWeight(a, b, c, i, x, y) * InverseArea(a, b, c)
  {
    var g, raw, s := BaryGrid(a, b, c), BaryRaw(a, b, c), InverseArea(a, b, c);
    ScaledWeight(g, raw, s, x, y, i);
    assert RawWeight(a, b, c, i, x, y) == raw[i][0] + x * raw[i][1] + y * raw[i][2];
  }

  /** With `d * s == 1`, scaling `d` gives 1 and scaling 0 gives 0. */
  lemma ScaleToUnit(u0: real, u1: real, u2: real, d: real, s: real)
    requires d * s == 1.0 && u0 == d && u1 == 0.0 && u2 == 0.0
    ensures u0 * s == 1.0 && u1 * s == 0.0 && u2 * s == 0.0
  {
  }

  /** The weights at the first corner are `(1, 0, 0)`. */
  lemma WeightsAtFirstCorner(a: Vector3, b: Vector3, c: Vector3)
    requires TwiceArea(a, b, c) != 0.0
    ensures Weights(BaryGrid(a, b, c), a.x, a.y) == [1.0, 0.0, 0.0]
  {
    WeightsFromRaw(a, b, c, a.x, a.y);
    RawWeightsAtFirstCorner(a, b, c);
    InverseAreaInverts(a, b, c);
    ScaleToUnit(RawWeight(a, b, c, 0, a.x, a.y), RawWeight(a, b, c, 1, a.x, a.y), RawWeight(a, b, c, 2, a.x, a.y),
                TwiceArea(a, b, c), InverseArea(a, b, c));
    var w := Weights(BaryGrid(a, b, c), a.x, a.y);
    assert w[0] == RawWeight(a, b, c, 0, a.x, a.y) * InverseArea(a, b, c);
    assert w[1] == RawWeight(a, b, c, 1, a.x, a.y) * InverseArea(a, b, c);
    assert w[2] == RawWeight(a, b, c, 2, a.x, a.y) * InverseArea(a, b, c);
    assert w[0] == 1.0 && w[1] == 0.0 && w[2] == 0.0;
    assert w == [1.0, 0.0, 0.0];
  }

  /** The weights at the second corner are `(0, 1, 0)`. */
  lemma WeightsAtSecondCorner(a: Vector3, b: Vector3, c: Vector3)
    requires TwiceArea(a, b, c) != 0.0
    ensures Weights(BaryGrid(a, b, c), b.x, b.y) == [0.0, 1.0, 0.0]
  {
    WeightsFromRaw(a, b, c, b.x, b.y);
    RawWeightsAtSecondCorner(a, b, c);
    InverseAreaInverts(a, b, c);
    ScaleToUnit(RawWeight(a, b, c, 1, b.x, b.y), RawWeight(a, b, c, 0, b.x, b.y), RawWeight(a, b, c, 2, b.x, b.y),
                TwiceArea(a, b, c), InverseArea(a, b, c));
    var w := Weights(BaryGrid(a, b, c), b.x, b.y);
    assert w[0] == RawWeight(a, b, c, 0, b.x, b.y) * InverseArea(a, b, c);
    assert w[1] == RawWeight(a, b, c, 1, b.x, b.y) * InverseArea(a, b, c);
    assert w[2] == RawWeight(a, b, c, 2, b.x, b.y) * InverseArea(a, b, c);
    assert w[0] == 0.0 && w[1] == 1.0 && w[2] == 0.0;
    assert w == [0.0, 1.0, 0.0];
  }

  /** The weights at the third corner are `(0, 0, 1)`. */
  lemma WeightsAtThirdCorner(a: Vector3, b: Vector3, c: Vector3)
    requires TwiceArea(a, b, c) != 0.0
    ensures Weights(BaryGrid(a, b, c), c.x, c.y) == [0.0, 0.0, 1.0]
  {
    WeightsFromRaw(a, b, c, c.x, c.y);
    RawWeightsAtThirdCorner(a, b, c);
    InverseAreaInverts(a, b, c);
    ScaleToUnit(RawWeight(a, b, c, 2, c.x, c.y), RawWeight(a, b, c, 0, c.x, c.y), RawWeight(a, b, c, 1, c.x, c.y),
                TwiceArea(a, b, c), InverseArea(a, b, c));
    var w := Weights(BaryGrid(a, b, c), c.x, c.y);
    assert w[0] == RawWeight(a, b, c, 0, c.x, c.y) * InverseArea(a, b, c);
    assert w[1] == RawWeight(a, b, c, 1, c.x, c.y) * InverseArea(a, b, c);
    assert w[2] == RawWeight(a, b, c, 2, c.x, c.y) * InverseArea(a, b, c);
    assert w[0] == 0.0 && w[1] == 0.0 && w[2] == 1.0;
    assert w == [0.0, 0.0, 1.0];
  }

  /** The depth `drawPixelRow` interpolates at pixel `(x, y)` from the corners' `z`. */
  function Depth(g: Grid, corners: seq<Vector3>, x: real, y: real): real
    requires Square(g, 3) && |corners| == 3
  {
    var w := Weights(g, x, y);
    w[0] * corners[0].z + w[1] * corners[1].z + w[2] * corners[2].z
  }

  /** At a corner of a triangle of non-zero area the interpolated depth is that corner's own `z`. */
  lemma DepthAtCorners(a: Vector3, b: Vector3, c: Vector3)
    requires TwiceArea(a, b, c) != 0.0
    ensures Depth(BaryGrid(a, b, c), [a, b, c], a.x, a.y) == a.z
    ensures Depth(BaryGrid(a, b, c), [a, b, c], b.x, b.y) == b.z
    ensures Depth(BaryGrid(a, b, c), [a, b, c], c.x, c.y) == c.z
  {
    WeightsAtFirstCorner(a, b, c);
    WeightsAtSecondCorner(a, b, c);
    WeightsAtThirdCorner(a, b, c);
  }

  // ---------------------------------------------------------------------
  // Sorting the corners by y (`rasterizeFace`)
  // ---------------------------------------------------------------------

  /**
   * The branches of `rasterizeFace` that pick `top`, `mid` and `bot` from
   * the three corners using the comparisons `a.y > b.y`, `b.y > c.y` and
   * `c.y > a.y`: a reordering of the corners with `y` not increasing.
   */
  function SortByY(a: Vector3, b: Vector3, c: Vector3): (r: (Vector3, Vector3, Vector3))
    ensures r.0.y >= r.1.y >= r.2.y
  {
    var yAB, yBC, yCA := a.y > b.y, b.y > c.y, c.y > a.y;
    if yAB then
      if yBC then (a, b, c)
      else if yCA then (c, a, b)
      else (a, c, b)
    else
      if !yBC then (c, b, a)
      else if yCA then (b, c, a)
      else (b, a, c)
  }

  /** The three sorted corners are the three given ones, each used once. */
  lemma SortByYPermutes(a: Vector3, b: Vector3, c: Vector3)
    ensures var r := SortByY(a, b, c); multiset{r.0, r.1, r.2} == multiset{a, b, c}
  {
  }
}
