/**
 * Matrix44.java: a 4x4 matrix over a `double[][]`, used for homogeneous
 * transforms. `addTranslation` and `scale` write into the receiver's own
 * array and return a matrix sharing it.
 */
module Mat44 {
  import opened Wrappers
  import opened Vec3
  import opened Vec4
  import opened Grids
  import Mat33

  /** The homogeneous coordinates `[x, y, z, w]`. */
  function Point(v: Vector3, w: real): (p: seq<real>)
    ensures |p| == 4
  {
    [v.x, v.y, v.z, w]
  }

  /** The upper-left 3x3 block. */
  function UpperLeft(g: Grid): (h: Grid)
    requires Square(g, 4)
    ensures Square(h, 3)
    ensures forall r, c :: 0 <= r < 3 && 0 <= c < 3 ==> h[r][c] == g[r][c]
  {
    seq(3, r requires 0 <= r < 3 => seq(3, c requires 0 <= c < 3 => g[r][c]))
  }

  /** The identity with `t` in rows 0 to 2 of column 3. */
  function TranslationGrid(t: Vector3): (g: Grid)
    ensures Square(g, 4)
  {
    [[1.0, 0.0, 0.0, t.x], [0.0, 1.0, 0.0, t.y], [0.0, 0.0, 1.0, t.z], [0.0, 0.0, 0.0, 1.0]]
  }

  /** The diagonal matrix `(s.x, s.y, s.z, 1)`. */
  function ScaleDiagonal(s: Vector3): (g: Grid)
    ensures Square(g, 4)
  {
    [[s.x, 0.0, 0.0, 0.0], [0.0, s.y, 0.0, 0.0], [0.0, 0.0, s.z, 0.0], [0.0, 0.0, 0.0, 1.0]]
  }

  /** `g` with `t` added to rows 0 to 2 of column 3. */
  function WithTranslation(g: Grid, t: Vector3): (h: Grid)
    requires Square(g, 4)
    ensures Square(h, 4)
    ensures forall r, c :: 0 <= r < 4 && 0 <= c < 4 ==>
      h[r][c] == if c == 3 && r < 3 then g[r][c] + [t.x, t.y, t.z][r] else g[r][c]
  {
    seq(4, r requires 0 <= r < 4 => seq(4, c requires 0 <= c < 4 =>
      if c == 3 && r < 3 then g[r][c] + [t.x, t.y, t.z][r] else g[r][c]))
  }

  /** A 4x4 matrix times a homogeneous point, row by row. */
  lemma MulVecByRows4(g: Grid, p: seq<real>)
    requires Square(g, 4) && |p| == 4
    ensures forall r :: 0 <= r < 4 ==>
      MulVec(g, p, 4)[r] == p[0] * g[r][0] + p[1] * g[r][1] + p[2] * g[r][2] + p[3] * g[r][3]
  {
    forall r | 0 <= r < 4
      ensures MulVec(g, p, 4)[r] == p[0] * g[r][0] + p[1] * g[r][1] + p[2] * g[r][2] + p[3] * g[r][3]
    {
      RowDot4(g[r], p);
    }
  }

  /** The translation matrix moves a point (`w = 1`) by `t` and keeps `w`. */
  lemma TranslationMovesPoint(t: Vector3, v: Vector3)
    ensures MulVec(TranslationGrid(t), Point(v, 1.0), 4) == Point(v.Add(t), 1.0)
  {
    var g, p := TranslationGrid(t), Point(v, 1.0);
    MulVecByRows4(g, p);
    assert MulVec(g, p, 4)[0] == v.x + t.x;
    assert MulVec(g, p, 4)[1] == v.y + t.y;
    assert MulVec(g, p, 4)[2] == v.z + t.z;
    assert MulVec(g, p, 4)[3] == 1.0;
  }

  /** Adding a translation to a matrix adds `w * t` to the image of every point. */
  lemma WithTranslationMovesImage(g: Grid, t: Vector3, v: Vector3, w: real)
    requires Square(g, 4)
    ensures var before, after := MulVec(g, Point(v, w), 4), MulVec(WithTranslation(g, t), Point(v, w), 4);
      after[0] == before[0] + w * t.x && after[1] == before[1] + w * t.y &&
      after[2] == before[2] + w * t.z && after[3] == before[3]
  {
    MulVecByRows4(g, Point(v, w));
    MulVecByRows4(WithTranslation(g, t), Point(v, w));
  }

  /** The scale matrix multiplies a point componentwise and keeps `w`. */
  lemma ScaleDiagonalScalesPoint(s: Vector3, v: Vector3, w: real)
    ensures MulVec(ScaleDiagonal(s), Point(v, w), 4) == Point(v.ScaleBy(s), w)
  {
    var g, p := ScaleDiagonal(s), Point(v, w);
    MulVecByRows4(g, p);
    assert MulVec(g, p, 4)[0] == v.x * s.x;
    assert MulVec(g, p, 4)[1] == v.y * s.y;
    assert MulVec(g, p, 4)[2] == v.z * s.z;
    assert MulVec(g, p, 4)[3] == w;
    var u := v.ScaleBy(s);
    assert u.x == v.x * s.x && u.y == v.y * s.y && u.z == v.z * s.z;
    assert MulVec(g, p, 4) == [v.x * s.x, v.y * s.y, v.z * s.z, w];
    assert Point(u, w) == [u.x, u.y, u.z, w];
  }

  class Matrix44 {
    const mat: array2<real>

    /** The array is 4x4, as the array constructor insists. */
    predicate Valid()
      reads this
    {
      mat.Length0 == 4 && mat.Length1 == 4
    }

    function Entries(): (g: Grid)
      reads this, mat
      requires Valid()
      ensures Square(g, 4)
    {
      GridOf(mat)
    }

    /** `new Matrix44(mat)` once its dimension check has passed: the array is kept, not copied. */
    constructor Wrap(m: array2<real>)
      requires m.Length0 == 4 && m.Length1 == 4
      ensures mat == m && Valid()
    {
      mat := m;
    }

    /** `new Matrix44()`: the identity, over a fresh array. */
    constructor ()
      ensures Valid() && fresh(mat)
      ensures Entries() == Identity(4)
    {
      var m := ArrayOf(Identity(4), 4);
      mat := m;
    }

    /**
     * `new Matrix44(mat)`: `None` where the Java constructor prints an error
     * and exits because the array is not 4x4.
     */
    static method FromArray(m: array2<real>) returns (r: Option<Matrix44>)
      ensures r.Some? <==> m.Length0 == 4 && m.Length1 == 4
      ensures r.Some? ==> fresh(r.value) && r.value.mat == m && r.value.Valid()
    {
      if m.Length0 != 4 || m.Length1 != 4 {
        return None;
      }
      var w := new Matrix44.Wrap(m);
      return Some(w);
    }

    /** A matrix built from a literal grid, as `new Matrix44(new double[][] {...})` does. */
    static method FromGrid(g: Grid) returns (r: Matrix44)
      requires Square(g, 4)
      ensures fresh(r) && fresh(r.mat) && r.Valid() && r.Entries() == g
    {
      var m := ArrayOf(g, 4);
      r := new Matrix44.Wrap(m);
    }

    /** `multiply(Vector3, w)`: the product with the homogeneous point `(v, w)`. */
    function MultiplyPoint(v: Vector3, w: real): (r: Vector4)
      reads this, mat
      requires Valid()
      ensures r.AsArray() == MulVec(Entries(), Point(v, w), 4)
    {
      var g := Entries();
      MulVecByRows4(g, Point(v, w));
      var r := Vector4(
        v.x * mat[0, 0] + v.y * mat[0, 1] + v.z * mat[0, 2] + w * mat[0, 3],
        v.x * mat[1, 0] + v.y * mat[1, 1] + v.z * mat[1, 2] + w * mat[1, 3],
        v.x * mat[2, 0] + v.y * mat[2, 1] + v.z * mat[2, 2] + w * mat[2, 3],
        v.x * mat[3, 0] + v.y * mat[3, 1] + v.z * mat[3, 2] + w * mat[3, 3]);
      var p := MulVec(g, Point(v, w), 4);
      assert p[0] == r.x && p[1] == r.y && p[2] == r.z && p[3] == r.w;
      assert r.AsArray() == p;
      r
    }

    /** `multiply(Matrix44)`: a new matrix over a fresh array holding the product. */
    method Multiply(m: Matrix44) returns (r: Matrix44)
      requires Valid() && m.Valid()
      ensures fresh(r) && fresh(r.mat) && r.Valid()
      ensures r.Entries() == Product(Entries(), m.Entries(), 4)
    {
      var p := MultiplyArrays(mat, m.mat, 4);
      r := new Matrix44.Wrap(p);
    }

    /** `getRotation()`: a fresh 3x3 copy of the upper-left block. */
    method GetRotation() returns (r: Mat33.Matrix33)
      requires Valid()
      ensures fresh(r) && fresh(r.mat) && r.Valid()
      ensures r.Entries() == UpperLeft(Entries())
    {
      var rot := new real[3, 3]((_, _) => 0.0);
      for row := 0 to 3
        invariant forall i, j :: 0 <= i < 3 && 0 <= j < 3 ==> rot[i, j] == if i < row then mat[i, j] else 0.0
      {
        for col := 0 to 3
          invariant forall i, j :: 0 <= i < 3 && 0 <= j < 3 ==>
            rot[i, j] == if i < row || (i == row && j < col) then mat[i, j] else 0.0
        {
          rot[row, col] := rot[row, col] + mat[row, col];
        }
      }
      GridEq(GridOf(rot), UpperLeft(Entries()), 3);
      r := new Mat33.Matrix33.Wrap(rot);
    }

    /** `fromTranslation(t)`: the identity with `t` added into column 3. */
    static method FromTranslation(t: Vector3) returns (r: Matrix44)
      ensures fresh(r) && fresh(r.mat) && r.Valid()
      ensures r.Entries() == TranslationGrid(t)
    {
      var m := new real[4, 4]((_, _) => 0.0);
      m[0, 0] := 1.0;
      m[1, 1] := 1.0;
      m[2, 2] := 1.0;
      m[3, 3] := 1.0;
      m[0, 3] := m[0, 3] + t.x;
      m[1, 3] := m[1, 3] + t.y;
      m[2, 3] := m[2, 3] + t.z;
      forall r, c | 0 <= r < 4 && 0 <= c < 4
        ensures m[r, c] == TranslationGrid(t)[r][c]
      {
        if r == 0 {} else if r == 1 {} else if r == 2 {} else {}
      }
      GridEq(GridOf(m), TranslationGrid(t), 4);
      r := new Matrix44.Wrap(m);
    }

    /** `fromScale(s)`: the diagonal `(s.x, s.y, s.z, 1)`. */
    static method FromScale(s: Vector3) returns (r: Matrix44)
      ensures fresh(r) && fresh(r.mat) && r.Valid()
      ensures r.Entries() == ScaleDiagonal(s)
    {
      var m := new real[4, 4]((_, _) => 0.0);
      m[0, 0] := s.x;
      m[1, 1] := s.y;
      m[2, 2] := s.z;
      m[3, 3] := 1.0;
      forall r, c | 0 <= r < 4 && 0 <= c < 4
        ensures m[r, c] == ScaleDiagonal(s)[r][c]
      {
        if r == 0 {} else if r == 1 {} else if r == 2 {} else {}
      }
      GridEq(GridOf(m), ScaleDiagonal(s), 4);
      r := new Matrix44.Wrap(m);
    }

    /** `addTranslation(t)`: adds `t` into column 3 of this matrix's own array; the result shares it. */
    method AddTranslation(t: Vector3) returns (r: Matrix44)
      requires Valid()
      modifies mat
      ensures fresh(r) && r.mat == mat && r.Valid()
      ensures Entries() == WithTranslation(old(Entries()), t)
    {
      ghost var g := Entries();
      mat[0, 3] := mat[0, 3] + t.x;
      mat[1, 3] := mat[1, 3] + t.y;
      mat[2, 3] := mat[2, 3] + t.z;
      GridEq(Entries(), WithTranslation(g, t), 4);
      r := new Matrix44.Wrap(mat);
    }

    /** `transpose()`: a new matrix over a fresh array. */
    method Transpose() returns (r: Matrix44)
      requires Valid()
      ensures fresh(r) && fresh(r.mat) && r.Valid()
      ensures r.Entries() == Grids.Transpose(Entries(), 4)
    {
      var t := TransposeArray(mat, 4);
      r := new Matrix44.Wrap(t);
    }

    /** `scale(s)`: multiplies every entry of this matrix's own array; the result shares that array. */
    method Scale(s: real) returns (r: Matrix44)
      requires Valid()
      modifies mat
      ensures fresh(r) && r.mat == mat && r.Valid()
      ensures Entries() == ScaleGrid(old(Entries()), s, 4)
    {
      ScaleArray(mat, s, 4);
      r := new Matrix44.Wrap(mat);
    }
  }

  /** The identity matrix maps every homogeneous point `(v, w)` to itself. */
  lemma IdentityKeepsPoint(v: Vector3, w: real)
    ensures MulVec(Identity(4), Point(v, w), 4) == Point(v, w)
  {
    MulVecIdentity(Point(v, w), 4);
  }
}
