/**
 * Matrix33.java: a 3x3 matrix over a `double[][]`. The class keeps the array
 * (`scale` writes into it and the returned matrix shares it); the algebra
 * the methods compute is stated on `Grid` values.
 */
module Mat33 {
  import opened Wrappers
  import opened Vec3
  import opened Grids

  /** The `k`-th index (`k` is 0 or 1) left once index `i` of three is deleted. */
  function Kept(k: nat, i: nat): (j: nat)
    ensures j != i && j < k + 2
  {
    if k < i then k else k + 1
  }

  /** The determinant of the 2x2 minor of `g` with row `row` and column `col` deleted. */
  function MinorDet(g: Grid, row: nat, col: nat): real
    requires Square(g, 3) && row < 3 && col < 3
  {
    g[Kept(0, row)][Kept(0, col)] * g[Kept(1, row)][Kept(1, col)] -
    g[Kept(0, row)][Kept(1, col)] * g[Kept(1, row)][Kept(0, col)]
  }

  /** `Math.pow(-1, k)`. */
  function Sign(k: nat): (s: real)
    ensures s == 1.0 || s == -1.0
  {
    if k == 0 then 1.0 else -Sign(k - 1)
  }

  /** The matrix of signed cofactors, `(-1)^(r+c)` times the minor determinant. */
  function CofactorGrid(g: Grid): (h: Grid)
    requires Square(g, 3)
    ensures Square(h, 3)
    ensures forall r, c :: 0 <= r < 3 && 0 <= c < 3 ==> h[r][c] == Sign(r + c) * MinorDet(g, r, c)
  {
    seq(3, r requires 0 <= r < 3 => seq(3, c requires 0 <= c < 3 => Sign(r + c) * MinorDet(g, r, c)))
  }

  /** The determinant by Laplace expansion along row 0 with the signed cofactors. */
  function Det(g: Grid): real
    requires Square(g, 3)
  {
    RowDot(g[0], CofactorGrid(g)[0], 3)
  }

  function AdjugateGrid(g: Grid): (h: Grid)
    requires Square(g, 3)
    ensures Square(h, 3)
  {
    Transpose(CofactorGrid(g), 3)
  }

  function InverseGrid(g: Grid): (h: Grid)
    requires Square(g, 3) && Det(g) != 0.0
    ensures Square(h, 3)
  {
    ScaleGrid(AdjugateGrid(g), 1.0 / Det(g), 3)
  }

  /** Row `r` of a 3x3 grid as a vector. */
  function RowVec(g: Grid, r: nat): Vector3
    requires Square(g, 3) && r < 3
  {
    Vector3(g[r][0], g[r][1], g[r][2])
  }

  /** Each row of the cofactor matrix is the cross product of the two rows after it, cyclically. */
  lemma CofactorRowsAreCrosses(g: Grid)
    requires Square(g, 3)
    ensures RowVec(CofactorGrid(g), 0) == RowVec(g, 1).Cross(RowVec(g, 2))
    ensures RowVec(CofactorGrid(g), 1) == RowVec(g, 2).Cross(RowVec(g, 0))
    ensures RowVec(CofactorGrid(g), 2) == RowVec(g, 0).Cross(RowVec(g, 1))
  {
    assert Sign(1) == -1.0 && Sign(2) == 1.0 && Sign(3) == -1.0 && Sign(4) == 1.0;
    CofactorRowIsCross(g, 0, 1, 2);
    CofactorRowIsCross(g, 1, 2, 0);
    CofactorRowIsCross(g, 2, 0, 1);
  }

  lemma CofactorRowIsCross(g: Grid, r: nat, s: nat, t: nat)
    requires Square(g, 3) && r < 3 && s < 3 && t < 3
    requires (r, s, t) == (0, 1, 2) || (r, s, t) == (1, 2, 0) || (r, s, t) == (2, 0, 1)
    requires Sign(1) == -1.0 && Sign(2) == 1.0 && Sign(3) == -1.0 && Sign(4) == 1.0
    ensures RowVec(CofactorGrid(g), r) == RowVec(g, s).Cross(RowVec(g, t))
  {
    var h := CofactorGrid(g);
    var c := RowVec(g, s).Cross(RowVec(g, t));
    assert h[r][0] == c.x;
    assert h[r][1] == c.y;
    assert h[r][2] == c.z;
  }

  lemma RowDotIsDot(g: Grid, h: Grid, r: nat, c: nat)
    requires Square(g, 3) && Square(h, 3) && r < 3 && c < 3
    ensures RowDot(g[r], h[c], 3) == RowVec(g, r).Dot(RowVec(h, c))
  {
    RowDot3(g[r], h[c]);
  }

  /** A 3x3 matrix times a vector, row by row. */
  lemma MulVecByRows(g: Grid, v: Vector3)
    requires Square(g, 3)
    ensures MulVec(g, v.ToArray(), 3) ==
      [v.x * g[0][0] + v.y * g[0][1] + v.z * g[0][2],
       v.x * g[1][0] + v.y * g[1][1] + v.z * g[1][2],
       v.x * g[2][0] + v.y * g[2][1] + v.z * g[2][2]]
  {
    var w := MulVec(g, v.ToArray(), 3);
    RowDot3(g[0], v.ToArray());
    RowDot3(g[1], v.ToArray());
    RowDot3(g[2], v.ToArray());
    assert w[0] == v.x * g[0][0] + v.y * g[0][1] + v.z * g[0][2];
    assert w[1] == v.x * g[1][0] + v.y * g[1][1] + v.z * g[1][2];
    assert w[2] == v.x * g[2][0] + v.y * g[2][1] + v.z * g[2][2];
  }

  /**
   * Row `r` of `g` dotted with row `c` of its cofactor matrix: the determinant
   * when `r == c` (the triple product, read cyclically), zero otherwise (a
   * cross product is orthogonal to its operands).
   */
  lemma CofactorRowDots(g: Grid, r: nat, c: nat)
    requires Square(g, 3) && r < 3 && c < 3
    ensures RowDot(g[r], CofactorGrid(g)[c], 3) == if r == c then Det(g) else 0.0
  {
    var h := CofactorGrid(g);
    var u0, u1, u2 := RowVec(g, 0), RowVec(g, 1), RowVec(g, 2);
    CofactorRowsAreCrosses(g);
    RowDotIsDot(g, h, r, c);
    RowDotIsDot(g, h, 0, 0);
    if r == c {
      TripleProductCyclic(u0, u1, u2);
      TripleProductCyclic(u1, u2, u0);
    } else {
      assert RowVec(g, r) == u0 || RowVec(g, r) == u1 || RowVec(g, r) == u2;
      CrossOrthogonal(u1, u2);
      CrossOrthogonal(u2, u0);
      CrossOrthogonal(u0, u1);
    }
  }

  /** `M * adjugate(M) = det(M) * I`. */
  lemma AdjugateProduct(g: Grid)
    requires Square(g, 3)
    ensures Product(g, AdjugateGrid(g), 3) == ScaleGrid(Identity(3), Det(g), 3)
  {
    var h := CofactorGrid(g);
    var adj := AdjugateGrid(g);
    var p := Product(g, adj, 3);
    var e := ScaleGrid(Identity(3), Det(g), 3);
    forall r, c | 0 <= r < 3 && 0 <= c < 3
      ensures p[r][c] == e[r][c]
    {
      assert Column(adj, c, 3) == h[c];
      CofactorRowDots(g, r, c);
    }
    GridEq(p, e, 3);
  }

  /** Scaling the right factor scales the product. */
  lemma ProductScaleRight(a: Grid, b: Grid, s: real, n: nat)
    requires Square(a, n) && Square(b, n)
    ensures Product(a, ScaleGrid(b, s, n), n) == ScaleGrid(Product(a, b, n), s, n)
  {
    var lhs := Product(a, ScaleGrid(b, s, n), n);
    var rhs := ScaleGrid(Product(a, b, n), s, n);
    forall r, c | 0 <= r < n && 0 <= c < n
      ensures lhs[r][c] == rhs[r][c]
    {
      RowDotScale(a[r], Column(b, c, n), Column(ScaleGrid(b, s, n), c, n), s, n);
    }
    GridEq(lhs, rhs, n);
  }

  lemma {:induction false} RowDotScale(u: seq<real>, v: seq<real>, w: seq<real>, s: real, k: nat)
    requires k <= |u| && k <= |v| && k <= |w|
    requires forall i :: 0 <= i < k ==> w[i] == v[i] * s
    ensures RowDot(u, w, k) == RowDot(u, v, k) * s
  {
    if k > 0 {
      RowDotScale(u, v, w, s, k - 1);
      var a, b, x := RowDot(u, v, k - 1), u[k - 1], v[k - 1];
      assert w[k - 1] == x * s;
      Distribute(a, b, x, s);
    }
  }

  lemma Distribute(a: real, b: real, x: real, s: real)
    ensures a * s + b * (x * s) == (a + b * x) * s
  {
  }

  /** `M * inverse(M) = I` whenever the determinant is non-zero. */
  lemma InverseProduct(g: Grid)
    requires Square(g, 3) && Det(g) != 0.0
    ensures Product(g, InverseGrid(g), 3) == Identity(3)
  {
    var d := Det(g);
    ProductScaleRight(g, AdjugateGrid(g), 1.0 / d, 3);
    AdjugateProduct(g);
    var lhs := ScaleGrid(ScaleGrid(Identity(3), d, 3), 1.0 / d, 3);
    forall r, c | 0 <= r < 3 && 0 <= c < 3
      ensures lhs[r][c] == Identity(3)[r][c]
    {
    }
    GridEq(lhs, Identity(3), 3);
  }

  class Matrix33 {
    const mat: array2<real>

    /** The array is 3x3, as the array constructor insists. */
    predicate Valid()
      reads this
    {
      mat.Length0 == 3 && mat.Length1 == 3
    }

    function Entries(): (g: Grid)
      reads this, mat
      requires Valid()
      ensures Square(g, 3)
    {
      GridOf(mat)
    }

    /** `new Matrix33(mat)` once its dimension check has passed: the array is kept, not copied. */
    constructor Wrap(m: array2<real>)
      requires m.Length0 == 3 && m.Length1 == 3
      ensures mat == m && Valid()
    {
      mat := m;
    }

    /**
     * `new Matrix33(mat)`: `None` where the Java constructor prints an error
     * and exits because the array is not 3x3.
     */
    static method FromArray(m: array2<real>) returns (r: Option<Matrix33>)
      ensures r.Some? <==> m.Length0 == 3 && m.Length1 == 3
      ensures r.Some? ==> fresh(r.value) && r.value.mat == m && r.value.Valid()
    {
      if m.Length0 != 3 || m.Length1 != 3 {
        return None;
      }
      var w := new Matrix33.Wrap(m);
      return Some(w);
    }

    /** `multiply(Vector3)`: the matrix-vector product. */
    function MultiplyVector(v: Vector3): (r: Vector3)
      reads this, mat
      requires Valid()
      ensures r.ToArray() == MulVec(Entries(), v.ToArray(), 3)
    {
      var g := Entries();
      MulVecByRows(g, v);
      assert g[0][0] == mat[0, 0] && g[0][1] == mat[0, 1] && g[0][2] == mat[0, 2];
      assert g[1][0] == mat[1, 0] && g[1][1] == mat[1, 1] && g[1][2] == mat[1, 2];
      assert g[2][0] == mat[2, 0] && g[2][1] == mat[2, 1] && g[2][2] == mat[2, 2];
      var r := Vector3(
        v.x * mat[0, 0] + v.y * mat[0, 1] + v.z * mat[0, 2],
        v.x * mat[1, 0] + v.y * mat[1, 1] + v.z * mat[1, 2],
        v.x * mat[2, 0] + v.y * mat[2, 1] + v.z * mat[2, 2]);
      var w := MulVec(g, v.ToArray(), 3);
      assert w[0] == r.x;
      assert w[1] == r.y;
      assert w[2] == r.z;
      assert [r.x, r.y, r.z] == w;
      r
    }

    /** `multiply(Matrix33)`: a new matrix over a fresh array holding the product. */
    method Multiply(m: Matrix33) returns (r: Matrix33)
      requires Valid() && m.Valid()
      ensures fresh(r) && fresh(r.mat) && r.Valid()
      ensures r.Entries() == Product(Entries(), m.Entries(), 3)
    {
      var p := MultiplyArrays(mat, m.mat, 3);
      r := new Matrix33.Wrap(p);
    }

    /** `transpose()`: a new matrix over a fresh array. */
    method Transpose() returns (r: Matrix33)
      requires Valid()
      ensures fresh(r) && fresh(r.mat) && r.Valid()
      ensures r.Entries() == Grids.Transpose(Entries(), 3)
    {
      var t := TransposeArray(mat, 3);
      r := new Matrix33.Wrap(t);
    }

    /**
     * `cofactor(row, col)`: picks the two rows and columns other than `row`
     * and `col` by comparisons and returns their 2x2 determinant, which is the
     * determinant of the minor.
     */
    function Cofactor(row: int, col: int): (r: real)
      reads this, mat
      requires Valid()
      ensures 0 <= row < 3 && 0 <= col < 3 ==> r == MinorDet(Entries(), row, col)
    {
      var a1 := mat[if row == 0 then 1 else 0, if col == 0 then 1 else 0];
      var a2 := mat[if row == 0 then 1 else 0, if col == 2 then 1 else 2];
      var b1 := mat[if row == 2 then 1 else 2, if col == 0 then 1 else 0];
      var b2 := mat[if row == 2 then 1 else 2, if col == 2 then 1 else 2];
      a1 * b2 - a2 * b1
    }

    /** `cofactorMatrix()`: a fresh matrix of `(-1)^(row+col) * cofactor(row, col)`. */
    method CofactorMatrix() returns (r: Matrix33)
      requires Valid()
      ensures fresh(r) && fresh(r.mat) && r.Valid()
      ensures r.Entries() == CofactorGrid(Entries())
    {
      ghost var g := Entries();
      var c := new real[3, 3]((_, _) => 0.0);
      for row := 0 to 3
        invariant forall i, j :: 0 <= i < row && 0 <= j < 3 ==> c[i, j] == CofactorGrid(g)[i][j]
      {
        for col := 0 to 3
          invariant forall i, j :: 0 <= i < row && 0 <= j < 3 ==> c[i, j] == CofactorGrid(g)[i][j]
          invariant forall j :: 0 <= j < col ==> c[row, j] == CofactorGrid(g)[row][j]
        {
          c[row, col] := Sign(row + col) * Cofactor(row, col);
        }
      }
      GridEq(GridOf(c), CofactorGrid(g), 3);
      r := new Matrix33.Wrap(c);
    }

    /** `adjugate()`: the transpose of the cofactor matrix. */
    method Adjugate() returns (r: Matrix33)
      requires Valid()
      ensures fresh(r) && fresh(r.mat) && r.Valid()
      ensures r.Entries() == AdjugateGrid(Entries())
    {
      var c := CofactorMatrix();
      r := c.Transpose();
    }

    /** `determinant()`: the closed form equals the row-0 Laplace expansion. */
    function Determinant(): (d: real)
      reads this, mat
      requires Valid()
      ensures d == Det(Entries())
    {
      CofactorRowsAreCrosses(Entries());
      RowDotIsDot(Entries(), CofactorGrid(Entries()), 0, 0);
      mat[0, 0] * (mat[1, 1] * mat[2, 2] - mat[1, 2] * mat[2, 1]) -
      mat[0, 1] * (mat[1, 0] * mat[2, 2] - mat[1, 2] * mat[2, 0]) +
      mat[0, 2] * (mat[1, 0] * mat[2, 1] - mat[1, 1] * mat[2, 0])
    }

    /** `inverse()`: the adjugate scaled in place by `1 / determinant()`. */
    method Inverse() returns (r: Matrix33)
      requires Valid() && Determinant() != 0.0
      ensures fresh(r) && fresh(r.mat) && r.Valid()
      ensures r.Entries() == InverseGrid(Entries())
    {
      var adj := Adjugate();
      r := adj.Scale(1.0 / Determinant());
    }

    /** `scale(s)`: multiplies every entry of this matrix's own array; the result shares that array. */
    method Scale(s: real) returns (r: Matrix33)
      requires Valid()
      modifies mat
      ensures fresh(r) && r.mat == mat && r.Valid()
      ensures Entries() == ScaleGrid(old(Entries()), s, 3)
    {
      ScaleArray(mat, s, 3);
      r := new Matrix33.Wrap(mat);
    }
  }
}
