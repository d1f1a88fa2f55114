/**
 * Square matrices as values (`Grid`, a sequence of rows) and the array loops
 * that `Matrix33` and `Matrix44` share. Both Java classes keep a
 * `double[][] mat` and fill fresh arrays with the same nested loops, for size
 * 3 and size 4; the loops are written once here, for size `n`.
 */
module Grids {
  type Grid = seq<seq<real>>

  /** `g` has `n` rows of `n` entries. */
  predicate Square(g: Grid, n: nat) {
    |g| == n && forall r :: 0 <= r < n ==> |g[r]| == n
  }

  /** The first `n` entries of row `r` of a 2-D array. */
  function RowOf(a: array2<real>, r: nat, n: nat): (row: seq<real>)
    reads a
    requires r < a.Length0 && n <= a.Length1
    ensures |row| == n && forall c :: 0 <= c < n ==> row[c] == a[r, c]
  {
    if n == 0 then [] else RowOf(a, r, n - 1) + [a[r, n - 1]]
  }

  /** The first `m` rows of a 2-D array. */
  function RowsOf(a: array2<real>, m: nat): (g: Grid)
    reads a
    requires m <= a.Length0
    ensures |g| == m
    ensures forall r :: 0 <= r < m ==> |g[r]| == a.Length1
    ensures forall r, c :: 0 <= r < m && 0 <= c < a.Length1 ==> g[r][c] == a[r, c]
  {
    if m == 0 then [] else RowsOf(a, m - 1) + [RowOf(a, m - 1, a.Length1)]
  }

  /** The entries of a 2-D array, row by row. */
  function GridOf(a: array2<real>): (g: Grid)
    reads a
    ensures |g| == a.Length0
    ensures forall r :: 0 <= r < a.Length0 ==> |g[r]| == a.Length1
    ensures forall r, c :: 0 <= r < a.Length0 && 0 <= c < a.Length1 ==> g[r][c] == a[r, c]
  {
    RowsOf(a, a.Length0)
  }

  /** Two square grids with the same entries are the same grid. */
  lemma GridEq(g: Grid, h: Grid, n: nat)
    requires Square(g, n) && Square(h, n)
    requires forall r, c :: 0 <= r < n && 0 <= c < n ==> g[r][c] == h[r][c]
    ensures g == h
  {
    forall r | 0 <= r < n
      ensures g[r] == h[r]
    {
      assert forall c :: 0 <= c < n ==> g[r][c] == h[r][c];
    }
  }

  /** `row[0]*v[0] + ... + row[k-1]*v[k-1]`, summed left to right as the Java loops do. */
  function RowDot(row: seq<real>, v: seq<real>, k: nat): real
    requires k <= |row| && k <= |v|
  {
    if k == 0 then 0.0 else RowDot(row, v, k - 1) + row[k - 1] * v[k - 1]
  }

  lemma RowDot3(row: seq<real>, v: seq<real>)
    requires |row| >= 3 && |v| >= 3
    ensures RowDot(row, v, 3) == row[0] * v[0] + row[1] * v[1] + row[2] * v[2]
  {
    assert RowDot(row, v, 1) == row[0] * v[0];
    assert RowDot(row, v, 2) == RowDot(row, v, 1) + row[1] * v[1];
  }

  lemma RowDot4(row: seq<real>, v: seq<real>)
    requires |row| >= 4 && |v| >= 4
    ensures RowDot(row, v, 4) == row[0] * v[0] + row[1] * v[1] + row[2] * v[2] + row[3] * v[3]
  {
    RowDot3(row, v);
  }

  /** Column `c` of an `n`-square grid. */
  function Column(g: Grid, c: nat, n: nat): (col: seq<real>)
    requires Square(g, n) && c < n
    ensures |col| == n && forall i :: 0 <= i < n ==> col[i] == g[i][c]
  {
    seq(n, i requires 0 <= i < n => g[i][c])
  }

  /** The matrix-vector product: entry `r` is row `r` dotted with `v`. */
  function MulVec(g: Grid, v: seq<real>, n: nat): (w: seq<real>)
    requires Square(g, n) && |v| == n
    ensures |w| == n && forall r :: 0 <= r < n ==> w[r] == RowDot(g[r], v, n)
  {
    seq(n, r requires 0 <= r < n => RowDot(g[r], v, n))
  }

  /** The matrix product: entry `(r, c)` is the sum over `i` of `a[r][i] * b[i][c]`. */
  function Product(a: Grid, b: Grid, n: nat): (p: Grid)
    requires Square(a, n) && Square(b, n)
    ensures Square(p, n)
    ensures forall r, c :: 0 <= r < n && 0 <= c < n ==> p[r][c] == RowDot(a[r], Column(b, c, n), n)
  {
    seq(n, r requires 0 <= r < n => seq(n, c requires 0 <= c < n => RowDot(a[r], Column(b, c, n), n)))
  }

  function Transpose(g: Grid, n: nat): (t: Grid)
    requires Square(g, n)
    ensures Square(t, n)
    ensures forall r, c :: 0 <= r < n && 0 <= c < n ==> t[r][c] == g[c][r]
  {
    seq(n, r requires 0 <= r < n => seq(n, c requires 0 <= c < n => g[c][r]))
  }

  /** Every entry multiplied by `s`. */
  function ScaleGrid(g: Grid, s: real, n: nat): (h: Grid)
    requires Square(g, n)
    ensures Square(h, n)
    ensures forall r, c :: 0 <= r < n && 0 <= c < n ==> h[r][c] == g[r][c] * s
  {
    seq(n, r requires 0 <= r < n => seq(n, c requires 0 <= c < n => g[r][c] * s))
  }

  /** Ones on the diagonal, zeros elsewhere. */
  function Identity(n: nat): (g: Grid)
    ensures Square(g, n)
    ensures forall r, c :: 0 <= r < n && 0 <= c < n ==> g[r][c] == if r == c then 1.0 else 0.0
  {
    seq(n, r requires 0 <= r < n => seq(n, c requires 0 <= c < n => if r == c then 1.0 else 0.0))
  }

  /** Transposing twice gives the matrix back. */
  lemma TransposeInvolution(g: Grid, n: nat)
    requires Square(g, n)
    ensures Transpose(Transpose(g, n), n) == g
  {
    GridEq(Transpose(Transpose(g, n), n), g, n);
  }

  /** A dot product against a unit vector picks one entry. */
  lemma {:induction false} RowDotUnit(row: seq<real>, v: seq<real>, k: nat, j: nat)
    requires k <= |row| && k <= |v|
    requires forall i :: 0 <= i < k ==> v[i] == if i == j then 1.0 else 0.0
    ensures RowDot(row, v, k) == if j < k then row[j] else 0.0
  {
    if k > 0 {
      RowDotUnit(row, v, k - 1, j);
    }
  }

  /** The identity matrix maps every vector to itself. */
  lemma MulVecIdentity(v: seq<real>, n: nat)
    requires |v| == n
    ensures MulVec(Identity(n), v, n) == v
  {
    var w := MulVec(Identity(n), v, n);
    forall r | 0 <= r < n
      ensures w[r] == v[r]
    {
      RowDotSymmetric(Identity(n)[r], v, n);
      RowDotUnit(v, Identity(n)[r], n, r);
    }
  }

  lemma {:induction false} RowDotSymmetric(a: seq<real>, b: seq<real>, k: nat)
    requires k <= |a| && k <= |b|
    ensures RowDot(a, b, k) == RowDot(b, a, k)
  {
    if k > 0 {
      RowDotSymmetric(a, b, k - 1);
    }
  }

  /** The identity is a unit of the product on both sides. */
  lemma ProductIdentity(g: Grid, n: nat)
    requires Square(g, n)
    ensures Product(Identity(n), g, n) == g
    ensures Product(g, Identity(n), n) == g
  {
    var left := Product(Identity(n), g, n);
    var right := Product(g, Identity(n), n);
    forall r, c | 0 <= r < n && 0 <= c < n
      ensures left[r][c] == g[r][c] && right[r][c] == g[r][c]
    {
      RowDotSymmetric(Identity(n)[r], Column(g, c, n), n);
      RowDotUnit(Column(g, c, n), Identity(n)[r], n, r);
      RowDotUnit(g[r], Column(Identity(n), c, n), n, c);
    }
    GridEq(left, g, n);
    GridEq(right, g, n);
  }

  /** A fresh `n` by `n` array holding the entries of `g`. */
  method ArrayOf(g: Grid, n: nat) returns (a: array2<real>)
    requires Square(g, n)
    ensures fresh(a) && a.Length0 == n && a.Length1 == n
    ensures GridOf(a) == g
  {
    a := new real[n, n]((_, _) => 0.0);
    for r := 0 to n
      invariant forall i, j :: 0 <= i < r && 0 <= j < n ==> a[i, j] == g[i][j]
    {
      for c := 0 to n
        invariant forall i, j :: 0 <= i < r && 0 <= j < n ==> a[i, j] == g[i][j]
        invariant forall j :: 0 <= j < c ==> a[r, j] == g[r][j]
      {
        a[r, c] := g[r][c];
      }
    }
    GridEq(GridOf(a), g, n);
  }

  /** The innermost loop of `multiply(Matrix)`: cell `(row, col)` accumulates its row-column sum. */
  method AccumulateCell(p: array2<real>, a: array2<real>, b: array2<real>, n: nat, row: nat, col: nat)
    requires a.Length0 == n && a.Length1 == n && b.Length0 == n && b.Length1 == n
    requires p.Length0 == n && p.Length1 == n && row < n && col < n
    requires p != a && p != b
    modifies p
    ensures p[row, col] == old(p[row, col]) + RowDot(GridOf(a)[row], Column(GridOf(b), col, n), n)
    ensures forall i, j :: 0 <= i < n && 0 <= j < n && (i != row || j != col) ==> p[i, j] == old(p[i, j])
  {
    ghost var A, B := GridOf(a), GridOf(b);
    for i := 0 to n
      invariant p[row, col] == old(p[row, col]) + RowDot(A[row], Column(B, col, n), i)
      invariant forall i', j :: 0 <= i' < n && 0 <= j < n && (i' != row || j != col) ==> p[i', j] == old(p[i', j])
    {
      p[row, col] := p[row, col] + a[row, i] * b[i, col];
    }
  }

  /** The triple loop of `multiply(Matrix)`: each cell of a zeroed array accumulates its row-column sum. */
  method MultiplyArrays(a: array2<real>, b: array2<real>, n: nat) returns (p: array2<real>)
    requires a.Length0 == n && a.Length1 == n && b.Length0 == n && b.Length1 == n
    ensures fresh(p) && p.Length0 == n && p.Length1 == n
    ensures GridOf(p) == Product(GridOf(a), GridOf(b), n)
  {
    ghost var A, B := GridOf(a), GridOf(b);
    p := new real[n, n]((_, _) => 0.0);
    for row := 0 to n
      invariant forall i, j :: 0 <= i < n && 0 <= j < n ==>
        p[i, j] == if i < row then RowDot(A[i], Column(B, j, n), n) else 0.0
    {
      for col := 0 to n
        invariant forall i, j :: 0 <= i < n && 0 <= j < n ==>
          p[i, j] == if i < row || (i == row && j < col) then RowDot(A[i], Column(B, j, n), n) else 0.0
      {
        AccumulateCell(p, a, b, n, row, col);
      }
    }
    GridEq(GridOf(p), Product(A, B, n), n);
  }

  /** The loop of `transpose()`: a fresh array with `t[r][c] = mat[c][r]`. */
  method TransposeArray(a: array2<real>, n: nat) returns (t: array2<real>)
    requires a.Length0 == n && a.Length1 == n
    ensures fresh(t) && t.Length0 == n && t.Length1 == n
    ensures GridOf(t) == Transpose(GridOf(a), n)
  {
    t := new real[n, n]((_, _) => 0.0);
    for row := 0 to n
      invariant forall i, j :: 0 <= i < row && 0 <= j < n ==> t[i, j] == a[j, i]
    {
      for col := 0 to n
        invariant forall i, j :: 0 <= i < row && 0 <= j < n ==> t[i, j] == a[j, i]
        invariant forall j :: 0 <= j < col ==> t[row, j] == a[j, row]
      {
        t[row, col] := a[col, row];
      }
    }
    GridEq(GridOf(t), Transpose(GridOf(a), n), n);
  }

  /** The loop of `scale(s)`: every cell of the array itself multiplied by `s`. */
  method ScaleArray(a: array2<real>, s: real, n: nat)
    requires a.Length0 == n && a.Length1 == n
    modifies a
    ensures GridOf(a) == ScaleGrid(old(GridOf(a)), s, n)
  {
    ghost var A := GridOf(a);
    for row := 0 to n
      invariant forall i, j :: 0 <= i < n && 0 <= j < n ==> a[i, j] == if i < row then A[i][j] * s else A[i][j]
    {
      for col := 0 to n
        invariant forall i, j :: 0 <= i < n && 0 <= j < n ==>
          a[i, j] == if i < row || (i == row && j < col) then A[i][j] * s else A[i][j]
      {
        a[row, col] := a[row, col] * s;
      }
    }
    GridEq(GridOf(a), ScaleGrid(A, s, n), n);
  }
}
