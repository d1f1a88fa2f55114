/**
 * Quaternion.java: rotation quaternions `w + v` with a real part and a
 * vector of imaginary parts. Every operation builds a new quaternion, so the
 * type is a datatype. The quaternion rotations of `Vector3` (`rotate`,
 * `rotate` about an origin and `activeRotate` in Vector3.java) live here
 * because they are built from the quaternion product.
 */
module Quaternions {
  import opened Vec3
  import opened Grids
  import Mat44
  import JavaMath

  /**
   * The standard Hamilton product `a * b`, written out component by component.
   * It is the reference the Java `multiply` is measured against.
   */
  function Hamilton(a: Quaternion, b: Quaternion): Quaternion {
    Quaternion(
      a.w * b.w - a.v.x * b.v.x - a.v.y * b.v.y - a.v.z * b.v.z,
      Vector3(
        a.w * b.v.x + a.v.x * b.w + a.v.y * b.v.z - a.v.z * b.v.y,
        a.w * b.v.y - a.v.x * b.v.z + a.v.y * b.w + a.v.z * b.v.x,
        a.w * b.v.z + a.v.x * b.v.y - a.v.y * b.v.x + a.v.z * b.w))
  }

  /** `new Quaternion()`: real part 1, zero vector. */
  const IdentityQuaternion := Quaternion(1.0, Origin)

  datatype Quaternion = Quaternion(w: real, v: Vector3) {

    /**
     * `multiply(q)`: the real part is `w*q.w - v.q.v` and the vector part
     * `w*q.v + q.w*v + q.v x v`. The cross product has its operands in the
     * order opposite to the textbook formula, so `a.Multiply(b)` is the
     * Hamilton product `b * a`.
     */
    function Multiply(q: Quaternion): (r: Quaternion)
      ensures r == Hamilton(q, this)
    {
      Quaternion(w * q.w - v.Dot(q.v), q.v.Scale(w).Add(v.Scale(q.w)).Add(q.v.Cross(v)))
    }

    /** `conjugate()`: the same real part, the vector part negated. */
    function Conjugate(): (r: Quaternion)
      ensures r.w == w && r.v.Add(v) == Origin
    {
      Quaternion(w, v.Scale(-1.0))
    }

    /** `add`: componentwise; subtracting the argument again gives this quaternion back. */
    function Add(q: Quaternion): (r: Quaternion)
      ensures r.Subtract(q) == this
    {
      Quaternion(w + q.w, v.Add(q.v))
    }

    /** `subtract`: componentwise; the difference is zero exactly when the two are equal. */
    function Subtract(q: Quaternion): (r: Quaternion)
      ensures r == Quaternion(0.0, Origin) <==> this == q
    {
      Quaternion(w - q.w, v.Subtract(q.v))
    }

    /** `dot`: the four-component dot product. */
    function Dot(q: Quaternion): real {
      w * q.w + v.Dot(q.v)
    }

    /** `equalsOrientation(q)`: the absolute dot product exceeds `1 - 0.000001`. */
    function EqualsOrientation(q: Quaternion): bool {
      JavaMath.Abs(Dot(q)) > 1.0 - 0.000001
    }

    /**
     * `getAxis()`, with `Math.sin` and `Math.acos` as parameters: the zero
     * vector for the identity rotation (`w == 1`), otherwise the vector part
     * divided by `sin(angle / 2)` where `angle = 2 * acos(w)`.
     */
    function GetAxis(sin: real -> real, acos: real -> real): (r: Vector3)
      requires w == 1.0 || sin(2.0 * acos(w) / 2.0) != 0.0
      ensures w == 1.0 ==> r == Origin
      ensures w != 1.0 ==> r.Scale(sin(2.0 * acos(w) / 2.0)) == v
    {
      if w != 1.0 then
        var sA := sin(2.0 * acos(w) / 2.0);
        Vector3(v.x / sA, v.y / sA, v.z / sA)
      else
        Origin
    }

    /** `rotationMatrix()`: a fresh 4x4 matrix holding `RotationGrid` of this quaternion. */
    method RotationMatrix() returns (m: Mat44.Matrix44)
      ensures fresh(m) && fresh(m.mat) && m.Valid()
      ensures m.Entries() == RotationGrid(this)
    {
      m := Mat44.Matrix44.FromGrid(RotationGrid(this));
    }
  }

  /** The entries `rotationMatrix` fills in: a rotation block and `(0, 0, 0, 1)` on the border. */
  function RotationGrid(q: Quaternion): (g: Grid)
    ensures Square(g, 4)
  {
    var w, x, y, z := q.w, q.v.x, q.v.y, q.v.z;
    [[1.0 - 2.0 * y * y - 2.0 * z * z, 2.0 * x * y - 2.0 * w * z, 2.0 * x * z + 2.0 * w * y, 0.0],
     [2.0 * x * y + 2.0 * w * z, 1.0 - 2.0 * x * x - 2.0 * z * z, 2.0 * y * z - 2.0 * w * x, 0.0],
     [2.0 * x * z - 2.0 * w * y, 2.0 * y * z + 2.0 * w * x, 1.0 - 2.0 * x * x - 2.0 * y * y, 0.0],
     [0.0, 0.0, 0.0, 1.0]]
  }

  /** A vector as a pure quaternion, `new Quaternion(0, v)`. */
  function Pure(v: Vector3): Quaternion {
    Quaternion(0.0, v)
  }

  /**
   * `Vector3.rotate(q)`: the vector part of `q.multiply((0, v)).multiply(q.conjugate())`,
   * which is `conj(q) * v * q` in Hamilton order, a passive rotation.
   */
  function Rotate(v: Vector3, q: Quaternion): (r: Vector3)
    ensures r == Hamilton(Hamilton(q.Conjugate(), Pure(v)), q).v
  {
    q.Multiply(Pure(v)).Multiply(q.Conjugate()).v
  }

  /** `Vector3.rotate(q, origin)`: rotation about `o` instead of the origin. */
  function RotateAbout(v: Vector3, q: Quaternion, o: Vector3): (r: Vector3)
    ensures r == Rotate(v.Subtract(o), q).Add(o)
  {
    q.Multiply(Pure(v.Subtract(o))).Multiply(q.Conjugate()).v.Add(o)
  }

  /** `Vector3.activeRotate(q)`: `q * v * conj(q)` in Hamilton order, the rotation by the conjugate. */
  function ActiveRotate(v: Vector3, q: Quaternion): (r: Vector3)
    ensures r == Rotate(v, q.Conjugate())
  {
    ConjugateInvolution(q);
    q.Conjugate().Multiply(Pure(v)).Multiply(q).v
  }

  /** The identity quaternion is a two-sided unit of `multiply`. */
  lemma IdentityIsUnit(q: Quaternion)
    ensures IdentityQuaternion.Multiply(q) == q && q.Multiply(IdentityQuaternion) == q
  {
  }

  /** Conjugating twice gives the quaternion back. */
  lemma ConjugateInvolution(q: Quaternion)
    ensures q.Conjugate().Conjugate() == q
  {
  }

  /**
   * Associativity of the Hamilton product, one component at a time: each
   * component is an identity between real polynomials in the twelve
   * components of the three factors.
   */
  lemma HamiltonPolynomialW(aw: real, ax: real, ay: real, az: real, bw: real, bx: real, b_y: real, bz: real,
                            cw: real, cx: real, cy: real, cz: real,
                            lw: real, lx: real, ly: real, lz: real, rw: real, rx: real, ry: real, rz: real)
    requires lw == aw * bw - ax * bx - ay * b_y - az * bz
    requires lx == aw * bx + ax * bw + ay * bz - az * b_y
    requires ly == aw * b_y - ax * bz + ay * bw + az * bx
    requires lz == aw * bz + ax * b_y - ay * bx + az * bw
    requires rw == bw * cw - bx * cx - b_y * cy - bz * cz
    requires rx == bw * cx + bx * cw + b_y * cz - bz * cy
    requires ry == bw * cy - bx * cz + b_y * cw + bz * cx
    requires rz == bw * cz + bx * cy - b_y * cx + bz * cw
    ensures lw * cw - lx * cx - ly * cy - lz * cz == aw * rw - ax * rx - ay * ry - az * rz
  {
    assert lw * cw == (aw * bw - ax * bx - ay * b_y - az * bz) * cw;
    assert lx * cx == (aw * bx + ax * bw + ay * bz - az * b_y) * cx;
    assert ly * cy == (aw * b_y - ax * bz + ay * bw + az * bx) * cy;
    assert lz * cz == (aw * bz + ax * b_y - ay * bx + az * bw) * cz;
    assert aw * rw == aw * (bw * cw - bx * cx - b_y * cy - bz * cz);
    assert ax * rx == ax * (bw * cx + bx * cw + b_y * cz - bz * cy);
    assert ay * ry == ay * (bw * cy - bx * cz + b_y * cw + bz * cx);
    assert az * rz == az * (bw * cz + bx * cy - b_y * cx + bz * cw);
  }

  lemma HamiltonPolynomialX(aw: real, ax: real, ay: real, az: real, bw: real, bx: real, b_y: real, bz: real,
                            cw: real, cx: real, cy: real, cz: real,
                            lw: real, lx: real, ly: real, lz: real, rw: real, rx: real, ry: real, rz: real)
    requires lw == aw * bw - ax * bx - ay * b_y - az * bz
    requires lx == aw * bx + ax * bw + ay * bz - az * b_y
    requires ly == aw * b_y - ax * bz + ay * bw + az * bx
    requires lz == aw * bz + ax * b_y - ay * bx + az * bw
    requires rw == bw * cw - bx * cx - b_y * cy - bz * cz
    requires rx == bw * cx + bx * cw + b_y * cz - bz * cy
    requires ry == bw * cy - bx * cz + b_y * cw + bz * cx
    requires rz == bw * cz + bx * cy - b_y * cx + bz * cw
    ensures lw * cx + lx * cw + ly * cz - lz * cy == aw * rx + ax * rw + ay * rz - az * ry
  {
    assert lw * cx == (aw * bw - ax * bx - ay * b_y - az * bz) * cx;
    assert lx * cw == (aw * bx + ax * bw + ay * bz - az * b_y) * cw;
    assert ly * cz == (aw * b_y - ax * bz + ay * bw + az * bx) * cz;
    assert lz * cy == (aw * bz + ax * b_y - ay * bx + az * bw) * cy;
    assert aw * rx == aw * (bw * cx + bx * cw + b_y * cz - bz * cy);
    assert ax * rw == ax * (bw * cw - bx * cx - b_y * cy - bz * cz);
    assert ay * rz == ay * (bw * cz + bx * cy - b_y * cx + bz * cw);
    assert az * ry == az * (bw * cy - bx * cz + b_y * cw + bz * cx);
  }

  lemma HamiltonPolynomialY(aw: real, ax: real, ay: real, az: real, bw: real, bx: real, b_y: real, bz: real,
                            cw: real, cx: real, cy: real, cz: real,
                            lw: real, lx: real, ly: real, lz: real, rw: real, rx: real, ry: real, rz: real)
    requires lw == aw * bw - ax * bx - ay * b_y - az * bz
    requires lx == aw * bx + ax * bw + ay * bz - az * b_y
    requires ly == aw * b_y - ax * bz + ay * bw + az * bx
    requires lz == aw * bz + ax * b_y - ay * bx + az * bw
    requires rw == bw * cw - bx * cx - b_y * cy - bz * cz
    requires rx == bw * cx + bx * cw + b_y * cz - bz * cy
    requires ry == bw * cy - bx * cz + b_y * cw + bz * cx
    requires rz == bw * cz + bx * cy - b_y * cx + bz * cw
    ensures lw * cy - lx * cz + ly * cw + lz * cx == aw * ry - ax * rz + ay * rw + az * rx
  {
    assert lw * cy == (aw * bw - ax * bx - ay * b_y - az * bz) * cy;
    assert lx * cz == (aw * bx + ax * bw + ay * bz - az * b_y) * cz;
    assert ly * cw == (aw * b_y - ax * bz + ay * bw + az * bx) * cw;
    assert lz * cx == (aw * bz + ax * b_y - ay * bx + az * bw) * cx;
    assert aw * ry == aw * (bw * cy - bx * cz + b_y * cw + bz * cx);
    assert ax * rz == ax * (bw * cz + bx * cy - b_y * cx + bz * cw);
    assert ay * rw == ay * (bw * cw - bx * cx - b_y * cy - bz * cz);
    assert az * rx == az * (bw * cx + bx * cw + b_y * cz - bz * cy);
  }

  lemma HamiltonPolynomialZ(aw: real, ax: real, ay: real, az: real, bw: real, bx: real, b_y: real, bz: real,
                            cw: real, cx: real, cy: real, cz: real,
                            lw: real, lx: real, ly: real, lz: real, rw: real, rx: real, ry: real, rz: real)
    requires lw == aw * bw - ax * bx - ay * b_y - az * bz
    requires lx == aw * bx + ax * bw + ay * bz - az * b_y
    requires ly == aw * b_y - ax * bz + ay * bw + az * bx
    requires lz == aw * bz + ax * b_y - ay * bx + az * bw
    requires rw == bw * cw - bx * cx - b_y * cy - bz * cz
    requires rx == bw * cx + bx * cw + b_y * cz - bz * cy
    requires ry == bw * cy - bx * cz + b_y * cw + bz * cx
    requires rz == bw * cz + bx * cy - b_y * cx + bz * cw
    ensures lw * cz + lx * cy - ly * cx + lz * cw == aw * rz + ax * ry - ay * rx + az * rw
  {
    assert lw * cz == (aw * bw - ax * bx - ay * b_y - az * bz) * cz;
    assert lx * cy == (aw * bx + ax * bw + ay * bz - az * b_y) * cy;
    assert ly * cx == (aw * b_y - ax * bz + ay * bw + az * bx) * cx;
    assert lz * cw == (aw * bz + ax * b_y - ay * bx + az * bw) * cw;
    assert aw * rz == aw * (bw * cz + bx * cy - b_y * cx + bz * cw);
    assert ax * ry == ax * (bw * cy - bx * cz + b_y * cw + bz * cx);
    assert ay * rx == ay * (bw * cx + bx * cw + b_y * cz - bz * cy);
    assert az * rw == az * (bw * cw - bx * cx - b_y * cy - bz * cz);
  }

  lemma HamiltonComponentW(p: Quaternion, q: Quaternion)
    ensures Hamilton(p, q).w == p.w * q.w - p.v.x * q.v.x - p.v.y * q.v.y - p.v.z * q.v.z
  {
  }

  lemma HamiltonComponentX(p: Quaternion, q: Quaternion)
    ensures Hamilton(p, q).v.x == p.w * q.v.x + p.v.x * q.w + p.v.y * q.v.z - p.v.z * q.v.y
  {
  }

  lemma HamiltonComponentY(p: Quaternion, q: Quaternion)
    ensures Hamilton(p, q).v.y == p.w * q.v.y - p.v.x * q.v.z + p.v.y * q.w + p.v.z * q.v.x
  {
  }

  lemma HamiltonComponentZ(p: Quaternion, q: Quaternion)
    ensures Hamilton(p, q).v.z == p.w * q.v.z + p.v.x * q.v.y - p.v.y * q.v.x + p.v.z * q.w
  {
  }
  lemma HamiltonAssociativeW(a: Quaternion, b: Quaternion, c: Quaternion)
    ensures Hamilton(Hamilton(a, b), c).w == Hamilton(a, Hamilton(b, c)).w
  {
    HamiltonComponentW(Hamilton(a, b), c);
    HamiltonComponentW(a, Hamilton(b, c));
    HamiltonPolynomialW(a.w, a.v.x, a.v.y, a.v.z, b.w, b.v.x, b.v.y, b.v.z, c.w, c.v.x, c.v.y, c.v.z,
        a.w * b.w - a.v.x * b.v.x - a.v.y * b.v.y - a.v.z * b.v.z,
        a.w * b.v.x + a.v.x * b.w + a.v.y * b.v.z - a.v.z * b.v.y,
        a.w * b.v.y - a.v.x * b.v.z + a.v.y * b.w + a.v.z * b.v.x,
        a.w * b.v.z + a.v.x * b.v.y - a.v.y * b.v.x + a.v.z * b.w,
        b.w * c.w - b.v.x * c.v.x - b.v.y * c.v.y - b.v.z * c.v.z,
        b.w * c.v.x + b.v.x * c.w + b.v.y * c.v.z - b.v.z * c.v.y,
        b.w * c.v.y - b.v.x * c.v.z + b.v.y * c.w + b.v.z * c.v.x,
        b.w * c.v.z + b.v.x * c.v.y - b.v.y * c.v.x + b.v.z * c.w);
  }

  lemma HamiltonAssociativeX(a: Quaternion, b: Quaternion, c: Quaternion)
    ensures Hamilton(Hamilton(a, b), c).v.x == Hamilton(a, Hamilton(b, c)).v.x
  {
    HamiltonComponentX(Hamilton(a, b), c);
    HamiltonComponentX(a, Hamilton(b, c));
    HamiltonPolynomialX(a.w, a.v.x, a.v.y, a.v.z, b.w, b.v.x, b.v.y, b.v.z, c.w, c.v.x, c.v.y, c.v.z,
        a.w * b.w - a.v.x * b.v.x - a.v.y * b.v.y - a.v.z * b.v.z,
        a.w * b.v.x + a.v.x * b.w + a.v.y * b.v.z - a.v.z * b.v.y,
        a.w * b.v.y - a.v.x * b.v.z + a.v.y * b.w + a.v.z * b.v.x,
        a.w * b.v.z + a.v.x * b.v.y - a.v.y * b.v.x + a.v.z * b.w,
        b.w * c.w - b.v.x * c.v.x - b.v.y * c.v.y - b.v.z * c.v.z,
        b.w * c.v.x + b.v.x * c.w + b.v.y * c.v.z - b.v.z * c.v.y,
        b.w * c.v.y - b.v.x * c.v.z + b.v.y * c.w + b.v.z * c.v.x,
        b.w * c.v.z + b.v.x * c.v.y - b.v.y * c.v.x + b.v.z * c.w);
  }

  lemma HamiltonAssociativeY(a: Quaternion, b: Quaternion, c: Quaternion)
    ensures Hamilton(Hamilton(a, b), c).v.y == Hamilton(a, Hamilton(b, c)).v.y
  {
    HamiltonComponentY(Hamilton(a, b), c);
    HamiltonComponentY(a, Hamilton(b, c));
    HamiltonPolynomialY(a.w, a.v.x, a.v.y, a.v.z, b.w, b.v.x, b.v.y, b.v.z, c.w, c.v.x, c.v.y, c.v.z,
        a.w * b.w - a.v.x * b.v.x - a.v.y * b.v.y - a.v.z * b.v.z,
        a.w * b.v.x + a.v.x * b.w + a.v.y * b.v.z - a.v.z * b.v.y,
        a.w * b.v.y - a.v.x * b.v.z + a.v.y * b.w + a.v.z * b.v.x,
        a.w * b.v.z + a.v.x * b.v.y - a.v.y * b.v.x + a.v.z * b.w,
        b.w * c.w - b.v.x * c.v.x - b.v.y * c.v.y - b.v.z * c.v.z,
        b.w * c.v.x + b.v.x * c.w + b.v.y * c.v.z - b.v.z * c.v.y,
        b.w * c.v.y - b.v.x * c.v.z + b.v.y * c.w + b.v.z * c.v.x,
        b.w * c.v.z + b.v.x * c.v.y - b.v.y * c.v.x + b.v.z * c.w);
  }

  lemma HamiltonAssociativeZ(a: Quaternion, b: Quaternion, c: Quaternion)
    ensures Hamilton(Hamilton(a, b), c).v.z == Hamilton(a, Hamilton(b, c)).v.z
  {
    HamiltonComponentZ(Hamilton(a, b), c);
    HamiltonComponentZ(a, Hamilton(b, c));
    HamiltonPolynomialZ(a.w, a.v.x, a.v.y, a.v.z, b.w, b.v.x, b.v.y, b.v.z, c.w, c.v.x, c.v.y, c.v.z,
        a.w * b.w - a.v.x * b.v.x - a.v.y * b.v.y - a.v.z * b.v.z,
        a.w * b.v.x + a.v.x * b.w + a.v.y * b.v.z - a.v.z * b.v.y,
        a.w * b.v.y - a.v.x * b.v.z + a.v.y * b.w + a.v.z * b.v.x,
        a.w * b.v.z + a.v.x * b.v.y - a.v.y * b.v.x + a.v.z * b.w,
        b.w * c.w - b.v.x * c.v.x - b.v.y * c.v.y - b.v.z * c.v.z,
        b.w * c.v.x + b.v.x * c.w + b.v.y * c.v.z - b.v.z * c.v.y,
        b.w * c.v.y - b.v.x * c.v.z + b.v.y * c.w + b.v.z * c.v.x,
        b.w * c.v.z + b.v.x * c.v.y - b.v.y * c.v.x + b.v.z * c.w);
  }

  /** The Hamilton product is associative. */
  lemma HamiltonAssociative(a: Quaternion, b: Quaternion, c: Quaternion)
    ensures Hamilton(Hamilton(a, b), c) == Hamilton(a, Hamilton(b, c))
  {
    HamiltonAssociativeW(a, b, c);
    HamiltonAssociativeX(a, b, c);
    HamiltonAssociativeY(a, b, c);
    HamiltonAssociativeZ(a, b, c);
  }

  /** `multiply` is associative. */
  lemma MultiplyAssociative(a: Quaternion, b: Quaternion, c: Quaternion)
    ensures a.Multiply(b).Multiply(c) == a.Multiply(b.Multiply(c))
  {
    HamiltonAssociative(c, b, a);
  }

  /** `multiply` is not commutative: `i.multiply(j)` is `-k` and `j.multiply(i)` is `k`. */
  lemma MultiplyNotCommutative(i: Quaternion, j: Quaternion)
    requires i == Quaternion(0.0, Vector3(1.0, 0.0, 0.0)) && j == Quaternion(0.0, Vector3(0.0, 1.0, 0.0))
    ensures i.Multiply(j) == Quaternion(0.0, Vector3(0.0, 0.0, -1.0))
    ensures j.Multiply(i) == Quaternion(0.0, Vector3(0.0, 0.0, 1.0))
  {
    assert i.Multiply(j) == Hamilton(j, i);
    assert j.Multiply(i) == Hamilton(i, j);
  }

  /** A quaternion times its conjugate is the real number `w^2 + |v|^2`. */
  lemma MultiplyConjugateIsNormSquared(q: Quaternion)
    ensures q.Multiply(q.Conjugate()) == Quaternion(q.w * q.w + q.v.Dot(q.v), Origin)
  {
  }

  /** `-q`: every component negated. */
  function Negated(q: Quaternion): Quaternion {
    Quaternion(-q.w, q.v.Scale(-1.0))
  }

  /**
   * `equalsOrientation` is symmetric, and does not distinguish `q` from `-q`
   * (the same rotation); every unit quaternion has its own orientation.
   */
  lemma EqualsOrientationProperties(a: Quaternion, b: Quaternion)
    ensures a.EqualsOrientation(b) <==> b.EqualsOrientation(a)
    ensures a.EqualsOrientation(b) <==> a.EqualsOrientation(Negated(b))
    ensures a.Dot(a) == 1.0 ==> a.EqualsOrientation(a)
  {
    DotSymmetric(a, b);
    assert a.Dot(Negated(b)) == -a.Dot(b);
  }

  /** `dot` is symmetric. */
  lemma DotSymmetric(a: Quaternion, b: Quaternion)
    ensures a.Dot(b) == b.Dot(a)
  {
  }

  /** Every rotation matrix has fourth row and fourth column `(0, 0, 0, 1)`. */
  lemma RotationGridBorder(q: Quaternion)
    ensures var g := RotationGrid(q);
      g[3] == [0.0, 0.0, 0.0, 1.0] && g[0][3] == 0.0 && g[1][3] == 0.0 && g[2][3] == 0.0
  {
  }

  /** The identity quaternion gives the identity matrix. */
  lemma RotationGridIdentity()
    ensures RotationGrid(IdentityQuaternion) == Identity(4)
  {
    GridEq(RotationGrid(IdentityQuaternion), Identity(4), 4);
  }

  /** `q` and `-q` give the same matrix. */
  lemma RotationGridNegation(q: Quaternion)
    ensures RotationGrid(Negated(q)) == RotationGrid(q)
  {
    var n := Negated(q);
    assert n.w * n.v.x == q.w * q.v.x && n.w * n.v.y == q.w * q.v.y && n.w * n.v.z == q.w * q.v.z;
    assert n.v.x * n.v.x == q.v.x * q.v.x && n.v.y * n.v.y == q.v.y * q.v.y && n.v.z * n.v.z == q.v.z * q.v.z;
    assert n.v.x * n.v.y == q.v.x * q.v.y && n.v.x * n.v.z == q.v.x * q.v.z && n.v.y * n.v.z == q.v.y * q.v.z;
    GridEq(RotationGrid(n), RotationGrid(q), 4);
  }

  /** Rotating by the identity quaternion leaves the vector unchanged. */
  lemma RotateByIdentity(v: Vector3)
    ensures Rotate(v, IdentityQuaternion) == v
  {
  }

  /** `conj(q) * v * q` has no real part, so `rotate` loses nothing by keeping only the vector part. */
  lemma RotationIsPure(v: Vector3, q: Quaternion)
    ensures Hamilton(Hamilton(q.Conjugate(), Pure(v)), q) == Pure(Rotate(v, q))
  {
    var cv := Hamilton(q.Conjugate(), Pure(v));
    NoRealPart(q.w, q.v.x, q.v.y, q.v.z, v.x, v.y, v.z, cv.w, cv.v.x, cv.v.y, cv.v.z);
  }

  /** The real part of `conj(q) * v * q` multiplied out cancels. */
  lemma NoRealPart(w: real, a: real, b: real, c: real, x: real, y: real, z: real,
                   cw: real, cx: real, cy: real, cz: real)
    requires cw == a * x + b * y + c * z
    requires cx == w * x - (b * z - c * y) && cy == w * y - (c * x - a * z) && cz == w * z - (a * y - b * x)
    ensures cw * w - cx * a - cy * b - cz * c == 0.0
  {
    assert cw * w == (a * x + b * y + c * z) * w;
    assert cx * a == (w * x - (b * z - c * y)) * a;
    assert cy * b == (w * y - (c * x - a * z)) * b;
    assert cz * c == (w * z - (a * y - b * x)) * c;
  }

  /** The identity quaternion is a two-sided unit of the Hamilton product. */
  lemma HamiltonByIdentity(a: Quaternion)
    ensures Hamilton(IdentityQuaternion, a) == a && Hamilton(a, IdentityQuaternion) == a
  {
  }

  /** A unit quaternion times its conjugate, in either order, is the identity. */
  lemma UnitConjugateProducts(q: Quaternion)
    requires IsUnit(q)
    ensures Hamilton(q.Conjugate(), q) == IdentityQuaternion && Hamilton(q, q.Conjugate()) == IdentityQuaternion
  {
    ConjugateInvolution(q);
    MultiplyConjugateIsNormSquared(q);
    MultiplyConjugateIsNormSquared(q.Conjugate());
  }

  /** Conjugating `v` by `q` and then by `conj(q)`, as Hamilton products, gives `v` back. */
  lemma ConjugationCancels(p: Quaternion, q: Quaternion)
    requires IsUnit(q)
    ensures Hamilton(Hamilton(q, Hamilton(Hamilton(q.Conjugate(), p), q)), q.Conjugate()) == p
  {
    var c := q.Conjugate();
    var pq := Hamilton(p, q);
    UnitConjugateProducts(q);
    calc {
      Hamilton(q, Hamilton(Hamilton(c, p), q));
      { HamiltonAssociative(c, p, q); }
      Hamilton(q, Hamilton(c, pq));
      { HamiltonAssociative(q, c, pq); }
      Hamilton(Hamilton(q, c), pq);
      { HamiltonByIdentity(pq); }
      pq;
    }
    calc {
      Hamilton(pq, c);
      { HamiltonAssociative(p, q, c); }
      Hamilton(p, Hamilton(q, c));
      { HamiltonByIdentity(p); }
      p;
    }
  }

  /**
   * For a unit quaternion, rotating by `q` and then by `q.conjugate()` gives
   * the vector back: the conjugate undoes `rotate`.
   */
  lemma RotateRoundTrip(v: Vector3, q: Quaternion)
    requires IsUnit(q)
    ensures Rotate(Rotate(v, q), q.Conjugate()) == v
  {
    var r := Rotate(v, q);
    RotationIsPure(v, q);
    ConjugateInvolution(q);
    ConjugationCancels(Pure(v), q);
    assert Rotate(r, q.Conjugate()) == Hamilton(Hamilton(q, Pure(r)), q.Conjugate()).v;
  }

  /**
   * The product `q * v * conj(q)` multiplied out, component by component,
   * with `t` standing for `q * v`: each component is a sum over `v` whose
   * coefficients are `k` on the diagonal and the off-diagonal terms `g`.
   */
  lemma ExpandRotationX(w: real, x: real, y: real, z: real, vx: real, vy: real, vz: real,
                        tw: real, tx: real, ty: real, tz: real, k: real, g1: real, g2: real)
    requires tw == -x * vx - y * vy - z * vz && tx == w * vx + y * vz - z * vy
    requires ty == w * vy - x * vz + z * vx && tz == w * vz + x * vy - y * vx
    requires k == w * w + x * x - y * y - z * z
    requires g1 == 2.0 * x * y - 2.0 * w * z && g2 == 2.0 * x * z + 2.0 * w * y
    ensures tw * (x * -1.0) + tx * w + ty * (z * -1.0) - tz * (y * -1.0) == vx * k + vy * g1 + vz * g2
  {
    var a, b, c, d := tw * (x * -1.0), tx * w, ty * (z * -1.0), tz * (y * -1.0);
    assert vx * k == w * w * vx + x * x * vx - y * y * vx - z * z * vx;
    assert vy * g1 == 2.0 * (x * y * vy) - 2.0 * (w * z * vy);
    assert vz * g2 == 2.0 * (x * z * vz) + 2.0 * (w * y * vz);
    assert a == x * x * vx + x * y * vy + x * z * vz;
    assert b == w * w * vx + w * y * vz - w * z * vy;
    assert c == -(w * z * vy) + x * z * vz - z * z * vx;
    assert d == -(w * y * vz) - x * y * vy + y * y * vx;
  }

  lemma ExpandRotationY(w: real, x: real, y: real, z: real, vx: real, vy: real, vz: real,
                        tw: real, tx: real, ty: real, tz: real, g0: real, k: real, g2: real)
    requires tw == -x * vx - y * vy - z * vz && tx == w * vx + y * vz - z * vy
    requires ty == w * vy - x * vz + z * vx && tz == w * vz + x * vy - y * vx
    requires k == w * w + y * y - x * x - z * z
    requires g0 == 2.0 * x * y + 2.0 * w * z && g2 == 2.0 * y * z - 2.0 * w * x
    ensures tw * (y * -1.0) - tx * (z * -1.0) + ty * w + tz * (x * -1.0) == vx * g0 + vy * k + vz * g2
  {
    var a, b, c, d := tw * (y * -1.0), tx * (z * -1.0), ty * w, tz * (x * -1.0);
    assert a == x * y * vx + y * y * vy + y * z * vz;
    assert b == -(w * z * vx) - y * z * vz + z * z * vy;
    assert c == w * w * vy - w * x * vz + w * z * vx;
    assert d == -(w * x * vz) - x * x * vy + x * y * vx;
    assert vy * k == w * w * vy + y * y * vy - x * x * vy - z * z * vy;
    assert vx * g0 == 2.0 * (x * y * vx) + 2.0 * (w * z * vx);
    assert vz * g2 == 2.0 * (y * z * vz) - 2.0 * (w * x * vz);
  }

  lemma ExpandRotationZ(w: real, x: real, y: real, z: real, vx: real, vy: real, vz: real,
                        tw: real, tx: real, ty: real, tz: real, g0: real, g1: real, k: real)
    requires tw == -x * vx - y * vy - z * vz && tx == w * vx + y * vz - z * vy
    requires ty == w * vy - x * vz + z * vx && tz == w * vz + x * vy - y * vx
    requires k == w * w + z * z - x * x - y * y
    requires g0 == 2.0 * x * z - 2.0 * w * y && g1 == 2.0 * y * z + 2.0 * w * x
    ensures tw * (z * -1.0) + tx * (y * -1.0) - ty * (x * -1.0) + tz * w == vx * g0 + vy * g1 + vz * k
  {
    var a, b, c, d := tw * (z * -1.0), tx * (y * -1.0), ty * (x * -1.0), tz * w;
    assert a == x * z * vx + y * z * vy + z * z * vz;
    assert b == -(w * y * vx) - y * y * vz + y * z * vy;
    assert c == -(w * x * vy) + x * x * vz - x * z * vx;
    assert d == w * w * vz + w * x * vy - w * y * vx;
    assert vz * k == w * w * vz + z * z * vz - x * x * vz - y * y * vz;
    assert vx * g0 == 2.0 * (x * z * vx) - 2.0 * (w * y * vx);
    assert vy * g1 == 2.0 * (y * z * vy) + 2.0 * (w * x * vy);
  }

  /**
   * For a unit quaternion the diagonal coefficient `k` of the expansion
   * is the diagonal entry of `RotationGrid(q)`, so each component of
   * `q * v * conj(q)` is a row of that grid times `v`.
   */
  lemma RotationPolynomialX(w: real, x: real, y: real, z: real, vx: real, vy: real, vz: real,
                            tw: real, tx: real, ty: real, tz: real, g0: real, g1: real, g2: real)
    requires w * w + x * x + y * y + z * z == 1.0
    requires tw == -x * vx - y * vy - z * vz && tx == w * vx + y * vz - z * vy
    requires ty == w * vy - x * vz + z * vx && tz == w * vz + x * vy - y * vx
    requires g0 == 1.0 - 2.0 * y * y - 2.0 * z * z && g1 == 2.0 * x * y - 2.0 * w * z
    requires g2 == 2.0 * x * z + 2.0 * w * y
    ensures tw * (x * -1.0) + tx * w + ty * (z * -1.0) - tz * (y * -1.0) ==
      vx * g0 + vy * g1 + vz * g2
  {
    ExpandRotationX(w, x, y, z, vx, vy, vz, tw, tx, ty, tz, g0, g1, g2);
  }

  lemma RotationPolynomialY(w: real, x: real, y: real, z: real, vx: real, vy: real, vz: real,
                            tw: real, tx: real, ty: real, tz: real, g0: real, g1: real, g2: real)
    requires w * w + x * x + y * y + z * z == 1.0
    requires tw == -x * vx - y * vy - z * vz && tx == w * vx + y * vz - z * vy
    requires ty == w * vy - x * vz + z * vx && tz == w * vz + x * vy - y * vx
    requires g0 == 2.0 * x * y + 2.0 * w * z && g1 == 1.0 - 2.0 * x * x - 2.0 * z * z
    requires g2 == 2.0 * y * z - 2.0 * w * x
    ensures tw * (y * -1.0) - tx * (z * -1.0) + ty * w + tz * (x * -1.0) ==
      vx * g0 + vy * g1 + vz * g2
  {
    ExpandRotationY(w, x, y, z, vx, vy, vz, tw, tx, ty, tz, g0, g1, g2);
  }

  lemma RotationPolynomialZ(w: real, x: real, y: real, z: real, vx: real, vy: real, vz: real,
                            tw: real, tx: real, ty: real, tz: real, g0: real, g1: real, g2: real)
    requires w * w + x * x + y * y + z * z == 1.0
    requires tw == -x * vx - y * vy - z * vz && tx == w * vx + y * vz - z * vy
    requires ty == w * vy - x * vz + z * vx && tz == w * vz + x * vy - y * vx
    requires g0 == 2.0 * x * z - 2.0 * w * y && g1 == 2.0 * y * z + 2.0 * w * x
    requires g2 == 1.0 - 2.0 * x * x - 2.0 * y * y
    ensures tw * (z * -1.0) + tx * (y * -1.0) - ty * (x * -1.0) + tz * w ==
      vx * g0 + vy * g1 + vz * g2
  {
    ExpandRotationZ(w, x, y, z, vx, vy, vz, tw, tx, ty, tz, g0, g1, g2);
  }

  lemma HamiltonConjugateComponentX(p: Quaternion, q: Quaternion)
    ensures Hamilton(p, q.Conjugate()).v.x == p.w * (q.v.x * -1.0) + p.v.x * q.w + p.v.y * (q.v.z * -1.0) - p.v.z * (q.v.y * -1.0)
  {
  }

  lemma HamiltonConjugateComponentY(p: Quaternion, q: Quaternion)
    ensures Hamilton(p, q.Conjugate()).v.y == p.w * (q.v.y * -1.0) - p.v.x * (q.v.z * -1.0) + p.v.y * q.w + p.v.z * (q.v.x * -1.0)
  {
  }

  lemma HamiltonConjugateComponentZ(p: Quaternion, q: Quaternion)
    ensures Hamilton(p, q.Conjugate()).v.z == p.w * (q.v.z * -1.0) + p.v.x * (q.v.y * -1.0) - p.v.y * (q.v.x * -1.0) + p.v.z * q.w
  {
  }

  /** A unit quaternion: `w^2 + x^2 + y^2 + z^2 == 1`. */
  predicate IsUnit(q: Quaternion) {
    q.Dot(q) == 1.0
  }

  /**
   * For a unit quaternion, `rotationMatrix()` applied to a point does what
   * `activeRotate` does to the vector, and keeps the fourth coordinate.
   */
  lemma RotationGridIsActiveRotation(q: Quaternion, v: Vector3, w: real)
    requires IsUnit(q)
    ensures MulVec(RotationGrid(q), Mat44.Point(v, w), 4) == Mat44.Point(ActiveRotate(v, q), w)
  {
    var m := MulVec(RotationGrid(q), Mat44.Point(v, w), 4);
    var r := Hamilton(Hamilton(q, Pure(v)), q.Conjugate()).v;
    ActiveRotateByHamilton(q, v);
    ActiveRotationComponentX(q, v, w);
    ActiveRotationComponentY(q, v, w);
    ActiveRotationComponentZ(q, v, w);
    RotationGridLastRow(q, v, w);
    assert m == [r.x, r.y, r.z, w];
  }

  /** `activeRotate` as Hamilton products: `q * v * conj(q)`. */
  lemma ActiveRotateByHamilton(q: Quaternion, v: Vector3)
    ensures ActiveRotate(v, q) == Hamilton(Hamilton(q, Pure(v)), q.Conjugate()).v
  {
    ConjugateInvolution(q);
  }

  lemma ActiveRotationComponentX(q: Quaternion, v: Vector3, w: real)
    requires IsUnit(q)
    ensures Hamilton(Hamilton(q, Pure(v)), q.Conjugate()).v.x == MulVec(RotationGrid(q), Mat44.Point(v, w), 4)[0]
  {
    HamiltonConjugateComponentX(Hamilton(q, Pure(v)), q);
    RotationPolynomialX(q.w, q.v.x, q.v.y, q.v.z, v.x, v.y, v.z,
      -q.v.x * v.x - q.v.y * v.y - q.v.z * v.z,
      q.w * v.x + q.v.y * v.z - q.v.z * v.y,
      q.w * v.y - q.v.x * v.z + q.v.z * v.x,
      q.w * v.z + q.v.x * v.y - q.v.y * v.x,
      1.0 - 2.0 * q.v.y * q.v.y - 2.0 * q.v.z * q.v.z,
      2.0 * q.v.x * q.v.y - 2.0 * q.w * q.v.z,
      2.0 * q.v.x * q.v.z + 2.0 * q.w * q.v.y);
    MulVecPointRow(RotationGrid(q), v, w, 0);
  }

  lemma ActiveRotationComponentY(q: Quaternion, v: Vector3, w: real)
    requires IsUnit(q)
    ensures Hamilton(Hamilton(q, Pure(v)), q.Conjugate()).v.y == MulVec(RotationGrid(q), Mat44.Point(v, w), 4)[1]
  {
    HamiltonConjugateComponentY(Hamilton(q, Pure(v)), q);
    RotationPolynomialY(q.w, q.v.x, q.v.y, q.v.z, v.x, v.y, v.z,
      -q.v.x * v.x - q.v.y * v.y - q.v.z * v.z,
      q.w * v.x + q.v.y * v.z - q.v.z * v.y,
      q.w * v.y - q.v.x * v.z + q.v.z * v.x,
      q.w * v.z + q.v.x * v.y - q.v.y * v.x,
      2.0 * q.v.x * q.v.y + 2.0 * q.w * q.v.z,
      1.0 - 2.0 * q.v.x * q.v.x - 2.0 * q.v.z * q.v.z,
      2.0 * q.v.y * q.v.z - 2.0 * q.w * q.v.x);
    MulVecPointRow(RotationGrid(q), v, w, 1);
  }

  lemma ActiveRotationComponentZ(q: Quaternion, v: Vector3, w: real)
    requires IsUnit(q)
    ensures Hamilton(Hamilton(q, Pure(v)), q.Conjugate()).v.z == MulVec(RotationGrid(q), Mat44.Point(v, w), 4)[2]
  {
    HamiltonConjugateComponentZ(Hamilton(q, Pure(v)), q);
    RotationPolynomialZ(q.w, q.v.x, q.v.y, q.v.z, v.x, v.y, v.z,
      -q.v.x * v.x - q.v.y * v.y - q.v.z * v.z,
      q.w * v.x + q.v.y * v.z - q.v.z * v.y,
      q.w * v.y - q.v.x * v.z + q.v.z * v.x,
      q.w * v.z + q.v.x * v.y - q.v.y * v.x,
      2.0 * q.v.x * q.v.z - 2.0 * q.w * q.v.y,
      2.0 * q.v.y * q.v.z + 2.0 * q.w * q.v.x,
      1.0 - 2.0 * q.v.x * q.v.x - 2.0 * q.v.y * q.v.y);
    MulVecPointRow(RotationGrid(q), v, w, 2);
  }

  /** A matrix row whose last entry is zero, applied to a point, ignores the fourth coordinate. */
  lemma MulVecPointRow(g: Grid, v: Vector3, w: real, r: int)
    requires Square(g, 4) && 0 <= r < 4 && g[r][3] == 0.0
    ensures MulVec(g, Mat44.Point(v, w), 4)[r] == v.x * g[r][0] + v.y * g[r][1] + v.z * g[r][2]
  {
    Mat44.MulVecByRows4(g, Mat44.Point(v, w));
  }

  lemma RotationGridLastRow(q: Quaternion, v: Vector3, w: real)
    ensures MulVec(RotationGrid(q), Mat44.Point(v, w), 4)[3] == w
  {
    var g, p := RotationGrid(q), Mat44.Point(v, w);
    Mat44.MulVecByRows4(g, p);
    assert MulVec(g, p, 4)[3] == p[0] * g[3][0] + p[1] * g[3][1] + p[2] * g[3][2] + p[3] * g[3][3];
  }

  /**
   * `Vector3.rotate(q)` is `activeRotate` by the conjugate, so the matrix of
   * the conjugate performs it: this is how the renderer turns the camera's
   * orientation into its world-to-camera matrix.
   */
  lemma RotationGridOfConjugateIsRotation(q: Quaternion, v: Vector3, w: real)
    requires IsUnit(q)
    ensures MulVec(RotationGrid(q.Conjugate()), Mat44.Point(v, w), 4) == Mat44.Point(Rotate(v, q), w)
  {
    ConjugateInvolution(q);
    assert IsUnit(q.Conjugate());
    RotationGridIsActiveRotation(q.Conjugate(), v, w);
  }
}
