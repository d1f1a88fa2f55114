/**
 * Vector3.java: a triple of doubles (here exact reals). Every operation
 * except `set` builds a new vector, so the type is a datatype and the
 * operations are its member functions; `set`, the one mutator, is modelled
 * by the class `Vector3Ref` below.
 */
module Vec3 {

  datatype Vector3 = Vector3(x: real, y: real, z: real) {

    /** `translate(x, y, z)`: the same as adding the vector `<dx, dy, dz>`. */
    function Translate(dx: real, dy: real, dz: real): (r: Vector3)
      ensures r == Add(Vector3(dx, dy, dz))
    {
      Vector3(x + dx, y + dy, z + dz)
    }

    /** `add`: componentwise; subtracting the argument again gives this vector back. */
    function Add(b: Vector3): (r: Vector3)
      ensures r.Subtract(b) == this
    {
      Vector3(x + b.x, y + b.y, z + b.z)
    }

    /** `subtract`: componentwise; the difference is the origin exactly when the two are equal. */
    function Subtract(b: Vector3): (r: Vector3)
      ensures r == Vector3(0.0, 0.0, 0.0) <==> this == b
    {
      Vector3(x - b.x, y - b.y, z - b.z)
    }

    function Dot(b: Vector3): real {
      x * b.x + y * b.y + z * b.z
    }

    /** `cross`: this vector first. */
    function Cross(b: Vector3): Vector3 {
      Vector3(y * b.z - z * b.y, z * b.x - x * b.z, x * b.y - y * b.x)
    }

    /** `scale(double)`: every component times `s`; scaling by one changes nothing. */
    function Scale(s: real): (r: Vector3)
      ensures s == 1.0 ==> r == this
      ensures s == 0.0 ==> r == Vector3(0.0, 0.0, 0.0)
      ensures r == ScaleBy(Vector3(s, s, s))
    {
      Vector3(x * s, y * s, z * s)
    }

    /** `scale(Vector3)`: componentwise product; scaling by `<1, 1, 1>` changes nothing. */
    function ScaleBy(s: Vector3): (r: Vector3)
      ensures s == Vector3(1.0, 1.0, 1.0) ==> r == this
    {
      Vector3(x * s.x, y * s.y, z * s.z)
    }

    /** `toArray`: the three coordinates in order; reading them back gives the vector. */
    function ToArray(): (r: seq<real>)
      ensures |r| == 3 && Vector3(r[0], r[1], r[2]) == this
    {
      [x, y, z]
    }

    /** `isEqual`: componentwise `==`, that is, equality of the values. */
    function IsEqual(b: Vector3): (r: bool)
      ensures r <==> this == b
    {
      x == b.x && y == b.y && z == b.z
    }
  }

  /** `new Vector3()`: the origin. */
  const Origin: Vector3 := Vector3(0.0, 0.0, 0.0)

  lemma AddCommutes(a: Vector3, b: Vector3)
    ensures a.Add(b) == b.Add(a)
  {
  }

  lemma SubtractAddCancel(a: Vector3, b: Vector3)
    ensures a.Subtract(b).Add(b) == a
  {
  }

  lemma DotSymmetric(a: Vector3, b: Vector3)
    ensures a.Dot(b) == b.Dot(a)
  {
  }

  /** `a × b` is orthogonal to both `a` and `b`. */
  lemma CrossOrthogonal(a: Vector3, b: Vector3)
    ensures a.Dot(a.Cross(b)) == 0.0 && b.Dot(a.Cross(b)) == 0.0
  {
  }

  /** The scalar triple product is invariant under cyclic rotation of its operands. */
  lemma TripleProductCyclic(a: Vector3, b: Vector3, c: Vector3)
    ensures a.Dot(b.Cross(c)) == b.Dot(c.Cross(a))
  {
  }

  lemma CrossAnticommutative(a: Vector3, b: Vector3)
    ensures a.Cross(b) == b.Cross(a).Scale(-1.0)
  {
  }

  /**
   * A Vector3 object whose coordinates `set` overwrites in place. Only the
   * normal accumulation and the perspective remap of the renderer call
   * `set`, always on list elements that are distinct objects; the mesh and
   * the renderer therefore keep those lists as sequences of values and
   * model `element.set(v)` as writing that element.
   */
  class Vector3Ref {
    var x: real
    var y: real
    var z: real

    function Value(): Vector3
      reads this
    {
      Vector3(x, y, z)
    }

    constructor (v: Vector3)
      ensures Value() == v
    {
      x, y, z := v.x, v.y, v.z;
    }

    /** `set`: the coordinates become those of `v`; nothing else changes. */
    method Set(v: Vector3)
      modifies this
      ensures Value() == v
    {
      x := v.x;
      y := v.y;
      z := v.z;
    }
  }
}
