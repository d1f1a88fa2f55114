/**
 * Vector4.java: homogeneous four-component vectors. All operations are
 * single expressions building new vectors, so the type is a datatype.
 * `Vector3.toVector4()` builds the same value as the `Vector4(Vector3)`
 * constructor and is modelled by `FromVector3`.
 */
module Vec4 {
  import opened Vec3

  datatype Vector4 = Vector4(x: real, y: real, z: real, w: real) {

    /** `toVector3`: drops `w`; for `w == 1` the homogeneous constructor restores the vector. */
    function ToVector3(): (r: Vector3)
      ensures w == 1.0 ==> FromVector3(r) == this
    {
      Vector3(x, y, z)
    }

    /** `translate(x, y, z, w)`: the same as adding `<dx, dy, dz, dw>`. */
    function Translate(dx: real, dy: real, dz: real, dw: real): (r: Vector4)
      ensures r == Add(Vector4(dx, dy, dz, dw))
    {
      Vector4(x + dx, y + dy, z + dz, w + dw)
    }

    /** `add`: componentwise; subtracting the argument again gives this vector back. */
    function Add(b: Vector4): (r: Vector4)
      ensures r.Subtract(b) == this
    {
      Vector4(x + b.x, y + b.y, z + b.z, w + b.w)
    }

    /** `subtract`: componentwise; the difference is zero exactly when the two are equal. */
    function Subtract(b: Vector4): (r: Vector4)
      ensures r == Vector4(0.0, 0.0, 0.0, 0.0) <==> this == b
    {
      Vector4(x - b.x, y - b.y, z - b.z, w - b.w)
    }

    function Dot(b: Vector4): real {
      x * b.x + y * b.y + z * b.z + w * b.w
    }

    /** `scale`: all four components times `s`, `w` included. */
    function Scale(s: real): (r: Vector4)
      ensures s == 1.0 ==> r == this
      ensures r.ToVector3() == ToVector3().Scale(s) && r.w == w * s
    {
      Vector4(x * s, y * s, z * s, w * s)
    }

    /** `asArray`: `[x, y, z, w]` in that order. */
    function AsArray(): (r: seq<real>)
      ensures |r| == 4 && Vector4(r[0], r[1], r[2], r[3]) == this
    {
      [x, y, z, w]
    }

    /** `isEqual`: componentwise `==`, that is, equality of the values. */
    function IsEqual(b: Vector4): (r: bool)
      ensures r <==> this == b
    {
      x == b.x && y == b.y && z == b.z && w == b.w
    }
  }

  /** `new Vector4(Vector3)` (and `Vector3.toVector4()`): the point with `w = 1`. */
  function FromVector3(v: Vector3): (r: Vector4)
    ensures r.w == 1.0
    ensures r.x == v.x && r.y == v.y && r.z == v.z
  {
    Vector4(v.x, v.y, v.z, 1.0)
  }

  /** `new Vector4()`: all four components zero, the unit of `add`. */
  function Origin4(): (r: Vector4)
    ensures forall b: Vector4 {:trigger r.Add(b)} :: r.Add(b) == b
  {
    Vector4(0.0, 0.0, 0.0, 0.0)
  }

  lemma ToVector3RoundTrip(v: Vector3)
    ensures FromVector3(v).ToVector3() == v
  {
  }

  lemma AddCommutes4(a: Vector4, b: Vector4)
    ensures a.Add(b) == b.Add(a)
  {
  }

  lemma SubtractAddCancel4(a: Vector4, b: Vector4)
    ensures a.Subtract(b).Add(b) == a
  {
  }

  lemma DotSymmetric4(a: Vector4, b: Vector4)
    ensures a.Dot(b) == b.Dot(a)
  {
  }
}
