/**
 * Box.java: a solid node whose mesh is an axis-aligned box around its
 * position. Corner `i` takes the positive half of the x extent when `i` is
 * odd, of the y extent when `i % 4 > 1` and of the z extent when `i > 3`;
 * twelve shared-index triangles cover the six sides, two per side, and the
 * normals come from `calculateNormals` at the end.
 */
module Boxes {
  import opened Vec3
  import opened Quaternions
  import opened Triangles
  import opened Solids
  import opened Nodes
  import opened Wrappers

  /** `1` for the positive half of an axis, `-1` for the negative one. */
  function Sign(positive: bool): real {
    if positive then 1.0 else -1.0
  }

  /** Corner `i` of a box of extents `scale` centred at the origin. */
  function BoxVertex(scale: Vector3, i: int): Vector3 {
    Vector3(scale.x / 2.0 * Sign(i % 2 == 1), scale.y / 2.0 * Sign(i % 4 > 1), scale.z / 2.0 * Sign(i > 3))
  }

  /** The texture coordinate given to corner `i`. */
  function BoxTexCoord(i: int): Vector3 {
    Vector3(if i % 2 == 1 then (if i > 3 then 0.0 else 1.0) else (if i > 3 then 1.0 else 0.0),
            if i % 4 > 1 then (if i > 3 then 0.0 else 1.0) else (if i > 3 then 1.0 else 0.0),
            0.0)
  }

  function BoxVertices(scale: Vector3): (vs: seq<Vector3>)
    ensures |vs| == 8 && forall i :: 0 <= i < 8 ==> vs[i] == BoxVertex(scale, i)
  {
    seq(8, i => BoxVertex(scale, i))
  }

  function BoxTexCoords(): (ts: seq<Vector3>)
    ensures |ts| == 8 && forall i :: 0 <= i < 8 ==> ts[i] == BoxTexCoord(i)
  {
    seq(8, i => BoxTexCoord(i))
  }

  /** The corner indices of the twelve triangles, in the order they are added. */
  const BoxFaces: seq<seq<int>> := [
    [0, 1, 2], [2, 1, 3], [3, 1, 5], [5, 7, 3], [3, 7, 2], [2, 7, 6],
    [6, 4, 2], [2, 4, 0], [0, 4, 1], [1, 4, 5], [5, 4, 7], [7, 4, 6]]

  /** The twelve triangles as values: each one shares its indices between all three attributes. */
  function BoxFaceViews(): (fs: seq<Face>)
    ensures |fs| == 12 && forall f :: 0 <= f < 12 ==> fs[f] == SharedFace(BoxFaces[f])
  {
    seq(12, f requires 0 <= f < 12 => SharedFace(BoxFaces[f]))
  }

  /** One side of the box: the axis (0 for x, 1 for y, 2 for z) and which half of it. */
  datatype Side = Side(axis: nat, positive: bool)

  function Component(v: Vector3, axis: nat): real {
    if axis == 0 then v.x else if axis == 1 then v.y else v.z
  }

  /** The side each of the twelve triangles lies on. */
  function FaceSide(f: nat): Side
    requires f < 12
  {
    [Side(2, false), Side(2, false), Side(0, true), Side(0, true), Side(1, true), Side(1, true),
     Side(0, false), Side(0, false), Side(1, false), Side(1, false), Side(2, true), Side(2, true)][f]
  }

  /** Every corner index of every triangle names one of the eight corners. */
  lemma BoxFaceIndicesInRange()
    ensures forall f :: 0 <= f < 12 ==> |BoxFaces[f]| == 3
    ensures forall f, j :: 0 <= f < 12 && 0 <= j < 3 ==> 0 <= BoxFaces[f][j] < 8
  {
  }

  /** So the triangles meet the precondition of the normal computation on a box's eight normals. */
  lemma BoxFacesInRange()
    ensures forall f :: f in BoxFaceViews() ==> FaceInRange(f, 8, 8)
  {
    BoxFaceIndicesInRange();
  }

  /**
   * The three corners of triangle `f` all lie on the side `FaceSide(f)`:
   * their coordinate on its axis is half the extent, with its sign.
   */
  lemma FaceLiesOnSide(scale: Vector3, f: nat, j: nat)
    requires f < 12 && j < 3
    ensures var s := FaceSide(f);
      Component(BoxVertex(scale, BoxFaces[f][j]), s.axis) == Component(scale, s.axis) / 2.0 * Sign(s.positive)
  {
  }

  /** Triangles `2k` and `2k + 1` share a side, and the six sides so named are all different. */
  lemma TwoFacesPerSide()
    ensures forall k :: 0 <= k < 6 ==> FaceSide(2 * k) == FaceSide(2 * k + 1)
    ensures forall k, l :: 0 <= k < l < 6 ==> FaceSide(2 * k) != FaceSide(2 * l)
    ensures forall f :: 0 <= f < 12 ==> FaceSide(f).axis < 3
  {
  }

  /**
   * Texture coordinates are 0 or 1 with z = 0; on each axis the coordinate
   * is 1 exactly when the corner is on the positive half of that axis and
   * in the back (`i <= 3`) half, or on the negative half and in the front.
   */
  lemma BoxTexCoordsAreUnit(i: int)
    ensures BoxTexCoord(i).x == 0.0 || BoxTexCoord(i).x == 1.0
    ensures BoxTexCoord(i).y == 0.0 || BoxTexCoord(i).y == 1.0
    ensures BoxTexCoord(i).z == 0.0
    ensures BoxTexCoord(i).x == 1.0 <==> (i % 2 == 1) != (i > 3)
    ensures BoxTexCoord(i).y == 1.0 <==> (i % 4 > 1) != (i > 3)
  {
  }

  /** Opposite corners `i` and `7 - i` are mirror images through the centre. */
  lemma OppositeCornersMirror(scale: Vector3, i: int)
    requires 0 <= i < 8
    ensures BoxVertex(scale, 7 - i) == Vector3(-BoxVertex(scale, i).x, -BoxVertex(scale, i).y, -BoxVertex(scale, i).z)
  {
  }

  /** `faces.add(new Triangle(new int[] {a, b, c}))`. */
  method AddSharedFace(m: Mesh, a: int, b: int, c: int)
    modifies m
    ensures |m.faces| == |old(m.faces)| + 1 && m.faces[..|old(m.faces)|] == old(m.faces)
    ensures fresh(m.faces[|old(m.faces)|]) && m.faces[|old(m.faces)|].Shared()
    ensures forall u :: u in m.faces ==> u in old(m.faces) || (fresh(u) && u.Shared())
    ensures Views(m.faces) == old(Views(m.faces)) + [SharedFace([a, b, c])]
    ensures m.scale == old(m.scale) && m.vertices == old(m.vertices) && m.normals == old(m.normals)
    ensures m.texCoords == old(m.texCoords) && m.texture == old(m.texture)
  {
    var idx := new int[] [a, b, c];
    var t := new Triangle.Aliased(idx);
    assert idx[..] == [a, b, c];
    assert Views([t]) == [SharedFace([a, b, c])];
    ghost var before := m.faces;
    assert Views(before) == old(Views(m.faces));
    m.faces := m.faces + [t];
    ViewsAppend(before, [t]);
  }

  /**
   * `Box(center, scale)`: a solid node at `center` with the identity
   * orientation, whose fresh mesh holds the eight corners, eight normals,
   * eight texture coordinates and twelve shared-index triangles, the
   * normals being the normalised per-corner sums of the face normals.
   */
  method NewBox(center: Vector3, scale: Vector3, normalize: Vector3 -> Vector3) returns (node: Node)
    ensures fresh(node) && node.kind.SolidNode? && fresh(node.kind.mesh)
    ensures node.lTranslation == center && node.lOrientation == IdentityQuaternion
    ensures node.parent == null && node.children == []
    ensures node.kind.mesh.vertices == BoxVertices(scale)
    ensures node.kind.mesh.texCoords == BoxTexCoords()
    ensures Views(node.kind.mesh.faces) == BoxFaceViews()
    ensures forall t :: t in node.kind.mesh.faces ==> fresh(t) && t.Shared()
    ensures node.kind.mesh.normals == Normalized(Accumulate(BoxFaceViews(), BoxVertices(scale), Zeros(8)), normalize)
    ensures node.kind.mesh.scale == Vector3(1.0, 1.0, 1.0) && node.kind.mesh.texture == None
  {
    var m := new Mesh.Empty();
    node := new Node.Solid(m);
    node.lTranslation := center;
    node.lOrientation := IdentityQuaternion;
    AddCorners(m, scale);
    AddBoxFaces(m);
    BoxFacesInRange();
    m.CalculateNormals(normalize);
  }

  /** The corner loop: the eight corners, eight zero normals and eight texture coordinates, in order. */
  method AddCorners(m: Mesh, scale: Vector3)
    requires m.vertices == [] && m.normals == [] && m.texCoords == []
    modifies m
    ensures m.vertices == BoxVertices(scale) && m.normals == Zeros(8) && m.texCoords == BoxTexCoords()
    ensures m.faces == old(m.faces) && m.scale == old(m.scale) && m.texture == old(m.texture)
  {
    for i := 0 to 8
      invariant m.vertices == BoxVertices(scale)[..i]
      invariant m.normals == Zeros(i)
      invariant m.texCoords == BoxTexCoords()[..i]
      invariant m.faces == old(m.faces) && m.scale == old(m.scale) && m.texture == old(m.texture)
    {
      m.vertices := m.vertices + [BoxVertex(scale, i)];
      m.normals := m.normals + [Origin];
      m.texCoords := m.texCoords + [BoxTexCoord(i)];
    }
    assert BoxVertices(scale)[..8] == BoxVertices(scale);
    assert BoxTexCoords()[..8] == BoxTexCoords();
  }

  /** The twelve `faces.add` calls, in table order, each with a fresh shared-index triangle. */
  method AddBoxFaces(m: Mesh)
    requires m.faces == []
    modifies m
    ensures Views(m.faces) == BoxFaceViews()
    ensures forall t :: t in m.faces ==> fresh(t) && t.Shared()
    ensures m.vertices == old(m.vertices) && m.normals == old(m.normals) && m.texCoords == old(m.texCoords)
    ensures m.scale == old(m.scale) && m.texture == old(m.texture)
  {
    BoxFaceIndicesInRange();
    for k := 0 to 12
      invariant Views(m.faces) == BoxFaceViews()[..k]
      invariant forall t :: t in m.faces ==> fresh(t) && t.Shared()
      invariant m.vertices == old(m.vertices) && m.normals == old(m.normals) && m.texCoords == old(m.texCoords)
      invariant m.scale == old(m.scale) && m.texture == old(m.texture)
    {
      var idx := BoxFaces[k];
      assert idx == [idx[0], idx[1], idx[2]];
      AddSharedFace(m, idx[0], idx[1], idx[2]);
      assert BoxFaceViews()[..k + 1] == BoxFaceViews()[..k] + [SharedFace(idx)];
    }
    assert BoxFaceViews()[..12] == BoxFaceViews();
  }
}
