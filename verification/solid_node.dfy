/**
 * SolidNode.java, the mesh half: scale, the vertex, normal and
 * texture-coordinate lists, the faces and an optional texture, together with
 * the per-line handling of Wavefront OBJ records done by the file
 * constructor and the in-place normal recomputation of `calculateNormals`.
 * The node half of a solid (position, orientation, links) is in Nodes.
 *
 * The text of the file arrives as its lines; `Double.parseDouble` and
 * `Integer.parseInt` are parameters returning `None` where Java throws
 * `NumberFormatException`. Any exception aborts the whole construction,
 * so a failed record makes the whole load fail.
 */
module Solids {
  import opened Wrappers
  import opened JavaMath
  import opened Vec3
  import opened Triangles
  import opened Textures

  // ---------------------------------------------------------------------
  // Java's `String.split` on a one-character separator
  // ---------------------------------------------------------------------

  /** Every piece between separators, empty pieces included. */
  function SplitAll(s: string, sep: char): (parts: seq<string>)
    ensures |parts| >= 1
    decreases |s|
  {
    if |s| == 0 then [""]
    else
      var rest := SplitAll(s[1..], sep);
      if s[0] == sep then [""] + rest
      else [[s[0]] + rest[0]] + rest[1..]
  }

  /** The pieces glued back together with the separator between them. */
  function Join(parts: seq<string>, sep: char): string
    requires |parts| >= 1
  {
    if |parts| == 1 then parts[0] else parts[0] + [sep] + Join(parts[1..], sep)
  }

  /** Splitting loses nothing: the pieces join back to the text. */
  lemma {:induction false} SplitAllJoins(s: string, sep: char)
    ensures Join(SplitAll(s, sep), sep) == s
    decreases |s|
  {
    if |s| > 0 {
      var rest := SplitAll(s[1..], sep);
      SplitAllJoins(s[1..], sep);
      assert s == [s[0]] + s[1..];
      var parts := SplitAll(s, sep);
      if s[0] != sep {
        assert parts[0] == [s[0]] + rest[0];
        if |rest| > 1 {
          assert parts[1..] == rest[1..];
          assert Join(rest, sep) == rest[0] + [sep] + Join(rest[1..], sep);
          assert Join(parts, sep) == ([s[0]] + rest[0]) + [sep] + Join(rest[1..], sep);
        }
      } else {
        assert parts[1..] == rest;
      }
    }
  }

  /** No piece holds the separator. */
  lemma {:induction false} SplitAllDropsSeparators(s: string, sep: char)
    ensures forall p :: p in SplitAll(s, sep) ==> sep !in p
    decreases |s|
  {
    if |s| > 0 {
      var rest := SplitAll(s[1..], sep);
      SplitAllDropsSeparators(s[1..], sep);
      var parts := SplitAll(s, sep);
      if s[0] != sep {
        assert parts[0] == [s[0]] + rest[0];
        forall p | p in parts
          ensures sep !in p
        {
          if p != parts[0] {
            assert p in parts[1..];
            assert p in rest;
          }
        }
      } else {
        assert parts[1..] == rest;
      }
    }
  }

  /** The pieces with every trailing empty piece removed. */
  function DropTrailingEmpty(parts: seq<string>): (r: seq<string>)
    ensures r <= parts
    ensures |r| == 0 || r[|r| - 1] != ""
    ensures forall i :: |r| <= i < |parts| ==> parts[i] == ""
  {
    if |parts| == 0 || parts[|parts| - 1] != "" then parts
    else DropTrailingEmpty(parts[..|parts| - 1])
  }

  /**
   * `s.split(sep)`: the text itself when it holds no separator, otherwise
   * the pieces without the trailing empty ones (so `"//"` gives none at all).
   */
  function JavaSplit(s: string, sep: char): (parts: seq<string>)
    ensures sep !in s ==> parts == [s]
    ensures sep in s ==> parts <= SplitAll(s, sep)
    ensures sep in s ==> forall i :: |parts| <= i < |SplitAll(s, sep)| ==> SplitAll(s, sep)[i] == ""
  {
    if sep !in s then [s] else DropTrailingEmpty(SplitAll(s, sep))
  }

  // ---------------------------------------------------------------------
  // One OBJ record, on values
  // ---------------------------------------------------------------------

  /** A mesh's lists read out as values: vertices, normals, texture coordinates, faces. */
  datatype MeshData = MeshData(vertices: seq<Vector3>, normals: seq<Vector3>,
                               texCoords: seq<Vector3>, faces: seq<Face>)

  const NoData := MeshData([], [], [], [])

  /** Java `k - 1` on `int`, wrapping at the bottom of the range. */
  function Pred(k: Int32): (r: Int32)
    ensures (r as int - k as int + 1) % 0x1_0000_0000 == 0
  {
    if k == IntMin then IntMax else k - 1
  }

  /** `Integer.parseInt(s) - 1`: a 1-based OBJ index made 0-based. */
  function ParseIndex(s: string, parseInt: string -> Option<Int32>): (r: Option<Int32>)
    ensures r.Some? <==> parseInt(s).Some?
    ensures r.Some? && parseInt(s).value > IntMin ==> r.value == parseInt(s).value - 1
  {
    match parseInt(s)
    case None => None
    case Some(k) => Some(Pred(k))
  }

  /** The indices read from one `v/vt/vn` corner of an `f` record. */
  datatype Corner = Corner(vertex: int, texCoord: int, normal: int)

  /**
   * One corner token split on `/`: the vertex index is always parsed; the
   * texture index only when the second piece exists and is not empty; the
   * normal index only when a third piece exists. An index not given stays 0.
   */
  function ParseCorner(token: string, parseInt: string -> Option<Int32>): Option<Corner> {
    var parts := JavaSplit(token, '/');
    if |parts| == 0 then None
    else
      var v := ParseIndex(parts[0], parseInt);
      var t := if |parts| > 1 && parts[1] != "" then ParseIndex(parts[1], parseInt) else Some(0);
      var n := if |parts| > 2 then ParseIndex(parts[2], parseInt) else Some(0);
      if v.None? || t.None? || n.None? then None
      else Some(Corner(v.value, t.value, n.value))
  }

  /** The parsed corner, or an arbitrary one when the token does not parse. */
  function CornerOf(token: string, parseInt: string -> Option<Int32>): Corner {
    match ParseCorner(token, parseInt)
    case None => Corner(0, 0, 0)
    case Some(c) => c
  }

  /**
   * The triangle over corners `a`, `b`, `c` as the file constructor builds
   * it: `new Triangle(verts, texCoords, normals)` against the parameter
   * order `(vertices, normals, texCoords)`, so the texture indices land in
   * the normal slot and the normal indices in the texture slot.
   */
  function Tri(cs: seq<Corner>, a: nat, b: nat, c: nat): (f: Face)
    requires a < |cs| && b < |cs| && c < |cs|
    ensures f.coords == [cs[a].vertex, cs[b].vertex, cs[c].vertex]
    ensures f.norms == [cs[a].texCoord, cs[b].texCoord, cs[c].texCoord]
    ensures f.texCoords == [cs[a].normal, cs[b].normal, cs[c].normal]
  {
    Face([cs[a].vertex, cs[b].vertex, cs[c].vertex],
         [cs[a].texCoord, cs[b].texCoord, cs[c].texCoord],
         [cs[a].normal, cs[b].normal, cs[c].normal])
  }

  /** The number of corners an `f` record with this many tokens reads. */
  function CornerCount(tokens: nat): (n: nat)
    requires tokens >= 4
    ensures n == 3 || n == 4
    ensures n < tokens
  {
    if tokens == 4 then 3 else 4
  }

  /** The corners of an `f` record, when all of them parse. */
  function Corners(elements: seq<string>, parseInt: string -> Option<Int32>): (cs: seq<Corner>)
    requires |elements| >= 4
    ensures |cs| == CornerCount(|elements|)
    ensures forall i :: 0 <= i < |cs| ==> cs[i] == CornerOf(elements[1..][i], parseInt)
  {
    var n := CornerCount(|elements|);
    seq(n, i requires 0 <= i < n && i < |elements| - 1 => CornerOf(elements[1..][i], parseInt))
  }

  /** An `f` record: one triangle from three corners, a fan of two from four. */
  function FaceRecord(elements: seq<string>, parseInt: string -> Option<Int32>): (r: Option<seq<Face>>)
    requires |elements| >= 4
    ensures r.Some? <==> forall i :: 0 <= i < CornerCount(|elements|) ==> ParseCorner(elements[1..][i], parseInt).Some?
    ensures r.Some? ==> |r.value| == CornerCount(|elements|) - 2
  {
    var n := CornerCount(|elements|);
    if exists i :: 0 <= i < n && ParseCorner(elements[1..][i], parseInt).None? then None
    else
      var cs := Corners(elements, parseInt);
      if n == 3 then Some([Tri(cs, 0, 1, 2)]) else Some([Tri(cs, 0, 1, 2), Tri(cs, 0, 2, 3)])
  }

  function ParseVector(a: string, b: string, c: string, parseReal: string -> Option<real>): (r: Option<Vector3>)
    ensures r.Some? <==> parseReal(a).Some? && parseReal(b).Some? && parseReal(c).Some?
    ensures r.Some? ==> r.value == Vector3(parseReal(a).value, parseReal(b).value, parseReal(c).value)
  {
    if parseReal(a).None? || parseReal(b).None? || parseReal(c).None? then None
    else Some(Vector3(parseReal(a).value, parseReal(b).value, parseReal(c).value))
  }

  /** The effect of one line's tokens on the lists; `None` where Java throws. */
  function Record(d: MeshData, elements: seq<string>,
                  parseReal: string -> Option<real>, parseInt: string -> Option<Int32>): Option<MeshData>
    requires |elements| >= 1
  {
    var kind := elements[0];
    if kind == "v" && |elements| >= 4 then
      match ParseVector(elements[1], elements[2], elements[3], parseReal)
      case None => None
      case Some(p) => Some(d.(vertices := d.vertices + [p]))
    else if kind == "vt" && |elements| == 3 then
      if parseReal(elements[1]).None? || parseReal(elements[2]).None? then None
      else Some(d.(texCoords := d.texCoords + [Vector3(parseReal(elements[1]).value, parseReal(elements[2]).value, 0.0)]))
    else if kind == "vt" && |elements| > 3 then
      match ParseVector(elements[1], elements[2], elements[3], parseReal)
      case None => None
      case Some(p) => Some(d.(texCoords := d.texCoords + [p]))
    else if kind == "vn" && |elements| >= 4 then
      match ParseVector(elements[1], elements[2], elements[3], parseReal)
      case None => None
      case Some(p) => Some(d.(normals := d.normals + [p]))
    else if kind == "f" && |elements| >= 4 then
      match FaceRecord(elements, parseInt)
      case None => None
      case Some(fs) => Some(d.(faces := d.faces + fs))
    else Some(d)
  }

  /**
   * Which list a record grows and by how much: a `v` or `vn` record with at
   * least four tokens appends one vector, a `vt` record with at least three
   * appends one, an `f` record with four tokens one face and with more two;
   * nothing else is touched, and every other line changes nothing.
   * Only a recognised record long enough to be read can fail.
   */
  lemma RecordGrowsOneList(d: MeshData, elements: seq<string>,
                           parseReal: string -> Option<real>, parseInt: string -> Option<Int32>)
    requires |elements| >= 1
    ensures var r := Record(d, elements, parseReal, parseInt);
      && (r.None? ==> (elements[0] in {"v", "vn", "f"} && |elements| >= 4) || (elements[0] == "vt" && |elements| >= 3))
      && (r.Some? ==>
          && r.value.vertices == d.vertices + r.value.vertices[|d.vertices|..]
          && r.value.normals == d.normals + r.value.normals[|d.normals|..]
          && r.value.texCoords == d.texCoords + r.value.texCoords[|d.texCoords|..]
          && r.value.faces == d.faces + r.value.faces[|d.faces|..]
          && |r.value.vertices| == |d.vertices| + (if elements[0] == "v" && |elements| >= 4 then 1 else 0)
          && |r.value.normals| == |d.normals| + (if elements[0] == "vn" && |elements| >= 4 then 1 else 0)
          && |r.value.texCoords| == |d.texCoords| + (if elements[0] == "vt" && |elements| >= 3 then 1 else 0)
          && |r.value.faces| == |d.faces| + (if elements[0] == "f" && |elements| == 4 then 1
                                             else if elements[0] == "f" && |elements| > 4 then 2 else 0))
  {
  }

  /** A `vt` record with exactly two numbers gets `0` as its third coordinate. */
  lemma TexCoordRecordDefaultsToZero(d: MeshData, u: string, v: string,
                                     parseReal: string -> Option<real>, parseInt: string -> Option<Int32>)
    requires parseReal(u).Some? && parseReal(v).Some?
    ensures var r := Record(d, ["vt", u, v], parseReal, parseInt);
      r == Some(d.(texCoords := d.texCoords + [Vector3(parseReal(u).value, parseReal(v).value, 0.0)]))
  {
  }

  /**
   * A quad record `f a b c e` (and any longer one) becomes the fan
   * `(a, b, c)`, `(a, c, e)`; further corners are ignored. In each face the
   * normal slot holds the texture indices of the file and the texture slot
   * its normal indices.
   */
  lemma QuadRecordIsFan(d: MeshData, elements: seq<string>,
                        parseReal: string -> Option<real>, parseInt: string -> Option<Int32>)
    requires |elements| >= 5 && elements[0] == "f"
    requires forall i :: 0 <= i < 4 ==> ParseCorner(elements[1..][i], parseInt).Some?
    ensures var r := Record(d, elements, parseReal, parseInt);
      var c0, c1, c2, c3 := CornerOf(elements[1], parseInt), CornerOf(elements[2], parseInt),
                            CornerOf(elements[3], parseInt), CornerOf(elements[4], parseInt);
      && r.Some?
      && r.value.faces == d.faces + [
           Face([c0.vertex, c1.vertex, c2.vertex], [c0.texCoord, c1.texCoord, c2.texCoord], [c0.normal, c1.normal, c2.normal]),
           Face([c0.vertex, c2.vertex, c3.vertex], [c0.texCoord, c2.texCoord, c3.texCoord], [c0.normal, c2.normal, c3.normal])]
  {
    var cs := Corners(elements, parseInt);
    assert elements[1..][0] == elements[1] && elements[1..][1] == elements[2];
    assert elements[1..][2] == elements[3] && elements[1..][3] == elements[4];
  }

  /**
   * A corner written `v/t/n` yields the three numbers less one; one written
   * `v//n` or `v` leaves the texture index at 0, and `v` and `v/t` leave the
   * normal index at 0.
   */
  lemma CornerIndicesAreZeroBased(token: string, parseInt: string -> Option<Int32>)
    requires ParseCorner(token, parseInt).Some?
    ensures var parts := JavaSplit(token, '/');
      var c := ParseCorner(token, parseInt).value;
      && (parseInt(parts[0]).value > IntMin ==> c.vertex == parseInt(parts[0]).value - 1)
      && (|parts| > 1 && parts[1] != "" && parseInt(parts[1]).value > IntMin ==> c.texCoord == parseInt(parts[1]).value - 1)
      && (|parts| <= 1 || parts[1] == "" ==> c.texCoord == 0)
      && (|parts| > 2 && parseInt(parts[2]).value > IntMin ==> c.normal == parseInt(parts[2]).value - 1)
      && (|parts| <= 2 ==> c.normal == 0)
  {
  }

  /** The whole file: each line split on spaces and handled in order. */
  function Load(lines: seq<string>, parseReal: string -> Option<real>,
                parseInt: string -> Option<Int32>): Option<MeshData>
  {
    if |lines| == 0 then Some(NoData)
    else
      match Load(lines[..|lines| - 1], parseReal, parseInt)
      case None => None
      case Some(d) =>
        var elements := JavaSplit(lines[|lines| - 1], ' ');
        if |elements| == 0 then None else Record(d, elements, parseReal, parseInt)
  }

  /** Once a line throws, no later line matters: the whole load fails. */
  lemma {:induction false} LoadFailureIsFinal(lines: seq<string>, i: nat,
                                              parseReal: string -> Option<real>, parseInt: string -> Option<Int32>)
    requires i <= |lines| && Load(lines[..i], parseReal, parseInt).None?
    ensures Load(lines, parseReal, parseInt).None?
    decreases |lines|
  {
    if i < |lines| {
      var init := lines[..|lines| - 1];
      assert init[..i] == lines[..i];
      LoadFailureIsFinal(init, i, parseReal, parseInt);
    } else {
      assert lines[..i] == lines;
    }
  }

  // ---------------------------------------------------------------------
  // Normal accumulation, on values
  // ---------------------------------------------------------------------

  /** The first three corners of the face index real vertices and normals. */
  predicate FaceInRange(f: Face, vertexCount: nat, normalCount: nat) {
    && |f.coords| >= 3 && |f.norms| >= 3
    && (forall j :: 0 <= j < 3 ==> 0 <= f.coords[j] < vertexCount)
    && (forall j :: 0 <= j < 3 ==> 0 <= f.norms[j] < normalCount)
  }

  /** `(v2 - v1) × (v3 - v1)` over the face's first three vertices. */
  function FaceNormal(f: Face, verts: seq<Vector3>): Vector3
    requires |f.coords| >= 3
    requires forall j :: 0 <= j < 3 ==> 0 <= f.coords[j] < |verts|
  {
    var v1, v2, v3 := verts[f.coords[0]], verts[f.coords[1]], verts[f.coords[2]];
    v2.Subtract(v1).Cross(v3.Subtract(v1))
  }

  /** The three sequential `set(add(no))` calls of one face. */
  function AddFace(ns: seq<Vector3>, f: Face, verts: seq<Vector3>): (r: seq<Vector3>)
    requires FaceInRange(f, |verts|, |ns|)
    ensures |r| == |ns|
  {
    var no := FaceNormal(f, verts);
    var a := ns[f.norms[0] := ns[f.norms[0]].Add(no)];
    var b := a[f.norms[1] := a[f.norms[1]].Add(no)];
    b[f.norms[2] := b[f.norms[2]].Add(no)]
  }

  /** The normals after the accumulation loop has handled the faces `fs`, in order. */
  function Accumulate(fs: seq<Face>, verts: seq<Vector3>, ns: seq<Vector3>): (r: seq<Vector3>)
    requires forall f :: f in fs ==> FaceInRange(f, |verts|, |ns|)
    ensures |r| == |ns|
  {
    if |fs| == 0 then ns
    else
      var prev := Accumulate(fs[..|fs| - 1], verts, ns);
      AddFace(prev, fs[|fs| - 1], verts)
  }

  /** What one face adds to normal `k`: its normal once per corner naming `k`. */
  function Contribution(f: Face, verts: seq<Vector3>, k: int): Vector3
    requires |f.coords| >= 3 && |f.norms| >= 3
    requires forall j :: 0 <= j < 3 ==> 0 <= f.coords[j] < |verts|
  {
    var no := FaceNormal(f, verts);
    (if f.norms[0] == k then no else Origin)
      .Add(if f.norms[1] == k then no else Origin)
      .Add(if f.norms[2] == k then no else Origin)
  }

  /** The reference sum: over every face and corner whose normal index is `k`. */
  function NormalSum(fs: seq<Face>, verts: seq<Vector3>, k: int): Vector3
    requires forall f :: f in fs ==> |f.coords| >= 3 && |f.norms| >= 3
    requires forall f :: f in fs ==> forall j :: 0 <= j < 3 ==> 0 <= f.coords[j] < |verts|
  {
    if |fs| == 0 then Origin
    else NormalSum(fs[..|fs| - 1], verts, k).Add(Contribution(fs[|fs| - 1], verts, k))
  }

  /** Every vector of the list replaced by `normalize` of itself. */
  function Normalized(ns: seq<Vector3>, normalize: Vector3 -> Vector3): (r: seq<Vector3>)
    ensures |r| == |ns| && forall k :: 0 <= k < |ns| ==> r[k] == normalize(ns[k])
  {
    seq(|ns|, k requires 0 <= k < |ns| => normalize(ns[k]))
  }

  function Zeros(n: nat): (r: seq<Vector3>)
    ensures |r| == n && forall k :: 0 <= k < n ==> r[k] == Origin
  {
    seq(n, _ => Origin)
  }

  /** Handling one face adds its contribution to every normal. */
  lemma AddFaceAdds(ns: seq<Vector3>, f: Face, verts: seq<Vector3>, k: int)
    requires FaceInRange(f, |verts|, |ns|) && 0 <= k < |ns|
    ensures AddFace(ns, f, verts)[k] == ns[k].Add(Contribution(f, verts, k))
  {
    var no := FaceNormal(f, verts);
    var a, b, c := f.norms[0], f.norms[1], f.norms[2];
    var s1 := ns[a := ns[a].Add(no)];
    var s2 := s1[b := s1[b].Add(no)];
    var s3 := s2[c := s2[c].Add(no)];
    assert s3 == AddFace(ns, f, verts);
    var e0, e1, e2 := (if a == k then no else Origin), (if b == k then no else Origin), (if c == k then no else Origin);
    assert s1[k] == ns[k].Add(e0);
    assert s2[k] == s1[k].Add(e1);
    assert s3[k] == s2[k].Add(e2);
    assert Contribution(f, verts, k) == e0.Add(e1).Add(e2);
  }

  /**
   * Starting from zeros, normal `k` after the loop is the sum, over every
   * face and corner `j` with `getNorm(j) == k`, of that face's normal.
   */
  lemma {:induction false} AccumulateIsNormalSum(fs: seq<Face>, verts: seq<Vector3>, n: nat, k: int)
    requires forall f :: f in fs ==> FaceInRange(f, |verts|, n)
    requires 0 <= k < n
    ensures Accumulate(fs, verts, Zeros(n))[k] == NormalSum(fs, verts, k)
  {
    if |fs| > 0 {
      var init := fs[..|fs| - 1];
      assert forall f :: f in init ==> f in fs;
      AccumulateIsNormalSum(init, verts, n, k);
      AddFaceAdds(Accumulate(init, verts, Zeros(n)), fs[|fs| - 1], verts, k);
    }
  }

  // ---------------------------------------------------------------------
  // The mesh object
  // ---------------------------------------------------------------------

  /** Every index array of the given triangles. */
  function FaceArrays(ts: seq<Triangle>): set<array<int>> {
    (set t | t in ts :: t.vertices) + (set t | t in ts :: t.normals) + (set t | t in ts :: t.texCoords)
  }

  /** The triangles read out as values, in order. */
  function Views(ts: seq<Triangle>): (fs: seq<Face>)
    reads FaceArrays(ts)
    ensures |fs| == |ts| && forall i :: 0 <= i < |ts| ==> fs[i] == ts[i].View()
  {
    seq(|ts|, i requires 0 <= i < |ts| reads FaceArrays(ts) => ts[i].View())
  }

  class Mesh {
    var scale: Vector3
    var vertices: seq<Vector3>
    var normals: seq<Vector3>
    var texCoords: seq<Vector3>
    var faces: seq<Triangle>
    var texture: Option<Texture>

    /** The four lists as values. */
    function Data(): MeshData
      reads this, FaceArrays(faces)
    {
      MeshData(vertices, normals, texCoords, Views(faces))
    }

    /** `SolidNode()`: unit scale, four empty lists, no texture. */
    constructor Empty()
      ensures scale == Vector3(1.0, 1.0, 1.0)
      ensures vertices == [] && normals == [] && texCoords == [] && faces == []
      ensures texture == None
    {
      scale := Vector3(1.0, 1.0, 1.0);
      vertices, normals, texCoords, faces := [], [], [], [];
      texture := None;
    }

    /** `setScale(s)`: the uniform scale `(s, s, s)`. */
    method SetScale(s: real)
      modifies this
      ensures scale == Vector3(s, s, s)
      ensures vertices == old(vertices) && normals == old(normals) && texCoords == old(texCoords)
      ensures faces == old(faces) && texture == old(texture)
    {
      scale := Vector3(s, s, s);
    }

    /** `setTexture(t)`. */
    method SetTexture(t: Option<Texture>)
      modifies this
      ensures texture == t
      ensures scale == old(scale) && vertices == old(vertices) && normals == old(normals)
      ensures texCoords == old(texCoords) && faces == old(faces)
    {
      texture := t;
    }

    /**
     * The loop body of the file constructor for one line's tokens. `ok` is
     * false where Java throws, and then no list has changed.
     */
    method HandleRecord(elements: seq<string>, parseReal: string -> Option<real>,
                        parseInt: string -> Option<Int32>) returns (ok: bool)
      requires |elements| >= 1
      modifies this
      ensures ok <==> Record(old(Data()), elements, parseReal, parseInt).Some?
      ensures ok ==> Data() == Record(old(Data()), elements, parseReal, parseInt).value
      ensures !ok ==> Data() == old(Data())
      ensures scale == old(scale) && texture == old(texture)
    {
      ok := true;
      var kind := elements[0];
      if kind == "v" {
        if |elements| >= 4 {
          var p := ParseVector(elements[1], elements[2], elements[3], parseReal);
          if p.None? {
            return false;
          }
          vertices := vertices + [p.value];
        }
      } else if kind == "vt" {
        if |elements| == 3 {
          if parseReal(elements[1]).None? || parseReal(elements[2]).None? {
            return false;
          }
          texCoords := texCoords + [Vector3(parseReal(elements[1]).value, parseReal(elements[2]).value, 0.0)];
        } else if |elements| > 3 {
          var p := ParseVector(elements[1], elements[2], elements[3], parseReal);
          if p.None? {
            return false;
          }
          texCoords := texCoords + [p.value];
        }
      } else if kind == "vn" {
        if |elements| >= 4 {
          var p := ParseVector(elements[1], elements[2], elements[3], parseReal);
          if p.None? {
            return false;
          }
          normals := normals + [p.value];
        }
      } else if kind == "f" {
        if |elements| >= 4 {
          ok := AddFaceRecord(elements, parseInt);
        }
      }
    }

    /** The `f` branch: read the corners, then append one triangle or a fan of two. */
    method AddFaceRecord(elements: seq<string>, parseInt: string -> Option<Int32>) returns (ok: bool)
      requires |elements| >= 4
      modifies this
      ensures ok <==> FaceRecord(elements, parseInt).Some?
      ensures ok ==> Data() == old(Data()).(faces := old(Data()).faces + FaceRecord(elements, parseInt).value)
      ensures !ok ==> Data() == old(Data())
      ensures scale == old(scale) && texture == old(texture)
    {
      ghost var d := Data();
      var count := CornerCount(|elements|);
      var vs, ts, ns;
      ok, vs, ts, ns := ReadCorners(elements[1..], count, parseInt);
      if !ok {
        return;
      }
      FaceRecordRead(elements, parseInt, vs[..], ts[..], ns[..]);
      var added := BuildFaces(vs, ts, ns);
      assert Data() == d;
      AppendFaces(added, FaceRecord(elements, parseInt).value);
    }

    /** `faces.add` of each of the given triangles, in order. */
    method AppendFaces(added: seq<Triangle>, ghost fs: seq<Face>)
      requires Views(added) == fs
      modifies this
      ensures faces == old(faces) + added
      ensures Data() == old(Data()).(faces := old(Data()).faces + fs)
      ensures scale == old(scale) && texture == old(texture)
    {
      ViewsAppend(faces, added);
      faces := faces + added;
    }

    /** `calculateNormals()`, with `Vector3.normalize` as the parameter `normalize`. */
    method CalculateNormals(normalize: Vector3 -> Vector3)
      requires forall f :: f in Views(faces) ==> FaceInRange(f, |vertices|, |normals|)
      modifies this
      ensures vertices == old(vertices) && texCoords == old(texCoords) && faces == old(faces)
      ensures scale == old(scale) && texture == old(texture)
      ensures normals == Normalized(Accumulate(Views(faces), vertices, Zeros(|old(normals)|)), normalize)
    {
      ghost var fs := Views(faces);
      ZeroNormals();
      assert Views(faces) == fs;
      AddFaceNormals();
      assert Views(faces) == fs;
      ghost var sums := normals;
      assert sums == Accumulate(fs, vertices, Zeros(|old(normals)|));
      NormalizeNormals(normalize);
      assert Views(faces) == fs;
      assert normals == Normalized(sums, normalize);
    }

    /** The first loop: every normal `set` to the zero vector. */
    method ZeroNormals()
      modifies this
      ensures vertices == old(vertices) && texCoords == old(texCoords) && faces == old(faces)
      ensures scale == old(scale) && texture == old(texture)
      ensures normals == Zeros(|old(normals)|)
    {
      var n := |normals|;
      for i := 0 to n
        invariant vertices == old(vertices) && texCoords == old(texCoords) && faces == old(faces)
        invariant scale == old(scale) && texture == old(texture)
        invariant |normals| == n
        invariant forall k :: 0 <= k < i ==> normals[k] == Origin
      {
        normals := normals[i := Origin];
      }
    }

    /** The second loop: each face's normal added at its three normal indices. */
    method AddFaceNormals()
      requires forall f :: f in Views(faces) ==> FaceInRange(f, |vertices|, |normals|)
      modifies this
      ensures vertices == old(vertices) && texCoords == old(texCoords) && faces == old(faces)
      ensures scale == old(scale) && texture == old(texture)
      ensures normals == Accumulate(Views(faces), vertices, old(normals))
    {
      ghost var fs := Views(faces);
      ghost var start := normals;
      for i := 0 to |faces|
        invariant vertices == old(vertices) && texCoords == old(texCoords) && faces == old(faces)
        invariant scale == old(scale) && texture == old(texture)
        invariant |normals| == |start|
        invariant normals == Accumulate(fs[..i], vertices, start)
      {
        assert fs[i] in fs;
        AddOneFace(faces[i], fs[i]);
        assert fs[..i + 1][..i] == fs[..i];
      }
      assert fs[..|faces|] == fs;
      assert Views(faces) == fs;
    }

    /** The body of the accumulation loop for one face: its normal added at its three normal indices. */
    method AddOneFace(face: Triangle, ghost f: Face)
      requires face.View() == f && FaceInRange(f, |vertices|, |normals|)
      modifies this
      ensures vertices == old(vertices) && texCoords == old(texCoords) && faces == old(faces)
      ensures scale == old(scale) && texture == old(texture)
      ensures normals == AddFace(old(normals), f, vertices)
    {
      var v1 := vertices[face.GetCoord(0)];
      var v2 := vertices[face.GetCoord(1)];
      var v3 := vertices[face.GetCoord(2)];
      var no := v2.Subtract(v1).Cross(v3.Subtract(v1));
      assert no == FaceNormal(f, vertices);
      var a := face.GetNorm(0);
      normals := normals[a := normals[a].Add(no)];
      var b := face.GetNorm(1);
      normals := normals[b := normals[b].Add(no)];
      var c := face.GetNorm(2);
      normals := normals[c := normals[c].Add(no)];
    }

    /** The third loop: every normal replaced by `normalize` of itself. */
    method NormalizeNormals(normalize: Vector3 -> Vector3)
      modifies this
      ensures vertices == old(vertices) && texCoords == old(texCoords) && faces == old(faces)
      ensures scale == old(scale) && texture == old(texture)
      ensures normals == Normalized(old(normals), normalize)
    {
      var n := |normals|;
      for i := 0 to n
        invariant vertices == old(vertices) && texCoords == old(texCoords) && faces == old(faces)
        invariant scale == old(scale) && texture == old(texture)
        invariant |normals| == n
        invariant forall k :: 0 <= k < i ==> normals[k] == normalize(old(normals)[k])
        invariant forall k :: i <= k < n ==> normals[k] == old(normals)[k]
      {
        normals := normals[i := normalize(normals[i])];
      }
    }
  }

  /** Reading the triangles of two lists one after the other. */
  lemma ViewsAppend(a: seq<Triangle>, b: seq<Triangle>)
    ensures Views(a + b) == Views(a) + Views(b)
  {
    assert forall i :: 0 <= i < |b| ==> (a + b)[|a| + i] == b[i];
  }

  /** What the corner loop read, as the corner list of the record. */
  lemma CornersRead(elements: seq<string>, parseInt: string -> Option<Int32>, vs: seq<int>, ts: seq<int>, ns: seq<int>)
    requires |elements| >= 4
    requires |vs| == |ts| == |ns| == CornerCount(|elements|)
    requires forall j :: 0 <= j < |vs| ==> ParseCorner(elements[1..][j], parseInt) == Some(Corner(vs[j], ts[j], ns[j]))
    ensures forall j :: 0 <= j < |vs| ==> Corners(elements, parseInt)[j] == Corner(vs[j], ts[j], ns[j])
  {
  }

  /** The faces of an `f` record, given the corners the loop read. */
  lemma FaceRecordRead(elements: seq<string>, parseInt: string -> Option<Int32>, vs: seq<int>, ts: seq<int>, ns: seq<int>)
    requires |elements| >= 4
    requires |vs| == |ts| == |ns| == CornerCount(|elements|)
    requires forall j :: 0 <= j < |vs| ==> ParseCorner(elements[1..][j], parseInt) == Some(Corner(vs[j], ts[j], ns[j]))
    ensures FaceRecord(elements, parseInt) == Some(
      if |vs| == 3 then [Face(vs, ts, ns)]
      else [Face([vs[0], vs[1], vs[2]], [ts[0], ts[1], ts[2]], [ns[0], ns[1], ns[2]]),
            Face([vs[0], vs[2], vs[3]], [ts[0], ts[2], ts[3]], [ns[0], ns[2], ns[3]])])
  {
    CornersRead(elements, parseInt, vs, ts, ns);
    if |vs| == 3 {
      assert vs == [vs[0], vs[1], vs[2]] && ts == [ts[0], ts[1], ts[2]] && ns == [ns[0], ns[1], ns[2]];
    }
  }

  /**
   * The triangles of an `f` record from the corner arrays: the arrays
   * themselves for three corners, fresh copies `{0, 1, 2}` and `{0, 2, 3}`
   * for four. Either way the arguments go in the order `(verts, texCoords,
   * normals)`.
   */
  method BuildFaces(vs: array<int>, ts: array<int>, ns: array<int>) returns (added: seq<Triangle>)
    requires vs.Length == ts.Length == ns.Length && (vs.Length == 3 || vs.Length == 4)
    ensures Views(added) == if vs.Length == 3 then [Face(vs[..], ts[..], ns[..])]
      else [Face([vs[0], vs[1], vs[2]], [ts[0], ts[1], ts[2]], [ns[0], ns[1], ns[2]]),
            Face([vs[0], vs[2], vs[3]], [ts[0], ts[2], ts[3]], [ns[0], ns[2], ns[3]])]
  {
    if vs.Length == 3 {
      var t := new Triangle(vs, ts, ns);
      added := [t];
    } else {
      var first := CopyTriangle(vs, ts, ns, 0, 1, 2);
      var second := CopyTriangle(vs, ts, ns, 0, 2, 3);
      added := [first, second];
    }
  }

  /**
   * One fan triangle of a quad: fresh copies `{a, b, c}` of the three index
   * arrays passed in the order `(verts, texCoords, normals)`.
   */
  method CopyTriangle(vs: array<int>, ts: array<int>, ns: array<int>, a: nat, b: nat, c: nat) returns (t: Triangle)
    requires a < vs.Length && b < vs.Length && c < vs.Length
    requires a < ts.Length && b < ts.Length && c < ts.Length
    requires a < ns.Length && b < ns.Length && c < ns.Length
    ensures fresh(t) && fresh(t.vertices) && fresh(t.normals) && fresh(t.texCoords)
    ensures t.View() == Face([vs[a], vs[b], vs[c]], [ts[a], ts[b], ts[c]], [ns[a], ns[b], ns[c]])
  {
    var v := new int[] [vs[a], vs[b], vs[c]];
    var tx := new int[] [ts[a], ts[b], ts[c]];
    var n := new int[] [ns[a], ns[b], ns[c]];
    t := new Triangle(v, tx, n);
  }

  /**
   * The corner loop of the `f` branch: `count` corners parsed into three
   * fresh arrays; `ok` is false where a parse throws.
   */
  method ReadCorners(tokens: seq<string>, count: nat, parseInt: string -> Option<Int32>)
    returns (ok: bool, vs: array<int>, ts: array<int>, ns: array<int>)
    requires count <= |tokens|
    ensures fresh(vs) && fresh(ts) && fresh(ns)
    ensures vs.Length == count && ts.Length == count && ns.Length == count
    ensures ok <==> forall j :: 0 <= j < count ==> ParseCorner(tokens[j], parseInt).Some?
    ensures ok ==> forall j :: 0 <= j < count ==> ParseCorner(tokens[j], parseInt) == Some(Corner(vs[j], ts[j], ns[j]))
  {
    vs := new int[count];
    ts := new int[count];
    ns := new int[count];
    for i := 0 to count
      invariant forall j :: 0 <= j < i ==> ParseCorner(tokens[j], parseInt) == Some(Corner(vs[j], ts[j], ns[j]))
    {
      var c := ParseCorner(tokens[i], parseInt);
      if c.None? {
        ok := false;
        return;
      }
      vs[i] := c.value.vertex;
      ts[i] := c.value.texCoord;
      ns[i] := c.value.normal;
    }
    ok := true;
  }

  /**
   * The file constructor `SolidNode(File)` over the file's lines: a fresh
   * mesh whose lists are those of `Load`, or `None` where Java throws.
   */
  method LoadMesh(lines: seq<string>, parseReal: string -> Option<real>,
                  parseInt: string -> Option<Int32>) returns (r: Option<Mesh>)
    ensures r.Some? <==> Load(lines, parseReal, parseInt).Some?
    ensures r.Some? ==> fresh(r.value) && r.value.Data() == Load(lines, parseReal, parseInt).value
    ensures r.Some? ==> r.value.scale == Vector3(1.0, 1.0, 1.0) && r.value.texture == None
  {
    var m := new Mesh.Empty();
    assert m.Data() == NoData;
    for i := 0 to |lines|
      invariant Load(lines[..i], parseReal, parseInt) == Some(m.Data())
      invariant m.scale == Vector3(1.0, 1.0, 1.0) && m.texture == None
    {
      assert lines[..i + 1][..i] == lines[..i];
      var elements := JavaSplit(lines[i], ' ');
      if |elements| == 0 {
        LoadFailureIsFinal(lines, i + 1, parseReal, parseInt);
        return None;
      }
      var ok := m.HandleRecord(elements, parseReal, parseInt);
      if !ok {
        LoadFailureIsFinal(lines, i + 1, parseReal, parseInt);
        return None;
      }
    }
    assert lines[..|lines|] == lines;
    r := Some(m);
  }
}
