/**
 * Triangle.java: one face of a mesh, holding three index arrays (vertex
 * coordinates, normals, texture coordinates). The arrays are fields that
 * `setVertex` writes in place, and the one-argument constructor makes all
 * three fields the same array, so the class keeps its arrays.
 */
module Triangles {

  /** The index arrays of a triangle read out as values. */
  datatype Face = Face(coords: seq<int>, norms: seq<int>, texCoords: seq<int>)

  /** A face whose three index lists all have the given entries. */
  function SharedFace(idx: seq<int>): (f: Face)
    ensures f.coords == f.norms == f.texCoords == idx
  {
    Face(idx, idx, idx)
  }

  class Triangle {
    const vertices: array<int>
    const normals: array<int>
    const texCoords: array<int>
    /** `colors` is declared but no constructor assigns it: it stays `null`. */
    const colors: array?<int>

    /** The three arrays, as values. */
    function View(): (f: Face)
      reads vertices, normals, texCoords
      ensures |f.coords| == vertices.Length && |f.norms| == normals.Length && |f.texCoords| == texCoords.Length
    {
      Face(vertices[..], normals[..], texCoords[..])
    }

    /** All three attributes live in one shared array. */
    predicate Shared() {
      vertices == normals && normals == texCoords
    }

    /** `Triangle(vertices, normals, texCoords)`: stores the arrays in that parameter order. */
    constructor (vertices: array<int>, normals: array<int>, texCoords: array<int>)
      ensures this.vertices == vertices && this.normals == normals && this.texCoords == texCoords
      ensures colors == null
    {
      this.vertices := vertices;
      this.normals := normals;
      this.texCoords := texCoords;
      colors := null;
    }

    /** `Triangle(vertices)`: one array shared by all three attributes. */
    constructor Aliased(vertices: array<int>)
      ensures this.vertices == vertices && Shared()
      ensures colors == null
    {
      this.vertices := vertices;
      normals := vertices;
      texCoords := vertices;
      colors := null;
    }

    /** `Triangle()`: three distinct fresh arrays of three zeros. */
    constructor Empty()
      ensures fresh(vertices) && fresh(normals) && fresh(texCoords)
      ensures vertices != normals && normals != texCoords && vertices != texCoords
      ensures View() == Face([0, 0, 0], [0, 0, 0], [0, 0, 0])
      ensures colors == null
    {
      vertices := new int[3](_ => 0);
      normals := new int[3](_ => 0);
      texCoords := new int[3](_ => 0);
      colors := null;
    }

    /**
     * `setVertex(index, v, vn, vt)`: writes `v`, then `vn`, then `vt` at
     * `index` of the three arrays. When arrays are shared the later write
     * wins, so an aliased triangle ends with `vt` in all three.
     */
    method SetVertex(index: int, v: int, vn: int, vt: int)
      requires 0 <= index < vertices.Length && index < normals.Length && index < texCoords.Length
      modifies vertices, normals, texCoords
      ensures texCoords[index] == vt
      ensures normals[index] == if normals == texCoords then vt else vn
      ensures vertices[index] == if vertices == texCoords then vt else if vertices == normals then vn else v
      ensures forall j :: 0 <= j < vertices.Length && j != index ==> vertices[j] == old(vertices[j])
      ensures forall j :: 0 <= j < normals.Length && j != index ==> normals[j] == old(normals[j])
      ensures forall j :: 0 <= j < texCoords.Length && j != index ==> texCoords[j] == old(texCoords[j])
    {
      vertices[index] := v;
      normals[index] := vn;
      texCoords[index] := vt;
    }

    /** `getCoord(index)`: the vertex index stored for corner `index`. */
    function GetCoord(index: int): (r: int)
      requires 0 <= index < vertices.Length
      reads vertices
      ensures r == View().coords[index]
    {
      vertices[index]
    }

    /** `getNorm(index)`: the normal index stored for corner `index`. */
    function GetNorm(index: int): (r: int)
      requires 0 <= index < normals.Length
      reads normals
      ensures r == View().norms[index]
    {
      normals[index]
    }

    /** `getTexCoord(index)`: the texture-coordinate index stored for corner `index`. */
    function GetTexCoord(index: int): (r: int)
      requires 0 <= index < texCoords.Length
      reads texCoords
      ensures r == View().texCoords[index]
    {
      texCoords[index]
    }

    /** `getCoords()`, `getNorms()`, `getTexCoords()`, `getColors()`: the stored arrays themselves. */
    function GetArrays(): (r: (array<int>, array<int>, array<int>, array?<int>))
      ensures Shared() ==> r.0 == r.1 == r.2
      ensures r.3 == colors
    {
      (vertices, normals, texCoords, colors)
    }
  }

  /** On a triangle built from one array, the three getters agree at every corner. */
  lemma SharedGettersAgree(t: Triangle, i: int)
    requires t.Shared() && 0 <= i < t.vertices.Length
    ensures t.GetCoord(i) == t.GetNorm(i) == t.GetTexCoord(i)
  {
  }
}
