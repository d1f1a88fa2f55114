# Java3DEngine core in Dafny

This project models the core of Java3DEngine, a small software 3D renderer
written in Java, and proves properties of that model. The core has four parts.

- **Linear algebra.** `Vector3`, `Vector4` and `Quaternion` are values. `Matrix33` and `Matrix44`
  are objects over a `double[][]` array, which some of their methods fill in loops and others
  change in place.
- **The scene graph.** A `Node` has a parent, children, a local translation and a local
  orientation. Its global position and orientation are computed recursively up the parent
  chain.
- **Meshes.**
  - `Triangle` holds index arrays.
  - `SolidNode` reads Wavefront OBJ records and recomputes vertex normals in place.
  - `Box` builds an axis-aligned box mesh.
  - `CameraNode` holds the viewing frustum.
  - `Texture` maps unit coordinates to pixels.
- **The renderer.**
  - `renderScene` clears the buffers and builds the camera's vertex and normal transforms.
  - `checkChildren` walks the scene graph and draws every solid node.
  - `drawSolid` projects a mesh's vertices, then culls, skips and remaps its faces for the
    orthographic or perspective mode.
  - `rasterizeFace` walks a screen triangle's edges row by row.
  - `drawPixelRow` and `drawPixel` apply the depth test and store the depth and colour.

Java `double` is modelled as `real`, Java `int` casts by `JavaMath.IntCast`, which truncates
toward zero and saturates at the `int` range. Transcendental functions (`Math.tan`, `Math.sin`,
`Math.acos`, `Vector3.normalize`) and string-to-number parsing are function-typed parameters.

## Modules

The files follow the Java classes:

| File | Module | Models |
|---|---|---|
| `vector3.dfy` | `Vec3` | `Vector3` |
| `vector4.dfy` | `Vec4` | `Vector4` |
| `quaternion.dfy` | `Quaternions` | `Quaternion`, and the rotations of `Vector3` |
| `grids.dfy` | `Grids` | Matrix algebra on `seq<seq<real>>`, plus the array loops shared by both matrix classes |
| `matrix33.dfy` | `Mat33` | `Matrix33` |
| `matrix44.dfy` | `Mat44` | `Matrix44` |
| `node.dfy` | `Nodes` | `Node`, `SolidNode` and `CameraNode` as node kinds, and the scene tree |
| `triangle.dfy` | `Triangles` | `Triangle` |
| `solid_node.dfy` | `Solids` | The mesh lists of `SolidNode`, OBJ records and `calculateNormals` |
| `box.dfy` | `Boxes` | `Box` |
| `camera_node.dfy` | `Cameras` | The frustum of `CameraNode` |
| `texture.dfy` | `Textures` | `Texture` |
| `projection.dfy` | `Projection` | Projection and camera matrices, barycentric weights, the vertex sort |
| `clip.dfy` | `Clipping` | The face loops of `drawSolid` as functions on the clip lists |
| `raster.dfy` | `Raster` | `rasterizeFace`, `drawPixelRow` and `drawPixel` as functions on a canvas |
| `renderer.dfy` | `Rendering` | The `Renderer` class, whose methods run the loops and are proved against those functions |

Each Java class that updates fields in place is a Dafny class:

- `Node`, `Triangle` and the mesh of a `SolidNode`;
- `Matrix33` and `Matrix44`;
- `Renderer`, with the depth buffer and colour buffer as `array2`s.

Its methods carry `modifies` clauses and state the whole new state.

The renderer's buffers are tied to a ghost `Canvas` value by `Renderer.Valid()`. So each
drawing method is specified as a function of the old canvas, and the properties are proved
about those functions.

A scene is given to the traversal together with:

- a ghost set of its nodes;
- a bound on the parent chain;
- a bound on the height of the tree.

Java's `addChild` does not prevent cycles, and the recursion only terminates on acyclic scenes.

## Model

| member | source | states |
|---|---|---|
| Vec3.Vector3.Translate | Vector3.java:116-118 | translating by `(dx, dy, dz)` is adding the vector `<dx, dy, dz>` |
| Vec3.Vector3.Add | Vector3.java:126-131 | subtracting the argument from the sum gives the receiver back |
| Vec3.Vector3.Subtract | Vector3.java:139-144 | the difference is the zero vector exactly when the two vectors are equal |
| Vec3.Vector3.Scale | Vector3.java:177-179 | scaling by `s` is scaling componentwise by `<s, s, s>`; by 1 it changes nothing, by 0 it gives the origin |
| Vec3.Vector3.ScaleBy | Vector3.java:187-189 | scaling componentwise by `<1, 1, 1>` changes nothing |
| Vec3.Vector3.ToArray | Vector3.java:94-96 | the array has three entries that read back as the vector |
| Vec3.Vector3.IsEqual | Vector3.java:104-106 | componentwise comparison holds exactly when the vectors are equal |
| Vec3.AddCommutes | Vector3.java:126-131 | addition commutes |
| Vec3.SubtractAddCancel | Vector3.java:126-144 | `a.subtract(b).add(b)` is `a` |
| Vec3.DotSymmetric | Vector3.java:152-154 | the dot product is symmetric |
| Vec3.CrossOrthogonal | Vector3.java:163-169 | `a x b` is orthogonal to both `a` and `b` |
| Vec3.TripleProductCyclic | Vector3.java:152-169 | `a . (b x c)` equals `b . (c x a)` |
| Vec3.CrossAnticommutative | Vector3.java:163-169 | `a x b` is `-(b x a)` |
| Vec3.Vector3Ref.constructor | Vector3.java:18-22 | a mutable vector starts out holding the given coordinates |
| Vec3.Vector3Ref.Set | Vector3.java:74-78 | `set(v)` makes the receiver's coordinates those of `v`; no other object changes |
| Vec4.Vector4.ToVector3 | Vector4.java:90-92 | for `w = 1` the homogeneous constructor restores the 4-vector from the dropped one |
| Vec4.Vector4.Translate | Vector4.java:123-125 | translating by `(dx, dy, dz, dw)` is adding `<dx, dy, dz, dw>` |
| Vec4.Vector4.Add | Vector4.java:133-139 | subtracting the argument from the sum gives the receiver back |
| Vec4.Vector4.Subtract | Vector4.java:147-153 | the difference is zero exactly when the two are equal |
| Vec4.Vector4.Scale | Vector4.java:171-173 | all four components are scaled: the first three as a `Vector3` would be, and `w` as well; by 1 nothing changes |
| Vec4.Vector4.AsArray | Vector4.java:189-191 | the array is `[x, y, z, w]` in order |
| Vec4.Vector4.IsEqual | Vector4.java:109-112 | componentwise comparison holds exactly when the vectors are equal |
| Vec4.FromVector3 | Vector4.java:32-37 | the point built from a `Vector3` has its coordinates and `w = 1` (also `Vector3.toVector4`) |
| Vec4.Origin4 | Vector4.java:42-47 | the default vector is a left unit of `add` |
| Vec4.ToVector3RoundTrip | Vector4.java:90-92 | `toVector3(new Vector4(v))` is `v` |
| Vec4.AddCommutes4 | Vector4.java:133-139 | addition commutes |
| Vec4.SubtractAddCancel4 | Vector4.java:133-153 | `a.subtract(b).add(b)` is `a` |
| Vec4.DotSymmetric4 | Vector4.java:161-163 | the dot product is symmetric |
| JavaMath.IntCast | Renderer.java:349-366 | the `(int)` cast lies within one of its argument, on the side of zero, and saturates at the `int` bounds |
| JavaMath.Clamp01 | Renderer.java:501-504 | the clamp lies in `[0, 1]` and keeps values already there |
| JavaMath.IntCastMonotone | Renderer.java:349-361 | the cast is monotone, so the sorted corners keep their order as rows |
| JavaMath.IntCastInRange | Texture.java:23-27 | the cast of a value in `[0, n]` lies in `[0, n]` |
| JavaMath.IntCastOfInteger | Renderer.java:398-403 | casting an integer-valued double gives that integer back |
| JavaMath.Rgb | Renderer.java:507 | the stored colour is a 24-bit RGB value |
| Quaternions.Quaternion.Multiply | Quaternion.java:278-294 | `a.multiply(b)` is the Hamilton product `b * a`, because the cross product has its operands reversed |
| Quaternions.Quaternion.Conjugate | Quaternion.java:244-246 | the conjugate keeps `w`, and its vector part is the negation of `v` |
| Quaternions.Quaternion.Add | Quaternion.java:202-204 | subtracting the argument from the sum gives the receiver back |
| Quaternions.Quaternion.Subtract | Quaternion.java:212-217 | the difference is zero exactly when the two are equal |
| Quaternions.Quaternion.GetAxis | Quaternion.java:76-87 | the identity rotation gives the zero vector; otherwise the axis scaled by `sin(angle / 2)` is the vector part |
| Quaternions.Quaternion.RotationMatrix | Quaternion.java:155-180 | a fresh 4x4 matrix holding the rotation grid of the quaternion |
| Quaternions.Rotate | Vector3.java:336-342 | `v.rotate(q)` is the vector part of `conj(q) * v * q` in Hamilton order, a passive rotation |
| Quaternions.RotateAbout | Vector3.java:321-328 | rotation about `o` is `v - o` rotated, plus `o` |
| Quaternions.ActiveRotate | Vector3.java:350-356 | `activeRotate(q)` is `rotate` by the conjugate of `q` |
| Quaternions.IdentityIsUnit | Quaternion.java:65-68 | the identity quaternion `(1, 0)` is a unit of `multiply` on both sides |
| Quaternions.ConjugateInvolution | Quaternion.java:244-246 | conjugating twice gives the quaternion back |
| Quaternions.MultiplyAssociative | Quaternion.java:278-294 | `multiply` is associative |
| Quaternions.MultiplyNotCommutative | Quaternion.java:278-294 | `multiply` is not commutative: `i.multiply(j)` is `-k` and `j.multiply(i)` is `k` |
| Quaternions.MultiplyConjugateIsNormSquared | Quaternion.java:244-294 | `q.multiply(q.conjugate())` has zero vector part and real part `w^2 + |v|^2` |
| Quaternions.EqualsOrientationProperties | Quaternion.java:188-194 | `equalsOrientation` is symmetric, cannot tell `q` from `-q`, and holds of every unit quaternion with itself |
| Quaternions.DotSymmetric | Quaternion.java:267-269 | the dot product is symmetric |
| Quaternions.RotationGridBorder | Quaternion.java:155-180 | the fourth row and column of a rotation matrix are `(0, 0, 0, 1)` |
| Quaternions.RotationGridIdentity | Quaternion.java:155-180 | the identity quaternion gives the identity matrix |
| Quaternions.RotationGridNegation | Quaternion.java:155-180 | `q` and `-q` give the same matrix |
| Quaternions.RotateByIdentity | Vector3.java:336-342 | rotating by the identity quaternion leaves a vector unchanged |
| Quaternions.ActiveRotateByHamilton | Vector3.java:350-356 | `activeRotate(q)` is the vector part of `q * v * conj(q)` in Hamilton order |
| Quaternions.RotationGridIsActiveRotation | Quaternion.java:155-180 | for a unit quaternion, the rotation matrix applied to `(v, w)` gives `(activeRotate(v), w)` |
| Quaternions.RotationIsPure | Vector3.java:336-342 | the product `conj(q) * v * q` behind `rotate` has no real part, so `rotate` loses nothing |
| Quaternions.HamiltonByIdentity | Quaternion.java:65-68 | the identity quaternion is a unit of the Hamilton product on both sides |
| Quaternions.UnitConjugateProducts | Quaternion.java:244-294 | a unit quaternion times its conjugate is the identity, in either order |
| Quaternions.ConjugationCancels | Quaternion.java:244-294 | conjugating by a unit quaternion and then by its conjugate gives the quaternion back |
| Quaternions.RotateRoundTrip | Vector3.java:336-342 | for a unit `q`, `v.rotate(q).rotate(q.conjugate())` is `v` |
| Quaternions.RotationGridOfConjugateIsRotation | Renderer.java:70-71 | the rotation matrix of the conjugate performs `rotate(q)`, which is how the camera matrix is built |
| Grids.TransposeInvolution | Matrix33.java:69-77 | transposing twice gives the matrix back (for both matrix sizes) |
| Grids.MulVecIdentity | Matrix44.java:27-67 | the identity maps every vector to itself |
| Grids.ProductIdentity | Matrix44.java:27-86 | the identity is a two-sided unit of the matrix product |
| Grids.ArrayOf | Matrix44.java:13-20 | a fresh n-by-n array holding the entries of a literal grid |
| Grids.AccumulateCell | Matrix33.java:55-59 | the innermost loop of `multiply`: cell `(r, c)` gains its row-column sum, and no other cell changes |
| Grids.MultiplyArrays | Matrix33.java:52-62 | the triple loop of `multiply` fills a fresh array with the matrix product of the operands |
| Grids.TransposeArray | Matrix33.java:69-77 | the transpose loop fills a fresh array with `t[r][c] = m[c][r]` |
| Grids.ScaleArray | Matrix33.java:145-153 | the scale loop multiplies every entry of the array itself by `s` |
| Mat33.CofactorRowsAreCrosses | Matrix33.java:98-106 | each row of the cofactor matrix is the cross product of the other two rows, taken cyclically |
| Mat33.CofactorRowDots | Matrix33.java:98-127 | row `r` of the matrix dotted with row `c` of its cofactor matrix is the determinant when `r = c` and zero otherwise |
| Mat33.AdjugateProduct | Matrix33.java:113-115 | `M * adjugate(M) = det(M) * I` |
| Mat33.InverseProduct | Matrix33.java:134-137 | `M * inverse(M) = I` whenever the determinant is non-zero |
| Mat33.Matrix33.Wrap | Matrix33.java:13-20 | the accepted 3x3 array is kept, not copied |
| Mat33.Matrix33.FromArray | Matrix33.java:13-20 | the constructor succeeds exactly for a 3x3 array and keeps it; Java exits otherwise |
| Mat33.Matrix33.MultiplyVector | Matrix33.java:29-43 | entry `r` of the product is row `r` dotted with the vector |
| Mat33.Matrix33.Multiply | Matrix33.java:52-62 | a new matrix over a fresh array holding the product; the operands are unchanged |
| Mat33.Matrix33.Transpose | Matrix33.java:69-77 | a new matrix over a fresh array holding the transpose |
| Mat33.Matrix33.Cofactor | Matrix33.java:85-91 | `cofactor(row, col)` is the determinant of the minor without `row` and `col` |
| Mat33.Matrix33.CofactorMatrix | Matrix33.java:98-106 | entry `(r, c)` of the fresh matrix is `(-1)^(r+c)` times the minor determinant |
| Mat33.Matrix33.Adjugate | Matrix33.java:113-115 | a fresh matrix holding the transpose of the cofactor matrix |
| Mat33.Matrix33.Determinant | Matrix33.java:122-127 | the closed form equals the Laplace expansion along row 0 with the signed cofactors |
| Mat33.Matrix33.Inverse | Matrix33.java:134-137 | a fresh matrix holding the adjugate scaled by `1 / det`, the inverse of the receiver (by `InverseProduct`) |
| Mat33.Matrix33.Scale | Matrix33.java:145-153 | every entry of the receiver's own array is multiplied by `s`, and the result shares that array |
| Mat44.TranslationMovesPoint | Matrix44.java:109-119 | the translation matrix maps `(p, 1)` to `(p + t, 1)` |
| Mat44.WithTranslationMovesImage | Matrix44.java:142-148 | after adding `t` to column 3, every point's image moves by `w * t`, and its fourth coordinate is unchanged |
| Mat44.ScaleDiagonalScalesPoint | Matrix44.java:127-134 | the scale matrix multiplies a point componentwise and keeps `w` |
| Mat44.IdentityKeepsPoint | Matrix44.java:27-67 | the default matrix maps every `(v, w)` to itself |
| Mat44.Matrix44.Wrap | Matrix44.java:13-20 | the accepted 4x4 array is kept, not copied |
| Mat44.Matrix44.constructor | Matrix44.java:27-35 | `new Matrix44()` is the identity over a fresh array |
| Mat44.Matrix44.FromArray | Matrix44.java:13-20 | the constructor succeeds exactly for a 4x4 array and keeps it; Java exits otherwise |
| Mat44.Matrix44.FromGrid | Renderer.java:86-101 | a matrix built from a literal 4x4 grid holds that grid |
| Mat44.Matrix44.MultiplyPoint | Matrix44.java:45-67 | `multiply(v, w)` is the matrix times the homogeneous point `(v, w)` |
| Mat44.Matrix44.Multiply | Matrix44.java:76-86 | a new matrix over a fresh array holding the 4x4 product |
| Mat44.Matrix44.GetRotation | Matrix44.java:93-101 | a fresh 3x3 copy of the upper-left block |
| Mat44.Matrix44.FromTranslation | Matrix44.java:109-119 | the identity with `t` in rows 0 to 2 of column 3 |
| Mat44.Matrix44.FromScale | Matrix44.java:127-134 | the diagonal `(sx, sy, sz, 1)` with zeros elsewhere |
| Mat44.Matrix44.AddTranslation | Matrix44.java:142-148 | `t` is added to entries 0 to 2 of column 3 of the receiver's own array, nothing else changes, and the result shares the array |
| Mat44.Matrix44.Transpose | Matrix44.java:155-163 | a new matrix over a fresh array holding the transpose |
| Mat44.Matrix44.Scale | Matrix44.java:171-179 | every entry of the receiver's own array is multiplied by `s`, and the result shares that array |
| Nodes.Node.constructor | Node.java:25-28 | a new node has the given translation and orientation, no parent and no children |
| Nodes.Node.WithOrientation | Node.java:38-41 | the node is at the origin with the given orientation, and has no parent and no children |
| Nodes.Node.Default | Node.java:48-51 | the node is at the origin with the identity orientation, and has no parent and no children |
| Nodes.Node.Solid | SolidNode.java:131-137 | a solid node around a mesh starts as a default node |
| Nodes.Node.Camera | CameraNode.java:23-31 | a camera node stores translation, orientation, aspect, field of view, near and far, and has no parent and no children |
| Nodes.Node.AddChild | Node.java:58-65 | it succeeds exactly when the child has no parent. Then the child is appended to the children and gets this node as its parent. Nothing else changes |
| Nodes.Node.Rotate | Node.java:81-83 | the local orientation becomes `local.multiply(r)`; the translation and the links are unchanged |
| Nodes.Node.Translate | Node.java:90-92 | `t` is added to the local translation and can be subtracted again; the orientation and links are unchanged (also `CameraNode.translate`) |
| Nodes.Node.GlobalPosition | Node.java:108-114 | at a root, the global position is the local translation |
| Nodes.Node.GlobalOrientation | Node.java:130-135 | at a root, the global orientation is the local orientation |
| Nodes.RootWithinMonotone | Node.java:108-135 | a parent chain that reaches a root within `k` steps does so within any larger bound |
| Nodes.GlobalsIgnoreBound | Node.java:108-135 | the global getters do not depend on the bound used to reach the root |
| Nodes.IdentityChainSumsTranslations | Node.java:108-114 | with identity orientations up the chain, the global position is the sum of the local translations |
| Nodes.IdentityChainHasIdentityOrientation | Node.java:130-135 | with identity orientations up the chain, the global orientation is the identity |
| Nodes.TreeMonotone | Node.java:72-74 | a scene tree of height `d` is also one of every larger height |
| Nodes.ReachLowers | Node.java:72-74 | a node below another heads a subtree that is at least one level lower |
| Nodes.RootNotReached | Node.java:58-74 | in a tree, no node lies below itself |
| Nodes.SolidsOfExactly | Renderer.java:115-122 | the pre-order list of a child list holds exactly the solids among those children or below them |
| Nodes.SolidsBelowExactly | Renderer.java:115-122 | the pre-order list below `n` holds exactly the solid nodes that are descendants of `n` |
| Nodes.ChildSolidsListed | Renderer.java:115-122 | a solid child, and every solid below any child, is listed below the parent |
| Nodes.SolidsInScene | Renderer.java:115-122 | every listed solid is a node of the scene |
| Nodes.RootNotListed | Renderer.java:115-122 | the traversal never lists the node it starts from |
| Nodes.CycleHasNoRoot | Node.java:108-135 | two nodes that are each other's parent reach no root, whatever the bound |
| Nodes.AddChildAllowsCycle | Node.java:58-65 | `a.addChild(b)` then `b.addChild(a)` both succeed, making a cycle |
| Triangles.Triangle.constructor | Triangle.java:17-21 | the arrays are stored as vertices, normals and texture coordinates, in parameter order, with no colours |
| Triangles.Triangle.Aliased | Triangle.java:28-32 | one array is shared by all three attributes |
| Triangles.Triangle.Empty | Triangle.java:37-41 | three distinct fresh arrays of three zeros |
| Triangles.Triangle.SetVertex | Triangle.java:52-56 | only index `i` is written: `vt` always, `vn` unless the normals array is the texture array, `v` unless the vertex array is shared; on an aliased triangle all three hold `vt` |
| Triangles.Triangle.GetCoord | Triangle.java:74-76 | the vertex index stored for a corner |
| Triangles.Triangle.GetNorm | Triangle.java:94-96 | the normal index stored for a corner |
| Triangles.Triangle.GetTexCoord | Triangle.java:114-116 | the texture-coordinate index stored for a corner |
| Triangles.Triangle.GetArrays | Triangle.java:63-125 | the getters return the stored arrays, one array when shared, and `colors`, which no constructor sets |
| Triangles.SharedGettersAgree | Triangle.java:28-32 | on a shared triangle, `getCoord(i) == getNorm(i) == getTexCoord(i)` |
| Solids.SplitAllJoins | SolidNode.java:43 | the pieces between separators join back to the line |
| Solids.SplitAllDropsSeparators | SolidNode.java:43 | no piece between separators holds the separator |
| Solids.JavaSplit | SolidNode.java:43 | `split` keeps a line without a separator whole; otherwise it gives the pieces, without the trailing empty ones |
| Solids.Pred | SolidNode.java:90 | `k - 1` on a Java `int`, wrapping modulo `2^32` |
| Solids.ParseIndex | SolidNode.java:90-97 | it fails exactly when the parse fails; otherwise it is the parsed 1-based index minus one |
| Solids.Tri | SolidNode.java:101-112 | the triangle takes the texture indices in its normal slot and the normal indices in its texture slot |
| Solids.CornerCount | SolidNode.java:83 | an `f` record reads 3 or 4 corners, fewer than its tokens |
| Solids.Corners | SolidNode.java:88-100 | corner `i` is read from token `i + 1` |
| Solids.FaceRecord | SolidNode.java:81-113 | it fails exactly when a corner fails to parse; otherwise it gives one face for three corners and two for four |
| Solids.ParseVector | SolidNode.java:48-52 | it succeeds exactly when all three numbers parse, and then holds them |
| Solids.RecordGrowsOneList | SolidNode.java:45-118 | `v` and `vn` records (4 or more tokens) and `vt` records (3 or more) append one vector. An `f` record appends one face for 4 tokens and two for more. Shorter and unknown records change nothing |
| Solids.TexCoordRecordDefaultsToZero | SolidNode.java:56-63 | a `vt` record with two numbers gets 0 as its third coordinate |
| Solids.QuadRecordIsFan | SolidNode.java:101-113 | a record of four or more corners becomes the fan `(a, b, c)`, `(a, c, e)` with texture and normal slots swapped; further corners are ignored |
| Solids.CornerIndicesAreZeroBased | SolidNode.java:88-100 | `v/t/n` yields the three numbers minus one; a missing texture or normal index stays 0 |
| Solids.LoadFailureIsFinal | SolidNode.java:25-126 | once a line fails to parse, the whole load fails |
| Solids.AddFaceAdds | SolidNode.java:151-167 | handling one face adds its normal once for every corner that names a given normal |
| Solids.AccumulateIsNormalSum | SolidNode.java:147-167 | starting from zeros, normal `k` is the sum over every face and corner whose normal index is `k` of `(v2 - v1) x (v3 - v1)` |
| Solids.Mesh.Empty | SolidNode.java:131-137 | scale `(1, 1, 1)`, four empty lists and no texture |
| Solids.Mesh.SetScale | SolidNode.java:188-190 | the scale becomes `(s, s, s)`; nothing else changes |
| Solids.Mesh.SetTexture | SolidNode.java:242-244 | the texture is replaced; nothing else changes |
| Solids.Mesh.HandleRecord | SolidNode.java:45-118 | the lists become those of the record's specification; where Java throws, nothing changes |
| Solids.Mesh.AddFaceRecord | SolidNode.java:81-113 | the faces of the record are appended exactly when every corner parses |
| Solids.Mesh.AppendFaces | SolidNode.java:101-113 | `faces.add` of each triangle, in order |
| Solids.Mesh.CalculateNormals | SolidNode.java:143-172 | vertices, faces and list lengths are kept, and the normals become the normalised face-normal sums |
| Solids.Mesh.ZeroNormals | SolidNode.java:147-149 | every normal becomes the zero vector |
| Solids.Mesh.AddFaceNormals | SolidNode.java:151-167 | the normals become the accumulation over all faces, in order |
| Solids.Mesh.AddOneFace | SolidNode.java:152-166 | one face's normal is added at its three normal indices, one after the other |
| Solids.Mesh.NormalizeNormals | SolidNode.java:169-171 | every normal is replaced by its normalised self |
| Solids.BuildFaces | SolidNode.java:101-113 | three corners give one triangle over the arrays themselves, four give the fan of two fresh copies, in `(verts, texCoords, normals)` argument order |
| Solids.CopyTriangle | SolidNode.java:104-112 | a fan triangle gets fresh copies of the chosen corners, with the argument order swapped |
| Solids.ReadCorners | SolidNode.java:84-100 | fresh arrays of the corner count hold the parsed corners; it fails exactly when a corner fails to parse |
| Solids.LoadMesh | SolidNode.java:25-126 | a fresh mesh whose lists are those of the whole file. It fails exactly where a parse throws, and has unit scale and no texture |
| Boxes.BoxFaceIndicesInRange | Box.java:43-54 | every face has three corner indices, each in `[0, 8)` |
| Boxes.FaceLiesOnSide | Box.java:20-54 | the three corners of a face share the coordinate of their side, half the extent with its sign |
| Boxes.TwoFacesPerSide | Box.java:43-54 | faces `2k` and `2k + 1` lie on the same side, and the six sides are all different |
| Boxes.BoxTexCoordsAreUnit | Box.java:35-39 | texture coordinates are 0 or 1 with `z = 0`, and 1 exactly for the corners the pattern names |
| Boxes.OppositeCornersMirror | Box.java:20-25 | corners `i` and `7 - i` mirror each other through the centre |
| Boxes.AddSharedFace | Box.java:43-54 | one face over a fresh shared-index array is appended; nothing else changes |
| Boxes.NewBox | Box.java:14-57 | a solid node at `center` with the identity orientation. Its fresh mesh has the 8 pattern corners, 8 texture coordinates, the 12 shared-index faces and the normals from `calculateNormals`, run last |
| Boxes.AddCorners | Box.java:20-40 | the corner loop appends 8 corners, 8 zero normals and 8 texture coordinates, in order |
| Boxes.AddBoxFaces | Box.java:43-54 | the twelve `faces.add` calls produce the face table, each over a fresh shared array |
| Cameras.Camera.ViewportHeight | CameraNode.java:65-67 | `|tan(yFov / 2) * near * 2|` is never negative, and is zero exactly when the tangent or the near distance is |
| Cameras.Camera.ViewportWidth | CameraNode.java:74-76 | the width is never negative |
| Cameras.Camera.SeesBoundingBox | CameraNode.java:83-86 | every bounding box counts as visible |
| Cameras.ViewportKeepsAspect | CameraNode.java:74-76 | the width is the height times `|aspect|` |
| Textures.Texture.GetPixel | Texture.java:23-27 | the 24-bit colour of the pixel at row `(int)(y * (h - 1))` and column `(int)(x * (w - 1))` |
| Textures.UnitCoordinatesInRange | Texture.java:23-27 | coordinates in `[0, 1]` address a pixel of a non-empty image |
| Textures.IndexInRange | Texture.java:23-27 | `(int)(x * (n - 1))` for `x` in `[0, 1]` is an index below `n` |
| Textures.CornersMapToEdges | Texture.java:23-27 | 0 maps to the first column and row, 1 to the last |
| Projection.SafeDiv | Renderer.java:540-544 | it is `x / y` whenever `y` is non-zero |
| Projection.OrthographicKeepsW | Renderer.java:96-101 | the orthographic matrix keeps `w` |
| Projection.PerspectiveWIsDepth | Renderer.java:86-91 | the perspective matrix puts `-z` into `w` |
| Projection.OrthographicDepths | Renderer.java:99 | the orthographic depth row sends `z = -n` to -1 and `z = -f` to 1 |
| Projection.PerspectiveDepths | Renderer.java:89 | the perspective depth row sends `z = -n` to `-n` and `z = -f` to `f` |
| Projection.OrthographicMapsBoxToCube | Renderer.java:96-101 | the box corners `(r, t, -n)` and `(-r, -t, -f)` map to `(1, 1, -1)` and `(-1, -1, 1)` |
| Projection.PerspectiveMapsFrustumToCube | Renderer.java:86-91 | the frustum corners map to `(1, 1, -1)` and `(1, 1, 1)` after division by `w` |
| Projection.PerspectiveDividesFrustumIntoCube | Renderer.java:86-91 | a point off the plane `z = 0` lands strictly inside the cube `(-1, 1)^3` after the perspective matrix and the division by `w` exactly when it lies strictly inside the view frustum |
| Projection.PerspectiveImage | Renderer.java:86-91 | the perspective matrix sends `(x, y, z, 1)` to `(x n / r, y n / t, -z (f + n) / (f - n) - 2 f n / (f - n), -z)` |
| Projection.DividedImage | Renderer.java:86-91 | off the plane `z = 0` the division by `w` is a true division, so the cube test reads the exact quotients |
| Projection.FrontDividedInCube | Renderer.java:86-91 | in front of the camera, each divided coordinate lies in `(-1, 1)` exactly when the point lies inside the frustum on that axis |
| Projection.XAxis | Renderer.java:86-91 | in front of the camera, the divided `x` lies in `(-1, 1)` exactly when `|x| n < |r| (-z)` |
| Projection.YAxis | Renderer.java:86-91 | in front of the camera, the divided `y` lies in `(-1, 1)` exactly when `|y| n < |t| (-z)` |
| Projection.ZAxis | Renderer.java:86-91 | in front of the camera, the divided depth lies in `(-1, 1)` exactly when `-f < z < -n` |
| Projection.BehindOutside | Renderer.java:86-91 | behind the camera, the divided depth is above 1, so the point is outside the cube |
| Projection.DepthAxisInFront | Renderer.java:89 | for `z < 0`, the depth row divided by `-z` lies in `(-1, 1)` exactly when `-f < z < -n` |
| Projection.DepthAxisBehind | Renderer.java:89 | for `z > 0`, the depth row divided by `-z` is greater than 1 |
| Projection.WindowAxis | Renderer.java:87-88 | `x n / r` divided by a positive `w` lies in `(-1, 1)` exactly when `|x| n < |r| w` |
| Projection.WorldCameraMovesAfterRotating | Renderer.java:70-71 | the world-to-camera matrix rotates a point and then subtracts the camera position, which is not itself rotated |
| Projection.OrthographicViewKeepsW | Renderer.java:96-103 | in orthographic mode the whole vertex transform has last row `(0, 0, 0, 1)` |
| Projection.RemapStretchesByFullSize | Renderer.java:273-277 | the remap `x * W + W / 2` sends the centre to the screen centre, and only `x` in `[-1/2, 1/2]` lands on screen |
| Projection.InverseAreaInverts | Renderer.java:540-544 | the barycentric scalar inverts twice the signed area |
| Projection.WeightsSumToOne | Renderer.java:520-546 | for a triangle of non-zero area, the barycentric weights of any pixel add up to 1 |
| Projection.WeightsAtFirstCorner | Renderer.java:520-546 | the weights at the first corner are `(1, 0, 0)` |
| Projection.WeightsAtSecondCorner | Renderer.java:520-546 | the weights at the second corner are `(0, 1, 0)` |
| Projection.WeightsAtThirdCorner | Renderer.java:520-546 | the weights at the third corner are `(0, 0, 1)` |
| Projection.DepthAtCorners | Renderer.java:460-463 | at a corner, the interpolated depth is that corner's own `z` |
| Projection.SortByY | Renderer.java:312-345 | `top.y >= mid.y >= bot.y` |
| Projection.SortByYPermutes | Renderer.java:312-345 | `(top, mid, bot)` is a permutation of the three corners |
| Clipping.ProjectKeepsUnitW | Renderer.java:139-148 | with last row `(0, 0, 0, 1)`, every projected vertex has `w = 1` |
| Clipping.EqualCornersInvisible | Renderer.java:240-244 | a face with two equal corners fails the area test |
| Clipping.FreshClipMapped | Renderer.java:139-148 | straight from the vertex loop, every vertex is unmapped at its projected position |
| Clipping.OrthoRemapCells | Renderer.java:270-281 | the remap loop maps the corners seen so far and leaves every other entry as it was |
| Clipping.OrthoRemapMaps | Renderer.java:269-281 | the remap loop keeps the `w = -1` mark faithful and leaves all three corners mapped |
| Clipping.OrthoStepMapsOnce | Renderer.java:226-284 | an orthographic face keeps the mark faithful; a drawn face is drawn from the remapped projections of its corners |
| Clipping.OrthoFacesMapOnce | Renderer.java:224-287 | over the whole face loop, every vertex is remapped at most once, and every drawn face uses the screen images of its projected corners |
| Clipping.PerspRemapDivides | Renderer.java:206-218 | each corner with `w != 1` becomes the remap of its current position divided by `w` |
| Clipping.PerspStepDividesAgain | Renderer.java:206-218 | the perspective path never writes a `w`, so a vertex shared with an earlier drawn face is divided and remapped again |
| Raster.MakePlan | Renderer.java:312-394 | it returns early exactly when the top row is above the screen or the bottom row below it; otherwise the clamped rows lie on screen |
| Raster.MiddleRowIsBreak | Renderer.java:355-422 | the separate middle row is the break row whenever it is drawn |
| Raster.DrawnRowsOnScreen | Renderer.java:349-434 | every row `rasterizeFace` draws lies in `[0, H)` |
| Raster.DegenerateSlopesUnused | Renderer.java:368-373 | a slope that may divide by zero is never used on a drawn row |
| Raster.PixelColor | Renderer.java:482-505 | the colour is a 24-bit value, black without a texture |
| Raster.Blank | Renderer.java:65-67 | the cleared canvas has the panel's size |
| Raster.ShadingShades | Renderer.java:459-505 | the shading canvas holds, at every pixel, the interpolated depth and colour |
| Raster.ShadingUnique | Renderer.java:459-505 | every canvas that holds those depths and colours is the shading canvas |
| Raster.RasterizeTouchesOnlyCovered | Renderer.java:294-435 | pixels the face does not cover keep their depth and colour |
| Raster.RasterizeDepthOnlyDecreases | Renderer.java:479-480 | a pixel's depth stays, fills an empty cell, or decreases; a changed colour comes with a passed depth test |
| Raster.OffScreenFaceLeavesCanvas | Renderer.java:349-366 | a face cut off above or below the screen changes nothing |
| Raster.CornerDepth | Renderer.java:459-480 | a corner lying on a visited pixel that passes the test is drawn at its own depth |
| Raster.PaintRowAt | Renderer.java:446-466 | a row draw tests exactly the pixels `max(l, 0) .. min(r, W - 1)` of row `y` and leaves every other pixel |
| Raster.EmptyRow | Renderer.java:449-451 | a row with `l >= W` or `r < 0` changes nothing |
| Raster.ClampedRow | Renderer.java:452-457 | clamping the bounds to the screen changes nothing |
| Raster.RowGrows | Renderer.java:459-465 | one pass of the pixel loop extends the drawn row by one pixel |
| Raster.BandGrowsDown | Renderer.java:397-405 | one pass of the top loop extends the band down by one row |
| Raster.BandGrowsUp | Renderer.java:426-434 | one pass of the bottom loop extends the band up by one row |
| Raster.PlotCell | Renderer.java:477-481 | the corrected depth test: the cell ends up drawn, at a depth no greater than the new one or the old one, holding either its old contents or the new depth and colour |
| Raster.PlotCellOrderIndependent | Renderer.java:477-481 | with the corrected test, two draws of distinct depths onto one cell give the same cell in either order |
| Raster.ZTestIsPlotCell | Renderer.java:479-480 | for a non-zero depth, the test as written acts as the corrected test once a 0 in the buffer is read as an empty cell; a non-zero depth never makes a cell empty again |
| Raster.ZTestOrderIndependent | Renderer.java:479-480 | two draws with distinct non-zero depths leave the same depth and colour in either order |
| Raster.PaintOrderIndependent | Renderer.java:396-480 | painting two faces gives the same canvas in either order where every shared pixel has distinct non-zero depths |
| Raster.RasterizeOrderIndependent | Renderer.java:294-480 | rasterizing two faces gives the same canvas in either order under the same condition on their shared pixels |
| Raster.ZeroDepthLosesWhenFirst | Renderer.java:479 | a face at depth 0 drawn first is overwritten by a farther face at depth 0.5, but wins when drawn second |
| Raster.ZeroDepthWinsWithEmptyState | Renderer.java:477-481 | with the corrected test, the face at depth 0 wins in both orders |
| Raster.DownSweepIsBand | Renderer.java:397-405 | running the top loop paints the band it bounds |
| Raster.UpSweepIsBand | Renderer.java:426-434 | running the bottom loop paints the band it bounds |
| Raster.StagedIsPaint | Renderer.java:396-434 | the top band, the middle row and the bottom band together draw exactly the pixels the plan covers |
| Raster.StagedIsRasterize | Renderer.java:294-435 | running the three stages of a face's own plan is rasterizing the face |
| Rendering.Renderer.constructor | Renderer.java:38-48 | the image buffer has the panel's size and is black, and the mode is orthographic; the depth buffer and the transforms, which Java leaves unset, hold placeholders |
| Rendering.Renderer.SetRenderMode | Renderer.java:53-55 | the mode is replaced |
| Rendering.Renderer.DrawPixel | Renderer.java:477-509 | pixel `(x, y)` passes the depth test exactly when its depth is 0 or greater than `z`. Then it takes `z` and the face's colour. No other cell changes |
| Rendering.Renderer.ShadePixel | Renderer.java:459-465 | one pass of the pixel loop tests the pixel with the depth and colour the face's shading holds there |
| Rendering.Renderer.DrawPixelRow | Renderer.java:446-466 | exactly the on-screen pixels between the bounds of row `y` go through the depth test; all others are unchanged |
| Rendering.Renderer.DrawSpan | Renderer.java:459-465 | the pixel loop over the clamped bounds paints that stretch of the row |
| Rendering.Renderer.CalculateBarycentricMatrix | Renderer.java:520-546 | a fresh matrix holding the barycentric grid of the three corners |
| Rendering.Renderer.DrawTopHalf | Renderer.java:396-405 | the top loop draws rows `yTop` down to `yBreak + 1` between the edges from the top corner |
| Rendering.Renderer.DrawBottomHalf | Renderer.java:425-434 | the bottom loop draws rows `yBottom` up to `yBreak - 1` between the edges from the bottom corner |
| Rendering.Renderer.PlanFace | Renderer.java:307-394 | the set-up sorts the corners, clamps the top, break and bottom rows and picks the edge slopes; it stops early exactly where `MakePlan` has no plan |
| Rendering.Renderer.DrawFacePlan | Renderer.java:396-434 | the three stages draw the staged canvas of the plan |
| Rendering.Renderer.RasterizeFace | Renderer.java:294-435 | the buffers become the rasterization of the face's corners over the old buffers |
| Rendering.Renderer.ProjectVertices | Renderer.java:138-148 | entry `i` of the clip lists is vertex `i` scaled, rotated, moved and transformed |
| Rendering.Renderer.SkipFace | Renderer.java:192-199 | the face is skipped exactly when, on some axis, every corner lies beyond its bound or every one lies below its negation |
| Rendering.Renderer.OrthoRemapCorners | Renderer.java:269-281 | the remap loop computes the orthographic remap of the face's corners |
| Rendering.Renderer.PerspRemapCorners | Renderer.java:206-218 | the remap loop computes the perspective divide-and-remap of the face's corners |
| Rendering.Renderer.OrthoFaceStep | Renderer.java:226-283 | the face is culled, skipped or remapped as the orthographic step says |
| Rendering.Renderer.PerspFaceStep | Renderer.java:162-220 | the face is culled, skipped or remapped as the perspective step says |
| Rendering.Renderer.DrawFaceStep | Renderer.java:160-286 | one face of the loop in the current mode: the step, then rasterizing from the updated positions |
| Rendering.Renderer.DrawFaceLoop | Renderer.java:160-287 | every face of the mesh in turn |
| Rendering.Renderer.DrawSolid | Renderer.java:128-288 | the buffers become the image of the solid at its global orientation and position, and the solid is appended to the drawn list |
| Rendering.Renderer.CheckChildren | Renderer.java:115-122 | exactly the solid descendants of `parent` are drawn, in depth-first pre-order; `parent` itself is not drawn (with `SolidsBelowExactly`, `RootNotListed`) |
| Rendering.Renderer.VisitChild | Renderer.java:116-121 | one pass of the loop draws the child if it is a solid, then the solids below it |
| Rendering.Renderer.ClearColors | Renderer.java:65-66 | every colour cell becomes black |
| Rendering.Renderer.RenderScene | Renderer.java:63-108 | exactly the solids below the scene root are drawn, in pre-order, with the camera transform. The normal transform is the inverse transpose of its rotation block |
| Rendering.Renderer.Prepare | Renderer.java:64-104 | the buffers are cleared and the transforms set, before any drawing |
| Rendering.Renderer.ClearBuffers | Renderer.java:64-67 | a black image, a fresh zeroed depth buffer, nothing drawn yet |
| Rendering.Renderer.SetTransforms | Renderer.java:69-104 | the vertex transform is the camera transform; the normal transform is the inverse transpose of its rotation block |
| Rendering.Renderer.CameraMatrix | Renderer.java:69-103 | the projection matrix of the mode times the world-to-camera matrix of the camera's global orientation and position |
| Rendering.Renderer.NormalMatrix | Renderer.java:104 | the inverse transpose of the upper-left block, absent exactly when that block is singular |
| Rendering.ChildScene | Renderer.java:115-122 | each child of a drawable scene heads a drawable scene one level down |
| Rendering.ProjectionGrid | Renderer.java:74-102 | the projection matrix has last row `(0, 0, -1, 0)` in perspective mode and `(0, 0, 0, 1)` in orthographic mode |
| Rendering.InterpolatedDepth | Renderer.java:460-463 | the depth the pixel loop computes from the barycentric weights is the interpolated depth at that pixel |
| Rendering.PixelShade | Renderer.java:459-505 | the depth and colour the loop hands to `drawPixel` are those of the face's shading |

## Missing sub-indices of the OBJ reader

In an `f` record a corner may omit its texture or normal index (`v//vn`, `v/vt`, `v`). The
reader subtracts 1 only from indices that are present, so a missing one stays 0 and addresses
slot 0 of its list (SolidNode.java:91-99, `Solids.CornerIndicesAreZeroBased`).

## Findings

| source | as written | input that shows it | evidently intended | confidence | as-written member | corrected member |
|---|---|---|---|---|---|---|
| Renderer.java:479 | a depth of 0 in the buffer is read as "never drawn", but 0 is a depth a face can have (an orthographic point on the middle plane of the view box) | a cleared 1x1 canvas: depth 0 colour 1, then depth 0.5 colour 2, leaves colour 2; the other order leaves colour 1 | the nearer face wins whatever the drawing order | not executed; proved about the model | `Raster.ZeroDepthLosesWhenFirst` | `Raster.PlotCellOrderIndependent` |

The renderer keeps the test as written. `Raster.PlotCell` is the corrected test, on cells that
are either empty or drawn. `Raster.ZTestIsPlotCell` shows that the test as written agrees with
it for every non-zero depth, and `Raster.ZTestOrderIndependent`, `Raster.PaintOrderIndependent`
and `Raster.RasterizeOrderIndependent` carry the order independence over to the buffers when no
shared pixel has depth 0.

## Left out

- AWT and Swing presentation are not modelled: the panel, `Graphics`, `fillRect` and `drawImage`. The colour buffer is a 2-D `int` array holding 24-bit RGB values, and the depth buffer a 2-D `real` array.
- File reading is a parameter: `LoadMesh` takes the file's lines. `Double.parseDouble` and `Integer.parseInt` are function-typed parameters returning `None` where Java throws. The `IOException` exit is not modelled.
- Transcendental calls are parameters:
  - `Math.tan` in the viewport sizes and the camera matrix;
  - `Math.sin` and `Math.acos` in `getAxis`;
  - `Vector3.normalize` in `calculateNormals`.
- `magnitude() > 0` in the area test is modelled as "the cross product dotted with itself is positive", which is exact over the reals.
- Floating-point rounding, NaN and Infinity are not modelled. Where Java divides by zero the model takes 0 (`SafeDiv`, `Clipping.Recip`). This affects `1 / r`, `n / t`, `1 / w`, the barycentric scalar and the edge slopes. The slopes are proved unused on drawn rows (`DegenerateSlopesUnused`).
- Projection.PerspectiveDividesFrustumIntoCube: points on the plane `z = 0` are excluded, because there Java divides by `w = 0` and gets infinities or NaN, while the model's `SafeDiv` gives 0.
- Solids.Mesh.CalculateNormals: requires every face to index existing vertices and normals. Java throws `IndexOutOfBoundsException` otherwise, after it has zeroed the normals. One such case is a mesh with `vt` records but no `vn` records, whose faces index normal slots that do not exist (SolidNode.java:159-161). That failure is not modelled.
- Mat33.Matrix33.FromArray: a Java `double[][]` may be jagged or share rows, and the constructor checks only `mat.length` and `mat[0].length` (Matrix33.java:13-20). The model takes an `array2`, which can express neither. A jagged array that passes the check and fails later is not modelled.
- Mat44.Matrix44.FromArray: the same holds for the 4x4 constructor (Matrix44.java:13-20).
- Nodes.Node.AddChild: when the child already has a parent, Java prints an error and calls `System.exit(-1)` (Node.java:59-62). The model returns `false` and changes nothing; the end of the program is not modelled.
- Rendering.Renderer.constructor: Java allocates only the image buffer and leaves the depth buffer and both transforms `null` until `renderScene` (Renderer.java:38-48). The model gives them placeholders (a zeroed depth buffer, the identity, no normal transform), which no method reads before `Prepare` replaces them.
- Rendering.Renderer.CheckChildren: a scene in which a node appears twice among its parent's children is not excluded (Java can build one through the live list `getChildren` returns, Node.java:72-74). Such a node and the solids below it are drawn once per occurrence.
- Rendering.Renderer.NormalMatrix: where the rotation block is singular, Java's `inverse()` fills the matrix with infinities and NaN. The model gives `None` there.
- The normals loop of `drawSolid` (Renderer.java:151-157) is left out. Its results (`clipNorms`) are passed to `rasterizeFace` but never read.
- `drawSolid` reads each triangle's index arrays as values once, before the face loop. Nothing in the loop writes them.
- `Quaternion(axis, angle)`, `Quaternion(angles)`, `getAngle`, `getAngles`, `magnitude`, `normalize` and `inverse` of `Quaternion`, and the Euler rotations of `Vector3` are not modelled. They are trigonometric or use `sqrt`.
- The Java getters that only return a field are the fields of the model, with no members of their own:
  - `getChildren`, `getLocalPosition` and `getLocalOrientation`;
  - `getScale`, `getVertices`, `getNormals`, `getTextureCoordinates`, `getFaces` and `getTexture`;
  - `getNearDistance` and `getFarDistance`.
- `Vector3` and `Vector4` are values. Only `set` changes a vector in place, and it is modelled by `Vec3.Vector3Ref`. The lists of vectors whose elements `calculateNormals` and `drawSolid` overwrite with `set` are sequences updated by index. Every element of those lists is a distinct object, so this loses no aliasing.
- Java programs that build cyclic scenes are not modelled beyond that fact. The global getters need a parent chain that reaches a root within a bound (`RootWithin`); `AddChildAllowsCycle` and `CycleHasNoRoot` show why. The traversal needs a tree of bounded height (`Tree`).
- Rendering.Renderer.CheckChildren and Rendering.Renderer.RenderScene require a scene whose meshes `drawSolid` can draw. Every face must index existing vertices, and a textured mesh needs a valid image and existing texture coordinates. Java throws on other scenes; the model does not describe that failure.
- Rendering.Renderer.CheckChildren: the contract states which solids are drawn and in what order. The image is stated only for one solid (`DrawSolid`), not for a whole scene.
- `J3DEngineDemo.java` (the demo loop, timing and image loading) and `MouseInput.java` (the event listener) are not part of this model.
- The commented-out vertex-colour code (Renderer.java:484-495) is not modelled.
