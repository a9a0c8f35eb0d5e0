/** The tetrahedral-mesh helpers of `common/tet_mesh.py`: the tet mesh file,
    the outward winding of a tet's four faces, the boundary surface of a tet
    mesh (`tet2obj`), the contact-vertex heuristic and the re-orientation of
    the tets produced by `tetrahedralize`. */
module TetMesh {
  import opened Wrappers
  import opened Vectors
  import opened MeshFile
  import opened FaceParity

  // ---------------------------------------------------------------------
  // The tet mesh file
  // ---------------------------------------------------------------------

  /** The tet mesh file up to the element block: 3 and 4, then 3, the
      vertex count and the x, y and z columns. */
  function TetVertexPart(vertices: seq<Vec3>): (part: seq<Token>)
    ensures VolumeFile(4, vertices, []) == part + [Int(4), Int(0)]
  {
    [Int(3), Int(4), Int(3), Int(|vertices|)] + Grid(3, |vertices|, VertexColumns(vertices))
  }

  /** `generate_tet_mesh`: the header, the three coordinate loops, then the
      corner loops `for j in range(4): for i in range(face_num)`. Three inputs
      stop the writing part-way, and the failure carries what was written:
      an empty vertex list converts to an array of shape `(0,)`, whose shape
      does not unpack into two (ValueError after 3 and 4); an empty or ragged
      face list does the same after the vertex part; a face table narrower
      than four columns raises IndexError at `faces[0, width]`, once the
      full columns before it are written. */
  method GenerateTetMesh(vertices: seq<Vec3>, faces: seq<seq<int>>) returns (file: Result<seq<Token>, seq<Token>>)
    ensures file.Success? <==> |vertices| > 0 && |faces| > 0 && Rectangular(faces) && |faces[0]| >= 4
    ensures |vertices| == 0 ==> file == Failure([Int(3), Int(4)])
    ensures |vertices| > 0 && (|faces| == 0 || !Rectangular(faces)) ==> file == Failure(TetVertexPart(vertices))
    ensures |vertices| > 0 && |faces| > 0 && Rectangular(faces) && |faces[0]| < 4 ==>
              file == Failure(TetVertexPart(vertices) + [Int(4), Int(|faces|)] + Grid(|faces[0]|, |faces|, ElementColumns(faces)))
    ensures file.Success? ==> file.value == VolumeFile(4, vertices, faces)
  {
    var tokens := [Int(3), Int(4)];
    if |vertices| == 0 {
      return Failure(tokens);
    }
    var columns := VertexColumns(vertices);
    tokens := tokens + [Int(3), Int(|vertices|)];
    ghost var head := tokens;
    tokens := WriteRow(tokens, |vertices|, columns, 0);
    assert tokens == head + Grid(1, |vertices|, columns);
    tokens := WriteRow(tokens, |vertices|, columns, 1);
    assert tokens == head + Grid(2, |vertices|, columns);
    tokens := WriteRow(tokens, |vertices|, columns, 2);
    assert tokens == head + Grid(3, |vertices|, columns) == TetVertexPart(vertices);
    if |faces| == 0 || !Rectangular(faces) {
      return Failure(tokens);
    }
    var width := |faces[0]|;
    tokens := tokens + [Int(4), Int(|faces|)];
    if width < 4 {
      tokens := WriteGrid(tokens, width, |faces|, ElementColumns(faces));
      return Failure(tokens);
    }
    tokens := WriteGrid(tokens, 4, |faces|, ElementColumns(faces));
    return Success(tokens);
  }

  // ---------------------------------------------------------------------
  // Face winding
  // ---------------------------------------------------------------------

  /** `np.cross(v1 - v0, v2 - v1).dot(v3 - v0)`: six times the signed volume
      of the tet. */
  function Orientation(v0: Vec3, v1: Vec3, v2: Vec3, v3: Vec3): real
  {
    Dot3(Cross(Sub3(v1, v0), Sub3(v2, v1)), Sub3(v3, v0))
  }

  lemma SwapFirst(v0: Vec3, v1: Vec3, v2: Vec3, v3: Vec3)
    ensures Orientation(v1, v0, v2, v3) == -Orientation(v0, v1, v2, v3)
  {
  }

  lemma SwapMiddle(v0: Vec3, v1: Vec3, v2: Vec3, v3: Vec3)
    ensures Orientation(v0, v2, v1, v3) == -Orientation(v0, v1, v2, v3)
  {
  }

  /** The faces returned when the tet is negatively oriented. */
  const NegativeFaces: seq<seq<nat>> := [[0, 1, 2], [2, 1, 3], [1, 0, 3], [0, 2, 3]]

  /** The faces returned otherwise. */
  const OtherFaces: seq<seq<nat>> := [[1, 0, 2], [1, 2, 3], [0, 1, 3], [2, 0, 3]]

  /** The vertex face `r` leaves out. */
  const Omitted: seq<nat> := [3, 0, 2, 1]

  /** The orientation of a tet given as a list of four points. */
  function TetOrientation(verts: seq<Vec3>): real
    requires |verts| == 4
  {
    Orientation(verts[0], verts[1], verts[2], verts[3])
  }

  /** `fix_tet_faces`: the four faces of the tet, as local vertex numbers. */
  function FixTetFaces(verts: seq<Vec3>): (f: seq<seq<nat>>)
    requires |verts| == 4
    ensures |f| == 4 && forall r :: 0 <= r < 4 ==> |f[r]| == 3 && f[r][0] < 4 && f[r][1] < 4 && f[r][2] < 4
  {
    if TetOrientation(verts) < 0.0 then NegativeFaces else OtherFaces
  }

  /** Face `r` consists of the three vertices other than `Omitted[r]`, each
      once, and the four faces leave out four different vertices. */
  lemma {:induction false} FixTetFacesCover(verts: seq<Vec3>, r: nat, r': nat)
    requires |verts| == 4 && r < 4 && r' < 4 && r != r'
    ensures var f := FixTetFaces(verts)[r];
            f[0] != f[1] && f[1] != f[2] && f[0] != f[2] && Omitted[r] < 4 &&
            Omitted[r] !in f && Omitted[r] != Omitted[r']
  {
  }

  /** The two branches list the same triangles with the first two entries
      swapped, that is with the opposite winding. */
  lemma FixTetFacesBranches(r: nat)
    requires r < 4
    ensures OtherFaces[r] == [NegativeFaces[r][1], NegativeFaces[r][0], NegativeFaces[r][2]]
  {
  }

  /** The orientation of face `r` of `faces` followed by the vertex it leaves out. */
  function FaceOrientation(verts: seq<Vec3>, faces: seq<seq<nat>>, r: nat): real
    requires |verts| == 4 && r < 4 && |faces| == 4 && |faces[r]| == 3
    requires faces[r][0] < 4 && faces[r][1] < 4 && faces[r][2] < 4
  {
    Orientation(verts[faces[r][0]], verts[faces[r][1]], verts[faces[r][2]], verts[Omitted[r]])
  }

  lemma {:induction false} NegativeFaceOrientation(verts: seq<Vec3>, r: nat)
    requires |verts| == 4 && r < 4
    ensures FaceOrientation(verts, NegativeFaces, r) == TetOrientation(verts)
  {
  }

  /** Every face returned is wound the same way: seen with its left-out vertex
      it has orientation at most 0, and below 0 unless the tet is flat. That is
      the right-hand normal of every face points away from the fourth vertex. */
  lemma {:induction false} FixTetFacesOutward(verts: seq<Vec3>, r: nat)
    requires |verts| == 4 && r < 4
    ensures FaceOrientation(verts, FixTetFaces(verts), r) <= 0.0
    ensures TetOrientation(verts) != 0.0 ==> FaceOrientation(verts, FixTetFaces(verts), r) < 0.0
  {
    NegativeFaceOrientation(verts, r);
    var n := NegativeFaces[r];
    SwapFirst(verts[n[0]], verts[n[1]], verts[n[2]], verts[Omitted[r]]);
  }

  // ---------------------------------------------------------------------
  // Boundary surface of a tet mesh
  // ---------------------------------------------------------------------

  /** Every element lists four vertex numbers of the mesh. */
  predicate Tets(v: seq<Vec3>, elements: seq<seq<int>>)
  {
    forall i :: 0 <= i < |elements| ==> |elements[i]| == 4 && ValidCorners(v, elements[i])
  }

  predicate ValidCorners(v: seq<Vec3>, e: seq<int>)
  {
    forall t :: 0 <= t < |e| ==> 0 <= e[t] < |v|
  }

  /** `element_vert`: the positions of the element's vertices. */
  function ElementVerts(v: seq<Vec3>, e: seq<int>): (verts: seq<Vec3>)
    requires |e| == 4 && ValidCorners(v, e)
    ensures |verts| == 4 && forall t :: 0 <= t < 4 ==> verts[t] == v[e[t]]
  {
    [v[e[0]], v[e[1]], v[e[2]], v[e[3]]]
  }

  /** `[int(fi[fij]) for fij in f]` for face `r` of element `e`. */
  function Triangle(v: seq<Vec3>, e: seq<int>, r: nat): (vidx: seq<int>)
    requires |e| == 4 && ValidCorners(v, e) && r < 4
    ensures var f := FixTetFaces(ElementVerts(v, e))[r];
            vidx == [e[f[0]], e[f[1]], e[f[2]]]
  {
    var f := FixTetFaces(ElementVerts(v, e))[r];
    [e[f[0]], e[f[1]], e[f[2]]]
  }

  /** The first `r` triangles of element `e`. */
  function ElementTriangles(v: seq<Vec3>, e: seq<int>, r: nat): (ts: seq<seq<int>>)
    requires |e| == 4 && ValidCorners(v, e) && r <= 4
    ensures |ts| == r && forall s :: 0 <= s < r ==> ts[s] == Triangle(v, e, s)
  {
    if r == 0 then [] else ElementTriangles(v, e, r - 1) + [Triangle(v, e, r - 1)]
  }

  /** Every triangle of every element, in the order `tet2obj` toggles them. */
  function AllTriangles(v: seq<Vec3>, elements: seq<seq<int>>): (ts: seq<seq<int>>)
    requires Tets(v, elements)
    ensures |ts| == 4 * |elements|
  {
    if elements == [] then []
    else
      var n := |elements| - 1;
      AllTriangles(v, elements[..n]) + ElementTriangles(v, elements[n], 4)
  }

  /** Toggling the triangle of one more face. */
  lemma {:induction false} ToggleNextFace(v: seq<Vec3>, done: seq<seq<int>>, e: seq<int>, r: nat)
    requires |e| == 4 && ValidCorners(v, e) && r < 4
    ensures ToggleAll(done + ElementTriangles(v, e, r + 1))
         == Toggle(ToggleAll(done + ElementTriangles(v, e, r)), Triangle(v, e, r))
  {
    var before := done + ElementTriangles(v, e, r);
    assert done + ElementTriangles(v, e, r + 1) == before + [Triangle(v, e, r)];
    assert (before + [Triangle(v, e, r)])[..|before|] == before;
  }

  /** The triangles of the first `i + 1` elements. */
  lemma {:induction false} AllTrianglesNext(v: seq<Vec3>, elements: seq<seq<int>>, i: nat)
    requires Tets(v, elements) && i < |elements|
    ensures Tets(v, elements[..i]) && Tets(v, elements[..i + 1])
    ensures AllTriangles(v, elements[..i + 1]) == AllTriangles(v, elements[..i]) + ElementTriangles(v, elements[i], 4)
  {
    assert elements[..i + 1][..i] == elements[..i];
  }

  /** The inner loop of `tet2obj`: toggling the four faces of element `fi`. */
  method ToggleElement(faceDict: FaceDict, ghost done: seq<seq<int>>, v: seq<Vec3>, fi: seq<int>)
    returns (faceDict': FaceDict)
    requires |fi| == 4 && ValidCorners(v, fi)
    requires faceDict == ToggleAll(done)
    ensures faceDict' == ToggleAll(done + ElementTriangles(v, fi, 4))
  {
    faceDict' := faceDict;
    assert done + ElementTriangles(v, fi, 0) == done;
    for r := 0 to 4
      invariant faceDict' == ToggleAll(done + ElementTriangles(v, fi, r))
    {
      var vidx := Triangle(v, fi, r);
      ToggleNextFace(v, done, fi, r);
      var vidxKey := multiset(vidx);
      if vidxKey in faceDict' {
        faceDict' := faceDict' - {vidxKey};
      } else {
        faceDict' := faceDict'[vidxKey := vidx];
      }
    }
  }

  /** The toggling loops of `tet2obj`. */
  method ToggleTriangles(v: seq<Vec3>, elements: seq<seq<int>>) returns (faceDict: FaceDict)
    requires Tets(v, elements)
    ensures faceDict == ToggleAll(AllTriangles(v, elements))
  {
    faceDict := map[];
    for i := 0 to |elements|
      invariant Tets(v, elements[..i]) && faceDict == ToggleAll(AllTriangles(v, elements[..i]))
    {
      faceDict := ToggleElement(faceDict, AllTriangles(v, elements[..i]), v, elements[i]);
      AllTrianglesNext(v, elements, i);
    }
    assert elements[..|elements|] == elements;
  }

  /** `tet2obj`. `boundary` is the triangle list before `filter_unused_vertices`,
      which is not part of this model and is passed in as `filterUnused`; the
      OBJ lines, when a file name is given, list the filtered vertices and
      triangles with 1-based numbers. */
  method Tet2Obj(v: seq<Vec3>, elements: seq<seq<int>>, writeObj: bool,
                 filterUnused: (seq<Vec3>, seq<seq<int>>) -> (seq<Vec3>, seq<seq<int>>))
    returns (boundary: seq<seq<int>>, vOut: seq<Vec3>, fOut: seq<seq<int>>, obj: Option<seq<ObjLine>>)
    requires Tets(v, elements)
    ensures Boundary(AllTriangles(v, elements), boundary)
    ensures (vOut, fOut) == filterUnused(v, boundary)
    ensures obj == if writeObj then Some(ObjFile(vOut, fOut)) else None
  {
    var faceDict := ToggleTriangles(v, elements);
    ToggleAllKeys(AllTriangles(v, elements));
    boundary := Items(faceDict);
    ItemsAreBoundary(AllTriangles(v, elements), boundary);
    var filtered := filterUnused(v, boundary);
    vOut, fOut := filtered.0, filtered.1;
    if writeObj {
      obj := Some(ObjFile(vOut, fOut));
    } else {
      obj := None;
    }
  }

  // ---------------------------------------------------------------------
  // Contact vertices
  // ---------------------------------------------------------------------

  /** The solid angle at vertex `vi` contributed by the first `t` corners of
      element `e`; `solidAngle(verts, t)` is entry `t` of `compute_tet_angles`. */
  function CornerAngles(v: seq<Vec3>, e: seq<int>, solidAngle: (seq<Vec3>, nat) -> real, vi: int, t: nat): real
    requires |e| == 4 && ValidCorners(v, e) && t <= 4
  {
    if t == 0 then 0.0
    else CornerAngles(v, e, solidAngle, vi, t - 1) + (if e[t - 1] == vi then solidAngle(ElementVerts(v, e), t - 1) else 0.0)
  }

  /** The total solid angle at vertex `vi` over all elements. */
  function SolidAngleAt(v: seq<Vec3>, elements: seq<seq<int>>, solidAngle: (seq<Vec3>, nat) -> real, vi: int): real
    requires Tets(v, elements)
  {
    if elements == [] then 0.0
    else
      var n := |elements| - 1;
      SolidAngleAt(v, elements[..n], solidAngle, vi) + CornerAngles(v, elements[n], solidAngle, vi, 4)
  }

  lemma {:induction false} UnusedCorners(v: seq<Vec3>, e: seq<int>, solidAngle: (seq<Vec3>, nat) -> real, vi: int, t: nat)
    requires |e| == 4 && ValidCorners(v, e) && t <= 4 && vi !in e
    ensures CornerAngles(v, e, solidAngle, vi, t) == 0.0
  {
    if t > 0 {
      UnusedCorners(v, e, solidAngle, vi, t - 1);
    }
  }

  /** A vertex that no element uses has total solid angle 0, so it is
      reported as a contact vertex for every positive threshold. */
  lemma {:induction false} UnusedVertexAngle(v: seq<Vec3>, elements: seq<seq<int>>, solidAngle: (seq<Vec3>, nat) -> real, vi: int)
    requires Tets(v, elements)
    requires forall i :: 0 <= i < |elements| ==> vi !in elements[i]
    ensures SolidAngleAt(v, elements, solidAngle, vi) == 0.0
  {
    if elements != [] {
      var n := |elements| - 1;
      assert Tets(v, elements[..n]);
      UnusedVertexAngle(v, elements[..n], solidAngle, vi);
      UnusedCorners(v, elements[n], solidAngle, vi, 4);
    }
  }

  /** With non-negative solid angles, the total at a vertex is non-negative. */
  lemma {:induction false} SolidAngleNonnegative(v: seq<Vec3>, elements: seq<seq<int>>, solidAngle: (seq<Vec3>, nat) -> real, vi: int)
    requires Tets(v, elements)
    requires forall i, t :: 0 <= i < |elements| && t < 4 ==> solidAngle(ElementVerts(v, elements[i]), t) >= 0.0
    ensures SolidAngleAt(v, elements, solidAngle, vi) >= 0.0
  {
    if elements != [] {
      var n := |elements| - 1;
      assert Tets(v, elements[..n]);
      SolidAngleNonnegative(v, elements[..n], solidAngle, vi);
      CornerAnglesNonnegative(v, elements[n], solidAngle, vi, 4);
    }
  }

  lemma {:induction false} CornerAnglesNonnegative(v: seq<Vec3>, e: seq<int>, solidAngle: (seq<Vec3>, nat) -> real, vi: int, t: nat)
    requires |e| == 4 && ValidCorners(v, e) && t <= 4
    requires forall s :: 0 <= s < 4 ==> solidAngle(ElementVerts(v, e), s) >= 0.0
    ensures CornerAngles(v, e, solidAngle, vi, t) >= 0.0
  {
    if t > 0 {
      CornerAnglesNonnegative(v, e, solidAngle, vi, t - 1);
    }
  }

  /** The inner loop of `get_contact_vertex`: adds element `e`'s angles. */
  method AddElementAngles(acc: array<real>, v: seq<Vec3>, e: seq<int>, solidAngle: (seq<Vec3>, nat) -> real)
    requires acc.Length == |v| && |e| == 4 && ValidCorners(v, e)
    modifies acc
    ensures forall vi :: 0 <= vi < |v| ==> acc[vi] == old(acc[vi]) + CornerAngles(v, e, solidAngle, vi, 4)
  {
    var verts := ElementVerts(v, e);
    for t := 0 to 4
      invariant forall vi :: 0 <= vi < |v| ==> acc[vi] == old(acc[vi]) + CornerAngles(v, e, solidAngle, vi, t)
    {
      var vi := e[t];
      acc[vi] := acc[vi] + solidAngle(verts, t);
    }
  }

  lemma {:induction false} SolidAngleNext(v: seq<Vec3>, elements: seq<seq<int>>, solidAngle: (seq<Vec3>, nat) -> real, e: nat)
    requires Tets(v, elements) && e < |elements|
    ensures Tets(v, elements[..e]) && Tets(v, elements[..e + 1])
    ensures forall vi :: SolidAngleAt(v, elements[..e + 1], solidAngle, vi)
                      == SolidAngleAt(v, elements[..e], solidAngle, vi) + CornerAngles(v, elements[e], solidAngle, vi, 4)
  {
    assert elements[..e + 1][..e] == elements[..e];
  }

  /** `get_contact_vertex`: the vertices whose total solid angle is below
      `threshold`, in increasing order. Callers that omit the threshold get
      the source's default of `2π` (a full half-space); reals here carry no
      `π`, so the threshold is always passed in. */
  method GetContactVertex(v: seq<Vec3>, elements: seq<seq<int>>, solidAngle: (seq<Vec3>, nat) -> real, threshold: real)
    returns (contactNodes: seq<nat>)
    requires Tets(v, elements)
    ensures forall i :: 0 <= i < |contactNodes| ==>
              contactNodes[i] < |v| && SolidAngleAt(v, elements, solidAngle, contactNodes[i]) < threshold
    ensures forall vi :: 0 <= vi < |v| && SolidAngleAt(v, elements, solidAngle, vi) < threshold ==> vi in contactNodes
    ensures forall i, j :: 0 <= i < j < |contactNodes| ==> contactNodes[i] < contactNodes[j]
  {
    var vSolidAngle := new real[|v|](_ => 0.0);
    for e := 0 to |elements|
      invariant Tets(v, elements[..e])
      invariant forall vi :: 0 <= vi < |v| ==> vSolidAngle[vi] == SolidAngleAt(v, elements[..e], solidAngle, vi)
    {
      AddElementAngles(vSolidAngle, v, elements[e], solidAngle);
      SolidAngleNext(v, elements, solidAngle, e);
    }
    assert elements[..|elements|] == elements;
    contactNodes := [];
    for i := 0 to |v|
      invariant forall s :: 0 <= s < |contactNodes| ==>
                  contactNodes[s] < i && SolidAngleAt(v, elements, solidAngle, contactNodes[s]) < threshold
      invariant forall vi :: 0 <= vi < i && SolidAngleAt(v, elements, solidAngle, vi) < threshold ==> vi in contactNodes
      invariant forall s, t :: 0 <= s < t < |contactNodes| ==> contactNodes[s] < contactNodes[t]
    {
      if vSolidAngle[i] < threshold {
        contactNodes := contactNodes + [i];
      }
    }
  }

  // ---------------------------------------------------------------------
  // Re-orienting the tets of `tetrahedralize`
  // ---------------------------------------------------------------------

  /** `e'` is tet `e` with the sign fixed: the same four vertices, the first
      and the last in place, `e` itself when it is already negatively
      oriented and otherwise `e` with its middle two vertices swapped; its
      orientation is at most 0, and below 0 unless the tet is flat. */
  predicate Reoriented(nodes: seq<Vec3>, e: seq<int>, e': seq<int>)
    requires |e| == 4 && ValidCorners(nodes, e)
  {
    |e'| == 4 && ValidCorners(nodes, e') &&
    (e' == e || e' == [e[0], e[2], e[1], e[3]]) &&
    (TetOrientation(ElementVerts(nodes, e)) < 0.0 ==> e' == e) &&
    e'[0] == e[0] && e'[3] == e[3] && multiset(e') == multiset(e) &&
    TetOrientation(ElementVerts(nodes, e')) <= 0.0 &&
    (TetOrientation(ElementVerts(nodes, e)) != 0.0 ==> TetOrientation(ElementVerts(nodes, e')) < 0.0)
  }

  /** Swapping the middle two vertices of a tet reverses its orientation
      and keeps its vertex multiset. */
  lemma {:induction false} SwapMiddleVertices(nodes: seq<Vec3>, e: seq<int>)
    requires |e| == 4 && ValidCorners(nodes, e)
    ensures var s := [e[0], e[2], e[1], e[3]];
            ValidCorners(nodes, s) && multiset(s) == multiset(e) &&
            TetOrientation(ElementVerts(nodes, s)) == -TetOrientation(ElementVerts(nodes, e))
  {
    var s := [e[0], e[2], e[1], e[3]];
    SwapKeepsMultiset(e);
    assert s[0] == e[0] && s[1] == e[2] && s[2] == e[1] && s[3] == e[3];
    assert ValidCorners(nodes, s);
    var verts, sv := ElementVerts(nodes, e), ElementVerts(nodes, s);
    assert sv[0] == verts[0] && sv[1] == verts[2] && sv[2] == verts[1] && sv[3] == verts[3];
    assert sv == [verts[0], verts[2], verts[1], verts[3]];
    SwapMiddle(verts[0], verts[1], verts[2], verts[3]);
  }

  lemma SwapKeepsMultiset(e: seq<int>)
    requires |e| == 4
    ensures multiset([e[0], e[2], e[1], e[3]]) == multiset(e)
  {
    assert e == [e[0]] + [e[1]] + [e[2]] + [e[3]];
  }

  /** One iteration of the sign-fixing loop. */
  function FixSign(nodes: seq<Vec3>, e: seq<int>): (e': seq<int>)
    requires |e| == 4 && ValidCorners(nodes, e)
    ensures Reoriented(nodes, e, e')
  {
    SwapMiddleVertices(nodes, e);
    if TetOrientation(ElementVerts(nodes, e)) < 0.0 then e else [e[0], e[2], e[1], e[3]]
  }

  /** The loop of `tetrahedralize` over the first four columns of tetgen's
      elements. */
  method ReorientElements(nodes: seq<Vec3>, rows: seq<seq<int>>) returns (elements: seq<seq<int>>)
    requires forall i :: 0 <= i < |rows| ==> |rows[i]| >= 4 && ValidCorners(nodes, rows[i][..4])
    ensures |elements| == |rows| && Tets(nodes, elements)
    ensures forall i :: 0 <= i < |rows| ==> Reoriented(nodes, rows[i][..4], elements[i])
  {
    elements := [];
    for i := 0 to |rows|
      invariant |elements| == i
      invariant forall s :: 0 <= s < i ==> Reoriented(nodes, rows[s][..4], elements[s])
    {
      var e' := FixSign(nodes, rows[i][..4]);
      elements := elements + [e'];
    }
  }
}
