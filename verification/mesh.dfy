/** The mesh generators of `common/mesh.py`: the rectangle mesh file, the hex
    mesh built from a voxel grid (node numbering, element corners, file) and
    the boundary surface of a hex mesh (`hex2obj`). */
module Mesh {
  import opened Wrappers
  import opened Vectors
  import opened MeshFile
  import opened FaceParity
  import opened Division
  import HexMesh

  // ---------------------------------------------------------------------
  // Rectangle mesh
  // ---------------------------------------------------------------------

  /** Vertex `(i, j)` of the `(nx + 1)` by `(ny + 1)` grid is number `i·(ny + 1) + j`. */
  function GridVertex(i: nat, j: nat, ny: nat): nat
  {
    Flat(i, j, ny + 1)
  }

  /** Corner `c` of cell `(i, j)`: `(i, j)`, `(i, j + 1)`, `(i + 1, j)`, `(i + 1, j + 1)`. */
  function RectCorner(c: nat, i: nat, j: nat, ny: nat): nat
    requires c < 4
  {
    GridVertex(if c < 2 then i else i + 1, if c == 1 || c == 3 then j + 1 else j, ny)
  }

  /** Coordinate of grid line `i` along an axis starting at `o` with spacing `dx`. */
  function GridCoord(o: real, dx: real, i: nat): real
  {
    o + i as real * dx
  }

  function RectX(ox: real, dx: real): (nat, nat) -> Token
  {
    (i: nat, j: nat) => Real(GridCoord(ox, dx, i))
  }

  function RectY(oy: real, dx: real): (nat, nat) -> Token
  {
    (i: nat, j: nat) => Real(GridCoord(oy, dx, j))
  }

  function RectCorners(c: nat, ny: nat): (nat, nat) -> Token
    requires c < 4
  {
    (i: nat, j: nat) => Int(RectCorner(c, i, j, ny))
  }

  /** The four corner columns, one after the other. */
  function CornerColumns(c: nat, nx: nat, ny: nat): seq<Token>
    requires c <= 4
  {
    if c == 0 then [] else CornerColumns(c - 1, nx, ny) + Grid(nx, ny, RectCorners(c - 1, ny))
  }

  /** The rectangle file: dimension 2 and 4 corners per element; then 2, the
      vertex count, every x, every y; then 4, the element count and the four
      corner columns. */
  function RectangleFile(nx: nat, ny: nat, dx: real, ox: real, oy: real): seq<Token>
  {
    [Int(2), Int(4), Int(2), Int((nx + 1) * (ny + 1))]
      + Grid(nx + 1, ny + 1, RectX(ox, dx)) + Grid(nx + 1, ny + 1, RectY(oy, dx))
      + [Int(4), Int(nx * ny)] + CornerColumns(4, nx, ny)
  }

  /** `generate_rectangle_mesh`: the writes in the order the loops issue them. */
  method GenerateRectangleMesh(nx: nat, ny: nat, dx: real, ox: real, oy: real) returns (tokens: seq<Token>)
    ensures tokens == RectangleFile(nx, ny, dx, ox, oy)
  {
    var vertexNum := (nx + 1) * (ny + 1);
    var elementNum := nx * ny;
    tokens := [Int(2), Int(4), Int(2), Int(vertexNum)];
    tokens := WriteGrid(tokens, nx + 1, ny + 1, RectX(ox, dx));
    tokens := WriteGrid(tokens, nx + 1, ny + 1, RectY(oy, dx));
    tokens := tokens + [Int(4), Int(elementNum)];
    ghost var header := tokens;
    tokens := WriteGrid(tokens, nx, ny, RectCorners(0, ny));
    assert tokens == header + CornerColumns(1, nx, ny);
    tokens := WriteGrid(tokens, nx, ny, RectCorners(1, ny));
    assert tokens == header + CornerColumns(2, nx, ny);
    tokens := WriteGrid(tokens, nx, ny, RectCorners(2, ny));
    assert tokens == header + CornerColumns(3, nx, ny);
    tokens := WriteGrid(tokens, nx, ny, RectCorners(3, ny));
    assert tokens == header + CornerColumns(4, nx, ny);
  }

  /** The vertex count and element count, and every corner of every cell is a
      vertex number of the grid. */
  lemma RectCornerInRange(nx: nat, ny: nat, c: nat, i: nat, j: nat)
    requires c < 4 && i < nx && j < ny
    ensures RectCorner(c, i, j, ny) < (nx + 1) * (ny + 1)
  {
    var a := if c < 2 then i else i + 1;
    var b := if c == 1 || c == 3 then j + 1 else j;
    MulMono(a, nx, ny + 1);
    assert (nx + 1) * (ny + 1) == nx * (ny + 1) + ny + 1;
  }

  /** The four corners of a cell are four different vertices. */
  lemma RectCornersDistinct(c: nat, c': nat, i: nat, j: nat, ny: nat)
    requires c < 4 && c' < 4 && c != c' && j < ny
    ensures RectCorner(c, i, j, ny) != RectCorner(c', i, j, ny)
  {
    assert (i + 1) * (ny + 1) == i * (ny + 1) + ny + 1;
  }

  /** Where column `c` starts among the corner columns of `m` entries each: `c·m`. */
  function ColumnOffset(c: nat, m: nat): nat
  {
    if c == 0 then 0 else ColumnOffset(c - 1, m) + m
  }

  lemma {:induction false} ColumnOffsetIsProduct(c: nat, m: nat)
    ensures ColumnOffset(c, m) == c * m
  {
    if c > 0 {
      ColumnOffsetIsProduct(c - 1, m);
      assert c * m == (c - 1) * m + m;
    }
  }

  lemma {:induction false} ColumnOffsetMono(c: nat, d: nat, m: nat)
    requires c <= d
    ensures ColumnOffset(c, m) <= ColumnOffset(d, m)
  {
    if c < d {
      ColumnOffsetMono(c, d - 1, m);
    }
  }

  /** The rectangle file in its parts, with their lengths; `n` is the vertex
      count and `m` the cell count. */
  lemma RectangleFileParts(nx: nat, ny: nat, dx: real, ox: real, oy: real, n: nat, m: nat)
    requires n == (nx + 1) * (ny + 1) && m == nx * ny
    ensures var xs := Grid(nx + 1, ny + 1, RectX(ox, dx));
            var ys := Grid(nx + 1, ny + 1, RectY(oy, dx));
            |xs| == n && |ys| == n && |CornerColumns(4, nx, ny)| == 4 * m &&
            RectangleFile(nx, ny, dx, ox, oy)
              == [Int(2), Int(4), Int(2), Int(n)] + xs + ys + [Int(4), Int(m)] + CornerColumns(4, nx, ny)
  {
    GridLength(nx + 1, ny + 1, RectX(ox, dx));
    GridLength(nx + 1, ny + 1, RectY(oy, dx));
    CornerColumnsLength(4, nx, ny, m);
    ColumnOffsetIsProduct(4, m);
  }

  lemma {:induction false} CornerColumnsLength(c: nat, nx: nat, ny: nat, m: nat)
    requires c <= 4 && m == nx * ny
    ensures |CornerColumns(c, nx, ny)| == ColumnOffset(c, m)
  {
    if c > 0 {
      CornerColumnsLength(c - 1, nx, ny, m);
      GridLength(nx, ny, RectCorners(c - 1, ny));
    }
  }

  /** Reading the rectangle file back: the header and the counts. */
  lemma RectangleFileHeader(nx: nat, ny: nat, dx: real, ox: real, oy: real, n: nat, m: nat)
    requires n == (nx + 1) * (ny + 1) && m == nx * ny
    ensures var f := RectangleFile(nx, ny, dx, ox, oy);
            |f| == 6 + 2 * n + 4 * m &&
            f[..4] == [Int(2), Int(4), Int(2), Int(n)] &&
            f[4 + 2 * n] == Int(4) && f[5 + 2 * n] == Int(m)
  {
    RectangleFileParts(nx, ny, dx, ox, oy, n, m);
  }

  /** Vertex `(i, j)` sits at its grid number in both coordinate blocks. */
  lemma RectangleFileVertex(nx: nat, ny: nat, dx: real, ox: real, oy: real, n: nat, i: nat, j: nat)
    requires n == (nx + 1) * (ny + 1) && i <= nx && j <= ny
    ensures var f := RectangleFile(nx, ny, dx, ox, oy);
            GridVertex(i, j, ny) < n && 4 + n + GridVertex(i, j, ny) < |f| &&
            f[4 + GridVertex(i, j, ny)] == Real(GridCoord(ox, dx, i)) &&
            f[4 + n + GridVertex(i, j, ny)] == Real(GridCoord(oy, dx, j))
  {
    var v := GridVertex(i, j, ny);
    var xs := Grid(nx + 1, ny + 1, RectX(ox, dx));
    var ys := Grid(nx + 1, ny + 1, RectY(oy, dx));
    GridEntry(nx + 1, ny + 1, RectX(ox, dx), i, j);
    GridEntry(nx + 1, ny + 1, RectY(oy, dx), i, j);
    RectangleFileParts(nx, ny, dx, ox, oy, n, nx * ny);
    var head := [Int(2), Int(4), Int(2), Int(n)];
    InBlocks(head, xs, ys, [Int(4), Int(nx * ny)], CornerColumns(4, nx, ny), v);
  }

  /** Positions inside the second and third of five concatenated blocks. */
  lemma {:induction false} InBlocks<T>(a: seq<T>, b: seq<T>, c: seq<T>, d: seq<T>, e: seq<T>, v: nat)
    requires v < |b| && |b| == |c|
    ensures |a| + |b| + v < |a + b + c + d + e|
    ensures (a + b + c + d + e)[|a| + v] == b[v] && (a + b + c + d + e)[|a| + |b| + v] == c[v]
  {
  }

  /** Corner `c` of cell `(i, j)` sits in column `c`, at position `i·ny + j` of it (`Flat(i, j, ny)`). */
  lemma RectangleFileCorner(nx: nat, ny: nat, dx: real, ox: real, oy: real, n: nat, m: nat, c: nat, i: nat, j: nat)
    requires n == (nx + 1) * (ny + 1) && m == nx * ny && c < 4 && i < nx && j < ny
    ensures var f := RectangleFile(nx, ny, dx, ox, oy);
            6 + 2 * n + ColumnOffset(c, m) + Flat(i, j, ny) < |f| &&
            f[6 + 2 * n + ColumnOffset(c, m) + Flat(i, j, ny)] == Int(RectCorner(c, i, j, ny))
  {
    var prefix := [Int(2), Int(4), Int(2), Int(n)]
      + Grid(nx + 1, ny + 1, RectX(ox, dx)) + Grid(nx + 1, ny + 1, RectY(oy, dx)) + [Int(4), Int(m)];
    RectangleFileParts(nx, ny, dx, ox, oy, n, m);
    ColumnEntry(nx, ny, m, c, i, j);
    InSecond(prefix, CornerColumns(4, nx, ny), ColumnOffset(c, m) + Flat(i, j, ny));
  }

  /** Entry `(i, j)` of column `c` among the four corner columns. */
  lemma ColumnEntry(nx: nat, ny: nat, m: nat, c: nat, i: nat, j: nat)
    requires m == nx * ny && c < 4 && i < nx && j < ny
    ensures ColumnOffset(c, m) + Flat(i, j, ny) < |CornerColumns(4, nx, ny)|
    ensures CornerColumns(4, nx, ny)[ColumnOffset(c, m) + Flat(i, j, ny)] == Int(RectCorner(c, i, j, ny))
  {
    var t := Flat(i, j, ny);
    GridEntry(nx, ny, RectCorners(c, ny), i, j);
    CornerColumnsPrefix(c + 1, 4, nx, ny);
    CornerColumnsLength(c, nx, ny, m);
    CornerColumnsLength(4, nx, ny, m);
    ColumnOffsetMono(c + 1, 4, m);
    var before := CornerColumns(c, nx, ny);
    var col := Grid(nx, ny, RectCorners(c, ny));
    assert CornerColumns(c + 1, nx, ny) == before + col;
    InSecond(before, col, t);
    PrefixIndex(CornerColumns(c + 1, nx, ny), CornerColumns(4, nx, ny), ColumnOffset(c, m) + t);
    assert col[t] == RectCorners(c, ny)(i, j);
  }

  /** The first `c` columns are a prefix of the first `cs`. */
  lemma {:induction false} CornerColumnsPrefix(c: nat, cs: nat, nx: nat, ny: nat)
    requires c <= cs <= 4
    ensures CornerColumns(c, nx, ny) <= CornerColumns(cs, nx, ny)
  {
    if c < cs {
      CornerColumnsPrefix(c, cs - 1, nx, ny);
    }
  }

  // ---------------------------------------------------------------------
  // Boundary surface of a hex mesh
  // ---------------------------------------------------------------------

  /** `face_idx`: the six quads of a hex element, as local corner numbers
      `4·ii + 2·jj + kk`. */
  const HexFaces: seq<seq<nat>> := [[0, 1, 3, 2], [4, 6, 7, 5], [0, 4, 5, 1], [2, 3, 7, 6], [1, 5, 7, 3], [0, 2, 6, 4]]

  /** Corner `t` of quad `r`. */
  function HexFaceCorner(r: nat, t: nat): (c: nat)
    requires r < 6 && t < 4
    ensures c < 8
  {
    HexFaces[r][t]
  }

  /** Offset of local corner `c` along `axis` (0 for x, 1 for y, 2 for z). */
  function Bit(c: nat, axis: nat): nat
    requires c < 8 && axis < 3
  {
    var o := HexMesh.LocalCorners[c];
    if axis == 0 then o.i else if axis == 1 then o.j else o.k
  }

  /** The side of the cube quad `r` lies on: which axis, and which end of it. */
  const SideAxis: seq<nat> := [0, 0, 1, 1, 2, 2]
  const SideEnd: seq<nat> := [0, 1, 0, 1, 1, 0]

  /** Two local corners joined by an edge of the cube: they differ along
      exactly one axis. */
  predicate CubeEdge(c: nat, d: nat)
    requires c < 8 && d < 8
  {
    var diff := (if Bit(c, 0) != Bit(d, 0) then 1 else 0) + (if Bit(c, 1) != Bit(d, 1) then 1 else 0)
      + (if Bit(c, 2) != Bit(d, 2) then 1 else 0);
    diff == 1
  }

  /** The corner after corner `t` going around a quad. */
  function NextAround(t: nat): nat
  {
    if t == 3 then 0 else t + 1
  }

  /** Each quad is one side of the cube: its corners all have the side's
      offset along the side's axis, and they are listed around the side, so
      that each corner shares a cube edge with the next (the last with the
      first). */
  lemma HexFaceOnSide(r: nat, t: nat)
    requires r < 6 && t < 4
    ensures SideAxis[r] < 3 && Bit(HexFaceCorner(r, t), SideAxis[r]) == SideEnd[r]
    ensures CubeEdge(HexFaceCorner(r, t), HexFaceCorner(r, NextAround(t)))
  {
  }

  /** The four corners of a quad are different, so they are the four corners
      of its side; and no two quads lie on the same side. */
  lemma HexFacesDistinct(r: nat, t: nat, u: nat, r': nat)
    requires r < 6 && t < u < 4 && r' < 6 && r' != r
    ensures HexFaceCorner(r, t) != HexFaceCorner(r, u)
    ensures (SideAxis[r'], SideEnd[r']) != (SideAxis[r], SideEnd[r])
  {
  }

  /** `[int(fi[fij]) for fij in f]`: the vertex numbers of quad `r` of element `e`. */
  function Quad(e: seq<int>, r: nat): (vidx: seq<int>)
    requires |e| == 8 && r < 6
    ensures |vidx| == 4 && forall t :: 0 <= t < 4 ==> vidx[t] == e[HexFaceCorner(r, t)]
  {
    seq(4, t requires 0 <= t < 4 => e[HexFaceCorner(r, t)])
  }

  /** The quads of the first `r` sides of element `e`. */
  function ElementQuads(e: seq<int>, r: nat): (qs: seq<seq<int>>)
    requires |e| == 8 && r <= 6
    ensures |qs| == r && forall s :: 0 <= s < r ==> qs[s] == Quad(e, s)
  {
    if r == 0 then [] else ElementQuads(e, r - 1) + [Quad(e, r - 1)]
  }

  predicate Hexes(elements: seq<seq<int>>)
  {
    forall i :: 0 <= i < |elements| ==> |elements[i]| == 8
  }

  /** Every quad of every element, in the order `hex2obj` toggles them. */
  function AllQuads(elements: seq<seq<int>>): (qs: seq<seq<int>>)
    requires Hexes(elements)
    ensures |qs| == 6 * |elements|
  {
    if elements == [] then []
    else
      var n := |elements| - 1;
      AllQuads(elements[..n]) + ElementQuads(elements[n], 6)
  }

  /** Side `r` of element `i` is quad number `6·i + r`. */
  lemma {:induction false} AllQuadsAt(elements: seq<seq<int>>, i: nat, r: nat)
    requires Hexes(elements) && i < |elements| && r < 6
    ensures AllQuads(elements)[6 * i + r] == Quad(elements[i], r)
  {
    var n := |elements| - 1;
    var front := elements[..n];
    assert Hexes(front);
    if i < n {
      AllQuadsAt(front, i, r);
      assert front[i] == elements[i];
    }
  }

  /** Toggling the quads of one more side. */
  lemma {:induction false} ToggleNextSide(done: seq<seq<int>>, e: seq<int>, r: nat)
    requires |e| == 8 && r < 6
    ensures ToggleAll(done + ElementQuads(e, r + 1)) == Toggle(ToggleAll(done + ElementQuads(e, r)), Quad(e, r))
  {
    var before := done + ElementQuads(e, r);
    assert done + ElementQuads(e, r + 1) == before + [Quad(e, r)];
    assert (before + [Quad(e, r)])[..|before|] == before;
  }

  /** The quads of the first `i + 1` elements. */
  lemma {:induction false} AllQuadsNext(elements: seq<seq<int>>, i: nat)
    requires Hexes(elements) && i < |elements|
    ensures Hexes(elements[..i]) && Hexes(elements[..i + 1])
    ensures AllQuads(elements[..i + 1]) == AllQuads(elements[..i]) + ElementQuads(elements[i], 6)
  {
    assert elements[..i + 1][..i] == elements[..i];
  }

  /** The toggling loops of `hex2obj`. */
  method ToggleQuads(elements: seq<seq<int>>) returns (faceDict: FaceDict)
    requires Hexes(elements)
    ensures faceDict == ToggleAll(AllQuads(elements))
  {
    faceDict := map[];
    for i := 0 to |elements|
      invariant Hexes(elements[..i]) && faceDict == ToggleAll(AllQuads(elements[..i]))
    {
      var fi := elements[i];
      ghost var done := AllQuads(elements[..i]);
      assert done + ElementQuads(fi, 0) == done;
      for r := 0 to 6
        invariant faceDict == ToggleAll(done + ElementQuads(fi, r))
      {
        var vidx := Quad(fi, r);
        ToggleNextSide(done, fi, r);
        var vidxKey := multiset(vidx);
        if vidxKey in faceDict {
          faceDict := faceDict - {vidxKey};
        } else {
          faceDict := faceDict[vidxKey := vidx];
        }
      }
      AllQuadsNext(elements, i);
    }
    assert elements[..|elements|] == elements;
  }

  /** `hex2obj`: the boundary quads are those whose vertex set occurs an odd
      number of times among all element quads, each once, with the winding of
      its last occurrence; with an OBJ file name, the OBJ lines (1-based
      vertex numbers). */
  method Hex2Obj(v: seq<Vec3>, elements: seq<seq<int>>, writeObj: bool)
    returns (f: seq<seq<int>>, obj: Option<seq<ObjLine>>)
    requires Hexes(elements)
    ensures Boundary(AllQuads(elements), f)
    ensures obj == if writeObj then Some(ObjFile(v, f)) else None
  {
    var faceDict := ToggleQuads(elements);
    ToggleAllKeys(AllQuads(elements));
    f := Items(faceDict);
    ItemsAreBoundary(AllQuads(elements), f);
    if writeObj {
      obj := Some(ObjFile(v, f));
    } else {
      obj := None;
    }
  }
}
