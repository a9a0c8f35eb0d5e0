/** `generate_hex_mesh` of `common/mesh.py`: the nodes touched by an occupied
    voxel are marked in `vertex_flag`, then numbered in C order, then every
    occupied voxel becomes one element listing its eight numbered corners, and
    the vertex and element tables are written column by column. */
module HexMesh {
  import opened Wrappers
  import opened Vectors
  import opened MeshFile

  // ---------------------------------------------------------------------
  // Positions visited by three nested loops
  // ---------------------------------------------------------------------

  /** A position `(i, j, k)` of a three-dimensional grid of cells or nodes. */
  datatype Index = Index(i: nat, j: nat, k: nat)

  /** The positions that `pick` selects among those three nested loops over
      `i`, `j < nj` and `k < nk` visit before position `(i, j, k)`, in the
      order they are visited. Position `(i, j, nk)` is the same moment as
      `(i, j + 1, 0)`, and `(i, nj, 0)` the same as `(i + 1, 0, 0)`. */
  function Scan(nj: nat, nk: nat, pick: (nat, nat, nat) -> bool, i: nat, j: nat, k: nat): seq<Index>
    decreases i, j, k
  {
    if k > 0 then Scan(nj, nk, pick, i, j, k - 1) + (if pick(i, j, k - 1) then [Index(i, j, k - 1)] else [])
    else if j > 0 then Scan(nj, nk, pick, i, j - 1, nk)
    else if i > 0 then Scan(nj, nk, pick, i - 1, nj, 0)
    else []
  }

  predicate IndexBefore(x: Index, y: Index)
  {
    Before(x.i, x.j, x.k, y.i, y.j, y.k)
  }

  /** Every scanned position is picked, lies inside the inner bounds, comes
      before the scan position, and the scan lists them in strictly increasing
      loop order. */
  lemma {:induction false} ScanShape(nj: nat, nk: nat, pick: (nat, nat, nat) -> bool, i: nat, j: nat, k: nat)
    requires j <= nj && k <= nk && (j == nj ==> k == 0)
    ensures forall x :: x in Scan(nj, nk, pick, i, j, k) ==>
              pick(x.i, x.j, x.k) && x.j < nj && x.k < nk && Before(x.i, x.j, x.k, i, j, k)
    ensures Increasing(Scan(nj, nk, pick, i, j, k))
    decreases i, j, k
  {
    var s := Scan(nj, nk, pick, i, j, k);
    if k > 0 {
      ScanShape(nj, nk, pick, i, j, k - 1);
    } else if j > 0 {
      ScanShape(nj, nk, pick, i, j - 1, nk);
      assert s == Scan(nj, nk, pick, i, j - 1, nk);
    } else if i > 0 {
      ScanShape(nj, nk, pick, i - 1, nj, 0);
      assert s == Scan(nj, nk, pick, i - 1, nj, 0);
    }
  }

  /** Strictly increasing in loop order. */
  predicate Increasing(s: seq<Index>)
  {
    forall t, u :: 0 <= t < u < |s| ==> IndexBefore(s[t], s[u])
  }

  /** A scan taken at an earlier moment is a prefix of a scan taken later. */
  lemma {:induction false} ScanPrefix(nj: nat, nk: nat, pick: (nat, nat, nat) -> bool,
                                      a: nat, b: nat, c: nat, i: nat, j: nat, k: nat)
    requires b < nj && c <= nk && j <= nj && k <= nk
    requires Before(a, b, c, i, j, k) || (a == i && b == j && c == k)
    ensures Scan(nj, nk, pick, a, b, c) <= Scan(nj, nk, pick, i, j, k)
    decreases i, j, k
  {
    if a == i && b == j && c == k {
    } else if k > 0 {
      ScanPrefix(nj, nk, pick, a, b, c, i, j, k - 1);
    } else if j > 0 {
      ScanPrefix(nj, nk, pick, a, b, c, i, j - 1, nk);
    } else if i > 0 {
      ScanPrefix(nj, nk, pick, a, b, c, i - 1, nj, 0);
    }
  }

  /** A picked position `(a, b, c)` with `a < ni` sits in the complete scan at
      the index given by the number of positions picked before it. */
  lemma ScanAt(ni: nat, nj: nat, nk: nat, pick: (nat, nat, nat) -> bool, a: nat, b: nat, c: nat)
    requires a < ni && b < nj && c < nk && pick(a, b, c)
    ensures var s := Scan(nj, nk, pick, ni, 0, 0);
            |Scan(nj, nk, pick, a, b, c)| < |s| && s[|Scan(nj, nk, pick, a, b, c)|] == Index(a, b, c)
  {
    var before := Scan(nj, nk, pick, a, b, c);
    var after := Scan(nj, nk, pick, a, b, c + 1);
    assert after == before + [Index(a, b, c)];
    ScanPrefix(nj, nk, pick, a, b, c + 1, ni, 0, 0);
    PrefixIndex(after, Scan(nj, nk, pick, ni, 0, 0), |before|);
  }

  // ---------------------------------------------------------------------
  // Voxels and the nodes they touch
  // ---------------------------------------------------------------------

  /** The voxel grid: its cell counts and which cells are filled (the
      truthiness of `voxels[i][j][k]`). */
  datatype Voxels = Voxels(cx: nat, cy: nat, cz: nat, filled: (nat, nat, nat) -> bool)

  /** Cell `(i, j, k)` exists and is filled. */
  predicate Occupied(g: Voxels, i: int, j: int, k: int)
  {
    0 <= i < g.cx && 0 <= j < g.cy && 0 <= k < g.cz && g.filled(i, j, k)
  }

  /** Node `(a, b, c)` is a corner of cell `(i, j, k)`. */
  predicate InCube(i: int, j: int, k: int, a: int, b: int, c: int)
  {
    i <= a <= i + 1 && j <= b <= j + 1 && k <= c <= k + 1
  }

  /** The cell `(a - ii, b - jj, c - kk)` is occupied and has been visited
      before loop position `(p, q, r)`. */
  predicate Hit(g: Voxels, a: int, b: int, c: int, ii: int, jj: int, kk: int, p: int, q: int, r: int)
  {
    Occupied(g, a - ii, b - jj, c - kk) && Before(a - ii, b - jj, c - kk, p, q, r)
  }

  /** Node `(a, b, c)` is a corner of an occupied cell visited before `(p, q, r)`. */
  predicate TouchedBefore(g: Voxels, a: int, b: int, c: int, p: int, q: int, r: int)
  {
    Hit(g, a, b, c, 0, 0, 0, p, q, r) || Hit(g, a, b, c, 0, 0, 1, p, q, r) ||
    Hit(g, a, b, c, 0, 1, 0, p, q, r) || Hit(g, a, b, c, 0, 1, 1, p, q, r) ||
    Hit(g, a, b, c, 1, 0, 0, p, q, r) || Hit(g, a, b, c, 1, 0, 1, p, q, r) ||
    Hit(g, a, b, c, 1, 1, 0, p, q, r) || Hit(g, a, b, c, 1, 1, 1, p, q, r)
  }

  /** Node `(a, b, c)` is a corner of some occupied cell. */
  predicate Touched(g: Voxels, a: int, b: int, c: int)
  {
    TouchedBefore(g, a, b, c, g.cx, 0, 0)
  }

  /** The same, stated directly. */
  lemma TouchedIff(g: Voxels, a: int, b: int, c: int)
    ensures Touched(g, a, b, c) <==> exists i, j, k :: Occupied(g, i, j, k) && InCube(i, j, k, a, b, c)
  {
    if exists i, j, k :: Occupied(g, i, j, k) && InCube(i, j, k, a, b, c) {
      var i, j, k :| Occupied(g, i, j, k) && InCube(i, j, k, a, b, c);
      assert Hit(g, a, b, c, a - i, b - j, c - k, g.cx, 0, 0);
    }
  }

  /** Visiting cell `(i, j, k)` adds its corners when it is occupied. */
  lemma TouchStep(g: Voxels, a: int, b: int, c: int, i: int, j: int, k: int)
    ensures TouchedBefore(g, a, b, c, i, j, k + 1)
        <==> TouchedBefore(g, a, b, c, i, j, k) || (Occupied(g, i, j, k) && InCube(i, j, k, a, b, c))
  {
  }

  /** The end of a row of cells is the start of the next row. */
  lemma TouchRowEnd(g: Voxels, a: int, b: int, c: int, i: int, j: int)
    ensures TouchedBefore(g, a, b, c, i, j, g.cz) <==> TouchedBefore(g, a, b, c, i, j + 1, 0)
  {
  }

  /** The end of a layer of cells is the start of the next layer. */
  lemma TouchLayerEnd(g: Voxels, a: int, b: int, c: int, i: int)
    ensures TouchedBefore(g, a, b, c, i, g.cy, 0) <==> TouchedBefore(g, a, b, c, i + 1, 0, 0)
  {
  }

  // ---------------------------------------------------------------------
  // Phase 1: marking the touched nodes
  // ---------------------------------------------------------------------

  /** `vertex_flag` has one entry per node. */
  predicate NodeShape(g: Voxels, flag: array3<int>)
  {
    flag.Length0 == g.cx + 1 && flag.Length1 == g.cy + 1 && flag.Length2 == g.cz + 1
  }

  /** After the marking loops have reached cell `(p, q, r)`: 0 on the nodes
      touched so far, -1 elsewhere. */
  predicate Marked(g: Voxels, flag: array3<int>, p: int, q: int, r: int)
    reads flag
  {
    NodeShape(g, flag) &&
    forall a, b, c :: 0 <= a < flag.Length0 && 0 <= b < flag.Length1 && 0 <= c < flag.Length2 ==>
      flag[a, b, c] == if TouchedBefore(g, a, b, c, p, q, r) then 0 else -1
  }

  /** The inner loops `for ii, jj, kk in range(2)` setting the eight corners of
      cell `(i, j, k)` to 0. */
  method MarkCell(flag: array3<int>, i: nat, j: nat, k: nat)
    requires i + 1 < flag.Length0 && j + 1 < flag.Length1 && k + 1 < flag.Length2
    modifies flag
    ensures forall a, b, c :: 0 <= a < flag.Length0 && 0 <= b < flag.Length1 && 0 <= c < flag.Length2 ==>
      flag[a, b, c] == if InCube(i, j, k, a, b, c) then 0 else old(flag[a, b, c])
  {
    for ii := 0 to 2
      invariant forall a, b, c :: 0 <= a < flag.Length0 && 0 <= b < flag.Length1 && 0 <= c < flag.Length2 ==>
        flag[a, b, c] == if InCube(i, j, k, a, b, c) && Before(a - i, b - j, c - k, ii, 0, 0) then 0 else old(flag[a, b, c])
    {
      for jj := 0 to 2
        invariant forall a, b, c :: 0 <= a < flag.Length0 && 0 <= b < flag.Length1 && 0 <= c < flag.Length2 ==>
          flag[a, b, c] == if InCube(i, j, k, a, b, c) && Before(a - i, b - j, c - k, ii, jj, 0) then 0 else old(flag[a, b, c])
      {
        for kk := 0 to 2
          invariant forall a, b, c :: 0 <= a < flag.Length0 && 0 <= b < flag.Length1 && 0 <= c < flag.Length2 ==>
            flag[a, b, c] == if InCube(i, j, k, a, b, c) && Before(a - i, b - j, c - k, ii, jj, kk) then 0 else old(flag[a, b, c])
        {
          flag[i + ii, j + jj, k + kk] := 0;
        }
      }
    }
  }

  /** One iteration of the marking loops, at cell `(i, j, k)`. */
  method MarkStep(g: Voxels, flag: array3<int>, i: nat, j: nat, k: nat)
    requires i < g.cx && j < g.cy && k < g.cz && Marked(g, flag, i, j, k)
    modifies flag
    ensures Marked(g, flag, i, j, k + 1)
  {
    if g.filled(i, j, k) {
      MarkCell(flag, i, j, k);
    }
    forall a, b, c | 0 <= a < flag.Length0 && 0 <= b < flag.Length1 && 0 <= c < flag.Length2
      ensures flag[a, b, c] == if TouchedBefore(g, a, b, c, i, j, k + 1) then 0 else -1
    {
      TouchStep(g, a, b, c, i, j, k);
    }
  }

  lemma MarkedRowEnd(g: Voxels, flag: array3<int>, i: nat, j: nat)
    requires Marked(g, flag, i, j, g.cz)
    ensures Marked(g, flag, i, j + 1, 0)
  {
    forall a, b, c | 0 <= a < flag.Length0 && 0 <= b < flag.Length1 && 0 <= c < flag.Length2
      ensures flag[a, b, c] == if TouchedBefore(g, a, b, c, i, j + 1, 0) then 0 else -1
    {
      TouchRowEnd(g, a, b, c, i, j);
    }
  }

  lemma MarkedLayerEnd(g: Voxels, flag: array3<int>, i: nat)
    requires Marked(g, flag, i, g.cy, 0)
    ensures Marked(g, flag, i + 1, 0, 0)
  {
    forall a, b, c | 0 <= a < flag.Length0 && 0 <= b < flag.Length1 && 0 <= c < flag.Length2
      ensures flag[a, b, c] == if TouchedBefore(g, a, b, c, i + 1, 0, 0) then 0 else -1
    {
      TouchLayerEnd(g, a, b, c, i);
    }
  }

  /** `vertex_flag = np.full(..., -1)` and the marking loops: afterwards 0
      exactly on the touched nodes. */
  method MarkNodes(g: Voxels) returns (flag: array3<int>)
    ensures fresh(flag) && Marked(g, flag, g.cx, 0, 0)
  {
    flag := new int[g.cx + 1, g.cy + 1, g.cz + 1]((a, b, c) => -1);
    for i := 0 to g.cx
      invariant Marked(g, flag, i, 0, 0)
    {
      for j := 0 to g.cy
        invariant Marked(g, flag, i, j, 0)
      {
        for k := 0 to g.cz
          invariant Marked(g, flag, i, j, k)
        {
          MarkStep(g, flag, i, j, k);
        }
        MarkedRowEnd(g, flag, i, j);
      }
      MarkedLayerEnd(g, flag, i);
    }
  }

  // ---------------------------------------------------------------------
  // Phase 2: numbering the touched nodes
  // ---------------------------------------------------------------------

  function TouchPick(g: Voxels): (nat, nat, nat) -> bool
  {
    (a: nat, b: nat, c: nat) => Touched(g, a, b, c)
  }

  /** The touched nodes the numbering loops visit before node `(a, b, c)`. */
  function NodesBefore(g: Voxels, a: nat, b: nat, c: nat): seq<Index>
  {
    Scan(g.cy + 1, g.cz + 1, TouchPick(g), a, b, c)
  }

  /** Every touched node, in the order the numbering loops reach them. */
  function Nodes(g: Voxels): seq<Index>
  {
    NodesBefore(g, g.cx + 1, 0, 0)
  }

  /** The final `vertex_flag[a][b][c]`: the number of touched nodes before a
      touched node, -1 for a node no occupied cell touches. */
  function Label(g: Voxels, a: nat, b: nat, c: nat): int
  {
    if Touched(g, a, b, c) then |NodesBefore(g, a, b, c)| else -1
  }

  /** `(origin[0] + dx·i, origin[1] + dx·j, origin[2] + dx·k)`. */
  function NodePos(origin: Vec3, dx: real, n: Index): Vec3
  {
    Vec3(origin.x + dx * n.i as real, origin.y + dx * n.j as real, origin.z + dx * n.k as real)
  }

  /** After the numbering loops have reached node `(i, j, k)`: the nodes
      before it carry their final label, the others still their mark, and
      `vertices` holds the positions of the touched nodes numbered so far. */
  predicate Numbered(g: Voxels, flag: array3<int>, origin: Vec3, dx: real, vertices: seq<Vec3>, i: nat, j: nat, k: nat)
    reads flag
  {
    var ns := NodesBefore(g, i, j, k);
    NodeShape(g, flag) &&
    |vertices| == |ns| && (forall t :: 0 <= t < |vertices| ==> vertices[t] == NodePos(origin, dx, ns[t])) &&
    forall a, b, c :: 0 <= a < flag.Length0 && 0 <= b < flag.Length1 && 0 <= c < flag.Length2 ==>
      flag[a, b, c] == if Before(a, b, c, i, j, k) then Label(g, a, b, c) else if Touched(g, a, b, c) then 0 else -1
  }

  /** `vertex_flag` holds the final label of every node. */
  predicate Labelled(g: Voxels, flag: array3<int>)
    reads flag
  {
    NodeShape(g, flag) &&
    forall a, b, c :: 0 <= a < flag.Length0 && 0 <= b < flag.Length1 && 0 <= c < flag.Length2 ==>
      flag[a, b, c] == Label(g, a, b, c)
  }

  lemma {:induction false} NumberedRowEnd(g: Voxels, flag: array3<int>, origin: Vec3, dx: real, vertices: seq<Vec3>, i: nat, j: nat)
    requires Numbered(g, flag, origin, dx, vertices, i, j, g.cz + 1)
    ensures Numbered(g, flag, origin, dx, vertices, i, j + 1, 0)
  {
    assert NodesBefore(g, i, j + 1, 0) == NodesBefore(g, i, j, g.cz + 1);
  }

  lemma {:induction false} NumberedLayerEnd(g: Voxels, flag: array3<int>, origin: Vec3, dx: real, vertices: seq<Vec3>, i: nat)
    requires Numbered(g, flag, origin, dx, vertices, i, g.cy + 1, 0)
    ensures Numbered(g, flag, origin, dx, vertices, i + 1, 0, 0)
  {
    assert NodesBefore(g, i + 1, 0, 0) == NodesBefore(g, i, g.cy + 1, 0);
  }

  /** One iteration of the numbering loops, at node `(i, j, k)`: a marked node
      gets the next number and its position is appended. */
  method NumberNode(g: Voxels, flag: array3<int>, origin: Vec3, dx: real, vertices: seq<Vec3>, vertexCnt: nat,
                    i: nat, j: nat, k: nat) returns (vertices': seq<Vec3>, vertexCnt': nat)
    requires i <= g.cx && j <= g.cy && k <= g.cz
    requires vertexCnt == |vertices| && Numbered(g, flag, origin, dx, vertices, i, j, k)
    modifies flag
    ensures vertexCnt' == |vertices'| && Numbered(g, flag, origin, dx, vertices', i, j, k + 1)
  {
    ghost var before := NodesBefore(g, i, j, k);
    assert NodesBefore(g, i, j, k + 1) == before + (if Touched(g, i, j, k) then [Index(i, j, k)] else []);
    vertices', vertexCnt' := vertices, vertexCnt;
    if flag[i, j, k] == 0 {
      flag[i, j, k] := vertexCnt;
      vertices' := vertices + [NodePos(origin, dx, Index(i, j, k))];
      vertexCnt' := vertexCnt + 1;
    }
  }

  /** The numbering loops: each marked node in turn gets the next number and
      its position is appended to `vertices`. */
  method NumberNodes(g: Voxels, flag: array3<int>, origin: Vec3, dx: real) returns (vertices: seq<Vec3>)
    requires Marked(g, flag, g.cx, 0, 0)
    modifies flag
    ensures Labelled(g, flag)
    ensures |vertices| == |Nodes(g)|
    ensures forall t :: 0 <= t < |vertices| ==> vertices[t] == NodePos(origin, dx, Nodes(g)[t])
  {
    var vertexCnt := 0;
    vertices := [];
    for i := 0 to g.cx + 1
      invariant vertexCnt == |vertices| && Numbered(g, flag, origin, dx, vertices, i, 0, 0)
    {
      for j := 0 to g.cy + 1
        invariant vertexCnt == |vertices| && Numbered(g, flag, origin, dx, vertices, i, j, 0)
      {
        for k := 0 to g.cz + 1
          invariant vertexCnt == |vertices| && Numbered(g, flag, origin, dx, vertices, i, j, k)
        {
          vertices, vertexCnt := NumberNode(g, flag, origin, dx, vertices, vertexCnt, i, j, k);
        }
        NumberedRowEnd(g, flag, origin, dx, vertices, i, j);
      }
      NumberedLayerEnd(g, flag, origin, dx, vertices, i);
    }
  }

  /** The numbering lists only touched nodes of the grid, in strictly
      increasing C order. */
  lemma NodesInOrder(g: Voxels)
    ensures forall n :: n in Nodes(g) ==> Touched(g, n.i, n.j, n.k) && n.i <= g.cx && n.j <= g.cy && n.k <= g.cz
    ensures Increasing(Nodes(g))
  {
    ScanShape(g.cy + 1, g.cz + 1, TouchPick(g), g.cx + 1, 0, 0);
  }

  /** Every touched node gets a number below the vertex count, and the vertex
      with that number is that node: the numbering is one-to-one and onto. */
  lemma LabelAt(g: Voxels, a: nat, b: nat, c: nat)
    requires a <= g.cx && b <= g.cy && c <= g.cz && Touched(g, a, b, c)
    ensures 0 <= Label(g, a, b, c) < |Nodes(g)| && Nodes(g)[Label(g, a, b, c)] == Index(a, b, c)
  {
    ScanAt(g.cx + 1, g.cy + 1, g.cz + 1, TouchPick(g), a, b, c);
  }

  // ---------------------------------------------------------------------
  // Phase 3: one element per occupied cell
  // ---------------------------------------------------------------------

  /** The occupied cells the element loops visit before cell `(i, j, k)`. */
  function CellsBefore(g: Voxels, i: nat, j: nat, k: nat): seq<Index>
  {
    Scan(g.cy, g.cz, g.filled, i, j, k)
  }

  /** Every occupied cell, in C order: one element each. */
  function Cells(g: Voxels): seq<Index>
  {
    CellsBefore(g, g.cx, 0, 0)
  }

  /** The corners of a cell in the order of the loops over `ii`, `jj`, `kk`:
      local corner `4·ii + 2·jj + kk` is offset `(ii, jj, kk)`. */
  const LocalCorners: seq<Index> := [Index(0, 0, 0), Index(0, 0, 1), Index(0, 1, 0), Index(0, 1, 1),
                                     Index(1, 0, 0), Index(1, 0, 1), Index(1, 1, 0), Index(1, 1, 1)]

  /** Node of local corner `t` of cell `e`. */
  function CornerNode(e: Index, t: nat): Index
    requires t < 8
  {
    Index(e.i + LocalCorners[t].i, e.j + LocalCorners[t].j, e.k + LocalCorners[t].k)
  }

  /** The label of local corner `t` of cell `e`. */
  function CornerLabel(g: Voxels, e: Index, t: nat): int
    requires t < 8
  {
    var n := CornerNode(e, t);
    Label(g, n.i, n.j, n.k)
  }

  /** The element written for cell `e`: the labels of its eight corners. */
  function CellLabels(g: Voxels, e: Index): (face: seq<int>)
    ensures |face| == 8 && forall t :: 0 <= t < 8 ==> face[t] == CornerLabel(g, e, t)
  {
    seq(8, t requires 0 <= t < 8 => CornerLabel(g, e, t))
  }

  /** `vertex_flag` at local corner `t` of cell `e`. */
  function CornerFlag(flag: array3<int>, e: Index, t: nat): int
    requires t < 8 && e.i + 1 < flag.Length0 && e.j + 1 < flag.Length1 && e.k + 1 < flag.Length2
    reads flag
  {
    var n := CornerNode(e, t);
    flag[n.i, n.j, n.k]
  }

  /** The loops over `ii`, `jj`, `kk` reading the eight corner entries of
      `vertex_flag` for cell `(i, j, k)`, local corner `4·ii + 2·jj + kk` at
      offset `(ii, jj, kk)`. */
  method CellCorners(flag: array3<int>, i: nat, j: nat, k: nat) returns (face: seq<int>)
    requires i + 1 < flag.Length0 && j + 1 < flag.Length1 && k + 1 < flag.Length2
    ensures |face| == 8 && forall t :: 0 <= t < 8 ==> face[t] == CornerFlag(flag, Index(i, j, k), t)
  {
    face := [];
    for ii := 0 to 2
      invariant |face| == 4 * ii && forall t :: 0 <= t < |face| ==> face[t] == CornerFlag(flag, Index(i, j, k), t)
    {
      for jj := 0 to 2
        invariant |face| == 4 * ii + 2 * jj && forall t :: 0 <= t < |face| ==> face[t] == CornerFlag(flag, Index(i, j, k), t)
      {
        for kk := 0 to 2
          invariant |face| == 4 * ii + 2 * jj + kk && forall t :: 0 <= t < |face| ==> face[t] == CornerFlag(flag, Index(i, j, k), t)
        {
          assert LocalCorners[4 * ii + 2 * jj + kk] == Index(ii, jj, kk);
          face := face + [flag[i + ii, j + jj, k + kk]];
        }
      }
    }
  }

  /** Once every node carries its label, the corner entries of a cell are its element. */
  lemma {:induction false} CornerFlagsAreLabels(g: Voxels, flag: array3<int>, e: Index, face: seq<int>)
    requires Labelled(g, flag) && e.i < g.cx && e.j < g.cy && e.k < g.cz
    requires |face| == 8 && forall t :: 0 <= t < 8 ==> face[t] == CornerFlag(flag, e, t)
    ensures face == CellLabels(g, e)
  {
    assert forall t :: 0 <= t < 8 ==> face[t] == CellLabels(g, e)[t];
  }

  /** The element loops: one element per occupied cell, in C order. */
  method CellElements(g: Voxels, flag: array3<int>) returns (faces: seq<seq<int>>)
    requires Labelled(g, flag)
    ensures |faces| == |Cells(g)|
    ensures forall t :: 0 <= t < |faces| ==> faces[t] == CellLabels(g, Cells(g)[t])
  {
    faces := [];
    for i := 0 to g.cx
      invariant |faces| == |CellsBefore(g, i, 0, 0)|
      invariant forall t :: 0 <= t < |faces| ==> faces[t] == CellLabels(g, CellsBefore(g, i, 0, 0)[t])
    {
      for j := 0 to g.cy
        invariant |faces| == |CellsBefore(g, i, j, 0)|
        invariant forall t :: 0 <= t < |faces| ==> faces[t] == CellLabels(g, CellsBefore(g, i, j, 0)[t])
      {
        for k := 0 to g.cz
          invariant |faces| == |CellsBefore(g, i, j, k)|
          invariant forall t :: 0 <= t < |faces| ==> faces[t] == CellLabels(g, CellsBefore(g, i, j, k)[t])
        {
          ghost var before := CellsBefore(g, i, j, k);
          assert CellsBefore(g, i, j, k + 1)
              == before + (if g.filled(i, j, k) then [Index(i, j, k)] else []);
          if g.filled(i, j, k) {
            var face := CellCorners(flag, i, j, k);
            CornerFlagsAreLabels(g, flag, Index(i, j, k), face);
            faces := faces + [face];
          }
        }
        assert CellsBefore(g, i, j + 1, 0) == CellsBefore(g, i, j, g.cz);
      }
      assert CellsBefore(g, i + 1, 0, 0) == CellsBefore(g, i, g.cy, 0);
    }
  }

  /** The elements are exactly the occupied cells, in strictly increasing C
      order, and each occupied cell is element number "occupied cells before it". */
  lemma CellsInOrder(g: Voxels)
    ensures forall e :: e in Cells(g) ==> Occupied(g, e.i, e.j, e.k)
    ensures Increasing(Cells(g))
  {
    ScanShape(g.cy, g.cz, g.filled, g.cx, 0, 0);
  }

  lemma CellAt(g: Voxels, i: nat, j: nat, k: nat)
    requires Occupied(g, i, j, k)
    ensures |CellsBefore(g, i, j, k)| < |Cells(g)| && Cells(g)[|CellsBefore(g, i, j, k)|] == Index(i, j, k)
  {
    ScanAt(g.cx, g.cy, g.cz, g.filled, i, j, k);
  }

  /** The corners of an occupied cell are touched nodes. */
  lemma CornerTouched(g: Voxels, e: Index, t: nat)
    requires Occupied(g, e.i, e.j, e.k) && t < 8
    ensures var n := CornerNode(e, t); Touched(g, n.i, n.j, n.k) && n.i <= g.cx && n.j <= g.cy && n.k <= g.cz
  {
    var n := CornerNode(e, t);
    var d := LocalCorners[t];
    assert Hit(g, n.i, n.j, n.k, d.i, d.j, d.k, g.cx, 0, 0);
  }

  /** Every corner label of an element is a valid vertex number, naming the
      vertex at that corner. */
  lemma CellLabelsValid(g: Voxels, e: Index, t: nat)
    requires Occupied(g, e.i, e.j, e.k) && t < 8
    ensures 0 <= CellLabels(g, e)[t] < |Nodes(g)| && Nodes(g)[CellLabels(g, e)[t]] == CornerNode(e, t)
  {
    var n := CornerNode(e, t);
    CornerTouched(g, e, t);
    LabelAt(g, n.i, n.j, n.k);
  }

  /** Two elements name the same vertex exactly when their corners are the
      same node: neighbouring voxels share the numbers of their common nodes. */
  lemma SharedCorner(g: Voxels, e: Index, t: nat, e': Index, t': nat)
    requires Occupied(g, e.i, e.j, e.k) && t < 8 && Occupied(g, e'.i, e'.j, e'.k) && t' < 8
    ensures CellLabels(g, e)[t] == CellLabels(g, e')[t'] <==> CornerNode(e, t) == CornerNode(e', t')
  {
    CellLabelsValid(g, e, t);
    CellLabelsValid(g, e', t');
  }

  // ---------------------------------------------------------------------
  // The hex mesh file
  // ---------------------------------------------------------------------

  /** The vertex table `generate_hex_mesh` builds. */
  function HexVertices(g: Voxels, origin: Vec3, dx: real): (vs: seq<Vec3>)
    ensures |vs| == |Nodes(g)|
    ensures forall t :: 0 <= t < |vs| ==> vs[t] == NodePos(origin, dx, Nodes(g)[t])
  {
    seq(|Nodes(g)|, t requires 0 <= t < |Nodes(g)| => NodePos(origin, dx, Nodes(g)[t]))
  }

  /** The element table `generate_hex_mesh` builds. */
  function HexElements(g: Voxels): (fs: seq<seq<int>>)
    ensures |fs| == |Cells(g)|
    ensures forall t :: 0 <= t < |fs| ==> fs[t] == CellLabels(g, Cells(g)[t])
  {
    seq(|Cells(g)|, t requires 0 <= t < |Cells(g)| => CellLabels(g, Cells(g)[t]))
  }

  /** `generate_hex_mesh`: the three phases, then the file. With no occupied
      voxel the transposed vertex list is a one-dimensional empty array: the
      file is opened and its first three header integers 3, 8 and 3 are
      written, then asking for the second axis of that array raises
      IndexError. The failure carries the partial file left behind. */
  method GenerateHexMesh(g: Voxels, origin: Vec3, dx: real) returns (file: Result<seq<Token>, seq<Token>>)
    ensures file.Failure? <==> |Nodes(g)| == 0
    ensures file.Failure? ==> file.error == [Int(3), Int(8), Int(3)]
    ensures file.Success? ==> file.value == VolumeFile(8, HexVertices(g, origin, dx), HexElements(g))
  {
    var flag := MarkNodes(g);
    var vertices := NumberNodes(g, flag, origin, dx);
    var faces := CellElements(g, flag);
    assert vertices == HexVertices(g, origin, dx);
    assert faces == HexElements(g);
    if |vertices| == 0 {
      file := Failure([Int(3), Int(8), Int(3)]);
    } else {
      file := Success(VolumeFile(8, vertices, faces));
    }
  }
}
