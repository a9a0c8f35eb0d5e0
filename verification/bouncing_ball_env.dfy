/** The bouncing-ball environment: a voxelised ball of radius 0.05, the
    friction nodes on four lines of its bottom face, and the per-frame loss
    against a ground-truth trajectory. */
module BouncingBall {
  import opened Wrappers
  import opened Vectors
  import opened Material

  /** The options the constructor reads; a missing key is `None`. */
  datatype BallOptions = BallOptions(refinement: Option<nat>, youngsModulus: Option<real>, poissonsRatio: Option<real>)

  function Refinement(o: BallOptions): nat
  {
    if o.refinement.Some? then o.refinement.value else 2
  }

  function YoungsModulusOf(o: BallOptions): real
  {
    if o.youngsModulus.Some? then o.youngsModulus.value else 1e6
  }

  function PoissonsRatioOf(o: BallOptions): real
  {
    if o.poissonsRatio.Some? then o.poissonsRatio.value else 0.45
  }

  const Radius: real := 0.05

  /** Cell width: the ball's diameter split into `refinement` cells. */
  function CellSize(refinement: nat): real
    requires refinement > 0
  {
    Radius * 2.0 / refinement as real
  }

  /** Squared distance from the centre of cell `(i, j, k)` to the ball's
      centre `(R, R, R)`. */
  function CellDistanceSq(i: nat, j: nat, k: nat, dx: real): real
  {
    Sq((i as real + 0.5) * dx - Radius) + Sq((j as real + 0.5) * dx - Radius) + Sq((k as real + 0.5) * dx - Radius)
  }

  /** The cell's centre lies farther than `R` from the ball's centre (the
      norm is compared through its square). */
  predicate Outside(i: nat, j: nat, k: nat, dx: real)
  {
    CellDistanceSq(i, j, k, dx) > Sq(Radius)
  }

  function Occupancy(i: nat, j: nat, k: nat, dx: real): real
  {
    if Outside(i, j, k, dx) then 0.0 else 1.0
  }

  /** The voxel array after the loops have visited every cell before
      `(a, b, c)`: visited cells hold their occupancy, the rest still 1. */
  ghost predicate FilledUpTo(voxels: array3<real>, a: int, b: int, c: int, dx: real)
    reads voxels
  {
    forall i, j, k :: 0 <= i < voxels.Length0 && 0 <= j < voxels.Length1 && 0 <= k < voxels.Length2 ==>
      voxels[i, j, k] == (if Before(i, j, k, a, b, c) then Occupancy(i, j, k, dx) else 1.0)
  }

  /** `voxels = np.ones(cell_nums)` followed by clearing every cell whose
      centre lies outside the ball. */
  method BallVoxels(refinement: nat) returns (voxels: array3<real>)
    requires refinement > 0
    ensures fresh(voxels)
    ensures voxels.Length0 == refinement && voxels.Length1 == refinement && voxels.Length2 == refinement
    ensures forall i, j, k :: 0 <= i < refinement && 0 <= j < refinement && 0 <= k < refinement ==>
              voxels[i, j, k] == Occupancy(i, j, k, CellSize(refinement))
  {
    var n := refinement;
    var dx := CellSize(n);
    voxels := new real[n, n, n]((i, j, k) => 1.0);
    for i := 0 to n
      invariant FilledUpTo(voxels, i, 0, 0, dx)
    {
      for j := 0 to n
        invariant FilledUpTo(voxels, i, j, 0, dx)
      {
        for k := 0 to n
          invariant FilledUpTo(voxels, i, j, k, dx)
        {
          if CellDistanceSq(i, j, k, dx) > Sq(Radius) {
            voxels[i, j, k] := 0.0;
          }
        }
      }
    }
  }

  /** The occupancy test in whole numbers: with `t = 2i + 1 − r` per axis, a
      cell is cleared exactly when `t_i² + t_j² + t_k² > r²`. */
  lemma OutsideIntegerRule(i: nat, j: nat, k: nat, r: nat)
    requires r > 0
    ensures Outside(i, j, k, CellSize(r)) <==>
            Sq((2 * i + 1 - r) as real) + Sq((2 * j + 1 - r) as real) + Sq((2 * k + 1 - r) as real) > Sq(r as real)
  {
    var u := Radius / r as real;
    var t := Sq((2 * i + 1 - r) as real) + Sq((2 * j + 1 - r) as real) + Sq((2 * k + 1 - r) as real);
    DistanceScaled(i, j, k, r);
    CellSizeSplit(r);
    SqMul(r as real, u);
    SqSign(u);
    ScaleCompare(Sq(u), t, Sq(r as real));
  }

  /** The squared distance is `u²` times the integer sum. */
  lemma DistanceScaled(i: nat, j: nat, k: nat, r: nat)
    requires r > 0
    ensures CellDistanceSq(i, j, k, CellSize(r))
            == Sq(Radius / r as real) * (Sq((2 * i + 1 - r) as real) + Sq((2 * j + 1 - r) as real) + Sq((2 * k + 1 - r) as real))
  {
    var dx := CellSize(r);
    var u := Radius / r as real;
    CellSizeSplit(r);
    AxisOffset(i, r, u, dx);
    AxisOffset(j, r, u, dx);
    AxisOffset(k, r, u, dx);
  }

  /** With `u = R / r`: the cell size is `2u` and the radius is `r·u`. */
  lemma CellSizeSplit(r: nat)
    requires r > 0
    ensures CellSize(r) == 2.0 * (Radius / r as real) && Radius == r as real * (Radius / r as real)
  {
  }

  /** `(i + ½)·2u − r·u = u·(2i + 1 − r)`, squared. */
  lemma AxisOffset(i: nat, r: nat, u: real, dx: real)
    requires dx == 2.0 * u && Radius == r as real * u
    ensures Sq((i as real + 0.5) * dx - Radius) == Sq(u) * Sq((2 * i + 1 - r) as real)
  {
    var t := (2 * i + 1 - r) as real;
    assert (i as real + 0.5) * dx - Radius == t * u;
    SqMul(t, u);
  }

  lemma ScaleCompare(c: real, x: real, y: real)
    requires c > 0.0
    ensures c * x > c * y <==> x > y
  {
    if x > y {
      assert c * x - c * y == c * (x - y);
      PositivePair(c, x - y);
    } else {
      assert c * y - c * x == c * (y - x);
      if y > x {
        PositivePair(c, y - x);
      }
    }
  }

  lemma PositivePair(a: real, b: real)
    requires a > 0.0 && b > 0.0
    ensures a * b > 0.0
  {
  }

  /** The ball is symmetric: a cell and its mirror image across the middle
      plane of any axis are kept or cleared together. */
  lemma OccupancyMirror(i: nat, j: nat, k: nat, r: nat)
    requires 0 < r && i < r
    ensures Outside(i, j, k, CellSize(r)) <==> Outside(r - 1 - i, j, k, CellSize(r))
  {
    OutsideIntegerRule(i, j, k, r);
    OutsideIntegerRule(r - 1 - i, j, k, r);
    assert (2 * (r - 1 - i) + 1 - r) as real == -((2 * i + 1 - r) as real);
    SqNeg((2 * i + 1 - r) as real);
  }

  /** Indices of the vertices among the first `n` that lie below height `dx`,
      in increasing order. */
  function BottomIndices(vertices: seq<Vec3>, dx: real, n: nat): (r: seq<nat>)
    requires n <= |vertices|
    ensures forall a :: 0 <= a < |r| ==> r[a] < n
    ensures forall a, b :: 0 <= a < b < |r| ==> r[a] < r[b]
  {
    if n == 0 then []
    else BottomIndices(vertices, dx, n - 1) + (if vertices[n - 1].z < dx then [n - 1] else [])
  }

  /** Exactly the vertices below `dx` are picked. */
  lemma {:induction false} BottomIndicesMembers(vertices: seq<Vec3>, dx: real, n: nat)
    requires n <= |vertices|
    ensures forall i :: 0 <= i < n ==> (i in BottomIndices(vertices, dx, n) <==> vertices[i].z < dx)
  {
    if n > 0 {
      BottomIndicesMembers(vertices, dx, n - 1);
      var front := BottomIndices(vertices, dx, n - 1);
      assert n - 1 !in front;
    }
  }

  /** The loop collecting `v_bottom` and `v_bottom_idx`. */
  method BottomVertices(vertices: seq<Vec3>, dx: real) returns (vBottom: seq<Vec3>, vBottomIdx: seq<nat>)
    ensures vBottomIdx == BottomIndices(vertices, dx, |vertices|)
    ensures |vBottom| == |vBottomIdx| && forall k :: 0 <= k < |vBottom| ==> vBottom[k] == vertices[vBottomIdx[k]]
  {
    vBottom, vBottomIdx := [], [];
    for i := 0 to |vertices|
      invariant vBottomIdx == BottomIndices(vertices, dx, i)
      invariant |vBottom| == |vBottomIdx| && forall k :: 0 <= k < |vBottom| ==> vBottom[k] == vertices[vBottomIdx[k]]
    {
      var v := vertices[i];
      if v.z < dx {
        vBottom := vBottom + [v];
        vBottomIdx := vBottomIdx + [i];
      }
    }
  }

  /** `np.min`; numpy refuses an empty array. */
  function Min(s: seq<real>): (r: real)
    requires |s| > 0
    ensures r in s && forall x :: x in s ==> r <= x
  {
    if |s| == 1 then s[0]
    else
      assert s == [s[0]] + s[1..];
      var m := Min(s[1..]);
      if s[0] <= m then s[0] else m
  }

  /** `np.max`. */
  function Max(s: seq<real>): (r: real)
    requires |s| > 0
    ensures r in s && forall x :: x in s ==> x <= r
  {
    if |s| == 1 then s[0]
    else
      assert s == [s[0]] + s[1..];
      var m := Max(s[1..]);
      if s[0] >= m then s[0] else m
  }

  datatype Bounds = Bounds(xMin: real, xMax: real, yMin: real, yMax: real)

  /** The extent of the bottom vertices; `None` when there are none, where
      numpy raises. */
  function BottomBounds(vBottom: seq<Vec3>): (r: Option<Bounds>)
    ensures r.None? <==> vBottom == []
    ensures r.Some? ==> forall v :: v in vBottom ==>
              r.value.xMin <= v.x <= r.value.xMax && r.value.yMin <= v.y <= r.value.yMax
  {
    if vBottom == [] then None
    else
      var xs := seq(|vBottom|, k requires 0 <= k < |vBottom| => vBottom[k].x);
      var ys := seq(|vBottom|, k requires 0 <= k < |vBottom| => vBottom[k].y);
      assert forall k :: 0 <= k < |vBottom| ==> vBottom[k].x == xs[k] && vBottom[k].y == ys[k];
      assert forall k :: 0 <= k < |vBottom| ==> xs[k] in xs && ys[k] in ys;
      Some(Bounds(Min(xs), Max(xs), Min(ys), Max(ys)))
  }

  /** Coordinate `dim` (0 for x, 1 for y) of a vertex. */
  function Planar(v: Vec3, dim: nat): real
    requires dim < 2
  {
    if dim == 0 then v.x else v.y
  }

  function Abs(a: real): real
  {
    if a < 0.0 then -a else a
  }

  /** The vertex lies on the line `coordinate dim == value`, up to half a cell. */
  predicate OnLine(v: Vec3, dim: nat, value: real, dx: real)
    requires dim < 2
  {
    Abs(Planar(v, dim) - value) < 0.5 * dx
  }

  /** `(key, index)` pairs of the line before sorting, in the order of
      `zip(v_bottom, v_bottom_idx)`. */
  function Line(vBottom: seq<Vec3>, vBottomIdx: seq<nat>, dim: nat, value: real, dx: real): (r: seq<(real, nat)>)
    requires |vBottom| == |vBottomIdx| && dim < 2
    ensures forall e :: e in r <==> exists k :: 0 <= k < |vBottom| && OnLine(vBottom[k], dim, value, dx) &&
                                        e == (Planar(vBottom[k], 1 - dim), vBottomIdx[k])
  {
    if vBottom == [] then []
    else
      var n := |vBottom| - 1;
      var front := Line(vBottom[..n], vBottomIdx[..n], dim, value, dx);
      front + (if OnLine(vBottom[n], dim, value, dx) then [(Planar(vBottom[n], 1 - dim), vBottomIdx[n])] else [])
  }

  /** Stable insertion of `x` after every element whose key does not exceed
      its own. */
  function Insert(x: (real, nat), s: seq<(real, nat)>): (r: seq<(real, nat)>)
    ensures multiset(r) == multiset(s) + multiset{x}
  {
    if s == [] || x.0 < s[0].0 then [x] + s
    else
      assert s == [s[0]] + s[1..];
      [s[0]] + Insert(x, s[1..])
  }

  /** `sorted(line, key=lambda x: x[0])`: Python's sort is stable. */
  function SortByKey(line: seq<(real, nat)>): (r: seq<(real, nat)>)
    ensures multiset(r) == multiset(line)
  {
    if line == [] then []
    else
      assert line == line[..|line| - 1] + [line[|line| - 1]];
      Insert(line[|line| - 1], SortByKey(line[..|line| - 1]))
  }

  /** Ordered by key, ties by index. */
  predicate LexSorted(s: seq<(real, nat)>)
  {
    forall a, b :: 0 <= a < b < |s| ==> s[a].0 < s[b].0 || (s[a].0 == s[b].0 && s[a].1 < s[b].1)
  }

  predicate Increasing(s: seq<nat>)
  {
    forall a, b :: 0 <= a < b < |s| ==> s[a] < s[b]
  }

  lemma {:induction false} InsertSorted(x: (real, nat), s: seq<(real, nat)>)
    requires LexSorted(s) && forall e :: e in s ==> e.1 < x.1
    ensures LexSorted(Insert(x, s))
  {
    if s != [] && x.0 >= s[0].0 {
      TailSorted(s);
      InsertSorted(x, s[1..]);
      InsertAfter(x, s);
      ConsSorted(s[0], Insert(x, s[1..]));
    }
  }

  lemma {:induction false} TailSorted(s: seq<(real, nat)>)
    requires LexSorted(s) && s != []
    ensures LexSorted(s[1..])
  {
    var t := s[1..];
    forall a, b | 0 <= a < b < |t| ensures t[a].0 < t[b].0 || (t[a].0 == t[b].0 && t[a].1 < t[b].1) {
      assert t[a] == s[a + 1] && t[b] == s[b + 1];
    }
  }

  /** Everything `x` is inserted among comes after the head it follows. */
  lemma {:induction false} InsertAfter(x: (real, nat), s: seq<(real, nat)>)
    requires LexSorted(s) && s != [] && x.0 >= s[0].0 && s[0].1 < x.1
    ensures forall e :: e in Insert(x, s[1..]) ==> LexBefore(s[0], e)
  {
    var t := s[1..];
    var r := Insert(x, t);
    forall e | e in r ensures LexBefore(s[0], e) {
      assert e in multiset(r);
      if e != x {
        assert e in multiset(t);
        var k :| 0 <= k < |t| && t[k] == e;
        assert s[k + 1] == e;
      }
    }
  }

  /** `a` comes before `b`: a smaller key, or the same key and a smaller
      index. */
  predicate LexBefore(a: (real, nat), b: (real, nat))
  {
    a.0 < b.0 || (a.0 == b.0 && a.1 < b.1)
  }

  lemma {:induction false} ConsSorted(h: (real, nat), r: seq<(real, nat)>)
    requires LexSorted(r) && forall e :: e in r ==> LexBefore(h, e)
    ensures LexSorted([h] + r)
  {
    var s := [h] + r;
    forall a, b | 0 <= a < b < |s| ensures s[a].0 < s[b].0 || (s[a].0 == s[b].0 && s[a].1 < s[b].1) {
      assert s[b] == r[b - 1];
      if a > 0 {
        assert s[a] == r[a - 1];
      } else {
        assert r[b - 1] in r;
      }
    }
  }

  /** Sorting a line whose indices increase (as `v_bottom_idx` does) orders
      it by key and, among equal keys, by index: stability. */
  predicate IndicesIncrease(line: seq<(real, nat)>)
  {
    forall a, b :: 0 <= a < b < |line| ==> line[a].1 < line[b].1
  }

  lemma {:induction false} SortSorted(line: seq<(real, nat)>)
    requires IndicesIncrease(line)
    ensures LexSorted(SortByKey(line))
  {
    if line != [] {
      var n := |line| - 1;
      SortSorted(line[..n]);
      var s := SortByKey(line[..n]);
      forall e | e in s ensures e.1 < line[n].1 {
        assert e in multiset(line[..n]);
        var a :| 0 <= a < n && line[..n][a] == e;
        assert line[a] == e;
      }
      InsertSorted(line[n], s);
    }
  }

  function Indices(line: seq<(real, nat)>): (r: seq<nat>)
    ensures |r| == |line| && forall a :: 0 <= a < |line| ==> r[a] == line[a].1
  {
    seq(|line|, a requires 0 <= a < |line| => line[a].1)
  }

  /** `find_endpoints(dim, value_dim)` as specified: the indices, sorted by
      the other planar coordinate, of the bottom vertices on the line. */
  function Endpoints(vBottom: seq<Vec3>, vBottomIdx: seq<nat>, dim: nat, value: real, dx: real): seq<nat>
    requires |vBottom| == |vBottomIdx| && dim < 2
  {
    Indices(SortByKey(Line(vBottom, vBottomIdx, dim, value, dx)))
  }

  /** `find_endpoints`: collect the line, sort it by key, keep the indices.
      Despite its name it returns the whole line, not only its two ends. */
  method FindEndpoints(vBottom: seq<Vec3>, vBottomIdx: seq<nat>, dim: nat, value: real, dx: real) returns (r: seq<nat>)
    requires |vBottom| == |vBottomIdx| && dim < 2
    ensures r == Endpoints(vBottom, vBottomIdx, dim, value, dx)
  {
    var line: seq<(real, nat)> := [];
    for k := 0 to |vBottom|
      invariant line == Line(vBottom[..k], vBottomIdx[..k], dim, value, dx)
    {
      assert vBottom[..k + 1][..k] == vBottom[..k] && vBottomIdx[..k + 1][..k] == vBottomIdx[..k];
      var v := vBottom[k];
      if Abs(Planar(v, dim) - value) < 0.5 * dx {
        line := line + [(Planar(v, 1 - dim), vBottomIdx[k])];
      }
    }
    assert vBottom[..|vBottom|] == vBottom && vBottomIdx[..|vBottomIdx|] == vBottomIdx;
    var sorted := SortByKey(line);
    r := seq(|sorted|, a requires 0 <= a < |sorted| => sorted[a].1);
  }

  /** What `find_endpoints` returns on the bottom vertices of a mesh. */
  function MeshEndpoints(vertices: seq<Vec3>, dx: real, dim: nat, value: real): seq<nat>
    requires dim < 2
  {
    var (vBottom, idx) := Bottom(vertices, dx);
    Endpoints(vBottom, idx, dim, value, dx)
  }

  /** A line entry `(key, i)` names a bottom vertex `i` on the line, keyed by
      its other planar coordinate. */
  predicate EntryOf(vertices: seq<Vec3>, dx: real, dim: nat, value: real, e: (real, nat))
    requires dim < 2
  {
    e.1 < |vertices| && e.0 == Planar(vertices[e.1], 1 - dim) && vertices[e.1].z < dx
    && OnLine(vertices[e.1], dim, value, dx)
  }

  lemma {:induction false} LineEntries(vertices: seq<Vec3>, dx: real, dim: nat, value: real)
    requires dim < 2
    ensures var (vBottom, idx) := Bottom(vertices, dx);
            forall e :: e in Line(vBottom, idx, dim, value, dx) ==> EntryOf(vertices, dx, dim, value, e)
  {
    var (vBottom, idx) := Bottom(vertices, dx);
    BottomIndicesMembers(vertices, dx, |vertices|);
    forall e | e in Line(vBottom, idx, dim, value, dx) ensures EntryOf(vertices, dx, dim, value, e) {
      var k :| 0 <= k < |vBottom| && OnLine(vBottom[k], dim, value, dx) &&
               e == (Planar(vBottom[k], 1 - dim), idx[k]);
      assert idx[k] in idx;
    }
  }

  lemma {:induction false} SortedLineEntries(vertices: seq<Vec3>, dx: real, dim: nat, value: real)
    requires dim < 2
    ensures var (vBottom, idx) := Bottom(vertices, dx);
            forall e :: e in SortByKey(Line(vBottom, idx, dim, value, dx)) ==> EntryOf(vertices, dx, dim, value, e)
  {
    var (vBottom, idx) := Bottom(vertices, dx);
    var line := Line(vBottom, idx, dim, value, dx);
    LineEntries(vertices, dx, dim, value);
    forall e | e in SortByKey(line) ensures EntryOf(vertices, dx, dim, value, e) {
      assert e in multiset(line);
    }
  }

  /** `find_endpoints` returns exactly the bottom vertices on the line. */
  lemma {:induction false} EndpointsMembers(vertices: seq<Vec3>, dx: real, dim: nat, value: real)
    requires dim < 2
    ensures var r := MeshEndpoints(vertices, dx, dim, value);
            && (forall a :: 0 <= a < |r| ==> r[a] < |vertices|)
            && (forall i: nat :: i in r <==> i < |vertices| && vertices[i].z < dx && OnLine(vertices[i], dim, value, dx))
  {
    var (vBottom, idx) := Bottom(vertices, dx);
    var line := Line(vBottom, idx, dim, value, dx);
    var sorted := SortByKey(line);
    var r := MeshEndpoints(vertices, dx, dim, value);
    SortedLineEntries(vertices, dx, dim, value);
    BottomIndicesMembers(vertices, dx, |vertices|);
    forall a | 0 <= a < |r| ensures r[a] < |vertices| {
      assert sorted[a] in sorted;
    }
    forall i: nat | i < |vertices| && vertices[i].z < dx && OnLine(vertices[i], dim, value, dx)
      ensures i in r
    {
      var k :| 0 <= k < |idx| && idx[k] == i;
      var e := (Planar(vBottom[k], 1 - dim), idx[k]);
      assert e in line;
      assert e in multiset(sorted);
      var a :| 0 <= a < |sorted| && sorted[a] == e;
      assert r[a] == i;
    }
    forall i: nat | i in r
      ensures i < |vertices| && vertices[i].z < dx && OnLine(vertices[i], dim, value, dx)
    {
      var a :| 0 <= a < |r| && r[a] == i;
      assert sorted[a] in sorted;
    }
  }

  /** The vertices `r` are ordered by coordinate `axis` and, where that
      ties, by index. */
  predicate OrderedAlong(vertices: seq<Vec3>, axis: nat, r: seq<nat>)
    requires axis < 2
  {
    forall a, b :: 0 <= a < b < |r| ==>
      r[b] < |vertices| && r[a] < |vertices| &&
      (Planar(vertices[r[a]], axis) < Planar(vertices[r[b]], axis) ||
       (Planar(vertices[r[a]], axis) == Planar(vertices[r[b]], axis) && r[a] < r[b]))
  }

  /** `find_endpoints` orders the line by the other planar coordinate and,
      where that ties, by vertex index. */
  lemma {:induction false} EndpointsOrdered(vertices: seq<Vec3>, dx: real, dim: nat, value: real)
    requires dim < 2
    ensures OrderedAlong(vertices, 1 - dim, MeshEndpoints(vertices, dx, dim, value))
  {
    var (vBottom, idx) := Bottom(vertices, dx);
    var line := Line(vBottom, idx, dim, value, dx);
    var sorted := SortByKey(line);
    var r := MeshEndpoints(vertices, dx, dim, value);
    LineIndicesIncreasing(vBottom, idx, dim, value, dx);
    SortSorted(line);
    SortedLineEntries(vertices, dx, dim, value);
    assert r == Indices(sorted);
    var axis: nat := 1 - dim;
    forall a, b | 0 <= a < b < |r|
      ensures r[b] < |vertices| && r[a] < |vertices| &&
              (Planar(vertices[r[a]], axis) < Planar(vertices[r[b]], axis) ||
               (Planar(vertices[r[a]], axis) == Planar(vertices[r[b]], axis) && r[a] < r[b]))
    {
      assert sorted[a] in sorted && sorted[b] in sorted;
    }
    assert OrderedAlong(vertices, axis, r);
  }

  lemma {:induction false} LineIndicesIncreasing(vBottom: seq<Vec3>, vBottomIdx: seq<nat>, dim: nat, value: real, dx: real)
    requires |vBottom| == |vBottomIdx| && dim < 2 && Increasing(vBottomIdx)
    ensures IndicesIncrease(Line(vBottom, vBottomIdx, dim, value, dx))
  {
    if vBottom != [] {
      var n := |vBottom| - 1;
      LineIndicesIncreasing(vBottom[..n], vBottomIdx[..n], dim, value, dx);
      var front := Line(vBottom[..n], vBottomIdx[..n], dim, value, dx);
      forall e | e in front ensures e.1 < vBottomIdx[n] {
        var k :| 0 <= k < n && OnLine(vBottom[..n][k], dim, value, dx) &&
                 e == (Planar(vBottom[..n][k], 1 - dim), vBottomIdx[..n][k]);
      }
      var line := Line(vBottom, vBottomIdx, dim, value, dx);
      var tail := if OnLine(vBottom[n], dim, value, dx) then [(Planar(vBottom[n], 1 - dim), vBottomIdx[n])] else [];
      assert line == front + tail;
      forall a, b | 0 <= a < b < |line| ensures line[a].1 < line[b].1 {
        assert line[a] == front[a];
        if b >= |front| {
          assert line[b] == tail[0];
          assert front[a] in front;
          assert front[a].1 < vBottomIdx[n];
        } else {
          assert line[b] == front[b];
          assert front[a].1 < front[b].1;
        }
      }
    }
  }

  predicate NoDuplicates(s: seq<nat>)
  {
    forall a, b :: 0 <= a < b < |s| ==> s[a] != s[b]
  }

  /** `list(dict.fromkeys(s))`: the first occurrence of every element, in
      order. */
  function Dedup(s: seq<nat>): (r: seq<nat>)
    ensures NoDuplicates(r)
    ensures forall x :: x in r <==> x in s
  {
    if s == [] then []
    else
      var d := Dedup(s[..|s| - 1]);
      if s[|s| - 1] in d then d else d + [s[|s| - 1]]
  }

  /** Later elements never reorder earlier ones: the de-duplicated prefix is
      a prefix of the de-duplicated whole. */
  lemma {:induction false} DedupPrefix(s: seq<nat>, t: seq<nat>)
    ensures Dedup(s) <= Dedup(s + t)
    decreases |t|
  {
    if t != [] {
      var n := |t| - 1;
      DedupPrefix(s, t[..n]);
      assert (s + t)[..|s + t| - 1] == s + t[..n];
    } else {
      assert s + t == s;
    }
  }

  /** A list without repeats is left as it is. */
  lemma {:induction false} DedupDistinct(s: seq<nat>)
    requires NoDuplicates(s)
    ensures Dedup(s) == s
  {
    if s != [] {
      var n := |s| - 1;
      DedupDistinct(s[..n]);
      assert s[n] !in s[..n];
    }
  }

  /** A planar position within half a cell of one of the four friction
      lines. The last two are the `y` lines taken at the `x` extremes, as
      the source writes them. */
  predicate FrictionLine(v: Vec3, b: Bounds, dx: real)
  {
    OnLine(v, 0, b.xMin, dx) || OnLine(v, 0, b.xMax, dx) || OnLine(v, 1, b.xMin, dx) || OnLine(v, 1, b.xMax, dx)
  }

  /** The friction nodes: the four lines concatenated and de-duplicated, so
      each bottom vertex on one of the lines is listed exactly once. */
  function FrictionNodes(vBottom: seq<Vec3>, vBottomIdx: seq<nat>, b: Bounds, dx: real): (r: seq<nat>)
    requires |vBottom| == |vBottomIdx|
    ensures NoDuplicates(r)
    ensures forall x :: x in r <==>
              exists k :: 0 <= k < |vBottom| && vBottomIdx[k] == x && FrictionLine(vBottom[k], b, dx)
  {
    EndpointsOf(vBottom, vBottomIdx, 0, b.xMin, dx);
    EndpointsOf(vBottom, vBottomIdx, 0, b.xMax, dx);
    EndpointsOf(vBottom, vBottomIdx, 1, b.xMin, dx);
    EndpointsOf(vBottom, vBottomIdx, 1, b.xMax, dx);
    Dedup(Endpoints(vBottom, vBottomIdx, 0, b.xMin, dx) + Endpoints(vBottom, vBottomIdx, 0, b.xMax, dx)
          + Endpoints(vBottom, vBottomIdx, 1, b.xMin, dx) + Endpoints(vBottom, vBottomIdx, 1, b.xMax, dx))
  }

  /** `find_endpoints` lists exactly the indices of the bottom vertices on
      its line. */
  lemma {:induction false} EndpointsOf(vBottom: seq<Vec3>, vBottomIdx: seq<nat>, dim: nat, value: real, dx: real)
    requires |vBottom| == |vBottomIdx| && dim < 2
    ensures forall x :: x in Endpoints(vBottom, vBottomIdx, dim, value, dx) <==>
              exists k :: 0 <= k < |vBottom| && vBottomIdx[k] == x && OnLine(vBottom[k], dim, value, dx)
  {
    var line := Line(vBottom, vBottomIdx, dim, value, dx);
    var sorted := SortByKey(line);
    var r := Endpoints(vBottom, vBottomIdx, dim, value, dx);
    forall x | x in r
      ensures exists k :: 0 <= k < |vBottom| && vBottomIdx[k] == x && OnLine(vBottom[k], dim, value, dx)
    {
      var a :| 0 <= a < |r| && r[a] == x;
      assert sorted[a] in multiset(sorted);
      assert sorted[a] in line;
      var k :| 0 <= k < |vBottom| && OnLine(vBottom[k], dim, value, dx) &&
               sorted[a] == (Planar(vBottom[k], 1 - dim), vBottomIdx[k]);
    }
    forall x | exists k :: 0 <= k < |vBottom| && vBottomIdx[k] == x && OnLine(vBottom[k], dim, value, dx)
      ensures x in r
    {
      var k :| 0 <= k < |vBottom| && vBottomIdx[k] == x && OnLine(vBottom[k], dim, value, dx);
      var e := (Planar(vBottom[k], 1 - dim), vBottomIdx[k]);
      assert e in line;
      assert e in multiset(sorted);
      var a :| 0 <= a < |sorted| && sorted[a] == e;
      assert r[a] == x;
    }
  }

  /** The per-frame loss `0.5·‖q − q_ref‖²`, its gradient `q − q_ref` and a
      zero velocity gradient; a frame without a reference mesh (`None`)
      contributes nothing. */
  function StepwiseLossAndGrad(q: seq<real>, reference: Option<seq<real>>): (r: (real, seq<real>, seq<real>))
    requires reference.Some? ==> |reference.value| == |q|
    ensures |r.1| == |q| && r.2 == Zeros(|q|)
    ensures reference.None? ==> r.0 == 0.0 && r.1 == Zeros(|q|)
    ensures reference.Some? ==> r.1 == Sub(q, reference.value)
  {
    if reference.None? then (0.0, Zeros(|q|), Zeros(|q|))
    else
      var grad := Sub(q, reference.value);
      (0.5 * SumSq(grad), grad, Zeros(|q|))
  }

  /** The loss is non-negative and vanishes exactly on the reference. */
  lemma {:induction false} StepwiseLossZero(q: seq<real>, reference: seq<real>)
    requires |reference| == |q|
    ensures StepwiseLossAndGrad(q, Some(reference)).0 >= 0.0
    ensures StepwiseLossAndGrad(q, Some(reference)).0 == 0.0 <==> q == reference
  {
    var d := Sub(q, reference);
    SumSqZero(d);
    if SumSq(d) == 0.0 {
      assert forall i :: 0 <= i < |q| ==> q[i] == reference[i];
    }
  }

  /** The reported gradient is the exact derivative of the loss: its central
      difference along any coordinate equals the gradient entry. */
  lemma {:induction false} StepwiseGradientExact(q: seq<real>, reference: seq<real>, j: nat, h: real)
    requires |reference| == |q| && j < |q| && h != 0.0
    ensures (StepwiseLossAndGrad(Perturb(q, j, h), Some(reference)).0
             - StepwiseLossAndGrad(Perturb(q, j, -h), Some(reference)).0) / (2.0 * h)
            == StepwiseLossAndGrad(q, Some(reference)).1[j]
  {
    var d := Sub(q, reference);
    assert Sub(Perturb(q, j, h), reference) == Perturb(d, j, h);
    assert Sub(Perturb(q, j, -h), reference) == Perturb(d, j, -h);
    SumSqCentral(d, j, h);
    HalfCentral(SumSq(Perturb(d, j, h)), SumSq(Perturb(d, j, -h)), h, d[j]);
  }

  lemma HalfCentral(a: real, b: real, h: real, x: real)
    requires h != 0.0 && (a - b) / (2.0 * h) == 2.0 * x
    ensures (0.5 * a - 0.5 * b) / (2.0 * h) == x
  {
    assert a - b == 2.0 * x * (2.0 * h);
    assert 0.5 * a - 0.5 * b == x * (2.0 * h);
  }

  /** The bottom vertices of a mesh, as `(v_bottom, v_bottom_idx)`. */
  function Bottom(meshVertices: seq<Vec3>, dx: real): (r: (seq<Vec3>, seq<nat>))
    ensures |r.0| == |r.1|
  {
    var idx := BottomIndices(meshVertices, dx, |meshVertices|);
    (seq(|idx|, k requires 0 <= k < |idx| => meshVertices[idx[k]]), idx)
  }

  /** Some vertex of the mesh lies below height `dx`. */
  predicate HasLowVertex(meshVertices: seq<Vec3>, dx: real)
  {
    exists i :: 0 <= i < |meshVertices| && meshVertices[i].z < dx
  }

  /** The friction nodes of a mesh: each vertex below `dx` that lies on one
      of the four lines through the extent of those vertices, listed once;
      none when no vertex lies below `dx` (where the source's `np.min`
      raises instead). */
  function FrictionNodesOfMesh(meshVertices: seq<Vec3>, dx: real): (r: seq<nat>)
    ensures NoDuplicates(r)
    ensures Bottom(meshVertices, dx).0 == [] ==> r == []
    ensures Bottom(meshVertices, dx).0 != [] ==>
              forall i: nat :: i in r <==>
                (i < |meshVertices| && meshVertices[i].z < dx &&
                 FrictionLine(meshVertices[i], BottomBounds(Bottom(meshVertices, dx).0).value, dx))
  {
    var (vBottom, idx) := Bottom(meshVertices, dx);
    if vBottom == [] then []
    else
      var b := BottomBounds(vBottom).value;
      BottomMembers(meshVertices, dx, b);
      FrictionNodes(vBottom, idx, b, dx)
  }

  /** The friction nodes of the bottom vertices are the mesh vertices below
      `dx` on one of the lines. */
  lemma {:induction false} BottomMembers(meshVertices: seq<Vec3>, dx: real, b: Bounds)
    ensures var (vBottom, idx) := Bottom(meshVertices, dx);
            forall i: nat :: i in FrictionNodes(vBottom, idx, b, dx) <==>
              i < |meshVertices| && meshVertices[i].z < dx && FrictionLine(meshVertices[i], b, dx)
  {
    var (vBottom, idx) := Bottom(meshVertices, dx);
    BottomIndicesMembers(meshVertices, dx, |meshVertices|);
    forall i: nat | i in FrictionNodes(vBottom, idx, b, dx)
      ensures i < |meshVertices| && meshVertices[i].z < dx && FrictionLine(meshVertices[i], b, dx)
    {
      var k :| 0 <= k < |vBottom| && idx[k] == i && FrictionLine(vBottom[k], b, dx);
      assert idx[k] in idx;
    }
    forall i: nat | i < |meshVertices| && meshVertices[i].z < dx && FrictionLine(meshVertices[i], b, dx)
      ensures i in FrictionNodes(vBottom, idx, b, dx)
    {
      var k :| 0 <= k < |idx| && idx[k] == i;
      assert vBottom[k] == meshVertices[i];
    }
  }

  lemma {:induction false} BottomNonEmpty(meshVertices: seq<Vec3>, dx: real)
    requires HasLowVertex(meshVertices, dx)
    ensures Bottom(meshVertices, dx).0 != []
  {
    var i :| 0 <= i < |meshVertices| && meshVertices[i].z < dx;
    BottomIndicesMembers(meshVertices, dx, |meshVertices|);
    assert i in Bottom(meshVertices, dx).1;
  }

  /** The collision set-up of the constructor: bottom vertices, their extent, the four
      lines and the de-duplication. */
  method FrictionNodeIdx(meshVertices: seq<Vec3>, dx: real) returns (r: seq<nat>)
    requires HasLowVertex(meshVertices, dx)
    ensures r == FrictionNodesOfMesh(meshVertices, dx)
  {
    var vBottom, vBottomIdx := BottomVertices(meshVertices, dx);
    assert vBottom == Bottom(meshVertices, dx).0;
    BottomNonEmpty(meshVertices, dx);
    var b := BottomBounds(vBottom).value;
    var l0 := FindEndpoints(vBottom, vBottomIdx, 0, b.xMin, dx);
    var l1 := FindEndpoints(vBottom, vBottomIdx, 0, b.xMax, dx);
    var l2 := FindEndpoints(vBottom, vBottomIdx, 1, b.xMin, dx);
    var l3 := FindEndpoints(vBottom, vBottomIdx, 1, b.xMax, dx);
    r := Dedup(l0 + l1 + l2 + l3);
  }

  /** The environment object: material, loss mode, node counts and friction
      nodes, built from the options and from the vertices of the hex mesh
      generated from the ball's voxels. */
  class BouncingBallEnv3d {
    var youngsModulus: real
    var poissonsRatio: real
    var lame: Lame
    var stepwiseLoss: bool
    var nodeNums: seq<nat>
    var q0: seq<real>
    var frictionNodeIdx: seq<nat>

    constructor (options: BallOptions, meshVertices: seq<Vec3>)
      requires Refinement(options) > 0 && Convertible(PoissonsRatioOf(options))
      requires HasLowVertex(meshVertices, CellSize(Refinement(options)))
      ensures youngsModulus == YoungsModulusOf(options) && poissonsRatio == PoissonsRatioOf(options)
      ensures lame == LameParameters(youngsModulus, poissonsRatio)
      ensures stepwiseLoss
      ensures nodeNums == [Refinement(options) + 1, Refinement(options) + 1, Refinement(options) + 1]
      ensures q0 == Flatten(meshVertices)
      ensures frictionNodeIdx == FrictionNodesOfMesh(meshVertices, CellSize(Refinement(options)))
    {
      var refinement := Refinement(options);
      var nodes := FrictionNodeIdx(meshVertices, CellSize(refinement));
      var e, nu := YoungsModulusOf(options), PoissonsRatioOf(options);
      youngsModulus, poissonsRatio, lame := e, nu, LameParameters(e, nu);
      nodeNums := [refinement + 1, refinement + 1, refinement + 1];
      q0 := Flatten(meshVertices);
      stepwiseLoss := true;
      frictionNodeIdx := nodes;
    }

    /** No degree of freedom of the ball is fixed. */
    function IsDirichletDof(dof: nat): (r: bool)
      ensures !r
    {
      false
    }
  }
}
