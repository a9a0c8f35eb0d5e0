/** The centre of mass of a mesh given as its flat position vector
    `q = [x0, y0, z0, x1, y1, z1, ...]`: `np.mean(q.reshape((-1, 3)), axis=0)`. */
module CenterOfMass {
  import opened Vectors

  /** A flat position vector of at least one vertex. */
  predicate Positions(q: seq<real>)
  {
    |q| % 3 == 0 && |q| >= 3
  }

  function VertexCount(q: seq<real>): (n: nat)
    requires Positions(q)
    ensures n > 0 && 3 * n == |q|
  {
    |q| / 3
  }

  /** Column `axis` of `q.reshape((-1, 3))`: `q[axis::3]`. */
  function Coords(q: seq<real>, axis: nat): (r: seq<real>)
    requires Positions(q) && axis < 3
    ensures |r| == VertexCount(q) && forall k :: 0 <= k < |r| ==> r[k] == q[3 * k + axis]
  {
    seq(VertexCount(q), k requires 0 <= k < VertexCount(q) => q[3 * k + axis])
  }

  /** Coordinate `axis` of the centre of mass. */
  function Com(q: seq<real>, axis: nat): real
    requires Positions(q) && axis < 3
  {
    Sum(Coords(q, axis)) / VertexCount(q) as real
  }

  /** The centre of mass is the mean position of the vertices, so each of its
      coordinates lies between that coordinate of two vertices (the lowest
      and the highest). */
  lemma ComBetween(q: seq<real>, axis: nat)
    requires Positions(q) && axis < 3
    ensures exists a, b :: 0 <= a < VertexCount(q) && 0 <= b < VertexCount(q) &&
                           q[3 * a + axis] <= Com(q, axis) <= q[3 * b + axis]
  {
    var s := Coords(q, axis);
    assert Mean(s) == Com(q, axis);
    var a :| 0 <= a < |s| && s[a] == MinOf(s);
    var b :| 0 <= b < |s| && s[b] == MaxOf(s);
    assert q[3 * a + axis] <= Com(q, axis) <= q[3 * b + axis];
  }

  /** Moving entry `j` of `q` moves only the vertex `j / 3` along the axis
      `j % 3`. */
  lemma {:induction false} CoordsPerturb(q: seq<real>, j: nat, h: real, axis: nat)
    requires Positions(q) && j < |q| && axis < 3
    ensures Coords(Perturb(q, j, h), axis) == if j % 3 == axis then Perturb(Coords(q, axis), j / 3, h) else Coords(q, axis)
  {
    var p := Perturb(q, j, h);
    forall k | 0 <= k < VertexCount(q)
      ensures 3 * k + axis == j <==> (j % 3 == axis && k == j / 3)
    {
    }
  }

  /** Moving entry `j` by `h` moves the centre of mass along axis `j % 3` by
      `h / N` and leaves the other two axes where they were. */
  lemma {:induction false} ComPerturb(q: seq<real>, j: nat, h: real, axis: nat)
    requires Positions(q) && j < |q| && axis < 3
    ensures Com(Perturb(q, j, h), axis) == Com(q, axis) + (if j % 3 == axis then h / VertexCount(q) as real else 0.0)
  {
    var p := Perturb(q, j, h);
    assert Positions(p) && VertexCount(p) == VertexCount(q);
    CoordsPerturb(q, j, h, axis);
    var c, n := Coords(q, axis), VertexCount(q) as real;
    if j % 3 == axis {
      SumPerturb(c, j / 3, h);
      assert Sum(Coords(p, axis)) == Sum(c) + h;
      DivAdd(Sum(c), h, n);
    } else {
      assert Coords(p, axis) == c;
    }
  }
}
