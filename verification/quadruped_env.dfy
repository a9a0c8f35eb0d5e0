/** The quadruped environment: a box-shaped body on four square legs, built
    from voxels whose size is set by `refinement` cells per foot width, and a
    terminal loss that rewards moving forward along x. */
module Quadruped {
  import opened Wrappers
  import opened Vectors
  import opened Material
  import opened CenterOfMass
  import opened Division

  /** The options the constructor reads; all of them are required. */
  datatype QuadrupedOptions = QuadrupedOptions(
    youngsModulus: real, poissonsRatio: real,
    legZLength: int, bodyXLength: int, bodyYLength: int, bodyZLength: int, refinement: int)

  /** The five size assertions, in the order they are checked; the first one
      that fails is reported. */
  function CheckSizes(o: QuadrupedOptions): (r: Result<(), string>)
    ensures r.Success? <==>
            o.legZLength >= 1 && o.bodyXLength >= 3 && o.bodyYLength >= 3 && o.bodyZLength >= 1 && o.refinement >= 2
  {
    if o.legZLength < 1 then Failure("leg_z_length >= 1")
    else if o.bodyXLength < 3 then Failure("body_x_length >= 3")
    else if o.bodyYLength < 3 then Failure("body_y_length >= 3")
    else if o.bodyZLength < 1 then Failure("body_z_length >= 1")
    else if o.refinement < 2 then Failure("refinement >= 2")
    else Success(())
  }

  predicate Valid(o: QuadrupedOptions)
  {
    CheckSizes(o).Success?
  }

  const FootWidth: real := 0.1

  /** Cell width: a foot is `refinement` cells wide. */
  function CellSize(o: QuadrupedOptions): real
    requires Valid(o)
  {
    FootWidth / o.refinement as real
  }

  /** `cell_nums`. */
  function CellNums(o: QuadrupedOptions): (r: (nat, nat, nat))
    requires Valid(o)
    ensures r.0 >= 6 && r.1 >= 6 && r.2 >= 4
  {
    var ref := o.refinement;
    ProductAtLeast(ref, 2, o.bodyXLength, 3);
    ProductAtLeast(ref, 2, o.bodyYLength, 3);
    ProductAtLeast(ref, 2, o.legZLength + o.bodyZLength, 2);
    (ref * o.bodyXLength, ref * o.bodyYLength, ref * (o.legZLength + o.bodyZLength))
  }

  /** `node_nums`: one more node than cells along every axis. */
  function NodeNums(o: QuadrupedOptions): (r: seq<nat>)
    requires Valid(o)
    ensures |r| == 3 && r[0] == CellNums(o).0 + 1 && r[1] == CellNums(o).1 + 1 && r[2] == CellNums(o).2 + 1
  {
    var c := CellNums(o);
    [c.0 + 1, c.1 + 1, c.2 + 1]
  }

  /** The height, in cells, of the legs. */
  function LegHeight(o: QuadrupedOptions): nat
    requires Valid(o)
  {
    o.refinement * o.legZLength
  }

  /** The leg test on a column, as the four disjuncts are written. */
  predicate LegColumn(o: QuadrupedOptions, i: int, j: int)
  {
    var r := o.refinement;
    (i < r && j < r) || (i < r && j >= o.bodyYLength * r - r) ||
    (i >= o.bodyXLength * r - r && j < r) ||
    (i >= o.bodyXLength * r - r && j >= o.bodyYLength * r - r)
  }

  /** The cell is solid: in the body above the legs, or in a leg column. */
  predicate Occupied(o: QuadrupedOptions, i: int, j: int, k: int)
    requires Valid(o)
  {
    k >= LegHeight(o) || LegColumn(o, i, j)
  }

  function Expected(o: QuadrupedOptions, i: int, j: int, k: int): real
    requires Valid(o)
  {
    if Occupied(o, i, j, k) then 1.0 else 0.0
  }

  predicate ColumnBefore(a: int, b: int, i: int, j: int)
  {
    a < i || (a == i && b < j)
  }

  /** The voxel array while the loops are at column `(i, j)`, having set the
      body cells below `bodyTo` and the leg cells below `legsTo` there. */
  ghost predicate Filled(voxels: array3<real>, o: QuadrupedOptions, i: int, j: int, bodyTo: int, legsTo: int)
    requires Valid(o)
    reads voxels
  {
    forall a, b, c :: 0 <= a < voxels.Length0 && 0 <= b < voxels.Length1 && 0 <= c < voxels.Length2 ==>
      voxels[a, b, c] ==
        (if ColumnBefore(a, b, i, j) || (a == i && b == j && ((LegHeight(o) <= c < bodyTo) || c < legsTo))
         then Expected(o, a, b, c) else 0.0)
  }

  /** `voxels = np.zeros(cell_nums)`, then per column the body cells and the
      leg cells are set to 1. */
  method QuadrupedVoxels(o: QuadrupedOptions) returns (voxels: array3<real>)
    requires Valid(o)
    ensures fresh(voxels)
    ensures (voxels.Length0, voxels.Length1, voxels.Length2) == CellNums(o)
    ensures forall i, j, k :: 0 <= i < voxels.Length0 && 0 <= j < voxels.Length1 && 0 <= k < voxels.Length2 ==>
              voxels[i, j, k] == Expected(o, i, j, k)
  {
    var (nx, ny, nz) := CellNums(o);
    var legs := LegHeight(o);
    assert legs <= nz by {
      ProductAtLeast(o.refinement, o.refinement, o.legZLength + o.bodyZLength, o.legZLength);
    }
    voxels := new real[nx, ny, nz]((i, j, k) => 0.0);
    for i := 0 to nx
      invariant Filled(voxels, o, i, 0, legs, 0)
    {
      for j := 0 to ny
        invariant Filled(voxels, o, i, j, legs, 0)
      {
        for k := legs to nz
          invariant Filled(voxels, o, i, j, k, 0)
        {
          voxels[i, j, k] := 1.0;
        }
        for k := 0 to legs
          invariant Filled(voxels, o, i, j, nz, k)
        {
          var r := o.refinement;
          if (i < r && j < r) || (i < r && j >= o.bodyYLength * r - r) ||
             (i >= o.bodyXLength * r - r && j < r) ||
             (i >= o.bodyXLength * r - r && j >= o.bodyYLength * r - r) {
            voxels[i, j, k] := 1.0;
          }
        }
      }
    }
  }

  /** Everything from the top of the legs up is solid. */
  lemma BodySolid(o: QuadrupedOptions, i: int, j: int, k: int)
    requires Valid(o) && k >= LegHeight(o)
    ensures Occupied(o, i, j, k)
  {
  }

  /** Below the body, a cell is solid exactly when its column lies in one of
      the four corner squares of `r × r` columns. */
  lemma LegCorners(o: QuadrupedOptions, i: int, j: int, k: int)
    requires Valid(o) && k < LegHeight(o)
    ensures Occupied(o, i, j, k) <==>
            (i < o.refinement || i >= (o.bodyXLength - 1) * o.refinement) &&
            (j < o.refinement || j >= (o.bodyYLength - 1) * o.refinement)
  {
    assert o.bodyXLength * o.refinement - o.refinement == (o.bodyXLength - 1) * o.refinement;
    assert o.bodyYLength * o.refinement - o.refinement == (o.bodyYLength - 1) * o.refinement;
  }

  /** Front and rear legs (and left and right) are separated by at least one
      foot width of empty columns, because the body is at least three feet
      long and wide. */
  lemma LegsSeparated(o: QuadrupedOptions)
    requires Valid(o)
    ensures (o.bodyXLength - 1) * o.refinement - o.refinement >= o.refinement
    ensures (o.bodyYLength - 1) * o.refinement - o.refinement >= o.refinement
  {
    ProductAtLeast(o.bodyXLength - 1, 2, o.refinement, o.refinement);
    ProductAtLeast(o.bodyYLength - 1, 2, o.refinement, o.refinement);
  }

  /** `_loss_and_grad`: the loss `−com_x`, which rewards moving forward along
      x. It lies between minus the x coordinates of two vertices (the
      foremost and the rearmost). */
  function Loss(q: seq<real>): (l: real)
    requires Positions(q)
    ensures exists a, b :: 0 <= a < VertexCount(q) && 0 <= b < VertexCount(q) && -q[3 * b] <= l <= -q[3 * a]
  {
    ComExtent(q);
    -Com(q, 0)
  }

  lemma ComExtent(q: seq<real>)
    requires Positions(q)
    ensures exists a, b :: 0 <= a < VertexCount(q) && 0 <= b < VertexCount(q) && -q[3 * b] <= -Com(q, 0) <= -q[3 * a]
  {
    ComBetween(q, 0);
    var a, b :| 0 <= a < VertexCount(q) && 0 <= b < VertexCount(q) && q[3 * a + 0] <= Com(q, 0) <= q[3 * b + 0];
    assert -q[3 * b] <= -Com(q, 0) <= -q[3 * a];
  }

  /** `grad_q`: zeros with `grad_q[::3] = −1/N`. */
  function GradQ(q: seq<real>): (g: seq<real>)
    requires Positions(q)
    ensures |g| == |q|
  {
    seq(|q|, j => if j % 3 == 0 then -1.0 / VertexCount(q) as real else 0.0)
  }

  /** The loss and its two gradients, the velocity gradient being zero; the
      position gradient is the exact derivative of the loss along every
      entry. */
  function LossAndGrad(q: seq<real>, v: seq<real>): (r: (real, seq<real>, seq<real>))
    requires Positions(q)
    ensures r.0 == Loss(q) && |r.1| == |q| && r.2 == Zeros(|v|)
    ensures forall j, h :: 0 <= j < |q| && h != 0.0 ==>
              (Loss(Perturb(q, j, h)) - Loss(Perturb(q, j, -h))) / (2.0 * h) == r.1[j]
  {
    GradientExactAll(q);
    (Loss(q), GradQ(q), Zeros(|v|))
  }

  lemma GradientExactAll(q: seq<real>)
    requires Positions(q)
    ensures forall j, h :: 0 <= j < |q| && h != 0.0 ==>
              (Loss(Perturb(q, j, h)) - Loss(Perturb(q, j, -h))) / (2.0 * h) == GradQ(q)[j]
  {
    forall j, h | 0 <= j < |q| && h != 0.0
      ensures (Loss(Perturb(q, j, h)) - Loss(Perturb(q, j, -h))) / (2.0 * h) == GradQ(q)[j]
    {
      GradientExact(q, j, h);
    }
  }

  /** The reported gradient is the exact derivative of the loss: its central
      difference along any entry is `−1/N` on x entries and 0 on y and z. */
  lemma {:induction false} GradientExact(q: seq<real>, j: nat, h: real)
    requires Positions(q) && j < |q| && h != 0.0
    ensures (Loss(Perturb(q, j, h)) - Loss(Perturb(q, j, -h))) / (2.0 * h) == GradQ(q)[j]
  {
    var n := VertexCount(q) as real;
    ComPerturb(q, j, h, 0);
    ComPerturb(q, j, -h, 0);
    if j % 3 == 0 {
      LinearCentral(Com(q, 0), h, n);
    }
  }

  lemma LinearCentral(c: real, h: real, n: real)
    requires h != 0.0 && n > 0.0
    ensures (-(c + h / n) - -(c + (-h) / n)) / (2.0 * h) == -1.0 / n
  {
    assert -(c + h / n) - -(c + (-h) / n) == -2.0 * h / n;
    assert (-2.0 * h / n) / (2.0 * h) == -1.0 / n;
  }

  /** The environment object built from the options and the generated mesh. */
  class QuadrupedEnv3d {
    var youngsModulus: real
    var poissonsRatio: real
    var lame: Lame
    var q0: seq<real>
    var stepwiseLoss: bool
    var nodeNums: seq<nat>

    constructor (options: QuadrupedOptions, meshVertices: seq<Vec3>)
      requires Valid(options) && Convertible(options.poissonsRatio)
      ensures youngsModulus == options.youngsModulus && poissonsRatio == options.poissonsRatio
      ensures lame == LameParameters(youngsModulus, poissonsRatio)
      ensures q0 == Flatten(meshVertices)
      ensures !stepwiseLoss
      ensures nodeNums == NodeNums(options)
    {
      youngsModulus := options.youngsModulus;
      poissonsRatio := options.poissonsRatio;
      lame := LameParameters(options.youngsModulus, options.poissonsRatio);
      q0 := Flatten(meshVertices);
      stepwiseLoss := false;
      nodeNums := NodeNums(options);
    }

    /** No degree of freedom of the quadruped is fixed. */
    function IsDirichletDof(dof: nat): (r: bool)
      ensures !r
    {
      false
    }
  }
}
