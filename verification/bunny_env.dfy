/** The bunny environment: material defaults and a terminal loss that pulls
    the mesh's centre of mass towards a target point. */
module Bunny {
  import opened Wrappers
  import opened Vectors
  import opened Material
  import opened CenterOfMass

  /** The options the constructor reads; a missing key is `None`. */
  datatype BunnyOptions = BunnyOptions(
    youngsModulus: Option<real>, poissonsRatio: Option<real>, targetCom: Option<Vec3>, spp: Option<nat>)

  function YoungsModulusOf(o: BunnyOptions): real
  {
    if o.youngsModulus.Some? then o.youngsModulus.value else 1e6
  }

  function PoissonsRatioOf(o: BunnyOptions): real
  {
    if o.poissonsRatio.Some? then o.poissonsRatio.value else 0.49
  }

  function TargetComOf(o: BunnyOptions): Vec3
  {
    if o.targetCom.Some? then o.targetCom.value else Vec3(0.15, 0.15, 0.15)
  }

  function SamplesPerPixel(o: BunnyOptions): nat
  {
    if o.spp.Some? then o.spp.value else 4
  }

  /** The mesh is rescaled to this size; the loss is measured in its units. */
  const BunnySize: real := 0.1

  /** `com - target_com`. */
  function ComDiff(q: seq<real>, target: Vec3): (d: seq<real>)
    requires Positions(q)
    ensures |d| == 3
  {
    [Com(q, 0) - target.x, Com(q, 1) - target.y, Com(q, 2) - target.z]
  }

  /** `0.5·‖com − target‖² / size²`, never negative. */
  function Loss(q: seq<real>, target: Vec3): (l: real)
    requires Positions(q)
    ensures l >= 0.0
  {
    0.5 * SumSq(ComDiff(q, target)) / (BunnySize * BunnySize)
  }

  /** The gradient entry of position `j`: the offset along its axis, shared
      among the `N` vertices. */
  function GradEntry(q: seq<real>, target: Vec3, j: nat): real
    requires Positions(q)
  {
    ComDiff(q, target)[j % 3] / VertexCount(q) as real / (BunnySize * BunnySize)
  }

  /** `_loss_and_grad`: the loss, `grad_q[i::3]` filled axis by axis, and a
      zero velocity gradient. */
  method LossAndGrad(q: seq<real>, v: seq<real>, target: Vec3) returns (loss: real, gradQ: seq<real>, gradV: seq<real>)
    requires Positions(q)
    ensures loss == Loss(q, target)
    ensures |gradQ| == |q| && forall j :: 0 <= j < |q| ==> gradQ[j] == GradEntry(q, target, j)
    ensures gradV == Zeros(|v|)
  {
    var d := ComDiff(q, target);
    var sizeSq := BunnySize * BunnySize;
    loss := 0.5 * SumSq(d) / sizeSq;
    var g := new real[|q|](_ => 0.0);
    var n := |q| / 3;
    for i := 0 to 3
      invariant forall j :: 0 <= j < |q| ==> g[j] == if j % 3 < i then GradEntry(q, target, j) else 0.0
    {
      for k := 0 to n
        invariant forall j :: 0 <= j < |q| ==>
                    g[j] == if j % 3 < i || (j % 3 == i && j / 3 < k) then GradEntry(q, target, j) else 0.0
      {
        g[3 * k + i] := d[i] / n as real / sizeSq;
      }
    }
    gradQ := g[..];
    gradV := Zeros(|v|);
  }

  /** The loss vanishes exactly when the centre of mass sits on the target. */
  lemma {:induction false} LossZero(q: seq<real>, target: Vec3)
    requires Positions(q)
    ensures Loss(q, target) == 0.0 <==> Com(q, 0) == target.x && Com(q, 1) == target.y && Com(q, 2) == target.z
  {
    var d := ComDiff(q, target);
    SumSqZero(d);
    assert d[0] == Com(q, 0) - target.x && d[1] == Com(q, 1) - target.y && d[2] == Com(q, 2) - target.z;
  }

  /** The reported gradient is the exact derivative of the loss: its central
      difference along any position entry equals the gradient entry. */
  lemma {:induction false} GradientExact(q: seq<real>, target: Vec3, j: nat, h: real)
    requires Positions(q) && j < |q| && h != 0.0
    ensures (Loss(Perturb(q, j, h), target) - Loss(Perturb(q, j, -h), target)) / (2.0 * h) == GradEntry(q, target, j)
  {
    var n := VertexCount(q) as real;
    var d := ComDiff(q, target);
    var a := j % 3;
    var k := h / n;
    LossPerturbed(q, target, j, h);
    LossPerturbed(q, target, j, -h);
    NegQuotient(h, n);
    NonZeroQuotient(h, n);
    var plus, minus := SumSq(Perturb(d, a, k)), SumSq(Perturb(d, a, -k));
    SumSqCentral(d, a, k);
    ScaledCentral(plus, minus, h, n, d[a], BunnySize * BunnySize);
  }

  lemma {:induction false} ComDiffPerturb(q: seq<real>, target: Vec3, j: nat, h: real)
    requires Positions(q) && j < |q|
    ensures ComDiff(Perturb(q, j, h), target) == Perturb(ComDiff(q, target), j % 3, h / VertexCount(q) as real)
  {
    ComPerturb(q, j, h, 0);
    ComPerturb(q, j, h, 1);
    ComPerturb(q, j, h, 2);
  }

  /** The loss after moving entry `j` by `h`, through the moved `com_diff`. */
  lemma LossPerturbed(q: seq<real>, target: Vec3, j: nat, h: real)
    requires Positions(q) && j < |q|
    ensures Loss(Perturb(q, j, h), target) ==
            0.5 * SumSq(Perturb(ComDiff(q, target), j % 3, h / VertexCount(q) as real)) / (BunnySize * BunnySize)
  {
    ComDiffPerturb(q, target, j, h);
  }

  lemma NegQuotient(h: real, n: real)
    requires n > 0.0
    ensures (-h) / n == -(h / n)
  {
  }

  lemma NonZeroQuotient(h: real, n: real)
    requires h != 0.0 && n > 0.0
    ensures h / n != 0.0
  {
  }

  /** `(a − b)/(2h/n) = 2d` gives `(½a/s − ½b/s)/(2h) = d/n/s`. */
  lemma ScaledCentral(a: real, b: real, h: real, n: real, d: real, s: real)
    requires h != 0.0 && n > 0.0 && s > 0.0
    requires (a - b) / (2.0 * (h / n)) == 2.0 * d
    ensures (0.5 * a / s - 0.5 * b / s) / (2.0 * h) == d / n / s
  {
    var k := h / n;
    assert k * n == h;
    assert a - b == 2.0 * d * (2.0 * k);
    assert 0.5 * a / s - 0.5 * b / s == (2.0 * d * k) / s;
    assert (2.0 * d * k) / s == (d / n / s) * (2.0 * h);
  }

  /** The environment object built from the options and the rescaled mesh. */
  class BunnyEnv3d {
    var youngsModulus: real
    var poissonsRatio: real
    var lame: Lame
    var q0: seq<real>
    var stepwiseLoss: bool
    var targetCom: Vec3
    var spp: nat

    constructor (options: BunnyOptions, meshVertices: seq<Vec3>)
      requires Convertible(PoissonsRatioOf(options))
      ensures youngsModulus == YoungsModulusOf(options) && poissonsRatio == PoissonsRatioOf(options)
      ensures lame == LameParameters(youngsModulus, poissonsRatio)
      ensures q0 == Flatten(meshVertices)
      ensures !stepwiseLoss
      ensures targetCom == TargetComOf(options) && spp == SamplesPerPixel(options)
    {
      youngsModulus := YoungsModulusOf(options);
      poissonsRatio := PoissonsRatioOf(options);
      lame := LameParameters(YoungsModulusOf(options), PoissonsRatioOf(options));
      q0 := Flatten(meshVertices);
      stepwiseLoss := false;
      targetCom := TargetComOf(options);
      spp := SamplesPerPixel(options);
    }

    /** No degree of freedom of the bunny is fixed. */
    function IsDirichletDof(dof: nat): (r: bool)
      ensures !r
    {
      false
    }
  }
}
