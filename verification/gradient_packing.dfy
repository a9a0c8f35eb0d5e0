/** The vector plumbing around the gradient checker of the 2D backward test
    (and of the 3D benchmark): one flat test point `x = q0 | v0 | a0 | f0` is
    split into the simulator's inputs, with the actuation and the external
    force broadcast to every frame, and the simulator's per-frame gradients
    are packed back into one vector of the length of `x`. */
module GradientPacking {
  import opened Vectors

  /** The inputs of `simulate`: initial state, then one actuation and one
      external force per frame. */
  datatype Inputs = Inputs(q: seq<real>, v: seq<real>, act: seq<seq<real>>, fExt: seq<seq<real>>)

  /** The gradient part of `simulate(..., require_grad=True)`: with respect to
      the initial state and to every frame's actuation and force. */
  datatype Gradients = Gradients(q: seq<real>, v: seq<real>, act: seq<seq<real>>, fExt: seq<seq<real>>)

  /** `[s for _ in range(n)]`: the same vector at every frame. */
  function Broadcast(s: seq<real>, n: nat): (r: seq<seq<real>>)
    ensures |r| == n && forall t :: 0 <= t < n ==> r[t] == s
  {
    seq(n, _ => s)
  }

  /** The test point `np.concatenate([q0, v0, a0, f0])`. */
  function Pack(q0: seq<real>, v0: seq<real>, a0: seq<real>, f0: seq<real>): (x: seq<real>)
    ensures |x| == |q0| + |v0| + |a0| + |f0|
  {
    q0 + v0 + a0 + f0
  }

  /** The slicing shared by `loss_and_grad` and `loss`: `x[:dofs]`,
      `x[dofs:2dofs]`, and the actuation and force slices repeated for each of
      the `frameNum` frames. */
  function Split(x: seq<real>, dofs: nat, actDofs: nat, frameNum: nat): (r: Inputs)
    requires 2 * dofs + actDofs <= |x|
    ensures |r.q| == dofs && |r.v| == dofs && |r.act| == frameNum && |r.fExt| == frameNum
    ensures forall t :: 0 <= t < frameNum ==> |r.act[t]| == actDofs && |r.fExt[t]| == |x| - 2 * dofs - actDofs
    ensures forall t, t' :: 0 <= t < t' < frameNum ==> r.act[t] == r.act[t'] && r.fExt[t] == r.fExt[t']
  {
    Inputs(x[..dofs], x[dofs..2 * dofs],
           Broadcast(x[2 * dofs..2 * dofs + actDofs], frameNum),
           Broadcast(x[2 * dofs + actDofs..], frameNum))
  }

  /** Splitting the test point gives back its four pieces. */
  lemma {:induction false} SplitPack(q0: seq<real>, v0: seq<real>, a0: seq<real>, f0: seq<real>, frameNum: nat)
    requires |v0| == |q0|
    ensures Split(Pack(q0, v0, a0, f0), |q0|, |a0|, frameNum)
            == Inputs(q0, v0, Broadcast(a0, frameNum), Broadcast(f0, frameNum))
  {
    var x := Pack(q0, v0, a0, f0);
    var n := |q0|;
    assert x[..n] == q0;
    assert x[n..2 * n] == v0;
    assert x[2 * n..2 * n + |a0|] == a0;
    assert x[2 * n + |a0|..] == f0;
  }

  /** `SplitPack` for every way of writing `x` as a packed point. */
  lemma SplitPacked(x: seq<real>, dofs: nat, actDofs: nat, frameNum: nat)
    requires 2 * dofs + actDofs <= |x|
    ensures forall q0, v0, a0, f0 :: x == Pack(q0, v0, a0, f0) && |q0| == dofs && |v0| == dofs && |a0| == actDofs ==>
              Split(x, dofs, actDofs, frameNum) == Inputs(q0, v0, Broadcast(a0, frameNum), Broadcast(f0, frameNum))
  {
    forall q0, v0, a0, f0 | x == Pack(q0, v0, a0, f0) && |q0| == dofs && |v0| == dofs && |a0| == actDofs
      ensures Split(x, dofs, actDofs, frameNum) == Inputs(q0, v0, Broadcast(a0, frameNum), Broadcast(f0, frameNum))
    {
      SplitPack(q0, v0, a0, f0, frameNum);
    }
  }

  /** Packing the pieces of a split gives back the test point. */
  lemma {:induction false} PackSplit(x: seq<real>, dofs: nat, actDofs: nat, frameNum: nat)
    requires 2 * dofs + actDofs <= |x| && frameNum > 0
    ensures var r := Split(x, dofs, actDofs, frameNum);
            Pack(r.q, r.v, r.act[0], r.fExt[0]) == x
  {
    var r := Split(x, dofs, actDofs, frameNum);
    assert x == x[..dofs] + x[dofs..2 * dofs] + x[2 * dofs..2 * dofs + actDofs] + x[2 * dofs + actDofs..];
  }

  /** The gradient has the shape of the inputs it differentiates. */
  predicate Shaped(g: Gradients, dofs: nat, actDofs: nat, fDofs: nat, frameNum: nat)
  {
    |g.q| == dofs && |g.v| == dofs && |g.act| == frameNum && |g.fExt| == frameNum &&
    (forall t :: 0 <= t < frameNum ==> |g.act[t]| == actDofs) &&
    (forall t :: 0 <= t < frameNum ==> |g.fExt[t]| == fDofs)
  }

  /** The packed gradient `[grad_q | grad_v | Σ_t grad_a[t] | Σ_t grad_f[t]]`. */
  function Packed(g: Gradients, dofs: nat, actDofs: nat, fDofs: nat, frameNum: nat): (r: seq<real>)
    requires Shaped(g, dofs, actDofs, fDofs, frameNum)
    ensures |r| == 2 * dofs + actDofs + fDofs
  {
    g.q + g.v + SumVecs(g.act, actDofs) + SumVecs(g.fExt, fDofs)
  }

  /** `grad = np.zeros(x.size)` followed by the four slice assignments. */
  method PackGradient(g: Gradients, dofs: nat, actDofs: nat, fDofs: nat, frameNum: nat) returns (grad: seq<real>)
    requires Shaped(g, dofs, actDofs, fDofs, frameNum)
    ensures grad == Packed(g, dofs, actDofs, fDofs, frameNum)
  {
    var size := 2 * dofs + actDofs + fDofs;
    var buf := new real[size](_ => 0.0);
    var sumA := SumVecs(g.act, actDofs);
    var sumF := SumVecs(g.fExt, fDofs);
    assert buf[..] == [] + Zeros(size);
    FillBlock(buf, 0, [], g.q);
    FillBlock(buf, dofs, g.q, g.v);
    FillBlock(buf, 2 * dofs, g.q + g.v, sumA);
    FillBlock(buf, 2 * dofs + actDofs, g.q + g.v + sumA, sumF);
    assert buf[..] == g.q + g.v + sumA + sumF + [];
    grad := buf[..];
  }

  /** Where the four parts of the packed gradient sit, coordinate by
      coordinate: the initial-state gradients are copied, and every actuation
      and force coordinate is the sum over frames of that coordinate. */
  lemma {:induction false} PackedLayout(g: Gradients, dofs: nat, actDofs: nat, fDofs: nat, frameNum: nat)
    requires Shaped(g, dofs, actDofs, fDofs, frameNum)
    ensures var r := Packed(g, dofs, actDofs, fDofs, frameNum);
            var ra := r[2 * dofs..2 * dofs + actDofs];
            var rf := r[2 * dofs + actDofs..];
            && r[..dofs] == g.q && r[dofs..2 * dofs] == g.v
            && (forall j :: 0 <= j < actDofs ==> ra[j] == Sum(Column(g.act, j)))
            && (forall j :: 0 <= j < fDofs ==> rf[j] == Sum(Column(g.fExt, j)))
  {
    var r := Packed(g, dofs, actDofs, fDofs, frameNum);
    assert r[..dofs] == g.q;
    assert r[dofs..2 * dofs] == g.v;
    assert r[2 * dofs..2 * dofs + actDofs] == SumVecs(g.act, actDofs);
    assert r[2 * dofs + actDofs..] == SumVecs(g.fExt, fDofs);
    forall j | 0 <= j < actDofs
      ensures SumVecs(g.act, actDofs)[j] == Sum(Column(g.act, j))
    {
      SumVecsAt(g.act, actDofs, j);
    }
    forall j | 0 <= j < fDofs
      ensures SumVecs(g.fExt, fDofs)[j] == Sum(Column(g.fExt, j))
    {
      SumVecsAt(g.fExt, fDofs, j);
    }
  }

  /** `Σ_t ⟨gs[t], xs[t]⟩`: the first-order change of the loss caused by the
      per-frame inputs `xs`. */
  function FrameDots(gs: seq<seq<real>>, xs: seq<seq<real>>): real
    requires |gs| == |xs| && forall t :: 0 <= t < |gs| ==> |gs[t]| == |xs[t]|
  {
    if gs == [] then 0.0
    else FrameDots(gs[..|gs| - 1], xs[..|xs| - 1]) + Dot(gs[|gs| - 1], xs[|xs| - 1])
  }

  /** The first-order change of the loss for a change `d` of all the inputs. */
  function Pairing(g: Gradients, d: Inputs): real
    requires |g.q| == |d.q| && |g.v| == |d.v| && |g.act| == |d.act| && |g.fExt| == |d.fExt|
    requires forall t :: 0 <= t < |g.act| ==> |g.act[t]| == |d.act[t]|
    requires forall t :: 0 <= t < |g.fExt| ==> |g.fExt[t]| == |d.fExt[t]|
  {
    Dot(g.q, d.q) + Dot(g.v, d.v) + FrameDots(g.act, d.act) + FrameDots(g.fExt, d.fExt)
  }

  /** A shared input seen by every frame collects the sum of the per-frame
      gradients. */
  lemma {:induction false} FrameDotsBroadcast(gs: seq<seq<real>>, a: seq<real>, n: nat)
    requires forall t :: 0 <= t < |gs| ==> |gs[t]| == n
    requires |a| == n
    ensures FrameDots(gs, Broadcast(a, |gs|)) == Dot(SumVecs(gs, n), a)
  {
    if gs == [] {
      DotZeros(a);
    } else {
      var k := |gs| - 1;
      FrameDotsBroadcast(gs[..k], a, n);
      assert Broadcast(a, |gs|)[..k] == Broadcast(a, k);
      DotAdd(SumVecs(gs[..k], n), gs[k], a);
    }
  }

  /** Chain rule through the split: moving the test point by `dx` moves the
      per-frame inputs by `Split(dx)`, and the first-order change this causes
      is exactly `⟨packed gradient, dx⟩`. So the packed vector is the gradient
      of `x ↦ loss(Split(x))` whenever the simulator's gradients are those of
      the loss with respect to its inputs. */
  lemma {:induction false} ChainRule(g: Gradients, dofs: nat, actDofs: nat, fDofs: nat, frameNum: nat, dx: seq<real>)
    requires Shaped(g, dofs, actDofs, fDofs, frameNum)
    requires |dx| == 2 * dofs + actDofs + fDofs
    ensures Pairing(g, Split(dx, dofs, actDofs, frameNum)) == Dot(Packed(g, dofs, actDofs, fDofs, frameNum), dx)
  {
    var sa, sf := SumVecs(g.act, actDofs), SumVecs(g.fExt, fDofs);
    PairingOfSplit(g, dofs, actDofs, fDofs, frameNum, dx);
    DotBlocks(g.q, g.v, sa, sf, dx);
    assert |g.q| == dofs && |g.q| + |g.v| == 2 * dofs && |g.q| + |g.v| + |sa| == 2 * dofs + actDofs;
    assert Packed(g, dofs, actDofs, fDofs, frameNum) == g.q + g.v + sa + sf;
  }

  /** The pairing with a split point, block by block: each broadcast block
      meets the sum over frames of its gradients. */
  lemma {:induction false} PairingOfSplit(g: Gradients, dofs: nat, actDofs: nat, fDofs: nat, frameNum: nat, dx: seq<real>)
    requires Shaped(g, dofs, actDofs, fDofs, frameNum)
    requires |dx| == 2 * dofs + actDofs + fDofs
    ensures Pairing(g, Split(dx, dofs, actDofs, frameNum))
            == Dot(g.q, dx[..dofs]) + Dot(g.v, dx[dofs..2 * dofs])
               + Dot(SumVecs(g.act, actDofs), dx[2 * dofs..2 * dofs + actDofs])
               + Dot(SumVecs(g.fExt, fDofs), dx[2 * dofs + actDofs..])
  {
    FrameDotsBroadcast(g.act, dx[2 * dofs..2 * dofs + actDofs], actDofs);
    FrameDotsBroadcast(g.fExt, dx[2 * dofs + actDofs..], fDofs);
  }

  /** The dot product with a vector built from four blocks is the sum of the
      blocks' dot products with the matching slices. */
  lemma {:induction false} DotBlocks(a1: seq<real>, a2: seq<real>, a3: seq<real>, a4: seq<real>, b: seq<real>)
    requires |b| == |a1| + |a2| + |a3| + |a4|
    ensures var n1, n2, n3 := |a1|, |a1| + |a2|, |a1| + |a2| + |a3|;
            Dot(a1 + a2 + a3 + a4, b) == Dot(a1, b[..n1]) + Dot(a2, b[n1..n2]) + Dot(a3, b[n2..n3]) + Dot(a4, b[n3..])
  {
    var n1, n2, n3 := |a1|, |a1| + |a2|, |a1| + |a2| + |a3|;
    assert b == b[..n1] + b[n1..n2] + b[n2..n3] + b[n3..];
    DotConcat(a1 + a2 + a3, a4, b[..n1] + b[n1..n2] + b[n2..n3], b[n3..]);
    DotConcat(a1 + a2, a3, b[..n1] + b[n1..n2], b[n2..n3]);
    DotConcat(a1, a2, b[..n1], b[n1..n2]);
  }
}
