/** The open-loop control demo (`python/open_loop_demo_3d.py`): one constant
    external force `f` is applied at every frame, the forward pass caches the
    whole trajectory, and the reverse pass chains the per-step adjoints returned
    by the step solver while summing their force gradients. The step solver
    itself (`PyForward` / `PyBackward`, with the method name, time step and
    options already bound) is an uninterpreted pair of functions. */
module OpenLoopDemo {
  import opened Vectors
  import opened Division

  datatype State = State(q: seq<real>, v: seq<real>)

  /** Adjoint `(dl/dq, dl/dv)` flowing from a later frame into an earlier one. */
  datatype Adjoint = Adjoint(dq: seq<real>, dv: seq<real>)

  /** The three vectors `PyBackward` writes: `dl_dq`, `dl_dv`, `dl_df_ext`. */
  datatype StepGradient = StepGradient(dlDq: seq<real>, dlDv: seq<real>, dlDf: seq<real>)

  /** `forward(state_i, f)` is `state_{i+1}`; `backward(state_i, f, state_{i+1}, adj)`
      is the adjoint of the inputs of that step given the adjoint of its outputs. */
  datatype StepSolver = StepSolver(
    forward: (State, seq<real>) -> State,
    backward: (State, seq<real>, State, Adjoint) -> StepGradient)

  /** The output vectors of `PyBackward` are allocated by the caller with `dofs`
      entries, so the force gradient always has that length. */
  ghost predicate Shaped(solver: StepSolver, dofs: nat)
  {
    forall s: State, f: seq<real>, s': State, adj: Adjoint ::
      |solver.backward(s, f, s', adj).dlDf| == dofs
  }

  /** One call of `PyBackward` as the reverse loop issues it. */
  datatype BackwardCall = BackwardCall(frame: nat, state: State, next: State, incoming: Adjoint, result: StepGradient)

  /** The trajectory of the forward pass: `frames + 1` states, each the step of
      the previous one under the same force. */
  function Rollout(solver: StepSolver, s0: State, f: seq<real>, frames: nat): (r: seq<State>)
    ensures |r| == frames + 1 && r[0] == s0
    ensures forall i :: 0 <= i < frames ==> r[i + 1] == solver.forward(r[i], f)
  {
    if frames == 0 then [s0]
    else
      var prefix := Rollout(solver, s0, f, frames - 1);
      prefix + [solver.forward(prefix[frames - 1], f)]
  }

  /** The last three coordinates of the final positions: the tracked vertex. */
  function Tracked(q: seq<real>): seq<real>
    requires |q| >= 3
  {
    q[|q| - 3..]
  }

  /** Squared distance between the tracked vertex and the target position. */
  function TargetLoss(q: seq<real>, target: seq<real>): real
    requires |q| >= 3 && |target| == 3
  {
    SumSq(Sub(Tracked(q), target))
  }

  /** The seed adjoint of the reverse pass: the gradient of `TargetLoss` in
      `q`, and zero in `v`. */
  function Seed(q: seq<real>, target: seq<real>, dofs: nat): (adj: Adjoint)
    requires |q| == dofs >= 3 && |target| == 3
    ensures |adj.dq| == dofs && |adj.dv| == dofs
    ensures forall j :: 0 <= j < dofs - 3 ==> adj.dq[j] == 0.0
    ensures forall c :: 0 <= c < 3 ==> adj.dq[dofs - 3 + c] == 2.0 * (q[dofs - 3 + c] - target[c])
    ensures forall j :: 0 <= j < dofs ==> adj.dv[j] == 0.0
  {
    var d := Sub(Tracked(q), target);
    Adjoint(Zeros(dofs - 3) + Scale(2.0, d), Zeros(dofs))
  }

  /** The adjoint handed to the backward call of frame `k - 1`: the seed for the
      last state, otherwise what the call for frame `k` returned. */
  function Incoming(solver: StepSolver, traj: seq<State>, f: seq<real>, seed: Adjoint, k: nat): Adjoint
    requires k < |traj|
    decreases |traj| - k
  {
    if k == |traj| - 1 then seed
    else
      var g := FrameGradient(solver, traj, f, seed, k);
      Adjoint(g.dlDq, g.dlDv)
  }

  /** What the backward call of frame `k` returns. */
  function FrameGradient(solver: StepSolver, traj: seq<State>, f: seq<real>, seed: Adjoint, k: nat): StepGradient
    requires k + 1 < |traj|
    decreases |traj| - k, 0
  {
    solver.backward(traj[k], f, traj[k + 1], Incoming(solver, traj, f, seed, k + 1))
  }

  /** `grad` after the reverse loop has processed frames `|traj| - 2` down to
      `k`: zeros plus each of their force gradients, latest frame first. */
  function ForceGradientFrom(solver: StepSolver, traj: seq<State>, f: seq<real>, seed: Adjoint, k: nat): (g: seq<real>)
    requires Shaped(solver, |f|)
    requires 0 < |traj| && k < |traj|
    ensures |g| == |f|
    decreases |traj| - k
  {
    if k == |traj| - 1 then Zeros(|f|)
    else Add(ForceGradientFrom(solver, traj, f, seed, k + 1), FrameGradient(solver, traj, f, seed, k).dlDf)
  }

  /** `loss_and_grad(f)`: forward pass caching `q[0..F]`, `v[0..F]`, the
      tracked-vertex loss, and the reverse pass. The ghost `calls` records the
      backward calls in the order they are made. */
  method LossAndGrad(solver: StepSolver, q0: seq<real>, v0: seq<real>, f: seq<real>, frameNum: nat, target: seq<real>)
      returns (loss: real, grad: seq<real>, ghost calls: seq<BackwardCall>)
    requires |q0| == |v0| == |f| >= 3 && |target| == 3
    requires Shaped(solver, |f|)
    requires forall s: State, f': seq<real> :: |solver.forward(s, f').q| == |f|
    ensures var traj := Rollout(solver, State(q0, v0), f, frameNum);
            && loss == TargetLoss(traj[frameNum].q, target)
            && grad == ForceGradientFrom(solver, traj, f, Seed(traj[frameNum].q, target, |f|), 0)
    ensures |grad| == |f|
    ensures |calls| == frameNum
    ensures var traj := Rollout(solver, State(q0, v0), f, frameNum);
            forall t :: 0 <= t < frameNum ==>
              && calls[t].frame == frameNum - 1 - t
              && calls[t].state == traj[frameNum - 1 - t]
              && calls[t].next == traj[frameNum - t]
              && calls[t].result == solver.backward(calls[t].state, f, calls[t].next, calls[t].incoming)
    ensures frameNum > 0 ==>
              var traj := Rollout(solver, State(q0, v0), f, frameNum);
              calls[0].incoming == Seed(traj[frameNum].q, target, |f|)
    ensures forall t :: 0 < t < frameNum ==>
              calls[t].incoming == Adjoint(calls[t - 1].result.dlDq, calls[t - 1].result.dlDv)
  {
    ghost var traj := Rollout(solver, State(q0, v0), f, frameNum);
    var q, v := ForwardPass(solver, q0, v0, f, frameNum);
    var targetQ := q[frameNum][|f| - 3..];
    loss := SumSq(Sub(targetQ, target));
    var seed := Adjoint(Zeros(|f| - 3) + Scale(2.0, Sub(targetQ, target)), Zeros(|f|));
    assert seed == Seed(traj[frameNum].q, target, |f|);
    grad, calls := ReversePass(solver, traj, f, seed, q, v);
  }

  /** The forward loop of `loss_and_grad`: `q[i + 1], v[i + 1]` is the step of
      `q[i], v[i]`, for `frameNum` frames. */
  method ForwardPass(solver: StepSolver, q0: seq<real>, v0: seq<real>, f: seq<real>, frameNum: nat)
      returns (q: seq<seq<real>>, v: seq<seq<real>>)
    requires forall s: State, f': seq<real> :: |solver.forward(s, f').q| == |f|
    requires |q0| == |f|
    ensures var traj := Rollout(solver, State(q0, v0), f, frameNum);
            |q| == |v| == frameNum + 1 && forall k :: 0 <= k <= frameNum ==> traj[k] == State(q[k], v[k])
    ensures forall k :: 0 <= k <= frameNum ==> |q[k]| == |f|
  {
    ghost var traj := Rollout(solver, State(q0, v0), f, frameNum);
    q := [q0];
    v := [v0];
    var i := 0;
    while i < frameNum
      invariant 0 <= i <= frameNum
      invariant |q| == |v| == i + 1
      invariant forall k :: 0 <= k <= i ==> traj[k] == State(q[k], v[k]) && |q[k]| == |f|
    {
      var next := solver.forward(State(q[i], v[i]), f);
      q := q + [next.q];
      v := v + [next.v];
      i := i + 1;
    }
  }

  /** The reverse loop of `loss_and_grad`: from the last frame down to the
      first, each backward call receives the adjoint the previous call
      returned (the seed for the first), and its force gradient is added to
      `grad`. The ghost `calls` records the calls in the order they are made. */
  method ReversePass(solver: StepSolver, ghost traj: seq<State>, f: seq<real>, seed: Adjoint,
                     q: seq<seq<real>>, v: seq<seq<real>>)
      returns (grad: seq<real>, ghost calls: seq<BackwardCall>)
    requires Shaped(solver, |f|)
    requires |traj| > 0 && |q| == |v| == |traj|
    requires forall k :: 0 <= k < |traj| ==> traj[k] == State(q[k], v[k])
    ensures grad == ForceGradientFrom(solver, traj, f, seed, 0)
    ensures |calls| == |traj| - 1
    ensures forall t :: 0 <= t < |calls| ==>
              && calls[t].frame == |traj| - 2 - t
              && calls[t].state == traj[|traj| - 2 - t]
              && calls[t].next == traj[|traj| - 1 - t]
              && calls[t].result == solver.backward(calls[t].state, f, calls[t].next, calls[t].incoming)
              && calls[t].incoming == Incoming(solver, traj, f, seed, |traj| - 1 - t)
    ensures |calls| > 0 ==> calls[0].incoming == seed
    ensures forall t :: 0 < t < |calls| ==>
              calls[t].incoming == Adjoint(calls[t - 1].result.dlDq, calls[t - 1].result.dlDv)
  {
    var frameNum := |q| - 1;
    grad := Zeros(|f|);
    var adj := seed;
    calls := [];
    var i := frameNum;
    while i > 0
      invariant 0 <= i <= frameNum
      invariant adj == Incoming(solver, traj, f, seed, i)
      invariant grad == ForceGradientFrom(solver, traj, f, seed, i)
      invariant |calls| == frameNum - i
      invariant forall t :: 0 <= t < |calls| ==>
                  && calls[t].frame == frameNum - 1 - t
                  && calls[t].state == traj[frameNum - 1 - t]
                  && calls[t].next == traj[frameNum - t]
                  && calls[t].result == solver.backward(calls[t].state, f, calls[t].next, calls[t].incoming)
                  && calls[t].incoming == Incoming(solver, traj, f, seed, frameNum - t)
    {
      i := i - 1;
      var state := State(q[i], v[i]);
      var next := State(q[i + 1], v[i + 1]);
      var g := solver.backward(state, f, next, adj);
      calls := calls + [BackwardCall(i, state, next, adj, g)];
      grad := Add(grad, g.dlDf);
      adj := Adjoint(g.dlDq, g.dlDv);
    }
    forall t | 0 < t < |calls|
      ensures calls[t].incoming == Adjoint(calls[t - 1].result.dlDq, calls[t - 1].result.dlDv)
    {
      assert calls[t].incoming == Incoming(solver, traj, f, seed, frameNum - t);
    }
  }

  /** The seed is the exact gradient of the loss: the central difference of
      `TargetLoss` along any position coordinate equals the seed entry. */
  lemma {:induction false} SeedIsLossGradient(q: seq<real>, target: seq<real>, j: nat, h: real)
    requires |q| >= 3 && |target| == 3 && j < |q| && h != 0.0
    ensures (TargetLoss(Perturb(q, j, h), target) - TargetLoss(Perturb(q, j, -h), target)) / (2.0 * h)
            == Seed(q, target, |q|).dq[j]
  {
    if j < |q| - 3 {
      SeedIsLossGradientFar(q, target, j, h);
    } else {
      SeedIsLossGradientNear(q, target, j, h);
    }
  }

  lemma {:induction false} SeedIsLossGradientFar(q: seq<real>, target: seq<real>, j: nat, h: real)
    requires |q| >= 3 && |target| == 3 && j < |q| - 3 && h != 0.0
    ensures (TargetLoss(Perturb(q, j, h), target) - TargetLoss(Perturb(q, j, -h), target)) / (2.0 * h) == 0.0
  {
    TrackedPerturbFar(q, j, h);
    TrackedPerturbFar(q, j, -h);
  }

  lemma {:induction false} SeedIsLossGradientNear(q: seq<real>, target: seq<real>, j: nat, h: real)
    requires |q| >= 3 && |target| == 3 && |q| - 3 <= j < |q| && h != 0.0
    ensures (TargetLoss(Perturb(q, j, h), target) - TargetLoss(Perturb(q, j, -h), target)) / (2.0 * h)
            == 2.0 * (q[j] - target[j - (|q| - 3)])
  {
    var d := Sub(Tracked(q), target);
    TrackedPerturbNear(q, target, j, h);
    TrackedPerturbNear(q, target, j, -h);
    SumSqCentral(d, j - (|q| - 3), h);
  }

  lemma {:induction false} TrackedPerturbFar(q: seq<real>, j: nat, h: real)
    requires |q| >= 3 && j < |q| - 3
    ensures Tracked(Perturb(q, j, h)) == Tracked(q)
  {
  }

  lemma {:induction false} TrackedPerturbNear(q: seq<real>, target: seq<real>, j: nat, h: real)
    requires |q| >= 3 && |target| == 3 && |q| - 3 <= j < |q|
    ensures Sub(Tracked(Perturb(q, j, h)), target) == Perturb(Sub(Tracked(q), target), j - (|q| - 3), h)
  {
  }

  /** The loss vanishes exactly when the tracked vertex sits on the target. */
  lemma {:induction false} TargetLossZero(q: seq<real>, target: seq<real>)
    requires |q| >= 3 && |target| == 3
    ensures TargetLoss(q, target) >= 0.0
    ensures TargetLoss(q, target) == 0.0 <==> Tracked(q) == target
  {
    var d := Sub(Tracked(q), target);
    SumSqZero(d);
    if TargetLoss(q, target) == 0.0 {
      assert forall c :: 0 <= c < 3 ==> Tracked(q)[c] == target[c];
    }
  }

  /** With no frames the reverse loop never runs and the gradient is zero. */
  lemma {:induction false} NoFramesZeroGradient(solver: StepSolver, s0: State, f: seq<real>, seed: Adjoint)
    requires Shaped(solver, |f|)
    ensures ForceGradientFrom(solver, Rollout(solver, s0, f, 0), f, seed, 0) == Zeros(|f|)
  {
  }

  /** Coordinate `j` of the per-frame force gradients of frames `|traj| - 2`
      down to `k`, latest frame first (the order the reverse loop adds them). */
  function FrameColumn(solver: StepSolver, traj: seq<State>, f: seq<real>, seed: Adjoint, k: nat, j: nat): (c: seq<real>)
    requires Shaped(solver, |f|) && k < |traj| && j < |f|
    ensures |c| == |traj| - 1 - k
    decreases |traj| - k
  {
    if k == |traj| - 1 then []
    else FrameColumn(solver, traj, f, seed, k + 1, j) + [FrameGradient(solver, traj, f, seed, k).dlDf[j]]
  }

  /** Entry `t` of the column is frame `|traj| - 2 - t`'s coordinate `j`. */
  lemma {:induction false} FrameColumnEntries(solver: StepSolver, traj: seq<State>, f: seq<real>, seed: Adjoint, k: nat, j: nat)
    requires Shaped(solver, |f|) && k < |traj| && j < |f|
    ensures forall t :: 0 <= t < |traj| - 1 - k ==>
              FrameColumn(solver, traj, f, seed, k, j)[t] == FrameGradient(solver, traj, f, seed, |traj| - 2 - t).dlDf[j]
    decreases |traj| - k
  {
    if k < |traj| - 1 {
      FrameColumnEntries(solver, traj, f, seed, k + 1, j);
    }
  }

  /** Each coordinate of the returned gradient is the sum, over all frames, of
      that coordinate of the per-frame force gradients. */
  lemma {:induction false} ForceGradientIsFrameSum(solver: StepSolver, traj: seq<State>, f: seq<real>, seed: Adjoint, k: nat, j: nat)
    requires Shaped(solver, |f|)
    requires 0 < |traj| && k < |traj| && j < |f|
    ensures ForceGradientFrom(solver, traj, f, seed, k)[j] == Sum(FrameColumn(solver, traj, f, seed, k, j))
    decreases |traj| - k
  {
    if k < |traj| - 1 {
      ForceGradientIsFrameSum(solver, traj, f, seed, k + 1, j);
      var g := FrameGradient(solver, traj, f, seed, k).dlDf;
      SumAppend(FrameColumn(solver, traj, f, seed, k + 1, j), g[j]);
      assert ForceGradientFrom(solver, traj, f, seed, k) == Add(ForceGradientFrom(solver, traj, f, seed, k + 1), g);
    }
  }

  /** One Dirichlet condition: `SetDirichletBoundaryCondition(dof, value)`. */
  datatype Fixed = Fixed(dof: nat, value: real)

  /** Linear index of node `(i, j, k)` in a grid with `ny` by `nz` nodes per slab. */
  function NodeIndex(i: nat, j: nat, k: nat, ny: nat, nz: nat): nat
  {
    i * ny * nz + j * nz + k
  }

  /** The three conditions pinning node `node` at its rest position. */
  function Pin(node: nat, vertices: seq<Vec3>): seq<Fixed>
    requires node < |vertices|
  {
    var p := vertices[node];
    [Fixed(3 * node, p.x), Fixed(3 * node + 1, p.y), Fixed(3 * node + 2, p.z)]
  }

  /** The conditions issued for columns `(i, 0) .. (i, j - 1)`. */
  function RowPins(i: nat, j: nat, nx: nat, ny: nat, nz: nat, vertices: seq<Vec3>): seq<Fixed>
    requires i < nx && j <= ny && nz > 0 && |vertices| == nx * ny * nz
  {
    if j == 0 then []
    else
      NodeInRange(i, j - 1, nx, ny, nz);
      RowPins(i, j - 1, nx, ny, nz, vertices) + Pin(NodeIndex(i, j - 1, 0, ny, nz), vertices)
  }

  /** The conditions issued for the rows `0 .. i - 1`. */
  function GridPins(i: nat, nx: nat, ny: nat, nz: nat, vertices: seq<Vec3>): seq<Fixed>
    requires i <= nx && nz > 0 && |vertices| == nx * ny * nz
  {
    if i == 0 then [] else GridPins(i - 1, nx, ny, nz, vertices) + RowPins(i - 1, ny, nx, ny, nz, vertices)
  }

  /** The boundary-condition loop of the demo: for every node column `(i, j)`
      the bottom node `k = 0` is pinned, coordinate by coordinate, at its rest
      position. */
  method DirichletConditions(nx: nat, ny: nat, nz: nat, vertices: seq<Vec3>) returns (bc: seq<Fixed>)
    requires nz > 0 && |vertices| == nx * ny * nz
    ensures bc == GridPins(nx, nx, ny, nz, vertices)
    ensures forall e :: e in bc <==> IsBottomPin(e, nx, ny, nz, vertices)
  {
    bc := [];
    var i := 0;
    while i < nx
      invariant 0 <= i <= nx
      invariant bc == GridPins(i, nx, ny, nz, vertices)
    {
      var j := 0;
      while j < ny
        invariant 0 <= j <= ny
        invariant bc == GridPins(i, nx, ny, nz, vertices) + RowPins(i, j, nx, ny, nz, vertices)
      {
        var nodeIdx := i * ny * nz + j * nz;
        NodeInRange(i, j, nx, ny, nz);
        var p := vertices[nodeIdx];
        bc := bc + [Fixed(3 * nodeIdx, p.x), Fixed(3 * nodeIdx + 1, p.y), Fixed(3 * nodeIdx + 2, p.z)];
        j := j + 1;
      }
      i := i + 1;
    }
    GridPinsExactly(nx, ny, nz, vertices);
  }

  /** `e` fixes coordinate `c` of the bottom node of column `(i, j)` at its rest value. */
  ghost predicate PinOf(e: Fixed, i: nat, j: nat, c: nat, ny: nat, nz: nat, vertices: seq<Vec3>)
  {
    var node := NodeIndex(i, j, 0, ny, nz);
    c < 3 && node < |vertices| && e == Fixed(3 * node + c, Coordinate(vertices[node], c))
  }

  /** `e` fixes one coordinate of the bottom node of some column at its rest value. */
  ghost predicate IsBottomPin(e: Fixed, nx: nat, ny: nat, nz: nat, vertices: seq<Vec3>)
  {
    exists i: nat, j: nat, c: nat :: i < nx && j < ny && PinOf(e, i, j, c, ny, nz, vertices)
  }

  lemma {:induction false} InConcat<T>(x: T, a: seq<T>, b: seq<T>)
    ensures x in a + b <==> x in a || x in b
  {
  }

  /** Every condition issued for the columns `(i, 0) .. (i, j - 1)` pins one
      of them: the column `j'` and the coordinate `c` it fixes. */
  lemma {:induction false} RowPinsSound(i: nat, j: nat, nx: nat, ny: nat, nz: nat, vertices: seq<Vec3>, e: Fixed)
      returns (j': nat, c: nat)
    requires i < nx && j <= ny && nz > 0 && |vertices| == nx * ny * nz
    requires e in RowPins(i, j, nx, ny, nz, vertices)
    ensures j' < j && PinOf(e, i, j', c, ny, nz, vertices)
  {
    NodeInRange(i, j - 1, nx, ny, nz);
    var node := NodeIndex(i, j - 1, 0, ny, nz);
    var front := RowPins(i, j - 1, nx, ny, nz, vertices);
    InConcat(e, front, Pin(node, vertices));
    if e in front {
      j', c := RowPinsSound(i, j - 1, nx, ny, nz, vertices, e);
    } else {
      j' := j - 1;
      c := if e == Pin(node, vertices)[0] then 0 else if e == Pin(node, vertices)[1] then 1 else 2;
    }
  }

  /** Every condition issued for the rows `0 .. i - 1` pins a bottom node:
      the one of column `(i', j)`, coordinate `c`. */
  lemma {:induction false} GridPinsSound(i: nat, nx: nat, ny: nat, nz: nat, vertices: seq<Vec3>, e: Fixed)
      returns (i': nat, j: nat, c: nat)
    requires i <= nx && nz > 0 && |vertices| == nx * ny * nz
    requires e in GridPins(i, nx, ny, nz, vertices)
    ensures i' < i && j < ny && PinOf(e, i', j, c, ny, nz, vertices)
  {
    var front, row := GridPins(i - 1, nx, ny, nz, vertices), RowPins(i - 1, ny, nx, ny, nz, vertices);
    InConcat(e, front, row);
    if e in front {
      i', j, c := GridPinsSound(i - 1, nx, ny, nz, vertices, e);
    } else {
      i' := i - 1;
      j, c := RowPinsSound(i - 1, ny, nx, ny, nz, vertices, e);
    }
  }

  /** The pins of column `(i, j')` are issued once the loop over `j` has passed it. */
  lemma {:induction false} RowPinListed(i: nat, j': nat, c: nat, j: nat, nx: nat, ny: nat, nz: nat, vertices: seq<Vec3>, e: Fixed)
    requires i < nx && j' < j <= ny && nz > 0 && |vertices| == nx * ny * nz
    requires PinOf(e, i, j', c, ny, nz, vertices)
    ensures e in RowPins(i, j, nx, ny, nz, vertices)
  {
    NodeInRange(i, j - 1, nx, ny, nz);
    var node := NodeIndex(i, j - 1, 0, ny, nz);
    var front := RowPins(i, j - 1, nx, ny, nz, vertices);
    InConcat(e, front, Pin(node, vertices));
    if j' == j - 1 {
      assert e == Pin(node, vertices)[c];
    } else {
      RowPinListed(i, j', c, j - 1, nx, ny, nz, vertices, e);
    }
  }

  /** The pins of every bottom node of the rows `0 .. i - 1` are issued. */
  lemma {:induction false} GridPinListed(i': nat, j: nat, c: nat, i: nat, nx: nat, ny: nat, nz: nat, vertices: seq<Vec3>, e: Fixed)
    requires i' < i <= nx && j < ny && nz > 0 && |vertices| == nx * ny * nz
    requires PinOf(e, i', j, c, ny, nz, vertices)
    ensures e in GridPins(i, nx, ny, nz, vertices)
  {
    var front, row := GridPins(i - 1, nx, ny, nz, vertices), RowPins(i - 1, ny, nx, ny, nz, vertices);
    InConcat(e, front, row);
    if i' == i - 1 {
      RowPinListed(i', j, c, ny, nx, ny, nz, vertices, e);
    } else {
      GridPinListed(i', j, c, i - 1, nx, ny, nz, vertices, e);
    }
  }

  /** The conditions of the demo are exactly the pins of the bottom nodes. */
  lemma {:induction false} GridPinsExactly(nx: nat, ny: nat, nz: nat, vertices: seq<Vec3>)
    requires nz > 0 && |vertices| == nx * ny * nz
    ensures forall e :: e in GridPins(nx, nx, ny, nz, vertices) <==> IsBottomPin(e, nx, ny, nz, vertices)
  {
    forall e | e in GridPins(nx, nx, ny, nz, vertices)
      ensures IsBottomPin(e, nx, ny, nz, vertices)
    {
      var i, j, c := GridPinsSound(nx, nx, ny, nz, vertices, e);
    }
    forall e | IsBottomPin(e, nx, ny, nz, vertices)
      ensures e in GridPins(nx, nx, ny, nz, vertices)
    {
      var i: nat, j: nat, c: nat :| i < nx && j < ny && PinOf(e, i, j, c, ny, nz, vertices);
      GridPinListed(i, j, c, nx, nx, ny, nz, vertices, e);
    }
  }

  lemma NodeInRange(i: nat, j: nat, nx: nat, ny: nat, nz: nat)
    requires i < nx && j < ny && nz > 0
    ensures NodeIndex(i, j, 0, ny, nz) < nx * ny * nz
  {
    var col := i * ny + j;
    MulMono(i, nx - 1, ny);
    assert (nx - 1) * ny == nx * ny - ny;
    assert col < nx * ny;
    MulMono(col, nx * ny - 1, nz);
    assert (nx * ny - 1) * nz == nx * ny * nz - nz;
    assert NodeIndex(i, j, 0, ny, nz) == col * nz;
  }
}
