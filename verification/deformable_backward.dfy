/** The 2D backward test: for each of three solvers it runs the gradient
    checker on `loss_and_grad` and `loss`, both built on the same split of the
    test point, and reports failure at the first solver that does not pass. */
module DeformableBackward2d {
  import opened Vectors
  import opened SolverOptions
  import opened GradientPacking

  const Methods: seq<string> := ["newton_pcg", "newton_cholesky", "pd"]

  const NewtonOptions: Options := map[
    "max_newton_iter" := 200.0, "max_ls_iter" := 10.0, "abs_tol" := 1e-10, "rel_tol" := 1e-10,
    "verbose" := 0.0, "thread_ct" := 4.0]

  const PdOptions: Options := map[
    "max_pd_iter" := 200.0, "abs_tol" := 1e-10, "rel_tol" := 1e-10, "verbose" := 0.0,
    "thread_ct" := 4.0, "method" := 1.0, "bfgs_history_size" := 10.0]

  const Opts: seq<Options> := [NewtonOptions, NewtonOptions, PdOptions]

  const FrameNum: nat := 30

  /** The environment's `simulate`, which is not part of this model: the loss
      and the gradients it reports for a solver, its options and the inputs. */
  datatype Simulator = Simulator(
    loss: (string, Options, Inputs) -> real,
    grad: (string, Options, Inputs) -> Gradients)

  /** `simulate` reports gradients shaped like its inputs. */
  ghost predicate Consistent(sim: Simulator, dofs: nat, actDofs: nat, fDofs: nat)
  {
    forall m, o, i :: Shaped(sim.grad(m, o, i), dofs, actDofs, fDofs, FrameNum)
  }

  /** `loss(x)`: the loss of `simulate` on the split of `x`. At the test
      point `q0 | v0 | a0 | f0` that is the loss of `simulate` started from
      `q0`, `v0` with `a0` and `f0` applied at every frame. */
  function Loss(sim: Simulator, solver: string, opt: Options, x: seq<real>, dofs: nat, actDofs: nat): (l: real)
    requires 2 * dofs + actDofs <= |x|
    ensures forall q0, v0, a0, f0 :: x == Pack(q0, v0, a0, f0) && |q0| == dofs && |v0| == dofs && |a0| == actDofs ==>
              l == sim.loss(solver, opt, Inputs(q0, v0, Broadcast(a0, FrameNum), Broadcast(f0, FrameNum)))
  {
    SplitPacked(x, dofs, actDofs, FrameNum);
    sim.loss(solver, opt, Split(x, dofs, actDofs, FrameNum))
  }

  /** `loss_and_grad(x)`: the same split, the loss, and the packed gradient. */
  method LossAndGrad(sim: Simulator, solver: string, opt: Options, x: seq<real>, dofs: nat, actDofs: nat)
    returns (loss: real, grad: seq<real>)
    requires 2 * dofs + actDofs <= |x|
    requires Consistent(sim, dofs, actDofs, |x| - 2 * dofs - actDofs)
    ensures loss == Loss(sim, solver, opt, x, dofs, actDofs)
    ensures |grad| == |x|
    ensures grad == Packed(sim.grad(solver, opt, Split(x, dofs, actDofs, FrameNum)),
                           dofs, actDofs, |x| - 2 * dofs - actDofs, FrameNum)
  {
    var inputs := Split(x, dofs, actDofs, FrameNum);
    loss := sim.loss(solver, opt, inputs);
    var g := sim.grad(solver, opt, inputs);
    grad := PackGradient(g, dofs, actDofs, |x| - 2 * dofs - actDofs, FrameNum);
  }

  /** The coordinates of a test point of `size` entries that the checker
      compares: `skip_var` leaves out a coordinate exactly when the
      environment reports it as a Dirichlet degree of freedom. */
  function CheckedCoordinates(size: nat, isDirichletDof: nat -> bool): (r: set<nat>)
    ensures forall i: nat :: i in r <==> i < size && !isDirichletDof(i)
  {
    set i: nat | i < size && !isDirichletDof(i)
  }

  /** The loop over `zip(methods, opts)`: returns False as soon as one
      configuration fails the check and True when all of them pass. `ran`
      is the number of configurations that were checked. */
  method CheckAll(configs: seq<(string, Options)>, passes: (string, Options) -> bool) returns (ok: bool, ran: nat)
    ensures ok <==> forall i :: 0 <= i < |configs| ==> passes(configs[i].0, configs[i].1)
    ensures ok ==> ran == |configs|
    ensures !ok ==> 1 <= ran <= |configs| && !passes(configs[ran - 1].0, configs[ran - 1].1)
    ensures forall i :: 0 <= i < ran - 1 ==> passes(configs[i].0, configs[i].1)
  {
    ran := 0;
    while ran < |configs|
      invariant 0 <= ran <= |configs|
      invariant forall i :: 0 <= i < ran ==> passes(configs[i].0, configs[i].1)
    {
      var (solver, opt) := configs[ran];
      ran := ran + 1;
      if !passes(solver, opt) {
        return false, ran;
      }
    }
    ok := true;
  }

  /** `test_deformable_backward_2d`: every solver is checked on the test
      point `q0 | v0 | a0 | f0`, in the order newton_pcg, newton_cholesky, pd. */
  method TestDeformableBackward2d(check: (string, Options) -> bool) returns (ok: bool)
    ensures ok <==> check("newton_pcg", NewtonOptions) && check("newton_cholesky", NewtonOptions) && check("pd", PdOptions)
  {
    var configs := Zip(Methods, Opts);
    var ran;
    ok, ran := CheckAll(configs, check);
    assert configs[0] == ("newton_pcg", NewtonOptions);
    assert configs[1] == ("newton_cholesky", NewtonOptions);
    assert configs[2] == ("pd", PdOptions);
  }
}
