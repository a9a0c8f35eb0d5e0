/** The timing benchmark of `benchmark_3d.py`: for every relative tolerance,
    every solver configuration and every thread count it runs `simulate` with
    gradients, packs the gradient and appends the run's times, loss and
    gradient under the configuration's label. */
module Benchmark3d {
  import opened Wrappers
  import opened Vectors
  import opened SolverOptions
  import opened GradientPacking

  const Methods: seq<string> := ["newton_pcg", "newton_cholesky", "pd_eigen", "pd_no_bfgs"]

  const ThreadCts: seq<nat> := [2, 4, 8]

  const RelTols: seq<real> := [0.1, 0.01, 0.001, 0.0001, 0.00001, 0.000001, 0.0000001, 0.00000001]

  const FrameNum: nat := 25

  const NewtonOpt: Options := map[
    "max_newton_iter" := 5000.0, "max_ls_iter" := 10.0, "abs_tol" := 1e-9, "rel_tol" := 1e-4,
    "verbose" := 0.0, "thread_ct" := 4.0]

  const PdOpt: Options := map[
    "max_pd_iter" := 5000.0, "max_ls_iter" := 1.0, "abs_tol" := 1e-9, "rel_tol" := 1e-4,
    "verbose" := 0.0, "thread_ct" := 4.0, "use_bfgs" := 1.0, "bfgs_history_size" := 10.0]

  /** One option dictionary per method; the last one has BFGS switched off. */
  const Opts: seq<Options> := [NewtonOpt, NewtonOpt, PdOpt, PdOpt["use_bfgs" := 0.0]]

  /** The table key `'{method}_{thread_ct}threads'`, kept as its two parts. */
  datatype Label = Label(name: string, threads: nat)

  /** What `simulate` reports for one run with gradients. */
  datatype Run = Run(loss: real, grad: Gradients, forwardTime: real, backwardTime: real)

  /** One row appended to the tables: the total time, the forward time, the
      backward time, the loss and the packed gradient. */
  datatype Record = Record(forwardBackward: real, forward: real, backward: real, loss: real, grad: seq<real>)

  /** `simulate`, which is not part of this model, reports gradients shaped
      like the inputs `q0`, `v0`, `a0` and `f0` repeated over the frames. */
  ghost predicate Consistent(simulate: (string, Options) -> Run, dofs: nat, actDofs: nat)
  {
    forall solver, opt :: Shaped(simulate(solver, opt).grad, dofs, actDofs, dofs, FrameNum)
  }

  /** `'pd' in method`. */
  predicate HasPd(s: string)
  {
    exists i :: 0 <= i < |s| - 1 && s[i] == 'p' && s[i + 1] == 'd'
  }

  /** The solver name handed to `simulate`. */
  function SolverName(name: string): (solver: string)
    ensures name != "pd_no_bfgs" ==> solver == name
    ensures name == "pd_no_bfgs" ==> solver == "pd_eigen"
  {
    if name == "pd_no_bfgs" then "pd_eigen" else name
  }

  /** The label of a run, or `None` where reading `opt['use_bfgs']` raises a
      `KeyError`; the lookup only happens for a PD solver. */
  function RunLabel(solver: string, opt: Options, threads: nat): (l: Option<Label>)
    ensures !HasPd(solver) ==> l == Some(Label(solver, threads))
    ensures HasPd(solver) && "use_bfgs" in opt && opt["use_bfgs"] == 0.0 ==> l == Some(Label("pd_no_bfgs", threads))
    ensures HasPd(solver) && "use_bfgs" in opt && opt["use_bfgs"] != 0.0 ==> l == Some(Label(solver, threads))
    ensures l.None? <==> HasPd(solver) && "use_bfgs" !in opt
  {
    if HasPd(solver) then
      if "use_bfgs" !in opt then None
      else if opt["use_bfgs"] == 0.0 then Some(Label("pd_no_bfgs", threads))
      else Some(Label(solver, threads))
    else Some(Label(solver, threads))
  }

  /** The option dictionary in effect for method `m` at a thread count and a
      tolerance: every declared key kept, `rel_tol` and `thread_ct`
      overwritten, every other value as declared. */
  function RunOptions(m: nat, threads: nat, relTol: real): (o: Options)
    requires m < 4
    ensures o.Keys == Opts[m].Keys
    ensures o["rel_tol"] == relTol && o["thread_ct"] == threads as real
    ensures forall k :: k in Opts[m] && k != "rel_tol" && k != "thread_ct" ==> o[k] == Opts[m][k]
  {
    Opts[m]["rel_tol" := relTol]["thread_ct" := threads as real]
  }

  /** `o` has the keys of `base` and its values, except perhaps under
      `rel_tol` and `thread_ct`. */
  predicate Agrees(o: Options, base: Options)
  {
    o.Keys == base.Keys && forall k :: k in o && k != "rel_tol" && k != "thread_ct" ==> o[k] == base[k]
  }

  /** Every declared dictionary has both keys the loops overwrite. */
  lemma DeclaredKeys(m: nat)
    requires m < 4
    ensures "rel_tol" in Opts[m] && "thread_ct" in Opts[m]
  {
  }

  /** Overwriting `rel_tol` keeps the agreement. */
  lemma SetRelTol(o: Options, base: Options, relTol: real)
    requires Agrees(o, base) && "rel_tol" in base
    ensures Agrees(o["rel_tol" := relTol], base)
  {
  }

  /** Overwriting `thread_ct` once `rel_tol` is set gives the declared options
      with both keys set, whatever earlier runs left in the dictionary. */
  lemma SetThreadCt(o: Options, base: Options, threads: nat, relTol: real)
    requires Agrees(o, base) && "thread_ct" in base && "rel_tol" in o && o["rel_tol"] == relTol
    ensures o["thread_ct" := threads as real] == base["rel_tol" := relTol]["thread_ct" := threads as real]
    ensures Agrees(o["thread_ct" := threads as real], base)
  {
    var a := o["thread_ct" := threads as real];
    var b := base["rel_tol" := relTol]["thread_ct" := threads as real];
    assert a.Keys == b.Keys;
    forall k | k in a
      ensures a[k] == b[k]
    {
    }
  }

  lemma MethodNames()
    ensures !HasPd(Methods[0]) && !HasPd(Methods[1]) && HasPd(Methods[2]) && HasPd(Methods[3])
    ensures forall m, m' :: 0 <= m < m' < 4 ==> Methods[m] != Methods[m']
  {
    assert Methods[2][0] == 'p' && Methods[2][1] == 'd';
    assert Methods[3][0] == 'p' && Methods[3][1] == 'd';
    assert Methods[0][3] != Methods[3][3];
    assert Methods[0][0] != Methods[2][0];
  }

  /** Every run is labelled by its own method name and thread count, so each
      label is one of the pre-initialised keys; the Newton options, which have
      no `use_bfgs`, are never looked up. */
  lemma RunLabelIsMethod(m: nat, threads: nat, relTol: real)
    requires m < 4
    ensures RunLabel(SolverName(Methods[m]), RunOptions(m, threads, relTol), threads) == Some(Label(Methods[m], threads))
  {
    MethodNames();
  }

  /** The label of method `m` at thread count `ThreadCts[ti]`. */
  function Key(m: nat, ti: nat): Label
    requires m < 4 && ti < 3
  {
    Label(Methods[m], ThreadCts[ti])
  }

  /** Different configurations have different labels. */
  lemma KeysDistinct(m: nat, ti: nat, m': nat, ti': nat)
    requires m < 4 && ti < 3 && m' < 4 && ti' < 3 && (m, ti) != (m', ti')
    ensures Key(m, ti) != Key(m', ti')
  {
    MethodNames();
  }

  /** Every key of the tables. */
  function AllLabels(): set<Label>
  {
    set m, ti | 0 <= m < 4 && 0 <= ti < 3 :: Key(m, ti)
  }

  /** The row recorded for method `m`, a thread count and a tolerance. */
  function Expected(simulate: (string, Options) -> Run, dofs: nat, actDofs: nat, m: nat, threads: nat, relTol: real): Record
    requires m < 4 && Consistent(simulate, dofs, actDofs)
  {
    var run := simulate(SolverName(Methods[m]), RunOptions(m, threads, relTol));
    Record(run.forwardTime + run.backwardTime, run.forwardTime, run.backwardTime, run.loss,
           Packed(run.grad, dofs, actDofs, dofs, FrameNum))
  }

  /** The rows of one label once every tolerance has run: row `k` comes from
      the run with tolerance `RelTols[k]`. */
  function Runs(simulate: (string, Options) -> Run, dofs: nat, actDofs: nat, m: nat, threads: nat): (rows: seq<Record>)
    requires m < 4 && Consistent(simulate, dofs, actDofs)
    ensures |rows| == |RelTols|
    ensures forall k :: 0 <= k < |RelTols| ==> rows[k] == Expected(simulate, dofs, actDofs, m, threads, RelTols[k])
  {
    seq(|RelTols|, k requires 0 <= k < |RelTols| => Expected(simulate, dofs, actDofs, m, threads, RelTols[k]))
  }

  /** Every row records its total time as its forward time plus its backward
      time, and a packed gradient of the size of the packed inputs. */
  lemma RunsRows(simulate: (string, Options) -> Run, dofs: nat, actDofs: nat, m: nat, threads: nat, k: nat)
    requires m < 4 && k < |RelTols| && Consistent(simulate, dofs, actDofs)
    ensures var row := Runs(simulate, dofs, actDofs, m, threads)[k];
            row.forwardBackward == row.forward + row.backward && |row.grad| == 2 * dofs + actDofs + dofs
  {
  }

  /** Whether configuration `(m, ti)` has already run in the current round. */
  predicate Done(m: nat, ti: nat, mDone: nat, tDone: nat)
  {
    m < mDone || (m == mDone && ti < tDone)
  }

  /** The rows under every label during round `r`: the configurations that
      have already run in this round have one more row. */
  ghost predicate Filled(tables: map<Label, seq<Record>>, simulate: (string, Options) -> Run, dofs: nat, actDofs: nat,
                         r: nat, mDone: nat, tDone: nat)
    requires r < |RelTols| && Consistent(simulate, dofs, actDofs)
  {
    forall m, ti :: 0 <= m < 4 && 0 <= ti < 3 ==>
      Key(m, ti) in tables &&
      tables[Key(m, ti)] == Runs(simulate, dofs, actDofs, m, ThreadCts[ti])[..if Done(m, ti, mDone, tDone) then r + 1 else r]
  }

  /** The tables during round `r`: every label is a key, and the labels that
      have already run in this round have one more row. */
  ghost predicate Progress(tables: map<Label, seq<Record>>, simulate: (string, Options) -> Run, dofs: nat, actDofs: nat,
                           r: nat, mDone: nat, tDone: nat)
    requires r < |RelTols| && Consistent(simulate, dofs, actDofs)
  {
    tables.Keys == AllLabels() && Filled(tables, simulate, dofs, actDofs, r, mDone, tDone)
  }

  /** The table initialisation: an empty list under every label. */
  method InitTables() returns (tables: map<Label, seq<Record>>)
    ensures tables.Keys == AllLabels()
    ensures forall l :: l in tables ==> tables[l] == []
  {
    tables := map[];
    for m := 0 to 4
      invariant tables.Keys == set m', ti | 0 <= m' < m && 0 <= ti < 3 :: Key(m', ti)
      invariant forall l :: l in tables ==> tables[l] == []
    {
      for ti := 0 to 3
        invariant tables.Keys == (set m', ti' | 0 <= m' < m && 0 <= ti' < 3 :: Key(m', ti'))
                                + (set ti' | 0 <= ti' < ti :: Key(m, ti'))
        invariant forall l :: l in tables ==> tables[l] == []
      {
        tables := tables[Key(m, ti) := []];
      }
    }
  }

  /** Appending a row under the label of `(m, ti)` moves that configuration
      to the done side and leaves every other label alone. */
  lemma {:induction false} FilledStep(tables: map<Label, seq<Record>>, simulate: (string, Options) -> Run, dofs: nat, actDofs: nat,
                   r: nat, m: nat, ti: nat, row: Record)
    requires r < |RelTols| && m < 4 && ti < 3 && Consistent(simulate, dofs, actDofs)
    requires Filled(tables, simulate, dofs, actDofs, r, m, ti)
    requires row == Runs(simulate, dofs, actDofs, m, ThreadCts[ti])[r]
    ensures Key(m, ti) in tables
    ensures Filled(tables[Key(m, ti) := tables[Key(m, ti)] + [row]], simulate, dofs, actDofs, r, m, ti + 1)
  {
    var l := Key(m, ti);
    var tables' := tables[l := tables[l] + [row]];
    var rows := Runs(simulate, dofs, actDofs, m, ThreadCts[ti]);
    assert rows[..r + 1] == rows[..r] + [row];
    forall m', ti' | 0 <= m' < 4 && 0 <= ti' < 3
      ensures Key(m', ti') in tables'
      ensures tables'[Key(m', ti')]
        == Runs(simulate, dofs, actDofs, m', ThreadCts[ti'])[..if Done(m', ti', m, ti + 1) then r + 1 else r]
    {
      if (m', ti') != (m, ti) {
        KeysDistinct(m, ti, m', ti');
      }
    }
  }

  /** After the last thread count of method `m` the next method starts. */
  lemma {:induction false} MethodEnd(tables: map<Label, seq<Record>>, simulate: (string, Options) -> Run, dofs: nat, actDofs: nat,
                  r: nat, m: nat)
    requires r < |RelTols| && m < 4 && Consistent(simulate, dofs, actDofs)
    requires Progress(tables, simulate, dofs, actDofs, r, m, 3)
    ensures Progress(tables, simulate, dofs, actDofs, r, m + 1, 0)
  {
    assert forall m', ti :: 0 <= ti < 3 ==> Done(m', ti, m, 3) == Done(m', ti, m + 1, 0);
  }

  /** One run: `simulate`, the packing of its gradient and the appends. */
  method RunOne(tables: map<Label, seq<Record>>, opt: Options, simulate: (string, Options) -> Run,
                dofs: nat, actDofs: nat, r: nat, m: nat, ti: nat)
    returns (tables': map<Label, seq<Record>>)
    requires r < |RelTols| && m < 4 && ti < 3 && Consistent(simulate, dofs, actDofs)
    requires opt == RunOptions(m, ThreadCts[ti], RelTols[r])
    requires Progress(tables, simulate, dofs, actDofs, r, m, ti)
    ensures Progress(tables', simulate, dofs, actDofs, r, m, ti + 1)
  {
    var solver := SolverName(Methods[m]);
    RunLabelIsMethod(m, ThreadCts[ti], RelTols[r]);
    var key := RunLabel(solver, opt, ThreadCts[ti]).value;
    assert key == Key(m, ti);
    var run := simulate(solver, opt);
    var grad := PackGradient(run.grad, dofs, actDofs, dofs, FrameNum);
    var row := Record(run.forwardTime + run.backwardTime, run.forwardTime, run.backwardTime, run.loss, grad);
    FilledStep(tables, simulate, dofs, actDofs, r, m, ti, row);
    tables' := tables[key := tables[key] + [row]];
  }

  /** The thread-count loop for method `m`: `opt` is mutated in place; `base`
      is the dictionary as declared. */
  method RunMethod(tables: map<Label, seq<Record>>, opt: Options, ghost base: Options,
                   simulate: (string, Options) -> Run, dofs: nat, actDofs: nat, r: nat, m: nat)
    returns (tables': map<Label, seq<Record>>, opt': Options)
    requires r < |RelTols| && m < 4 && Consistent(simulate, dofs, actDofs)
    requires base == Opts[m] && "rel_tol" in base && "thread_ct" in base && Agrees(opt, base)
    requires Progress(tables, simulate, dofs, actDofs, r, m, 0)
    ensures Agrees(opt', base)
    ensures Progress(tables', simulate, dofs, actDofs, r, m + 1, 0)
  {
    tables', opt' := tables, opt;
    SetRelTol(opt', base, RelTols[r]);
    opt' := opt'["rel_tol" := RelTols[r]];
    for ti := 0 to 3
      invariant Progress(tables', simulate, dofs, actDofs, r, m, ti)
      invariant Agrees(opt', base) && "rel_tol" in opt' && opt'["rel_tol"] == RelTols[r]
    {
      SetThreadCt(opt', base, ThreadCts[ti], RelTols[r]);
      opt' := opt'["thread_ct" := ThreadCts[ti] as real];
      tables' := RunOne(tables', opt', simulate, dofs, actDofs, r, m, ti);
    }
    MethodEnd(tables', simulate, dofs, actDofs, r, m);
  }

  /** The rows of every label after the first `r` tolerances. */
  ghost predicate Rounds(tables: map<Label, seq<Record>>, simulate: (string, Options) -> Run, dofs: nat, actDofs: nat, r: nat)
    requires r <= |RelTols| && Consistent(simulate, dofs, actDofs)
  {
    tables.Keys == AllLabels() &&
    forall m, ti :: 0 <= m < 4 && 0 <= ti < 3 ==> tables[Key(m, ti)] == Runs(simulate, dofs, actDofs, m, ThreadCts[ti])[..r]
  }

  lemma {:induction false} RoundStart(tables: map<Label, seq<Record>>, simulate: (string, Options) -> Run, dofs: nat, actDofs: nat, r: nat)
    requires r < |RelTols| && Consistent(simulate, dofs, actDofs)
    requires Rounds(tables, simulate, dofs, actDofs, r)
    ensures Progress(tables, simulate, dofs, actDofs, r, 0, 0)
  {
    forall m, ti | 0 <= m < 4 && 0 <= ti < 3
      ensures Key(m, ti) in tables
    {
      assert Key(m, ti) in AllLabels();
    }
  }

  lemma {:induction false} RoundEnd(tables: map<Label, seq<Record>>, simulate: (string, Options) -> Run, dofs: nat, actDofs: nat, r: nat)
    requires r < |RelTols| && Consistent(simulate, dofs, actDofs)
    requires Progress(tables, simulate, dofs, actDofs, r, 4, 0)
    ensures Rounds(tables, simulate, dofs, actDofs, r + 1)
  {
  }

  /** `test_benchmark_3d`'s tables: under the label of every method and thread
      count, one row per tolerance, in order, each from the run with that
      method, thread count and tolerance. */
  method BenchmarkTables(simulate: (string, Options) -> Run, dofs: nat, actDofs: nat)
    returns (tables: map<Label, seq<Record>>)
    requires Consistent(simulate, dofs, actDofs)
    ensures tables.Keys == AllLabels()
    ensures forall m, ti :: 0 <= m < 4 && 0 <= ti < 3 ==>
              tables[Key(m, ti)] == Runs(simulate, dofs, actDofs, m, ThreadCts[ti])
  {
    tables := InitTables();
    var opts := Opts;
    for r := 0 to |RelTols|
      invariant Rounds(tables, simulate, dofs, actDofs, r)
      invariant |opts| == 4 && forall m :: 0 <= m < 4 ==> Agrees(opts[m], Opts[m])
    {
      RoundStart(tables, simulate, dofs, actDofs, r);
      for m := 0 to 4
        invariant Progress(tables, simulate, dofs, actDofs, r, m, 0)
        invariant |opts| == 4 && forall m' :: 0 <= m' < 4 ==> Agrees(opts[m'], Opts[m'])
      {
        var opt;
        DeclaredKeys(m);
        tables, opt := RunMethod(tables, opts[m], Opts[m], simulate, dofs, actDofs, r, m);
        opts := opts[m := opt];
      }
      RoundEnd(tables, simulate, dofs, actDofs, r);
    }
    forall m, ti | 0 <= m < 4 && 0 <= ti < 3
      ensures tables[Key(m, ti)] == Runs(simulate, dofs, actDofs, m, ThreadCts[ti])
    {
      var rows := Runs(simulate, dofs, actDofs, m, ThreadCts[ti]);
      assert rows[..|RelTols|] == rows;
    }
  }
}
