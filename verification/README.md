# A verified model of the DiffPD bookkeeping

DiffPD simulates soft bodies with projective dynamics and differentiates the
simulation. The numerics run in C++. Around them sit Python scripts and
environments. Those scripts cache trajectories and chain adjoints backwards,
pack gradients for the gradient checker, define losses with closed-form
gradients, and build and read meshes and data files. This project models that
layer, plus the one C++ state force whose adjoint is hand-written (the planar
collision penalty). All of it is stated over exact reals and unbounded
integers.

The modules follow the source files:

- `OpenLoopDemo` (trajectory.dfy): the forward/reverse loops of `loss_and_grad` and the Dirichlet pins of `python/open_loop_demo_3d.py`.
- `GradientPacking`, `DeformableBackward2d`, `SolverOptions`: the split, broadcast and re-packing around the gradient checker and the per-solver test loop of `python/example/deformable_backward_2d.py`.
- `Benchmark3d`: the option mutation, run labels, result tables and gradient packing of `python/example/benchmark_3d.py`.
- `Material`: the Lamé conversion shared by the environments.
- `BouncingBall`, `Bunny`, `Quadruped`, `CenterOfMass`: the environment constructors (voxel occupancy, friction nodes, defaults), losses and gradients of `python/py_diff_pd/env/*_env_3d.py`.
- `PlanarCollision`: `Initialize`, `ForwardForce` and `BackwardForce` of `cpp/core/src/fem/planar_collision_state_force.cpp`, as a class.
- `MeshFile`, `FaceParity`, `Mesh`, `HexMesh`: the mesh files, hex numbering and boundary extraction of `python/py_diff_pd/common/mesh.py`.
- `TetMesh`: the tet file, face winding, boundary, contact vertices and re-orientation of `python/py_diff_pd/common/tet_mesh.py`.
- `SoftStarfish`, `Text`: the CSV loader, actuation signal and checkpoint numbering of `python/example/soft_starfish_3d.py`, with `str.strip`, `str.split` and `'{:04d}'`.
- `SimToReal`, `PixelFrame`: the calibration system, intrinsics, frame rate and frame files of `python/example/sim_to_real.py`.
- `RenderBilliard`: the two-ball mesh, render schedule, overlays and camera frame of `python/example/render_billiard_ball_3d.py`.
- `Vectors`, `Wrappers`, `Division`: shared vector arithmetic, `Option`/`Result`, and integer-division facts.

The step solver of the demo (`PyForward`/`PyBackward`) is a pair of function
values. So are the environments' `simulate`, Python's `float` parser and the
renderers' image readers. The model proves what the shown code does with
their results: ordering, caching, chaining, packing and bookkeeping.

The gradient claims are stated exactly. For every loss, the reported
gradient entry equals the central difference `(L(x + h·e_j) − L(x − h·e_j)) / 2h`
for every `h ≠ 0`. This identity holds exactly for the quadratic and linear
losses used here. For the planar collision force it is proved for
perturbations that stay within one piece of the force rule.

## Model

| member | source | states |
|---|---|---|
| OpenLoopDemo.Rollout | python/open_loop_demo_3d.py:96-106 | the trajectory has `frames + 1` states, starts at `(q0, v0)`, and each state is the forward step of the previous one under the same force `f` |
| OpenLoopDemo.ForwardPass | python/open_loop_demo_3d.py:96-106 | the forward loop's cached `q[k], v[k]` are exactly the states of `Rollout` for every `k <= frame_num`, each of length `dofs` |
| OpenLoopDemo.Seed | python/open_loop_demo_3d.py:113-117 | the seed adjoint is zero on every coordinate except the last three of `q`, which are `2·(target_q − target_position)`; the velocity seed is all zero |
| OpenLoopDemo.SeedIsLossGradient | python/open_loop_demo_3d.py:108-117 | the seed entry `j` is the exact central difference of the loss along position coordinate `j`, for every `j` and step `h ≠ 0` |
| OpenLoopDemo.SeedIsLossGradientFar | python/open_loop_demo_3d.py:108-115 | moving a coordinate outside the tracked vertex leaves the loss unchanged |
| OpenLoopDemo.SeedIsLossGradientNear | python/open_loop_demo_3d.py:108-116 | the central difference along a tracked coordinate is `2·(q[j] − target)` |
| OpenLoopDemo.TrackedPerturbFar | python/open_loop_demo_3d.py:108 | the tracked vertex is the last three entries and ignores every other coordinate |
| OpenLoopDemo.TrackedPerturbNear | python/open_loop_demo_3d.py:108-109 | moving a tracked coordinate moves the matching entry of `target_q − target_position` and nothing else |
| OpenLoopDemo.TargetLossZero | python/open_loop_demo_3d.py:108-109 | the loss is never negative and is zero exactly when the tracked vertex is on the target |
| OpenLoopDemo.ForceGradientFrom | python/open_loop_demo_3d.py:112-125 | the accumulated gradient always has the length of `f` |
| OpenLoopDemo.ReversePass | python/open_loop_demo_3d.py:112-127 | the reverse loop makes `frame_num` backward calls for frames `frame_num−1` down to 0, each on the cached states `q[i], v[i], q[i+1], v[i+1]`; the first gets the seed, every later one the `(dl_dq, dl_dv)` the previous call returned; `grad` is the accumulated force gradient |
| OpenLoopDemo.LossAndGrad | python/open_loop_demo_3d.py:94-132 | the loss is the squared distance of the rolled-out tracked vertex to the target, the gradient has the length of `f` and is the sum of the per-frame force gradients, and the recorded backward calls are in reverse frame order on the cached states with chained adjoints |
| OpenLoopDemo.NoFramesZeroGradient | python/open_loop_demo_3d.py:99-119 | with `frame_num = 0` no backward call contributes and the gradient is all zero |
| OpenLoopDemo.FrameColumn | python/open_loop_demo_3d.py:119-125 | the column of coordinate `j` has one entry per frame not yet processed |
| OpenLoopDemo.FrameColumnEntries | python/open_loop_demo_3d.py:119-125 | entry `t` of the column is coordinate `j` of the force gradient of frame `frame_num − 1 − t`, the `t`-th call of the reverse loop |
| OpenLoopDemo.ForceGradientIsFrameSum | python/open_loop_demo_3d.py:112-125 | each coordinate of the returned gradient is the sum over all frames of that coordinate of `dl_df_ext` |
| OpenLoopDemo.DirichletConditions | python/open_loop_demo_3d.py:43-49 | the loop issues the three pins of node `i·ny·nz + j·nz` for every column `(i, j)` in loop order, and a condition is issued iff it fixes one coordinate of the `k = 0` node of some column at its rest value |
| OpenLoopDemo.GridPinsExactly | python/open_loop_demo_3d.py:43-49 | the conditions of the whole loop are exactly the bottom-node pins (both directions) |
| OpenLoopDemo.RowPinListed | python/open_loop_demo_3d.py:44-49 | once the inner loop has passed column `j'`, its pins have been issued |
| OpenLoopDemo.GridPinListed | python/open_loop_demo_3d.py:43-49 | once the outer loop has passed row `i'`, the pins of all its bottom nodes have been issued |
| OpenLoopDemo.NodeInRange | python/open_loop_demo_3d.py:45 | the node index `i·ny·nz + j·nz` of a column is a valid vertex index |
| GradientPacking.Broadcast | python/example/deformable_backward_2d.py:51-52 | every frame receives the same vector |
| GradientPacking.Pack | python/example/deformable_backward_2d.py:46 | the test point has the length of its four pieces together |
| GradientPacking.Split | python/example/deformable_backward_2d.py:49-52 | the split gives `q` and `v` of `dofs` entries and `frame_num` actuation and force vectors of the right sizes, the same at every frame |
| GradientPacking.SplitPack | python/example/deformable_backward_2d.py:46-52 | splitting the test point `q0 ‖ v0 ‖ a0 ‖ f0` gives back `q0`, `v0` and `a0`, `f0` broadcast to every frame |
| GradientPacking.PackSplit | python/example/deformable_backward_2d.py:46-52 | packing the pieces of a split gives back the original vector |
| GradientPacking.Packed | python/example/deformable_backward_2d.py:56-60 | the packed gradient has the length of `x` |
| GradientPacking.PackGradient | python/example/deformable_backward_2d.py:56-60 | the zero buffer after the four slice assignments is the packed gradient |
| GradientPacking.PackedLayout | python/example/deformable_backward_2d.py:56-60 | the packed gradient holds `grad_q` and `grad_v` in their slices, and each actuation and force coordinate is the sum over frames of that coordinate |
| GradientPacking.FrameDotsBroadcast | python/example/deformable_backward_2d.py:51-60 | an input shared by every frame pairs with the sum of the per-frame gradients |
| GradientPacking.PairingOfSplit | python/example/deformable_backward_2d.py:49-60 | the first-order change caused by a split direction is the sum of the four block contributions, each broadcast block meeting the summed gradient |
| GradientPacking.DotBlocks | python/example/deformable_backward_2d.py:56-60 | the dot product with the packed four-block vector is the sum of the blocks' dot products with the matching slices |
| GradientPacking.ChainRule | python/example/deformable_backward_2d.py:48-61 | the packed gradient is the gradient of `x ↦ loss(split(x))`: for every direction `dx`, its dot product with `dx` is the first-order change of the loss along the split of `dx` |
| SolverOptions.Zip | python/example/deformable_backward_2d.py:42 | `zip` pairs the `i`-th entries up to the shorter list's length |
| DeformableBackward2d.Loss | python/example/deformable_backward_2d.py:63-69 | at the test point, `q0`, `v0`, `a0`, `f0` concatenated, the loss is the simulator's loss started from `q0`, `v0` with `a0` and `f0` applied at every frame |
| DeformableBackward2d.LossAndGrad | python/example/deformable_backward_2d.py:48-61 | `loss_and_grad` returns the loss of `loss` on the same split and the packed gradient of what `simulate` reports, of the length of `x` |
| DeformableBackward2d.CheckedCoordinates | python/example/deformable_backward_2d.py:39-40 | a coordinate is checked iff it is in range and `is_dirichlet_dof` does not hold for it |
| DeformableBackward2d.CheckAll | python/example/deformable_backward_2d.py:42-78 | the loop stops at the first configuration whose check fails and returns False; it returns True only after every configuration passed |
| DeformableBackward2d.TestDeformableBackward2d | python/example/deformable_backward_2d.py:22-78 | the test passes iff newton_pcg and newton_cholesky with the Newton options and pd with the PD options all pass |
| Benchmark3d.SolverName | python/example/benchmark_3d.py:82-83 | the `pd_no_bfgs` configuration runs with solver `pd_eigen`; every other method runs under its own name |
| Benchmark3d.RunLabel | python/example/benchmark_3d.py:86-89 | a non-PD solver is labelled by its own name without reading `use_bfgs`; a PD solver is labelled `pd_no_bfgs` when `use_bfgs` is 0 and by its own name otherwise; the lookup fails exactly when a PD solver's options lack `use_bfgs` |
| Benchmark3d.RunOptions | python/example/benchmark_3d.py:81-85 | the options of a run keep exactly the method's declared keys; `rel_tol` is the current tolerance, `thread_ct` the thread count, and every other entry its declared value |
| Benchmark3d.DeclaredKeys | python/example/benchmark_3d.py:28-34 | every option dictionary declares `rel_tol` and `thread_ct` |
| Benchmark3d.SetRelTol | python/example/benchmark_3d.py:81 | overwriting `rel_tol` keeps the dictionary's other entries those of its declaration |
| Benchmark3d.SetThreadCt | python/example/benchmark_3d.py:81-85 | after both overwrites the dictionary is the declared one with the current tolerance and thread count, whatever values earlier runs left in it |
| Benchmark3d.MethodNames | python/example/benchmark_3d.py:27-86 | the Newton methods contain no `pd`, both PD methods do, and the four names are distinct |
| Benchmark3d.RunLabelIsMethod | python/example/benchmark_3d.py:82-89 | every run is labelled by its own method name and thread count, a pre-initialised key; the Newton options are never asked for `use_bfgs` |
| Benchmark3d.KeysDistinct | python/example/benchmark_3d.py:60-62 | different method/thread configurations have different labels |
| Benchmark3d.Runs | python/example/benchmark_3d.py:69-110 | each label ends with one row per tolerance, row `k` from the run with `rel_tols[k]` |
| Benchmark3d.RunsRows | python/example/benchmark_3d.py:93-106 | each row's total time is its forward plus backward time, and its gradient has the packed size `2·dofs + act_dofs + dofs` |
| Benchmark3d.InitTables | python/example/benchmark_3d.py:60-67 | the tables hold an empty list under every `method × thread count` label and no other key |
| Benchmark3d.FilledStep | python/example/benchmark_3d.py:106-110 | appending the run's row to its own label advances the table by exactly that configuration |
| Benchmark3d.MethodEnd | python/example/benchmark_3d.py:84 | after the thread loop every thread count of the method has its row for this tolerance |
| Benchmark3d.RunOne | python/example/benchmark_3d.py:85-110 | one run appends exactly its own row under its own label, which exists |
| Benchmark3d.RunMethod | python/example/benchmark_3d.py:80-110 | one method's runs at every thread count append one row each, keeping the method's option dictionary within its declared keys |
| Benchmark3d.RoundStart | python/example/benchmark_3d.py:69 | a new tolerance round starts with no configuration done |
| Benchmark3d.RoundEnd | python/example/benchmark_3d.py:80-110 | at the end of a round every label has one more row |
| Benchmark3d.BenchmarkTables | python/example/benchmark_3d.py:55-110 | the final tables have exactly the pre-initialised labels, and each holds one row per tolerance, in order, from its own configuration |
| Material.LameParameters | python/py_diff_pd/env/bunny_env_3d.py:27-28 | for every Poisson's ratio other than 0.5 and −1 the computed `la` and `mu` satisfy `mu·2(1 + ν) = E` and `la·(1 + ν)(1 − 2ν) = E·ν` |
| Material.LameSum | python/py_diff_pd/env/bunny_env_3d.py:27-28 | `la + mu = E / (2(1 + ν)(1 − 2ν))` |
| Material.SumEquation | python/py_diff_pd/env/bunny_env_3d.py:27-28 | the sum equation follows from the two defining equations alone |
| Material.LameRoundTrip | python/py_diff_pd/env/bunny_env_3d.py:27-28 | the conversion is invertible: `ν = la / (2(la + mu))` and `E = mu(3la + 2mu)/(la + mu)` give back the inputs for any non-zero modulus |
| Material.InverseFormulas | python/py_diff_pd/env/bunny_env_3d.py:27-28 | the inverse formulas recover `E` and `ν` from any `la`, `mu` meeting the defining equations |
| Material.LaFromSum | python/py_diff_pd/env/bunny_env_3d.py:27 | `la = 2ν(la + mu)` whenever the defining equations hold |
| Material.YoungFromSum | python/py_diff_pd/env/bunny_env_3d.py:28 | `mu(3la + 2mu)/(la + mu) = E` from the defining equation of `mu` |
| Material.LamePhysical | python/py_diff_pd/env/bunny_env_3d.py:27-28 | a positive modulus and `0 ≤ ν < 1/2` give `mu > 0` and `la ≥ 0` |
| BouncingBall.BallVoxels | python/py_diff_pd/env/bouncing_ball_env_3d.py:30-42 | the voxel array is `refinement³` and every cell holds its occupancy: 0 where the cell centre lies farther than the radius from the ball's centre, 1 elsewhere |
| BouncingBall.OutsideIntegerRule | python/py_diff_pd/env/bouncing_ball_env_3d.py:34-42 | with `dx = 2·radius/refinement`, a cell is cleared exactly when `t_i² + t_j² + t_k² > r²` for `t = 2i + 1 − r`: the test is independent of the radius |
| BouncingBall.DistanceScaled | python/py_diff_pd/env/bouncing_ball_env_3d.py:34-41 | the squared centre distance is `(radius/r)²` times that integer sum |
| BouncingBall.CellSizeSplit | python/py_diff_pd/env/bouncing_ball_env_3d.py:33-34 | the cell size is twice `radius/r`, and the radius is `r` of those units |
| BouncingBall.AxisOffset | python/py_diff_pd/env/bouncing_ball_env_3d.py:40-41 | each axis offset of a cell centre from the ball's centre is `radius/r · (2i + 1 − r)` |
| BouncingBall.OccupancyMirror | python/py_diff_pd/env/bouncing_ball_env_3d.py:37-42 | a cell and its mirror image across the middle plane are kept or cleared together |
| BouncingBall.BottomIndices | python/py_diff_pd/env/bouncing_ball_env_3d.py:59-63 | the bottom indices are in range and strictly increasing |
| BouncingBall.BottomIndicesMembers | python/py_diff_pd/env/bouncing_ball_env_3d.py:59-63 | a vertex index is collected iff the vertex lies below height `dx` |
| BouncingBall.BottomVertices | python/py_diff_pd/env/bouncing_ball_env_3d.py:57-63 | the loop collects exactly the bottom indices in order, and `v_bottom[k]` is the vertex of `v_bottom_idx[k]` |
| BouncingBall.Min | python/py_diff_pd/env/bouncing_ball_env_3d.py:65-67 | `np.min` returns an element no greater than any other |
| BouncingBall.Max | python/py_diff_pd/env/bouncing_ball_env_3d.py:66-68 | `np.max` returns an element no smaller than any other |
| BouncingBall.BottomBounds | python/py_diff_pd/env/bouncing_ball_env_3d.py:64-68 | the extent exists iff there is a bottom vertex, and then bounds every bottom vertex in x and y |
| BouncingBall.Line | python/py_diff_pd/env/bouncing_ball_env_3d.py:71-74 | an entry is in the line iff it is `(other coordinate, index)` of a bottom vertex within `0.5·dx` of the line |
| BouncingBall.Insert | python/py_diff_pd/env/bouncing_ball_env_3d.py:75 | stable insertion adds exactly the one element |
| BouncingBall.SortByKey | python/py_diff_pd/env/bouncing_ball_env_3d.py:75 | sorting is a permutation of the line |
| BouncingBall.InsertSorted | python/py_diff_pd/env/bouncing_ball_env_3d.py:75 | inserting an element with a larger index than all others keeps the list ordered by key, then index |
| BouncingBall.SortSorted | python/py_diff_pd/env/bouncing_ball_env_3d.py:75 | on a line whose indices increase, the stable sort orders by key and breaks ties by index |
| BouncingBall.Indices | python/py_diff_pd/env/bouncing_ball_env_3d.py:76 | the result lists the index of each line entry, in order |
| BouncingBall.FindEndpoints | python/py_diff_pd/env/bouncing_ball_env_3d.py:70-76 | `find_endpoints` returns the indices of the sorted line |
| BouncingBall.LineEntries | python/py_diff_pd/env/bouncing_ball_env_3d.py:59-74 | every line entry names a bottom vertex of the mesh on the line, keyed by its other planar coordinate |
| BouncingBall.SortedLineEntries | python/py_diff_pd/env/bouncing_ball_env_3d.py:75 | sorting adds no entry that was not on the line |
| BouncingBall.EndpointsMembers | python/py_diff_pd/env/bouncing_ball_env_3d.py:59-76 | `find_endpoints` returns valid indices, and exactly those of the vertices below `dx` within half a cell of the line: the whole line, not only its two ends |
| BouncingBall.EndpointsOrdered | python/py_diff_pd/env/bouncing_ball_env_3d.py:75-76 | the returned vertices are ordered by the other planar coordinate, ties by index |
| BouncingBall.EndpointsOf | python/py_diff_pd/env/bouncing_ball_env_3d.py:70-76 | an index is listed by `find_endpoints(dim, value)` iff it is a bottom vertex within half a cell of `value` on `dim` |
| BouncingBall.FrictionNodes | python/py_diff_pd/env/bouncing_ball_env_3d.py:78-82 | the friction nodes have no repeats and are exactly the bottom vertices on one of the four lines (`x = vx_min`, `x = vx_max`, and `y = vx_min`, `y = vx_max` as written) |
| BouncingBall.BottomMembers | python/py_diff_pd/env/bouncing_ball_env_3d.py:56-82 | a mesh index is a friction node iff the vertex is below `dx` and on one of the four lines |
| BouncingBall.FrictionNodesOfMesh | python/py_diff_pd/env/bouncing_ball_env_3d.py:56-82 | the friction nodes of the mesh have no repeats and are exactly the vertices below `dx` on one of the four lines through the bottom extremes |
| BouncingBall.LineIndicesIncreasing | python/py_diff_pd/env/bouncing_ball_env_3d.py:72-74 | the line keeps the increasing order of `v_bottom_idx` |
| BouncingBall.Dedup | python/py_diff_pd/env/bouncing_ball_env_3d.py:82 | `list(dict.fromkeys(..))` has no repeats and keeps exactly the elements of its input |
| BouncingBall.DedupPrefix | python/py_diff_pd/env/bouncing_ball_env_3d.py:82 | first occurrences keep their order: de-duplicating a prefix gives a prefix of the de-duplicated whole |
| BouncingBall.DedupDistinct | python/py_diff_pd/env/bouncing_ball_env_3d.py:82 | a list without repeats is unchanged |
| BouncingBall.StepwiseLossAndGrad | python/py_diff_pd/env/bouncing_ball_env_3d.py:122-131 | a frame without a reference mesh gives loss 0 and zero gradients; otherwise `grad_q = q − q_ref`; `grad_v` is always zero |
| BouncingBall.StepwiseLossZero | python/py_diff_pd/env/bouncing_ball_env_3d.py:129-130 | the loss is non-negative and zero iff `q = q_ref` |
| BouncingBall.StepwiseGradientExact | python/py_diff_pd/env/bouncing_ball_env_3d.py:129-131 | `grad_q` is the exact derivative of the loss: its central difference along any coordinate equals the gradient entry |
| BouncingBall.Bottom | python/py_diff_pd/env/bouncing_ball_env_3d.py:57-63 | the two bottom lists have the same length |
| BouncingBall.BottomNonEmpty | python/py_diff_pd/env/bouncing_ball_env_3d.py:59-64 | a mesh with a vertex below `dx` has a non-empty bottom |
| BouncingBall.FrictionNodeIdx | python/py_diff_pd/env/bouncing_ball_env_3d.py:56-82 | the collision set-up returns the four lines, the last two at the x extremes as written, concatenated and de-duplicated |
| BouncingBall.BouncingBallEnv3d.constructor | python/py_diff_pd/env/bouncing_ball_env_3d.py:14-102 | missing options default to refinement 2, modulus 1e6 and ratio 0.45; the Lamé parameters, node counts `refinement + 1`, `q0`, the stepwise loss flag and the friction nodes are set as computed |
| BouncingBall.BouncingBallEnv3d.IsDirichletDof | python/py_diff_pd/env/bouncing_ball_env_3d.py:111-112 | no degree of freedom is fixed |
| CenterOfMass.VertexCount | python/py_diff_pd/env/bunny_env_3d.py:146 | `vertex_num = q.size // 3` is positive and exactly a third of the positions |
| CenterOfMass.Coords | python/py_diff_pd/env/bunny_env_3d.py:140 | column `axis` of `q.reshape((-1, 3))` holds entry `3k + axis` at row `k` |
| CenterOfMass.CoordsPerturb | python/py_diff_pd/env/bunny_env_3d.py:140 | moving position entry `j` changes only vertex `j / 3` on axis `j % 3` |
| CenterOfMass.ComPerturb | python/py_diff_pd/env/bunny_env_3d.py:140 | moving entry `j` by `h` moves the centre of mass on axis `j % 3` by `h/N` and leaves the other axes unchanged |
| CenterOfMass.ComBetween | python/py_diff_pd/env/bunny_env_3d.py:140 | each coordinate of the centre of mass lies between the smallest and the largest value of that coordinate over the vertices |
| Bunny.ComDiff | python/py_diff_pd/env/bunny_env_3d.py:142 | `com − target_com` has three entries |
| Bunny.Loss | python/py_diff_pd/env/bunny_env_3d.py:140-143 | the loss `0.5·‖com − target‖²/size²` is never negative |
| Bunny.LossAndGrad | python/py_diff_pd/env/bunny_env_3d.py:138-150 | the loss is `0.5·‖com − target‖²/size²`; after the axis loop every entry `j` of `grad_q` is `com_diff[j % 3]/N/size²`; `grad_v` is zero |
| Bunny.LossZero | python/py_diff_pd/env/bunny_env_3d.py:140-143 | the loss is zero iff the centre of mass is on the target |
| Bunny.GradientExact | python/py_diff_pd/env/bunny_env_3d.py:143-148 | each `grad_q` entry is the exact central difference of the loss along that position entry |
| Bunny.ComDiffPerturb | python/py_diff_pd/env/bunny_env_3d.py:140-142 | moving entry `j` by `h` moves `com_diff` on axis `j % 3` by `h/N` only |
| Bunny.BunnyEnv3d.constructor | python/py_diff_pd/env/bunny_env_3d.py:17-82 | missing options default to modulus 1e6, ratio 0.49, target (0.15, 0.15, 0.15) and 4 samples per pixel; the Lamé parameters are converted from them; the loss is terminal |
| Bunny.BunnyEnv3d.IsDirichletDof | python/py_diff_pd/env/bunny_env_3d.py:91-92 | no degree of freedom is fixed |
| Quadruped.CheckSizes | python/py_diff_pd/env/quadruped_env_3d.py:30-35 | construction succeeds iff `leg_z_length ≥ 1`, `body_x_length ≥ 3`, `body_y_length ≥ 3`, `body_z_length ≥ 1` and `refinement ≥ 2`; the first failed assertion is reported |
| Quadruped.CellNums | python/py_diff_pd/env/quadruped_env_3d.py:42 | `cell_nums = (r·bx, r·by, r·(lz + bz))`, at least 6, 6 and 4 cells |
| Quadruped.NodeNums | python/py_diff_pd/env/quadruped_env_3d.py:44 | `node_nums` is `cell_nums + 1` on every axis |
| Quadruped.QuadrupedVoxels | python/py_diff_pd/env/quadruped_env_3d.py:48-59 | the voxel array has the shape `cell_nums` and each cell holds 1 iff it is occupied by the body or a leg |
| Quadruped.BodySolid | python/py_diff_pd/env/quadruped_env_3d.py:52-53 | every cell with `k ≥ r·lz` is occupied |
| Quadruped.LegCorners | python/py_diff_pd/env/quadruped_env_3d.py:55-59 | below the body a cell is occupied iff `(i < r or i ≥ (bx−1)·r)` and `(j < r or j ≥ (by−1)·r)`: one of the four corner columns |
| Quadruped.LegsSeparated | python/py_diff_pd/env/quadruped_env_3d.py:31-58 | the four legs are separated by at least one foot width of empty columns in x and in y |
| Quadruped.GradQ | python/py_diff_pd/env/quadruped_env_3d.py:156-158 | `grad_q` has one entry per position coordinate |
| Quadruped.Loss | python/py_diff_pd/env/quadruped_env_3d.py:152-155 | the loss `−com_x` lies between the negated largest and smallest x coordinate of the vertices |
| Quadruped.LossAndGrad | python/py_diff_pd/env/quadruped_env_3d.py:152-161 | returns the loss, a position gradient whose every entry is the exact central difference of the loss along that coordinate, and a zero velocity gradient |
| Quadruped.GradientExact | python/py_diff_pd/env/quadruped_env_3d.py:152-158 | the loss `−com_x` has central difference `−1/N` on every x entry and 0 on y and z entries, exactly `grad_q` |
| Quadruped.QuadrupedEnv3d.constructor | python/py_diff_pd/env/quadruped_env_3d.py:17-132 | the required options are stored, the Lamé parameters converted, `node_nums` set, and the loss is terminal |
| Quadruped.QuadrupedEnv3d.IsDirichletDof | python/py_diff_pd/env/quadruped_env_3d.py:141-142 | no degree of freedom is fixed |
| PlanarCollision.PiecesAgree | cpp/core/src/fem/planar_collision_state_force.cpp:27-31 | the quadratic piece is 0 at `d0`, both pieces equal `k·d0` at `−d0`, and the quadratic piece's slope is `−k` at `−d0` (the linear slope) and 0 at `d0` |
| PlanarCollision.Magnitude | cpp/core/src/fem/planar_collision_state_force.cpp:27-32 | no force on or above `d0`, and `−k·d` on or below `−d0`, whichever branch the test takes at `d = −d0` |
| PlanarCollision.MagnitudeNonNegative | cpp/core/src/fem/planar_collision_state_force.cpp:27-32 | with a non-negative stiffness the magnitude along the normal is never negative |
| PlanarCollision.Slope | cpp/core/src/fem/planar_collision_state_force.cpp:59-70 | `df_dq`'s factor is zero on or above `d0` and `−k` on or below `−d0` |
| PlanarCollision.StiffnessSlope | cpp/core/src/fem/planar_collision_state_force.cpp:59-70 | the stiffness column's factor is never negative and zero on or above `d0` |
| PlanarCollision.CutoffSlope | cpp/core/src/fem/planar_collision_state_force.cpp:59-70 | the cutoff column's factor is zero outside the open band, where the quadratic and the linear piece meet |
| PlanarCollision.MagnitudeCentral | cpp/core/src/fem/planar_collision_state_force.cpp:31-66 | whenever both probes stay in one piece, the central difference of the magnitude is exactly the slope used by `df_dq` |
| PlanarCollision.BandCentral | cpp/core/src/fem/planar_collision_state_force.cpp:31-60 | inside the band the difference of the magnitude at `d ± t` is `2t` times the band slope at `d` |
| PlanarCollision.StiffnessLinear | cpp/core/src/fem/planar_collision_state_force.cpp:31-69 | the magnitude is the stiffness times the factor of the stiffness column of `df_dp` |
| PlanarCollision.StiffnessCentral | cpp/core/src/fem/planar_collision_state_force.cpp:63-69 | the stiffness column is the exact derivative of the magnitude in the stiffness |
| PlanarCollision.CutoffClosedForm | cpp/core/src/fem/planar_collision_state_force.cpp:64 | the cutoff column in the band is `−k(d − d0)(d + d0)/(4d0²)`, also `k/4(1 − d²/d0²)` |
| PlanarCollision.CutoffQuotient | cpp/core/src/fem/planar_collision_state_force.cpp:31-64 | the difference quotient of the magnitude in the cutoff is `k/4(1 − d²/(d0(d0 + h)))`, which tends to the cutoff column |
| PlanarCollision.VertexForce | cpp/core/src/fem/planar_collision_state_force.cpp:26-32 | the force on one vertex has the vertex's dimension |
| PlanarCollision.BlocksMod | cpp/core/src/fem/planar_collision_state_force.cpp:19-20 | for dimensions 2 and 3, a length splits into whole vertices iff it is a multiple of the dimension |
| PlanarCollision.BlocksGap | cpp/core/src/fem/planar_collision_state_force.cpp:25 | two vertex boundaries are at least one vertex apart |
| PlanarCollision.Forces | cpp/core/src/fem/planar_collision_state_force.cpp:24-34 | the force vector has the length of `q` |
| PlanarCollision.ForcesExtend | cpp/core/src/fem/planar_collision_state_force.cpp:25-33 | one more vertex appends its own force to the force of the prefix |
| PlanarCollision.ForcesAt | cpp/core/src/fem/planar_collision_state_force.cpp:25-33 | the block of vertex `i` of the force vector is the force of that vertex's own position: it depends on no other vertex and on no velocity |
| PlanarCollision.ForcesAtFront | cpp/core/src/fem/planar_collision_state_force.cpp:25-33 | later vertices leave the blocks of earlier ones unchanged |
| PlanarCollision.ForcesAtLast | cpp/core/src/fem/planar_collision_state_force.cpp:25-33 | the last block is the force of the last vertex |
| PlanarCollision.NormalComponent | cpp/core/src/fem/planar_collision_state_force.cpp:31-32 | with a unit normal, the force's component along the normal is its magnitude, which is never negative |
| PlanarCollision.MatVec | cpp/core/src/fem/planar_collision_state_force.cpp:71 | a matrix-vector product has one entry per row |
| PlanarCollision.VertexQGrad | cpp/core/src/fem/planar_collision_state_force.cpp:59-71 | `df_dq · dl_df` has the vertex's dimension |
| PlanarCollision.VertexParamGrad | cpp/core/src/fem/planar_collision_state_force.cpp:63-72 | the per-vertex parameter row has two entries |
| PlanarCollision.QGrads | cpp/core/src/fem/planar_collision_state_force.cpp:47-71 | `dl_dq` has the length of `q` |
| PlanarCollision.ParamGrads | cpp/core/src/fem/planar_collision_state_force.cpp:49-72 | `dl_dp` has two entries |
| PlanarCollision.QGradsExtend | cpp/core/src/fem/planar_collision_state_force.cpp:50-71 | one more vertex appends its block to `dl_dq` |
| PlanarCollision.ParamGradsExtend | cpp/core/src/fem/planar_collision_state_force.cpp:72 | one more vertex adds its row to `dl_dp` |
| PlanarCollision.ScaleZero | cpp/core/src/fem/planar_collision_state_force.cpp:24-32 | a vertex with no force keeps its zero block |
| PlanarCollision.MatScaleZero | cpp/core/src/fem/planar_collision_state_force.cpp:57 | scaling `nnᵀ` by 0 gives the zero matrix `df_dq` starts from |
| PlanarCollision.ScaledQuotient | cpp/core/src/fem/planar_collision_state_force.cpp:71-72 | multiplying both probes by `g·n` multiplies their central difference by `g·n` |
| PlanarCollision.OuterRow | cpp/core/src/fem/planar_collision_state_force.cpp:60-71 | row `j` of `s·nnᵀ` applied to `g` is `n[j]·s·(g·n)` |
| PlanarCollision.VertexLoss | cpp/core/src/fem/planar_collision_state_force.cpp:31-71 | `g · f(x)` is the magnitude at `x` times `g·n` |
| PlanarCollision.PerturbDistance | cpp/core/src/fem/planar_collision_state_force.cpp:26-51 | moving coordinate `j` by `h` moves the signed distance by `n[j]·h` |
| PlanarCollision.OuterSquare | cpp/core/src/fem/planar_collision_state_force.cpp:13 | `nnᵀ` is a square matrix of the vertex's dimension |
| PlanarCollision.QGradEntry | cpp/core/src/fem/planar_collision_state_force.cpp:59-71 | entry `j` of `df_dq · dl_df` is `n[j] · slope · (g·n)` |
| PlanarCollision.LossCentral | cpp/core/src/fem/planar_collision_state_force.cpp:59-71 | the central difference of `g·f` along coordinate `j` equals entry `j` of `dl_dq` whenever both probes stay in one piece: `dl_dq` is the derivative of the forward force |
| PlanarCollision.StiffnessLossCentral | cpp/core/src/fem/planar_collision_state_force.cpp:63-72 | the central difference of `g·f` in the stiffness is entry 0 of the parameter row |
| PlanarCollision.ParamGradEntries | cpp/core/src/fem/planar_collision_state_force.cpp:63-72 | the two parameter entries are `g·n` times the stiffness and cutoff columns' factors |
| PlanarCollision.PlanarCollisionStateForce.constructor | cpp/core/src/fem/planar_collision_state_force.cpp:3-14 | a new force has the given dimension and zero parameters, normal and `nnᵀ` |
| PlanarCollision.PlanarCollisionStateForce.Initialize | cpp/core/src/fem/planar_collision_state_force.cpp:4-14 | the parameters are stored first; a normal of norm ≤ 1e-5 fails with "Singular normal.", then a non-positive stiffness or cutoff fails; on success the normal and offset are divided by the norm, the normal is a unit vector and `nnᵀ` is its outer product |
| PlanarCollision.PlanarCollisionStateForce.WriteVertexForce | cpp/core/src/fem/planar_collision_state_force.cpp:26-32 | the vertex's force goes into its still-zero block, leaving the finished blocks and the rest unchanged |
| PlanarCollision.PlanarCollisionStateForce.ForwardForce | cpp/core/src/fem/planar_collision_state_force.cpp:16-35 | a DOF count that is not a multiple of the dimension fails with "Incompatible dofs and vertex_dim."; otherwise the result is the per-vertex force vector, which does not read `v` |
| PlanarCollision.PlanarCollisionStateForce.ForwardVertex | cpp/core/src/fem/planar_collision_state_force.cpp:25-33 | one turn of the forward loop extends the finished prefix by one vertex |
| PlanarCollision.PlanarCollisionStateForce.VertexFactors | cpp/core/src/fem/planar_collision_state_force.cpp:59-70 | the branch on `d` computes the slope of `df_dq` and the factors of both `df_dp` columns |
| PlanarCollision.PlanarCollisionStateForce.VertexBackward | cpp/core/src/fem/planar_collision_state_force.cpp:56-72 | one vertex's `df_dq · dl_df` and `dl_dfᵀ · df_dp` |
| PlanarCollision.PlanarCollisionStateForce.BackwardForce | cpp/core/src/fem/planar_collision_state_force.cpp:37-74 | a bad DOF count fails first, then inconsistent vector sizes fail; otherwise `dl_dq` is the per-vertex `df_dq · dl_df`, `dl_dv` is always zero, and `dl_dp` is the sum of the per-vertex rows |
| PlanarCollision.PlanarCollisionStateForce.AccumulateVertex | cpp/core/src/fem/planar_collision_state_force.cpp:50-72 | one turn of the backward loop writes the vertex's block of `dl_dq` and adds its row to `dl_dp` |
| PlanarCollision.PlanarCollisionStateForce.BackwardStep | cpp/core/src/fem/planar_collision_state_force.cpp:50-72 | both gradients of the prefix grow by exactly the next vertex's entries |
| PlanarCollision.UnitNormal | cpp/core/src/fem/planar_collision_state_force.cpp:8-11 | dividing the normal by its norm gives a unit vector |
| MeshFile.GridLength | python/py_diff_pd/common/mesh.py:16-23 | two nested write loops over `rows` and `cols` write exactly `rows·cols` tokens |
| MeshFile.GridEntry | python/py_diff_pd/common/mesh.py:16-23 | iteration `(a, b)` of the nested write loops is token `a·cols + b` of what they write |
| MeshFile.WriteRow | python/py_diff_pd/common/mesh.py:17-18 | the inner write loop appends `e(a, 0) … e(a, cols-1)` to the stream and nothing else |
| MeshFile.WriteGrid | python/py_diff_pd/common/mesh.py:16-19 | the nested write loops append the row-major grid of tokens to the stream |
| MeshFile.VolumeFileLayout | python/py_diff_pd/common/mesh.py:80-93 | a volume mesh file has length `6 + 3·|vertices| + corners·|elements|`, starts with the header `3, corners, 3, |vertices|` and carries `corners, |elements|` after the coordinates |
| MeshFile.VolumeFileVertex | python/py_diff_pd/common/mesh.py:86-88 | coordinate `d` of vertex `v` is stored at position `4 + d·|vertices| + v` (the transposed vertex table) |
| MeshFile.VolumeFileCorner | python/py_diff_pd/common/mesh.py:91-93 | corner `c` of element `e` is stored at position `6 + 3·|vertices| + c·|elements| + e` (the transposed element table) |
| FaceParity.Toggle | python/py_diff_pd/common/mesh.py:119-124 | one dictionary step: the sorted key of the quad is present afterwards exactly when it was absent before, and then it holds that quad |
| FaceParity.ToggleOther | python/py_diff_pd/common/mesh.py:119-124 | toggling one quad leaves every other key, and its entry, as it was |
| FaceParity.ToggleKeys | python/py_diff_pd/common/mesh.py:119-124 | toggling keeps every stored quad under its own sorted key |
| FaceParity.LastWith | python/py_diff_pd/common/mesh.py:116-124 | the position of the last quad with a given key: it has that key and no later quad does |
| FaceParity.Parity | python/py_diff_pd/common/mesh.py:116-124 | after toggling every quad, a key is present exactly when it occurs an odd number of times |
| FaceParity.SurvivorIsLast | python/py_diff_pd/common/mesh.py:116-124 | a surviving key holds the last quad written with that key, so its winding is that quad's winding |
| FaceParity.ToggleAllKeys | python/py_diff_pd/common/mesh.py:116-124 | after all the toggling every stored quad sits under its own sorted key |
| FaceParity.Items | python/py_diff_pd/common/mesh.py:126-129 | listing the dictionary yields every stored quad exactly once and nothing else |
| FaceParity.ItemsAreBoundary | python/py_diff_pd/common/mesh.py:116-129 | the listed quads are the boundary: one per key of odd multiplicity, none for other keys, no key twice, each with the winding of its last occurrence |
| FaceParity.FaceLine | python/py_diff_pd/common/mesh.py:135-136 | an `f` line lists the 0-based vertex numbers plus one |
| FaceParity.ReadFace | python/py_diff_pd/common/mesh.py:135-136 | reading an `f` line back gives as many vertex numbers as it lists |
| FaceParity.FaceLineRoundTrip | python/py_diff_pd/common/mesh.py:135-136 | reading back the `f` line written for a quad gives the quad's 0-based vertex numbers |
| FaceParity.ObjFile | python/py_diff_pd/common/mesh.py:131-136 | the OBJ file is one `v` line per vertex in order, then one `f` line per face in order |
| HexMesh.ScanShape | python/py_diff_pd/common/mesh.py:56-78 | the positions picked by the C-order loops before a given position are picked, inside the grid, before it, and strictly increasing |
| HexMesh.ScanPrefix | python/py_diff_pd/common/mesh.py:56-78 | what the C-order loops have picked at an earlier moment is a prefix of what they have picked later |
| HexMesh.ScanAt | python/py_diff_pd/common/mesh.py:56-78 | a picked position sits in the complete list at the index equal to the number of positions picked before it |
| HexMesh.TouchedIff | python/py_diff_pd/common/mesh.py:46-54 | a node is touched exactly when it is a corner of some filled cell |
| HexMesh.TouchStep | python/py_diff_pd/common/mesh.py:49-54 | visiting a cell adds exactly its eight corners to the touched nodes when it is filled, and nothing when it is not |
| HexMesh.TouchRowEnd | python/py_diff_pd/common/mesh.py:48-50 | the end of a row of cells is the start of the next row |
| HexMesh.TouchLayerEnd | python/py_diff_pd/common/mesh.py:47-49 | the end of a layer of cells is the start of the next layer |
| HexMesh.MarkCell | python/py_diff_pd/common/mesh.py:51-54 | the eight corners of the cell become 0 and every other entry of `vertex_flag` is unchanged |
| HexMesh.MarkStep | python/py_diff_pd/common/mesh.py:49-54 | one iteration of the marking loops keeps `vertex_flag` 0 on exactly the nodes touched so far and -1 elsewhere |
| HexMesh.MarkedRowEnd | python/py_diff_pd/common/mesh.py:48-50 | the marking invariant carries over from the end of a row to the next row |
| HexMesh.MarkedLayerEnd | python/py_diff_pd/common/mesh.py:47-49 | the marking invariant carries over from the end of a layer to the next layer |
| HexMesh.MarkNodes | python/py_diff_pd/common/mesh.py:46-54 | afterwards `vertex_flag` is 0 exactly on the corners of filled cells and -1 on every other node |
| HexMesh.NumberedRowEnd | python/py_diff_pd/common/mesh.py:58-60 | the numbering invariant carries over from the end of a row of nodes to the next row |
| HexMesh.NumberedLayerEnd | python/py_diff_pd/common/mesh.py:57-59 | the numbering invariant carries over from the end of a layer of nodes to the next layer |
| HexMesh.NumberNode | python/py_diff_pd/common/mesh.py:60-66 | one numbering iteration gives a marked node the next number, appends its position, and keeps the count equal to the number of vertices |
| HexMesh.NumberNodes | python/py_diff_pd/common/mesh.py:56-66 | every node ends labelled (touched nodes by their rank in C order, others -1) and vertex `t` is the position `origin + dx·(i, j, k)` of the `t`-th touched node |
| HexMesh.NodesInOrder | python/py_diff_pd/common/mesh.py:56-66 | the vertices are touched grid nodes, in strictly increasing C order |
| HexMesh.LabelAt | python/py_diff_pd/common/mesh.py:56-66 | every touched node gets a number below the vertex count, and the vertex with that number is that node |
| HexMesh.CellLabels | python/py_diff_pd/common/mesh.py:70-77 | the element of a cell has eight entries, entry `4·ii + 2·jj + kk` being the label of corner `(i + ii, j + jj, k + kk)` |
| HexMesh.CellCorners | python/py_diff_pd/common/mesh.py:72-77 | the corner loops read `vertex_flag` at the eight corners in `ii, jj, kk` order |
| HexMesh.CornerFlagsAreLabels | python/py_diff_pd/common/mesh.py:68-78 | once every node is labelled, the corner entries read for a cell are its element |
| HexMesh.CellElements | python/py_diff_pd/common/mesh.py:68-78 | one element per filled cell, in C order, each the labels of the cell's corners |
| HexMesh.CellsInOrder | python/py_diff_pd/common/mesh.py:68-78 | the elements come from filled cells only, in strictly increasing C order |
| HexMesh.CellAt | python/py_diff_pd/common/mesh.py:68-78 | every filled cell has an element, numbered by how many filled cells precede it |
| HexMesh.CornerTouched | python/py_diff_pd/common/mesh.py:46-54 | the eight corners of a filled cell are touched grid nodes |
| HexMesh.CellLabelsValid | python/py_diff_pd/common/mesh.py:56-78 | every corner number of an element is a valid vertex index naming the vertex at that corner |
| HexMesh.SharedCorner | python/py_diff_pd/common/mesh.py:56-78 | two element corners carry the same vertex number exactly when they are the same grid node, so neighbouring voxels share vertices |
| HexMesh.HexVertices | python/py_diff_pd/common/mesh.py:56-66 | the vertex table: vertex `t` is at the position of the `t`-th touched node |
| HexMesh.HexElements | python/py_diff_pd/common/mesh.py:68-78 | the element table: element `t` holds the corner labels of the `t`-th filled cell |
| HexMesh.GenerateHexMesh | python/py_diff_pd/common/mesh.py:42-93 | with at least one filled cell the file is the volume mesh of the touched nodes and filled cells; with none the file holds only the header integers 3, 8, 3 when reading the second axis of the empty vertex array raises IndexError |
| Mesh.GenerateRectangleMesh | python/py_diff_pd/common/mesh.py:6-39 | the writes issue exactly the rectangle file: header, x block, y block, counts, four corner columns |
| Mesh.RectCornerInRange | python/py_diff_pd/common/mesh.py:26-39 | every corner written for a cell is a vertex number below `(nx+1)·(ny+1)` |
| Mesh.RectCornersDistinct | python/py_diff_pd/common/mesh.py:26-39 | the four corners of a cell are four different vertices |
| Mesh.ColumnOffsetIsProduct | python/py_diff_pd/common/mesh.py:26-39 | corner column `c` starts `c·m` tokens into the corner block |
| Mesh.ColumnOffsetMono | python/py_diff_pd/common/mesh.py:26-39 | later corner columns start no earlier |
| Mesh.RectangleFileParts | python/py_diff_pd/common/mesh.py:9-39 | the rectangle file splits into header, `n` x coordinates, `n` y coordinates, the counts `4, m`, and `4·m` corners |
| Mesh.CornerColumnsLength | python/py_diff_pd/common/mesh.py:26-39 | `c` corner columns hold `c·nx·ny` tokens |
| Mesh.RectangleFileHeader | python/py_diff_pd/common/mesh.py:9-15 | the file has `6 + 2n + 4m` tokens, starts `2, 4, 2, n` and carries `4, m` after the coordinates |
| Mesh.RectangleFileVertex | python/py_diff_pd/common/mesh.py:16-23 | vertex `(i, j)` has number `i·(ny+1) + j`, with x `ox + i·dx` and y `oy + j·dx` at that position of the two coordinate blocks |
| Mesh.RectangleFileCorner | python/py_diff_pd/common/mesh.py:26-39 | corner `c` of cell `(i, j)` is written in column `c` at position `i·ny + j` |
| Mesh.ColumnEntry | python/py_diff_pd/common/mesh.py:26-39 | entry `(i, j)` of corner column `c` is that corner's vertex number |
| Mesh.CornerColumnsPrefix | python/py_diff_pd/common/mesh.py:26-39 | the first corner columns written are a prefix of the complete corner block |
| Mesh.HexFaceCorner | python/py_diff_pd/common/mesh.py:107-115 | every entry of `face_idx` is a local corner number below 8 |
| Mesh.HexFaceOnSide | python/py_diff_pd/common/mesh.py:107-115 | each quad of `face_idx` lies on one side of the cube and goes around it along cube edges |
| Mesh.HexFacesDistinct | python/py_diff_pd/common/mesh.py:107-115 | the four corners of a quad are different and no two quads lie on the same side |
| Mesh.Quad | python/py_diff_pd/common/mesh.py:117-118 | `vidx` lists the element's vertex numbers at the four local corners of the quad |
| Mesh.ElementQuads | python/py_diff_pd/common/mesh.py:117-118 | the quads of an element's first `r` sides, in `face_idx` order |
| Mesh.AllQuads | python/py_diff_pd/common/mesh.py:115-118 | six quads per element are toggled |
| Mesh.AllQuadsAt | python/py_diff_pd/common/mesh.py:115-118 | side `r` of element `i` is toggled as quad number `6·i + r` |
| Mesh.ToggleNextSide | python/py_diff_pd/common/mesh.py:117-124 | toggling one more side of an element is one more dictionary step |
| Mesh.AllQuadsNext | python/py_diff_pd/common/mesh.py:115-124 | the quads of the first `i + 1` elements are those of the first `i` followed by the six of element `i` |
| Mesh.ToggleQuads | python/py_diff_pd/common/mesh.py:115-124 | the toggling loops leave the dictionary obtained by toggling every quad of every element in order |
| Mesh.Hex2Obj | python/py_diff_pd/common/mesh.py:98-138 | the returned faces are the boundary of the hex mesh (quads occurring an odd number of times, each once, with the winding last written), and with a file name the OBJ file lists the vertices then those faces |
| TetMesh.TetVertexPart | python/py_diff_pd/common/tet_mesh.py:10-23 | the header and vertex columns are the tet file up to its element block |
| TetMesh.GenerateTetMesh | python/py_diff_pd/common/tet_mesh.py:10-32 | succeeds exactly on a non-empty vertex list and a non-empty rectangular face table at least four wide, writing the volume mesh layout with four corners per element; otherwise the failure carries the partial file: 3, 4 for no vertices, the vertex part for an empty or ragged face table, and the full corner columns before the missing one for a narrower table |
| TetMesh.SwapFirst | python/py_diff_pd/common/tet_mesh.py:40 | exchanging the first two points negates the orientation `((v1 - v0) × (v2 - v1)) · (v3 - v0)` |
| TetMesh.SwapMiddle | python/py_diff_pd/common/tet_mesh.py:216-219 | exchanging the middle two points negates the orientation |
| TetMesh.FixTetFaces | python/py_diff_pd/common/tet_mesh.py:36-55 | four faces of three local vertex numbers each, all below 4 |
| TetMesh.FixTetFacesCover | python/py_diff_pd/common/tet_mesh.py:36-55 | each face lists the three vertices other than one, each once, and different faces leave out different vertices |
| TetMesh.FixTetFacesBranches | python/py_diff_pd/common/tet_mesh.py:40-53 | the two branches list the same triangles with opposite winding |
| TetMesh.NegativeFaceOrientation | python/py_diff_pd/common/tet_mesh.py:40-46 | each face of the negative branch, followed by its omitted vertex, has the tet's own orientation |
| TetMesh.FixTetFacesOutward | python/py_diff_pd/common/tet_mesh.py:34-55 | every returned face followed by the vertex it leaves out has orientation at most 0, and below 0 unless the tet is flat: the normals point outward |
| TetMesh.ElementVerts | python/py_diff_pd/common/tet_mesh.py:74-77 | `element_vert` lists the positions of the element's four vertices |
| TetMesh.Triangle | python/py_diff_pd/common/tet_mesh.py:78-80 | `vidx` maps face `r` of `fix_tet_faces` through the element's vertex numbers |
| TetMesh.ElementTriangles | python/py_diff_pd/common/tet_mesh.py:78-80 | the first `r` triangles of an element, in face order |
| TetMesh.AllTriangles | python/py_diff_pd/common/tet_mesh.py:72-80 | four triangles per element are toggled |
| TetMesh.ToggleNextFace | python/py_diff_pd/common/tet_mesh.py:79-85 | toggling one more face of an element is one more dictionary step |
| TetMesh.AllTrianglesNext | python/py_diff_pd/common/tet_mesh.py:72-85 | the triangles of the first `i + 1` elements are those of the first `i` followed by the four of element `i` |
| TetMesh.ToggleElement | python/py_diff_pd/common/tet_mesh.py:79-85 | the inner loop toggles the element's four triangles in face order |
| TetMesh.ToggleTriangles | python/py_diff_pd/common/tet_mesh.py:71-85 | the toggling loops leave the dictionary obtained by toggling every triangle of every element in order |
| TetMesh.Tet2Obj | python/py_diff_pd/common/tet_mesh.py:62-101 | the listed triangles are the boundary of the tet mesh, the unused vertices are then filtered out, and with a file name the OBJ file lists the filtered vertices then triangles |
| TetMesh.UnusedCorners | python/py_diff_pd/common/tet_mesh.py:152-153 | an element that does not use a vertex adds nothing to its solid angle |
| TetMesh.UnusedVertexAngle | python/py_diff_pd/common/tet_mesh.py:145-153 | a vertex no element uses has total solid angle 0 |
| TetMesh.SolidAngleNonnegative | python/py_diff_pd/common/tet_mesh.py:145-153 | with non-negative per-element angles the total at every vertex is non-negative |
| TetMesh.CornerAnglesNonnegative | python/py_diff_pd/common/tet_mesh.py:152-153 | with non-negative angles an element adds a non-negative amount at every vertex |
| TetMesh.AddElementAngles | python/py_diff_pd/common/tet_mesh.py:152-153 | the inner loop adds to each vertex's entry exactly the element's angles at that vertex |
| TetMesh.SolidAngleNext | python/py_diff_pd/common/tet_mesh.py:146-153 | the totals over the first `e + 1` elements are those over the first `e` plus element `e`'s angles |
| TetMesh.GetContactVertex | python/py_diff_pd/common/tet_mesh.py:141-159 | the contact nodes are exactly the vertices whose total solid angle is below the threshold, in strictly increasing order |
| TetMesh.SwapMiddleVertices | python/py_diff_pd/common/tet_mesh.py:216-219 | swapping the middle two vertex numbers keeps the vertex set and negates the orientation |
| TetMesh.SwapKeepsMultiset | python/py_diff_pd/common/tet_mesh.py:219 | `[e[0], e[2], e[1], e[3]]` has the same vertex numbers as `e` |
| TetMesh.FixSign | python/py_diff_pd/common/tet_mesh.py:214-219 | the element keeps its first and last vertices and its vertex set, is unchanged when negatively oriented, and afterwards has orientation at most 0, below 0 unless flat |
| TetMesh.ReorientElements | python/py_diff_pd/common/tet_mesh.py:209-220 | one element per tetgen row, each the row's first four columns re-oriented so that `(i0, i1, i2)` faces outward |
| Text.Strip | python/example/soft_starfish_3d.py:106 | the stripped line is no longer than the line, has no surrounding white space, and is empty exactly when the line is all white space |
| Text.StripLeft | python/example/soft_starfish_3d.py:106 | leading white space removed: the result is a suffix of the line starting with a non-space |
| Text.StripRight | python/example/soft_starfish_3d.py:106 | trailing white space removed: the result is a prefix of the line ending with a non-space |
| Text.SplitFrom | python/example/soft_starfish_3d.py:108 | splitting yields at least one piece |
| Text.Split | python/example/soft_starfish_3d.py:108 | `str.split` yields at least one piece |
| Text.SplitFromJoin | python/example/soft_starfish_3d.py:108 | joining the pieces read so far with the rest gives the text back, and no piece holds the separator |
| Text.SplitJoin | python/example/soft_starfish_3d.py:108 | joining the pieces with the separator gives the text back, and no piece holds the separator |
| Text.JoinSplit | python/example/soft_starfish_3d.py:108 | splitting pieces joined by a separator they do not hold gives the pieces back |
| Text.SplitPrefix | python/example/soft_starfish_3d.py:108 | a separator-free stretch of text only extends the current piece |
| Text.DigitChar | python/example/soft_starfish_3d.py:291 | the character of a digit is `'0'` to `'9'` with that value |
| Text.Decimal | python/example/soft_starfish_3d.py:291 | `str(n)` is a non-empty string of digits, one digit exactly below 10, with no leading zero from 10 on |
| Text.Padded | python/example/soft_starfish_3d.py:291 | `'{:04d}'.format(n)` is at least four digits, exactly four below 10000 |
| Text.ZeroDigits | python/example/soft_starfish_3d.py:291 | the padding is the right number of `'0'` characters |
| Text.DecimalLength | python/example/soft_starfish_3d.py:291 | `str(n)` has at most four digits below 10000 (three below 1000, two below 100) |
| Text.DecimalRoundTrip | python/example/soft_starfish_3d.py:291 | `int(str(n)) == n` |
| Text.LeadingZeros | python/example/soft_starfish_3d.py:291 | leading zeros do not change the value read |
| Text.ZeroDigitsValue | python/example/soft_starfish_3d.py:291 | a string of zeros reads as 0 |
| Text.PaddedRoundTrip | python/example/soft_starfish_3d.py:291 | the number is read back from its zero-padded name |
| Text.PaddedInjective | python/example/soft_starfish_3d.py:288-301 | distinct checkpoint numbers get distinct file names |
| SoftStarfish.NonEmpty | python/example/soft_starfish_3d.py:108 | the kept fields are non-empty fields of the line, every non-empty field is kept, and there are no more of them than fields |
| SoftStarfish.NonEmptyAppend | python/example/soft_starfish_3d.py:108 | the filter distributes over concatenation: filtering `a + b` is filtering `a`, then `b` |
| SoftStarfish.NonEmptySingle | python/example/soft_starfish_3d.py:108 | a single field is dropped iff it is empty and kept as it is otherwise, so with `NonEmptyAppend` the order and multiplicity of the kept fields is that of the line |
| SoftStarfish.ParseAll | python/example/soft_starfish_3d.py:108 | on success one float per field, each what `float` gives for that field; failure exactly when some field does not parse |
| SoftStarfish.ToSample | python/example/soft_starfish_3d.py:112-118 | the ten numbers unpack into time, `dl` and the four marker pairs `(m1x, m1y) … (m4x, m4y)` |
| SoftStarfish.ParseRow | python/example/soft_starfish_3d.py:105-118 | a blank line is skipped; a non-number or a count other than ten aborts; a NaN or zero `dl` is dropped (both directions); a kept row holds the ten numbers with non-zero `dl` |
| SoftStarfish.SamplesNonzeroDl | python/example/soft_starfish_3d.py:110-118 | every kept sample has non-zero `dl` and four markers |
| SoftStarfish.KeptRow | python/example/soft_starfish_3d.py:110-118 | a kept row has non-zero `dl` and four markers |
| SoftStarfish.KeptAppend | python/example/soft_starfish_3d.py:113-118 | appending a kept sample keeps every sample well formed |
| SoftStarfish.SkippedLine | python/example/soft_starfish_3d.py:107-111 | a blank line, or one with NaN or zero `dl`, adds nothing to the data |
| SoftStarfish.HeaderIgnored | python/example/soft_starfish_3d.py:98-105 | the first line is never read: any header gives the same body |
| SoftStarfish.Diffs | python/example/soft_starfish_3d.py:124 | `t[1:] - t[:-1]` has one entry fewer than `t` |
| SoftStarfish.SumDiffs | python/example/soft_starfish_3d.py:124-126 | the steps add up to the last time minus the first |
| Vectors.MaxOf | python/example/soft_starfish_3d.py:125 | `np.max` is an entry no smaller than any entry |
| Vectors.MinOf | python/example/soft_starfish_3d.py:125 | `np.min` is an entry no larger than any entry |
| Vectors.Mean | python/example/soft_starfish_3d.py:125-126 | `np.min(dt) <= np.mean(dt) <= np.max(dt)` |
| SoftStarfish.RegularSteps | python/example/soft_starfish_3d.py:125 | when the spacing check passes every single step is within 2e-4 s of 1/60 s |
| SoftStarfish.MeanStep | python/example/soft_starfish_3d.py:126 | `dt` is the whole duration over the number of steps |
| SoftStarfish.Shift | python/example/soft_starfish_3d.py:121 | `a -= c` subtracts `c` from every entry |
| SoftStarfish.Milli | python/example/soft_starfish_3d.py:122 | `a /= 1000` divides every entry by 1000 |
| SoftStarfish.MarkerTrack | python/example/soft_starfish_3d.py:132-139 | one marker's x and negated y, in metres, relative to its first sample |
| SoftStarfish.Times | python/example/soft_starfish_3d.py:120-123 | one time per sample, the first being 0 |
| SoftStarfish.ReadSamples | python/example/soft_starfish_3d.py:105-118 | the read loop returns the samples of the kept rows in file order, or the first row's abort |
| SoftStarfish.NormaliseTimes | python/example/soft_starfish_3d.py:120-123 | the times become seconds since the first sample |
| SoftStarfish.MarkerTracks | python/example/soft_starfish_3d.py:130-139 | each of the four markers gets its x and negated y track, in metres, relative to its first sample |
| SoftStarfish.LoadCsvData | python/example/soft_starfish_3d.py:93-144 | a failed read fails the same way; no sample is an `IndexError`; otherwise a measurement exactly when the spacing check passes, with times in seconds, `dt` their mean step, `dl` in metres and the four marker tracks |
| SoftStarfish.FailurePersists | python/example/soft_starfish_3d.py:105-109 | once a line aborts the read, no later line changes the outcome |
| SoftStarfish.ActuatorSignals | python/example/soft_starfish_3d.py:211-217 | `60·substep` signals, sub-frame `i` being `1 - dl[i // substep] / full_tendon_length` on every actuated DOF; fewer than 60 measurements is an `IndexError` (both directions) |
| SoftStarfish.LastFrame | python/example/soft_starfish_3d.py:212-216 | the last sub-frame reads measurement 59 |
| SoftStarfish.Signal | python/example/soft_starfish_3d.py:216 | `1 - ones(act_dofs)·level`: every entry plus the level is 1 |
| SoftStarfish.FrameSample | python/example/soft_starfish_3d.py:215-216 | every sub-frame reads one of the first 60 measurements |
| SoftStarfish.SubstepsShareSample | python/example/soft_starfish_3d.py:216 | the `substep` sub-frames of a frame read the same measurement |
| SoftStarfish.OptHistory.constructor | python/example/soft_starfish_3d.py:288-291 | the history holds the first evaluation and file `0000.data` holds that history |
| SoftStarfish.OptHistory.Callback | python/example/soft_starfish_3d.py:292-301 | `cnt` is the length before the append; the evaluation is appended and file `cnt` holds the whole new history; the file-index invariant is kept |
| SoftStarfish.OptHistory.CheckpointSizes | python/example/soft_starfish_3d.py:288 | file `k` holds `k + 1` records and the newest file is the whole history |
| PixelFrame.ToCal | python/example/sim_to_real.py:343-347 | one calibration point per pixel point |
| PixelFrame.ToPxl | python/example/sim_to_real.py:348-352 | one pixel point per calibration point |
| PixelFrame.PxlToCal | python/example/sim_to_real.py:343-347 | an empty point list fails with `IndexError`; otherwise negating y and adding the image height in place on a copy maps every point to the calibration frame |
| PixelFrame.CalToPxl | python/example/sim_to_real.py:348-352 | subtracting the image height and negating y in place on a copy maps every point to the pixel frame |
| PixelFrame.PxlCalRoundTrip | python/example/render_billiard_ball_3d.py:28-37 | converting pixels to the calibration frame and back gives them back |
| PixelFrame.CalPxlRoundTrip | python/example/render_billiard_ball_3d.py:28-37 | converting calibration points to pixels and back gives them back |
| PixelFrame.SameReflection | python/example/sim_to_real.py:343-352 | both conversions are the same reflection: x kept, y mirrored about half the height |
| SimToReal.Homog | python/example/sim_to_real.py:48-53 | `[P, 1]` is the world point followed by 1 |
| SimToReal.Block | python/example/sim_to_real.py:64-75 | a coefficient block is `[c·P, c]` |
| SimToReal.XRow | python/example/sim_to_real.py:64-68 | row `2i` has twelve coefficients |
| SimToReal.YRow | python/example/sim_to_real.py:71-75 | row `2i + 1` has twelve coefficients |
| SimToReal.AssembleSystem | python/example/sim_to_real.py:55-75 | a ragged pixel or world list fails in the array conversion with `ValueError`; rectangular lists of the wrong shape (including an empty list, whose shape is `(0,)`) fail the assertions with `AssertionError`; it succeeds exactly on N > 0 two-coordinate pixels and N three-coordinate world points, giving a `2N × 12` matrix whose rows `2i` and `2i + 1` are the x and y equations of point `i` |
| SimToReal.WriteEquations | python/example/sim_to_real.py:62-75 | the loop body writes the two rows of point `i` and leaves every other row alone |
| SimToReal.RowsAt | python/example/sim_to_real.py:64-75 | the x row is `[-P, -1]`, four zeros, `[p.x·P, p.x]`; the y row is four zeros, `[-P, -1]`, `[p.y·P, p.y]` |
| SimToReal.FillSlice | python/example/sim_to_real.py:64-75 | a slice assignment writes exactly that slice of that row |
| SimToReal.XResidual | python/example/sim_to_real.py:50-52 | row `2i` times `m` is `p.x·<m3, [P, 1]> - <m1, [P, 1]>` |
| SimToReal.YResidual | python/example/sim_to_real.py:51-53 | row `2i + 1` times `m` is `p.y·<m3, [P, 1]> - <m2, [P, 1]>` |
| SimToReal.ProjectionSolves | python/example/sim_to_real.py:48-53 | a projection matrix mapping the world point onto the pixel solves both rows of that point |
| SimToReal.ExtractIntrinsics | python/example/sim_to_real.py:17-22 | `alpha`, `cx` and `cy` are read off `K`, and `cot_theta` satisfies `cot_theta·(-alpha) = K[0, 1]`, defined exactly when `alpha` is non-zero |
| SimToReal.CameraMatrix | python/example/sim_to_real.py:97-99 | `K` is a 3 × 3 matrix |
| SimToReal.IntrinsicsRoundTrip | python/example/sim_to_real.py:17-22 | reading the parameters off the `K` that `solve_camera` builds recovers `alpha`, `cx`, `cy` and `cot_theta` |
| SimToReal.ParseFrameRate | python/example/sim_to_real.py:318-321 | a parsed frame rate is non-zero and `fps·dt = 1` |
| SimToReal.RateOf | python/example/sim_to_real.py:318-321 | the rate read from `key=a/b` is non-zero and `fps·dt = 1` |
| SimToReal.RatioOf | python/example/sim_to_real.py:319-321 | a rate comes only from two numeric pieces, and is non-zero with `fps·dt = 1` |
| SimToReal.FrameRateOf | python/example/sim_to_real.py:320-321 | `fps·b = a` and `fps·dt = 1` |
| SimToReal.ReadFrameRate | python/example/sim_to_real.py:318-321 | the line `key=a/b` gives the rate `a / b` and the step `b / a` |
| SimToReal.SplitPair | python/example/sim_to_real.py:318-319 | splitting `x + sep + y` gives `[x, y]` when neither holds the separator |
| SimToReal.FrameFile | python/example/sim_to_real.py:333 | the file name starts with the zero-padded frame number |
| SimToReal.FrameFilesDistinct | python/example/sim_to_real.py:332-335 | two frames share a file only if they are the same frame |
| SimToReal.LoadFrames | python/example/sim_to_real.py:331-336 | one image per frame from `start` to `end` inclusive, frame `i` at position `i - start`, read from its own file |
| RenderBilliard.RaiseBalls | python/example/render_billiard_ball_3d.py:45-50 | a length that does not reshape into two balls of whole vertices fails (both directions); otherwise vertex `k` is `(q[3k], q[3k+1], q[3k+2] + radius)` |
| RenderBilliard.RaiseBallsInverse | python/example/render_billiard_ball_3d.py:45-50 | lowering the lifted vertices by the radius and flattening gives the state back |
| RenderBilliard.Lower | python/example/render_billiard_ball_3d.py:47 | every vertex moves down by the radius and nothing else changes |
| RenderBilliard.ShiftElements | python/example/render_billiard_ball_3d.py:49 | every vertex index of every element moves by the offset |
| RenderBilliard.StackElements | python/example/render_billiard_ball_3d.py:49-51 | the stacked element list holds both balls' copies |
| RenderBilliard.StackedElementsStayInBall | python/example/render_billiard_ball_3d.py:45-51 | the first copy references the first ball's vertices and the second the same vertices of the second ball |
| RenderBilliard.RenderSchedule | python/example/render_billiard_ball_3d.py:129-132 | job `k` renders state `k·substeps` as frame `k`, and every state that is a multiple of `substeps` is rendered |
| RenderBilliard.ScheduleOfMultiples | python/example/render_billiard_ball_3d.py:129-132 | the multiples of `substeps` below the state count, in order, are exactly the rendered states |
| RenderBilliard.Clip | python/example/render_billiard_ball_3d.py:119 | `np.clip(v, 0, 1)` lies in `[0, 1]` and keeps values already there |
| RenderBilliard.ClipAll | python/example/render_billiard_ball_3d.py:119 | clipping acts channel by channel |
| RenderBilliard.Strokes | python/example/render_billiard_ball_3d.py:114 | `range(0, i, 10)` has the least count `c` with `10·c >= i` |
| RenderBilliard.StrokesExit | python/example/render_billiard_ball_3d.py:114 | that count is unique |
| RenderBilliard.RawLayers | python/example/render_billiard_ball_3d.py:114-118 | the raw layers have the frame's size |
| RenderBilliard.AddScaled | python/example/render_billiard_ball_3d.py:118 | `img += img_j * 0.3` in place |
| RenderBilliard.RawOverlay | python/example/render_billiard_ball_3d.py:112-119 | frame `i` plus 0.3 of every tenth earlier filtered frame, then clipped |
| RenderBilliard.RawLayersUntouched | python/example/render_billiard_ball_3d.py:114-118 | a channel dark in every stacked frame keeps the frame's value |
| RenderBilliard.BlendCases | python/example/render_billiard_ball_3d.py:165-166 | where the black render is positive the channel becomes `0.3·b + 0.7·x`, elsewhere it is kept |
| RenderBilliard.BlendInRange | python/example/render_billiard_ball_3d.py:165-166 | blending two values in `[0, 1]` stays in `[0, 1]` |
| RenderBilliard.Blend | python/example/render_billiard_ball_3d.py:165-166 | the blend acts channel by channel |
| RenderBilliard.Blended | python/example/render_billiard_ball_3d.py:162-166 | the blended image has the frame's size |
| RenderBilliard.RenderedOverlay | python/example/render_billiard_ball_3d.py:160-167 | frame `i` blended with every tenth earlier black render in turn, then clipped |
| RenderBilliard.BlendedInUnit | python/example/render_billiard_ball_3d.py:162-167 | with images in `[0, 1]` the blends stay in `[0, 1]`, so the final clip changes nothing |
| RenderBilliard.OrientAxes | python/example/render_billiard_ball_3d.py:89-92 | afterwards the x axis points right; both axes are negated exactly when it pointed left |
| RenderBilliard.OrientKeepsView | python/example/render_billiard_ball_3d.py:89-92 | the flip keeps the cross product of the axes, so the frame stays right-handed |
| RenderBilliard.CameraOf | python/example/render_billiard_ball_3d.py:85-95 | the up vector is the oriented y row of `R` |
| RenderBilliard.CameraLooksAlongMinusZ | python/example/render_billiard_ball_3d.py:85-95 | the camera looks along `-camera_z` whatever the flip, and its up axis is the y row of `R` up to sign |
| RenderBilliard.HalfFovTangent | python/example/render_billiard_ball_3d.py:97-98 | `tan(half_fov)·alpha = cy` |

## Left out

- The C++ step solver (Newton and projective-dynamics forward and backward, sparse solves, OpenMP) is not modelled. It is the pair of function values `OpenLoopDemo.StepSolver`; `simulate` and the gradient checker are function values as well.
- The foreign mesh and deformable classes (`Deformable3d`, `Mesh3d`, `TetMesh3d`, `AddPdEnergy`, `SetFrictionalBoundary`) are not modelled. The environments take the mesh vertices as a parameter instead of generating and loading the mesh, and they store the Lamé parameters instead of adding energies.
- `filter_unused_vertices` is not part of this model. `TetMesh.Tet2Obj` takes it as the parameter `filterUnused`.
- `compute_tet_angles` (arctangent) is not modelled. The per-element solid angles are the parameter `solidAngle`.
- `tetrahedralize` itself (trimesh, tetgen, pyvista) is left out; only its re-orientation loop is modelled. The `normalize_input` call in `q_to_obj` is treated as opaque, and `q_to_obj` starts from the element list it returns.
- `get_contact_vertex` is modelled from `common/tet_mesh.py`. The bunny environment imports it from `common/mesh.py`, which does not define it, so that import is not modelled.
- Python dictionaries keep insertion order. `FaceParity.Items` promises every stored face exactly once but fixes no order, so the order of the faces returned by `hex2obj` and `tet2obj` is not captured.
- Mesh files are sequences of integer and real tokens. The byte encoding by `struct.pack` is not modelled, and neither are file names, opening or removal.
- The SVD, arccos, cross products and norms in `solve_camera` are left out. So are the arctangent and sine in `extract_intrinsic_parameters` and the arctangent in the field of view. Only the linear system, the directly read parameters and `tan(half_fov)·alpha = cy` are modelled.
- SimToReal.ExtractIntrinsics: where `alpha` is zero, numpy's division gives an infinity or NaN; the model gives `None`.
- The `select_corners` click interface, `ffmpeg`/`ffprobe` calls, `pickle`, image files, the renderers and all printing are left out. Images are flattened channel values with the alpha channel already dropped.
- `img_height` is a parameter of the pixel-frame conversions.
- Python floats are modelled as exact reals, so rounding is not modelled. The one place NaN matters, the CSV `dl` field, uses the `Float` datatype.
- SoftStarfish.ParseRow: a NaN in a field other than `dl` is reported as a failure, where numpy would carry it into the arrays.
- SoftStarfish.ActuatorSignals: requires `full_tendon_length` to be non-zero, which the source does not check.
- Text.Strip: `IsSpace` covers the ASCII white space that can occur in the files read, not all of Unicode's.
- Timing (`time.time`) and random initial data are left out. Run times and the random test points are inputs.
- The L-BFGS-B optimiser is left out. `SoftStarfish.OptHistory` models only the history and checkpoint files its callback writes.
- Benchmark3d: the five parallel result dictionaries are one map from a label to rows of `Record`s. The string `'{method}_{t}threads'` is kept as the pair `Label(method, thread count)` rather than formatted.
- The planar collision force takes the length of the normal (`norm()`) as the parameter `norm` of `Initialize`, with `norm² = ‖normal‖²`.
- BouncingBall.FrictionNodesOfMesh: returns no nodes when no vertex lies below `dx`, where numpy's `min` raises; the constructor requires such a vertex.
- Material.LameParameters: requires a Poisson's ratio other than 0.5 and −1. For those two values Python's float division raises ZeroDivisionError, which is not modelled.
- BouncingBall.BouncingBallEnv3d.constructor: requires `refinement > 0` and a convertible Poisson's ratio. With `refinement = 0` the cell size `radius * 2 / refinement` raises ZeroDivisionError; with ratio 0.5 or −1 the Lamé computation raises it. Neither exception is modelled.
- Bunny.BunnyEnv3d.constructor: requires a convertible Poisson's ratio; the ZeroDivisionError for 0.5 and −1 is not modelled.
- Quadruped.QuadrupedEnv3d.constructor: requires `Valid(options)` and a convertible Poisson's ratio. The failing size assertions are modelled on their own by `Quadruped.CheckSizes`. The ZeroDivisionError for a ratio of 0.5 or −1 is not modelled.
- CenterOfMass.Positions: the centre of mass is defined only for at least one whole vertex. A length that is not a multiple of 3 makes numpy's `reshape` raise ValueError, and an empty `q` gives a NaN mean; neither case is modelled.
- BouncingBall.StepwiseLossAndGrad: requires the reference to be as long as `q`. Vectors of different lengths make numpy's subtraction raise ValueError, which is not modelled.
- PixelFrame.ToCal: the reflection to the calibration frame, defined on every list, the empty one included. The source raises IndexError on an empty list; that failure is modelled by `PixelFrame.PxlToCal`.
- RenderBilliard.HalfFovTangent: requires `alpha ≠ 0`. There numpy's `cy / alpha` gives an infinity or NaN, and the field of view becomes 180° or NaN; reals here have neither value.
- TetMesh.GenerateTetMesh: vertices are typed as three-vectors, so a vertex list whose rows do not have three coordinates cannot be passed; the face table's failures are modelled.
- The quadruped's friction nodes and actuation indices are not modelled. They only feed the foreign deformable object.
- The voxel arrays hold the truthiness of each cell (`HexMesh.Voxels.filled`), not its numeric value.
- `cow_gallop_3d.py` (a trigonometric schedule fed to scipy), `display.py` (plotting) and `state_force_2d.py` (a harness over the C++ bindings) are not modelled.
