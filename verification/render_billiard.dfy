/** The bookkeeping of `render_billiard_ball_3d.py`: the two-ball mesh built
    from a state vector, the sub-sampled frames that get rendered, the two
    overlay images, and the camera frame handed to the renderer. */
module RenderBilliard {
  import opened Wrappers
  import opened Vectors
  import opened Division

  // ---------------------------------------------------------------------
  // Two-ball mesh
  // ---------------------------------------------------------------------

  /** The two balls of the scene. */
  const NumBalls: nat := 2

  /** `q.reshape((2, -1, 3))`, `[:, :, 2] += ball_radius` and `np.vstack`:
      the vertices of both balls in one list, each lifted by the radius;
      a length that does not split into two blocks of whole vertices is a
      `ValueError`. Ball `b` owns vertices `b * n` to `(b + 1) * n - 1`
      with `n = len(q) / 6`. */
  method RaiseBalls(q: seq<real>, radius: real) returns (r: Option<seq<Vec3>>)
    ensures r.Some? <==> |q| % 6 == 0
    ensures r.Some? ==>
              |r.value| == |q| / 3 &&
              forall k :: 0 <= k < |q| / 3 ==> r.value[k] == Vec3(q[3 * k], q[3 * k + 1], q[3 * k + 2] + radius)
  {
    if |q| % 6 != 0 {
      return None;
    }
    var n := |q| / 3;
    var verts := new Vec3[n](k requires 0 <= k < n => Vec3(q[3 * k], q[3 * k + 1], q[3 * k + 2]));
    for k := 0 to n
      invariant forall t :: 0 <= t < k ==> verts[t] == Vec3(q[3 * t], q[3 * t + 1], q[3 * t + 2] + radius)
      invariant forall t :: k <= t < n ==> verts[t] == Vec3(q[3 * t], q[3 * t + 1], q[3 * t + 2])
    {
      verts[k] := verts[k].(z := verts[k].z + radius);
    }
    return Some(verts[..]);
  }

  /** Lowering the lifted vertices by the radius and flattening them gives
      the state back. */
  lemma {:induction false} RaiseBallsInverse(q: seq<real>, radius: real, verts: seq<Vec3>)
    requires |q| % 3 == 0 && |verts| == |q| / 3
    requires forall k :: 0 <= k < |verts| ==> verts[k] == Vec3(q[3 * k], q[3 * k + 1], q[3 * k + 2] + radius)
    ensures Flatten(Lower(verts, radius)) == q
  {
    var f := Flatten(Lower(verts, radius));
    forall t | 0 <= t < |q|
      ensures f[t] == q[t]
    {
      var k := t / 3;
      var low := Lower(verts, radius);
      if t % 3 == 0 {
        assert t == 3 * k && f[3 * k] == low[k].x;
      } else if t % 3 == 1 {
        assert t == 3 * k + 1 && f[3 * k + 1] == low[k].y;
      } else {
        assert t == 3 * k + 2 && f[3 * k + 2] == low[k].z;
      }
    }
  }

  /** Every vertex moved down by `radius`. */
  function Lower(verts: seq<Vec3>, radius: real): (r: seq<Vec3>)
    ensures |r| == |verts|
    ensures forall k :: 0 <= k < |verts| ==> r[k] == verts[k].(z := verts[k].z - radius)
  {
    seq(|verts|, k requires 0 <= k < |verts| => verts[k].(z := verts[k].z - radius))
  }

  /** `eles + offset`: every vertex index of every element moved by
      `offset`. */
  function ShiftElements(eles: seq<seq<nat>>, offset: nat): (r: seq<seq<nat>>)
    ensures |r| == |eles|
    ensures forall k :: 0 <= k < |eles| ==> |r[k]| == |eles[k]| && forall t :: 0 <= t < |eles[k]| ==> r[k][t] == eles[k][t] + offset
  {
    seq(|eles|, k requires 0 <= k < |eles| => seq(|eles[k]|, t requires 0 <= t < |eles[k]| => eles[k][t] + offset))
  }

  /** `np.vstack([eles + i * n for i in range(2)])`. */
  function StackElements(eles: seq<seq<nat>>, n: nat): (r: seq<seq<nat>>)
    ensures |r| == NumBalls * |eles|
  {
    ShiftElements(eles, 0 * n) + ShiftElements(eles, 1 * n)
  }

  /** Elements of one ball whose indices are below `n` become, in the
      stacked mesh, elements of the first ball and elements of the second
      ball: the first copy references only vertices `0` to `n - 1`, the
      second only `n` to `2 n - 1`, each at the same vertex of its ball. */
  lemma {:induction false} StackedElementsStayInBall(eles: seq<seq<nat>>, n: nat)
    requires forall k, t :: 0 <= k < |eles| && 0 <= t < |eles[k]| ==> eles[k][t] < n
    ensures forall k, t :: 0 <= k < |eles| && 0 <= t < |eles[k]| ==>
              StackElements(eles, n)[k][t] == eles[k][t] &&
              StackElements(eles, n)[|eles| + k][t] == eles[k][t] + n
  {
    var first, second := ShiftElements(eles, 0 * n), ShiftElements(eles, 1 * n);
    assert StackElements(eles, n) == first + second;
    forall k, t | 0 <= k < |eles| && 0 <= t < |eles[k]|
      ensures StackElements(eles, n)[k][t] == eles[k][t]
      ensures StackElements(eles, n)[|eles| + k][t] == eles[k][t] + n
    {
      assert (first + second)[k] == first[k];
      assert (first + second)[|eles| + k] == second[k];
    }
  }

  // ---------------------------------------------------------------------
  // Rendered frames
  // ---------------------------------------------------------------------

  /** The loop over `enumerate(info['q'])` that skips states with
      `i % substeps != 0` and renders state `i` as frame `i // substeps`:
      the pairs (state, frame number) in rendering order. */
  method RenderSchedule(numStates: nat, substeps: nat) returns (jobs: seq<(nat, nat)>)
    requires substeps > 0
    ensures forall k :: 0 <= k < |jobs| ==>
              jobs[k].1 == k && jobs[k].0 < numStates &&
              jobs[k].0 % substeps == 0 && jobs[k].0 / substeps == k
    ensures forall i :: 0 <= i < numStates && i % substeps == 0 ==>
              i / substeps < |jobs| && jobs[i / substeps].0 == i
  {
    jobs := [];
    ghost var next := 0;
    for i := 0 to numStates
      invariant next == |jobs| * substeps && i <= next < i + substeps
      invariant forall k :: 0 <= k < |jobs| ==> jobs[k] == (k * substeps, k) && k * substeps < i
    {
      if i < next {
        BetweenMultiples(i, |jobs|, substeps, next);
      } else {
        MultipleOf(|jobs|, substeps, next);
      }
      if i % substeps != 0 {
        continue;
      }
      jobs := jobs + [(i, i / substeps)];
      next := next + substeps;
    }
    ScheduleOfMultiples(jobs, numStates, substeps);
  }

  /** The jobs are the multiples of `substeps` below `numStates`, in order:
      each is a multiple numbered by its quotient, and no multiple is missed
      when the multiples reach `numStates`. */
  lemma {:induction false} ScheduleOfMultiples(jobs: seq<(nat, nat)>, numStates: nat, substeps: nat)
    requires substeps > 0 && numStates <= |jobs| * substeps
    requires forall k :: 0 <= k < |jobs| ==> jobs[k] == (k * substeps, k) && k * substeps < numStates
    ensures forall k :: 0 <= k < |jobs| ==>
              jobs[k].1 == k && jobs[k].0 < numStates &&
              jobs[k].0 % substeps == 0 && jobs[k].0 / substeps == k
    ensures forall i :: 0 <= i < numStates && i % substeps == 0 ==>
              i / substeps < |jobs| && jobs[i / substeps].0 == i
  {
    forall k | 0 <= k < |jobs|
      ensures jobs[k].0 % substeps == 0 && jobs[k].0 / substeps == k
    {
      MultipleOf(k, substeps, jobs[k].0);
    }
    forall i | 0 <= i < numStates && i % substeps == 0
      ensures i / substeps < |jobs| && jobs[i / substeps].0 == i
    {
      var q := i / substeps;
      assert i == q * substeps;
      BelowMultiple(q, |jobs|, substeps);
    }
  }

  // ---------------------------------------------------------------------
  // Overlays
  // ---------------------------------------------------------------------

  /** `np.clip(v, 0, 1)` on one channel value. */
  function Clip(v: real): (c: real)
    ensures 0.0 <= c <= 1.0
    ensures 0.0 <= v <= 1.0 ==> c == v
  {
    if v < 0.0 then 0.0 else if v > 1.0 then 1.0 else v
  }

  /** `np.clip(img, 0, 1)` on an image, its channel values flattened. */
  function ClipAll(img: seq<real>): (r: seq<real>)
    ensures |r| == |img| && forall p :: 0 <= p < |img| ==> r[p] == Clip(img[p])
  {
    seq(|img|, p requires 0 <= p < |img| => Clip(img[p]))
  }

  /** The number of earlier frames stacked onto frame `i`: the length of
      `range(0, i, 10)`. */
  function Strokes(i: nat): (c: nat)
    ensures 10 * c >= i && (c == 0 || 10 * (c - 1) < i)
  {
    (i + 9) / 10
  }

  /** The loop counter on exit from `range(0, i, 10)` is `Strokes(i)`. */
  lemma StrokesExit(i: nat, c: nat)
    requires 10 * c >= i && (c == 0 || 10 * (c - 1) < i)
    ensures c == Strokes(i)
  {
    DivUnique(i + 9, 10, c, i + 9 - 10 * c);
  }

  /** Every image a frame-indexed source yields has `size` channel values. */
  ghost predicate Sized(frames: nat -> seq<real>, size: nat)
  {
    forall j :: |frames(j)| == size
  }

  /** The raw overlay before clipping: frame `i` plus `0.3` times each of
      frames `0, 10, ..., 10 (c - 1)`. */
  function RawLayers(img: seq<real>, filtered: nat -> seq<real>, c: nat): (r: seq<real>)
    requires Sized(filtered, |img|)
    ensures |r| == |img|
  {
    if c == 0 then img else Add(RawLayers(img, filtered, c - 1), Scale(0.3, filtered(10 * (c - 1))))
  }

  /** `img += img_j * 0.3` in place. */
  method AddScaled(img: array<real>, layer: seq<real>)
    requires |layer| == img.Length
    modifies img
    ensures img[..] == Add(old(img[..]), Scale(0.3, layer))
  {
    for p := 0 to img.Length
      invariant forall t :: 0 <= t < p ==> img[t] == old(img[t]) + 0.3 * layer[t]
      invariant forall t :: p <= t < img.Length ==> img[t] == old(img[t])
    {
      img[p] := img[p] + layer[p] * 0.3;
    }
  }

  /** The raw video overlay of frame `i`: every tenth earlier filtered
      frame added at weight `0.3`, then clipped to `[0, 1]`. */
  method RawOverlay(frame: seq<real>, filtered: nat -> seq<real>, i: nat) returns (img: seq<real>)
    requires Sized(filtered, |frame|)
    ensures img == ClipAll(RawLayers(frame, filtered, Strokes(i)))
  {
    var acc := new real[|frame|](p requires 0 <= p < |frame| => frame[p]);
    var j, c := 0, 0;
    while j < i
      invariant j == 10 * c && (c == 0 || 10 * (c - 1) < i)
      invariant acc[..] == RawLayers(frame, filtered, c)
    {
      AddScaled(acc, filtered(j));
      j, c := j + 10, c + 1;
    }
    StrokesExit(i, c);
    img := ClipAll(acc[..]);
  }

  /** A channel that is zero in every stacked frame keeps the value of the
      frame itself, up to clipping. */
  lemma {:induction false} RawLayersUntouched(img: seq<real>, filtered: nat -> seq<real>, c: nat, p: nat)
    requires Sized(filtered, |img|) && p < |img|
    requires forall k :: 0 <= k < c ==> filtered(10 * k)[p] == 0.0
    ensures RawLayers(img, filtered, c)[p] == img[p]
  {
    if c > 0 {
      RawLayersUntouched(img, filtered, c - 1, p);
    }
  }

  /** One channel of the rendered overlay step: `alpha * img_j * 0.3 +
      (~alpha) * img + alpha * img * 0.7` with `alpha = img_j > 0`. */
  function BlendChannel(x: real, b: real): (r: real)
  {
    var alpha := if b > 0.0 then 1.0 else 0.0;
    var notAlpha := if b > 0.0 then 0.0 else 1.0;
    alpha * b * 0.3 + notAlpha * x + alpha * x * 0.7
  }

  /** The blend keeps the channel where the black render is zero and mixes
      `30 %` of the render into it elsewhere. */
  lemma BlendCases(x: real, b: real)
    ensures b > 0.0 ==> BlendChannel(x, b) == 0.3 * b + 0.7 * x
    ensures b <= 0.0 ==> BlendChannel(x, b) == x
  {
  }

  /** A blend of two values in `[0, 1]` stays in `[0, 1]`. */
  lemma BlendInRange(x: real, b: real)
    requires 0.0 <= x <= 1.0 && 0.0 <= b <= 1.0
    ensures 0.0 <= BlendChannel(x, b) <= 1.0
  {
    BlendCases(x, b);
  }

  function Blend(img: seq<real>, black: seq<real>): (r: seq<real>)
    requires |black| == |img|
    ensures |r| == |img| && forall p :: 0 <= p < |img| ==> r[p] == BlendChannel(img[p], black[p])
  {
    seq(|img|, p requires 0 <= p < |img| => BlendChannel(img[p], black[p]))
  }

  /** The rendered overlay before clipping: frame `i` blended with black
      renders `0, 10, ..., 10 (c - 1)` in turn. */
  function Blended(img: seq<real>, black: nat -> seq<real>, c: nat): (r: seq<real>)
    requires Sized(black, |img|)
    ensures |r| == |img|
  {
    if c == 0 then img else Blend(Blended(img, black, c - 1), black(10 * (c - 1)))
  }

  /** The overlay of the rendered frames: each tenth earlier black render
      blended in, then clipped. */
  method RenderedOverlay(frame: seq<real>, black: nat -> seq<real>, i: nat) returns (img: seq<real>)
    requires Sized(black, |frame|)
    ensures img == ClipAll(Blended(frame, black, Strokes(i)))
  {
    img := frame;
    var j, c := 0, 0;
    while j < i
      invariant j == 10 * c && (c == 0 || 10 * (c - 1) < i)
      invariant img == Blended(frame, black, c)
    {
      img := Blend(img, black(j));
      j, c := j + 10, c + 1;
    }
    StrokesExit(i, c);
    img := ClipAll(img);
  }

  /** Images whose channels all lie in `[0, 1]`. */
  predicate InUnit(img: seq<real>)
  {
    forall p :: 0 <= p < |img| ==> 0.0 <= img[p] <= 1.0
  }

  /** When the renders are proper images the blends never leave `[0, 1]`,
      so the final clip changes nothing. */
  lemma {:induction false} BlendedInUnit(img: seq<real>, black: nat -> seq<real>, c: nat)
    requires Sized(black, |img|) && InUnit(img)
    requires forall j :: InUnit(black(j))
    ensures InUnit(Blended(img, black, c))
    ensures ClipAll(Blended(img, black, c)) == Blended(img, black, c)
  {
    if c > 0 {
      BlendedInUnit(img, black, c - 1);
      var prev := Blended(img, black, c - 1);
      var b := black(10 * (c - 1));
      forall p | 0 <= p < |img|
        ensures 0.0 <= Blended(img, black, c)[p] <= 1.0
      {
        BlendInRange(prev[p], b[p]);
      }
    }
  }

  // ---------------------------------------------------------------------
  // Camera
  // ---------------------------------------------------------------------

  /** The camera handed to the renderer. */
  datatype Camera = Camera(pos: Vec3, lookat: Vec3, up: Vec3)

  /** `if camera_x[0] < 0`: both image axes are negated so that x points to
      the right. */
  function OrientAxes(x: Vec3, y: Vec3): (r: (Vec3, Vec3))
    ensures r.0.x >= 0.0
    ensures x.x < 0.0 ==> r == (Neg3(x), Neg3(y))
    ensures x.x >= 0.0 ==> r == (x, y)
  {
    if x.x < 0.0 then (Neg3(x), Neg3(y)) else (x, y)
  }

  /** Negating both axes keeps their cross product, the camera's viewing
      axis, and so keeps the frame right-handed. */
  lemma OrientKeepsView(x: Vec3, y: Vec3)
    ensures Cross(OrientAxes(x, y).0, OrientAxes(x, y).1) == Cross(x, y)
  {
  }

  /** `camera_pos = -R.T @ T`, `camera_up` the oriented y row and
      `camera_lookat = camera_pos - camera_z`, from the rows of `R`. */
  function CameraOf(rx: Vec3, ry: Vec3, rz: Vec3, t: Vec3): (c: Camera)
    ensures c.up == OrientAxes(rx, ry).1
  {
    var pos := Neg3(Vec3(rx.x * t.x + ry.x * t.y + rz.x * t.z,
                         rx.y * t.x + ry.y * t.y + rz.y * t.z,
                         rx.z * t.x + ry.z * t.y + rz.z * t.z));
    Camera(pos, Sub3(pos, rz), OrientAxes(rx, ry).1)
  }

  /** The camera looks along `-camera_z`, whatever the flip, and its up axis
      is the y row of `R` up to sign. */
  lemma CameraLooksAlongMinusZ(rx: Vec3, ry: Vec3, rz: Vec3, t: Vec3)
    ensures var c := CameraOf(rx, ry, rz, t); Sub3(c.lookat, c.pos) == Neg3(rz)
    ensures var c := CameraOf(rx, ry, rz, t); c.up == ry || c.up == Neg3(ry)
  {
  }

  /** `np.tan(half_fov) * alpha = cy`, before the arctangent: the image is
      `2 cy` pixels tall, its half height over the focal length. */
  function HalfFovTangent(cy: real, alpha: real): (r: real)
    requires alpha != 0.0
    ensures r * alpha == cy
  {
    cy / alpha
  }
}
