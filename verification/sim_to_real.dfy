/** The bookkeeping of `sim_to_real.py`: the linear system whose null vector
    is the camera's projection matrix, the intrinsic parameters read back
    from a camera matrix, the frame rate reported by `ffprobe`, and the
    zero-padded frame files of the video. */
module SimToReal {
  import opened Wrappers
  import opened Vectors
  import opened Text

  // ---------------------------------------------------------------------
  // Camera calibration system
  // ---------------------------------------------------------------------

  /** `[P, 1]`: a world point in homogeneous coordinates. */
  function Homog(w: seq<real>): (h: seq<real>)
    requires |w| == 3
    ensures |h| == 4 && h[..3] == w && h[3] == 1.0
  {
    w + [1.0]
  }

  /** `[c * P, c]`: a block of four coefficients of one row. */
  function Block(c: real, w: seq<real>): (b: seq<real>)
    requires |w| == 3
    ensures |b| == 4 && b[0] == c * w[0] && b[1] == c * w[1] && b[2] == c * w[2] && b[3] == c
  {
    Scale(c, Homog(w))
  }

  /** Row `2 i` of the system, the coefficients of `m = [m1, m2, m3]` in
      `p.x * <m3, [P, 1]> - <m1, [P, 1]>`: `[-P, -1]`, four zeros,
      `[p.x * P, p.x]`. */
  function XRow(p: seq<real>, w: seq<real>): (row: seq<real>)
    requires |p| == 2 && |w| == 3
    ensures |row| == 12
  {
    Block(-1.0, w) + Vectors.Zeros(4) + Block(p[0], w)
  }

  /** Row `2 i + 1`, for `p.y * <m3, [P, 1]> - <m2, [P, 1]>`: four zeros,
      `[-P, -1]`, `[p.y * P, p.y]`. */
  function YRow(p: seq<real>, w: seq<real>): (row: seq<real>)
    requires |p| == 2 && |w| == 3
    ensures |row| == 12
  {
    Vectors.Zeros(4) + Block(-1.0, w) + Block(p[1], w)
  }

  /** The shapes `solve_camera` asserts of the converted arrays: N pixel
      points of two coordinates and N world points of three. An empty list
      converts to an array of shape `(0,)`, which is never `(0, 2)`, so N is
      positive. */
  predicate Shaped(pixels: seq<seq<real>>, world: seq<seq<real>>)
  {
    |pixels| > 0 && |world| == |pixels| &&
    (forall i :: 0 <= i < |pixels| ==> |pixels[i]| == 2) &&
    (forall i :: 0 <= i < |world| ==> |world[i]| == 3)
  }

  /** The system assembly of `solve_camera`: both point lists are converted
      to float arrays, which fails with ValueError on a ragged list; the two
      shape assertions follow; then a zero `2N x 12` matrix has its rows
      `2 i` and `2 i + 1` filled from point `i`. */
  method AssembleSystem(pixels: seq<seq<real>>, world: seq<seq<real>>) returns (r: Result<array2<real>, string>)
    ensures r.Success? <==> Shaped(pixels, world)
    ensures !Rectangular(pixels) || !Rectangular(world) ==> r.Failure? && r.error == "ValueError"
    ensures Rectangular(pixels) && Rectangular(world) && !Shaped(pixels, world) ==>
              r.Failure? && r.error == "AssertionError"
    ensures r.Success? ==>
              r.value.Length0 == 2 * |pixels| && r.value.Length1 == 12 &&
              forall i, c :: 0 <= i < |pixels| && 0 <= c < 12 ==>
                r.value[2 * i, c] == XRow(pixels[i], world[i])[c] &&
                r.value[2 * i + 1, c] == YRow(pixels[i], world[i])[c]
  {
    if !Rectangular(pixels) || !Rectangular(world) {
      return Failure("ValueError");
    }
    if !Shaped(pixels, world) {
      return Failure("AssertionError");
    }
    var n := |pixels|;
    var system := new real[2 * n, 12]((_, _) => 0.0);
    for i := 0 to n
      invariant forall k, c :: 0 <= k < i && 0 <= c < 12 ==>
                  system[2 * k, c] == XRow(pixels[k], world[k])[c] &&
                  system[2 * k + 1, c] == YRow(pixels[k], world[k])[c]
      invariant forall k, c :: i <= k < n && 0 <= c < 12 ==> system[2 * k, c] == 0.0 && system[2 * k + 1, c] == 0.0
    {
      WriteEquations(system, i, pixels[i], world[i]);
    }
    return Success(system);
  }

  /** The loop body of the assembly: the slices `[:4]` and `[8:]` of row
      `2 i` and the slices `[4:8]` and `[8:]` of row `2 i + 1`. */
  method WriteEquations(system: array2<real>, i: nat, p: seq<real>, w: seq<real>)
    requires |p| == 2 && |w| == 3
    requires 2 * i + 1 < system.Length0 && system.Length1 == 12
    requires forall c :: 0 <= c < 12 ==> system[2 * i, c] == 0.0 && system[2 * i + 1, c] == 0.0
    modifies system
    ensures forall c :: 0 <= c < 12 ==> system[2 * i, c] == XRow(p, w)[c] && system[2 * i + 1, c] == YRow(p, w)[c]
    ensures forall r, c :: 0 <= r < system.Length0 && r != 2 * i && r != 2 * i + 1 && 0 <= c < 12 ==>
              system[r, c] == old(system[r, c])
  {
    // m1 and m3 in the x equation.
    FillSlice(system, 2 * i, 0, Block(-1.0, w));
    FillSlice(system, 2 * i, 8, Block(p[0], w));
    // m2 and m3 in the y equation.
    FillSlice(system, 2 * i + 1, 4, Block(-1.0, w));
    FillSlice(system, 2 * i + 1, 8, Block(p[1], w));
    forall c | 0 <= c < 12
      ensures system[2 * i, c] == XRow(p, w)[c] && system[2 * i + 1, c] == YRow(p, w)[c]
    {
      RowsAt(p, w, c);
    }
  }

  /** Entry `c` of the two rows, block by block. */
  lemma {:induction false} RowsAt(p: seq<real>, w: seq<real>, c: nat)
    requires |p| == 2 && |w| == 3 && c < 12
    ensures XRow(p, w)[c] == if c < 4 then Block(-1.0, w)[c] else if c < 8 then 0.0 else Block(p[0], w)[c - 8]
    ensures YRow(p, w)[c] == if c < 4 then 0.0 else if c < 8 then Block(-1.0, w)[c - 4] else Block(p[1], w)[c - 8]
  {
  }

  /** `system[r, lo:lo + len(vals)] = vals`. */
  method FillSlice(system: array2<real>, r: nat, lo: nat, vals: seq<real>)
    requires r < system.Length0 && lo + |vals| <= system.Length1
    modifies system
    ensures forall c :: lo <= c < lo + |vals| ==> system[r, c] == vals[c - lo]
    ensures forall r', c :: 0 <= r' < system.Length0 && 0 <= c < system.Length1 && (r' != r || c < lo || lo + |vals| <= c) ==>
              system[r', c] == old(system[r', c])
  {
    for k := 0 to |vals|
      invariant forall c :: lo <= c < lo + k ==> system[r, c] == vals[c - lo]
      invariant forall r', c :: 0 <= r' < system.Length0 && 0 <= c < system.Length1 && (r' != r || c < lo || lo + k <= c) ==>
                  system[r', c] == old(system[r', c])
    {
      system[r, lo + k] := vals[k];
    }
  }

  /** Row `2 i` times `m` is `p.x * <m3, [P, 1]> - <m1, [P, 1]>`. */
  lemma {:induction false} XResidual(p: seq<real>, w: seq<real>, m: seq<real>)
    requires |p| == 2 && |w| == 3 && |m| == 12
    ensures Dot(XRow(p, w), m) == p[0] * Dot(Homog(w), m[8..]) - Dot(Homog(w), m[..4])
  {
    var h := Homog(w);
    assert m == m[..4] + m[4..8] + m[8..];
    DotConcat(Block(-1.0, w) + Vectors.Zeros(4), Block(p[0], w), m[..4] + m[4..8], m[8..]);
    DotConcat(Block(-1.0, w), Vectors.Zeros(4), m[..4], m[4..8]);
    DotScaleLeft(-1.0, h, m[..4]);
    DotZeros(m[4..8]);
    DotScaleLeft(p[0], h, m[8..]);
  }

  /** Row `2 i + 1` times `m` is `p.y * <m3, [P, 1]> - <m2, [P, 1]>`. */
  lemma {:induction false} YResidual(p: seq<real>, w: seq<real>, m: seq<real>)
    requires |p| == 2 && |w| == 3 && |m| == 12
    ensures Dot(YRow(p, w), m) == p[1] * Dot(Homog(w), m[8..]) - Dot(Homog(w), m[4..8])
  {
    var h := Homog(w);
    assert m == m[..4] + m[4..8] + m[8..];
    DotConcat(Vectors.Zeros(4) + Block(-1.0, w), Block(p[1], w), m[..4] + m[4..8], m[8..]);
    DotConcat(Vectors.Zeros(4), Block(-1.0, w), m[..4], m[4..8]);
    DotZeros(m[..4]);
    DotScaleLeft(-1.0, h, m[4..8]);
    DotScaleLeft(p[1], h, m[8..]);
  }

  /** A projection matrix that maps the world point onto the pixel solves
      both equations of that point: `P m = 0` on its two rows. */
  lemma {:induction false} ProjectionSolves(p: seq<real>, w: seq<real>, m: seq<real>)
    requires |p| == 2 && |w| == 3 && |m| == 12
    requires Dot(Homog(w), m[8..]) != 0.0
    requires p[0] == Dot(Homog(w), m[..4]) / Dot(Homog(w), m[8..])
    requires p[1] == Dot(Homog(w), m[4..8]) / Dot(Homog(w), m[8..])
    ensures Dot(XRow(p, w), m) == 0.0 && Dot(YRow(p, w), m) == 0.0
  {
    XResidual(p, w, m);
    YResidual(p, w, m);
    var d := Dot(Homog(w), m[8..]);
    QuotientResidual(p[0], Dot(Homog(w), m[..4]), d);
    QuotientResidual(p[1], Dot(Homog(w), m[4..8]), d);
  }

  lemma QuotientResidual(q: real, n: real, d: real)
    requires d != 0.0 && q == n / d
    ensures q * d - n == 0.0
  {
  }

  // ---------------------------------------------------------------------
  // Intrinsic parameters
  // ---------------------------------------------------------------------

  /** The parameters `extract_intrinsic_parameters` reads directly off `K`;
      `cotTheta` is `K[0, 1] / -alpha`, undefined when `alpha` is zero. */
  datatype Intrinsics = Intrinsics(alpha: real, cx: real, cy: real, cotTheta: Option<real>)

  function ExtractIntrinsics(K: seq<seq<real>>): (r: Intrinsics)
    requires |K| >= 2 && |K[0]| >= 3 && |K[1]| >= 3
    ensures r.alpha == K[0][0] && r.cx == K[0][2] && r.cy == K[1][2]
    ensures r.cotTheta.Some? <==> K[0][0] != 0.0
    ensures r.cotTheta.Some? ==> r.cotTheta.value * -K[0][0] == K[0][1]
  {
    Intrinsics(K[0][0], K[0][2], K[1][2], if K[0][0] == 0.0 then None else Some(K[0][1] / -K[0][0]))
  }

  /** The camera matrix `solve_camera` returns, with `b` standing for
      `beta / sin(theta)` and `cotTheta` for `1 / tan(theta)`. */
  function CameraMatrix(alpha: real, cotTheta: real, b: real, cx: real, cy: real): (K: seq<seq<real>>)
    ensures |K| == 3 && forall i :: 0 <= i < 3 ==> |K[i]| == 3
  {
    [[alpha, -alpha * cotTheta, cx], [0.0, b, cy], [0.0, 0.0, 1.0]]
  }

  /** Reading the parameters back from a camera matrix recovers the ones it
      was built from. */
  lemma IntrinsicsRoundTrip(alpha: real, cotTheta: real, b: real, cx: real, cy: real)
    ensures var r := ExtractIntrinsics(CameraMatrix(alpha, cotTheta, b, cx, cy));
            r.alpha == alpha && r.cx == cx && r.cy == cy &&
            r.cotTheta == if alpha == 0.0 then None else Some(cotTheta)
  {
    if alpha != 0.0 {
      var r := ExtractIntrinsics(CameraMatrix(alpha, cotTheta, b, cx, cy));
      CancelRight(r.cotTheta.value, cotTheta, -alpha);
    }
  }

  // ---------------------------------------------------------------------
  // Frame rate
  // ---------------------------------------------------------------------

  datatype FrameRate = FrameRate(fps: real, dt: real)

  /** `_, s = line.strip().split('='); a, b = s.split('/')`, then
      `fps = float(a) / float(b)` and `dt = 1 / fps`. Unpacking the wrong
      number of pieces or a field that is not a number is a `ValueError`. */
  function ParseFrameRate(line: string, parseFloat: string -> Option<real>): (r: Result<FrameRate, string>)
    ensures r.Success? ==> r.value.fps != 0.0 && r.value.fps * r.value.dt == 1.0
  {
    RateOf(Split(Strip(line), '='), parseFloat)
  }

  /** `_, fps_str = fields`, then the ratio of `fps_str.split('/')`. */
  function RateOf(fields: seq<string>, parseFloat: string -> Option<real>): (r: Result<FrameRate, string>)
    ensures r.Success? ==> r.value.fps != 0.0 && r.value.fps * r.value.dt == 1.0
  {
    if |fields| != 2 then Failure("ValueError") else RatioOf(Split(fields[1], '/'), parseFloat)
  }

  /** `a, b = ab`, `fps = float(a) / float(b)`, `dt = 1 / fps`. */
  function RatioOf(ab: seq<string>, parseFloat: string -> Option<real>): (r: Result<FrameRate, string>)
    ensures r.Success? ==> r.value.fps != 0.0 && r.value.fps * r.value.dt == 1.0
    ensures r.Success? ==> |ab| == 2 && parseFloat(ab[0]).Some? && parseFloat(ab[1]).Some? &&
                           r.value.fps * parseFloat(ab[1]).value == parseFloat(ab[0]).value
  {
    if |ab| != 2 then Failure("ValueError")
    else
      match (parseFloat(ab[0]), parseFloat(ab[1]))
      case (Some(a), Some(b)) =>
        if b == 0.0 || a == 0.0 then Failure("ZeroDivisionError")
        else FrameRateOf(a, b)
      case _ => Failure("ValueError")
  }

  function FrameRateOf(a: real, b: real): (r: Result<FrameRate, string>)
    requires a != 0.0 && b != 0.0
    ensures r.Success? && r.value.fps != 0.0 && r.value.fps * b == a && r.value.fps * r.value.dt == 1.0
  {
    var fps := a / b;
    Success(FrameRate(fps, 1.0 / fps))
  }

  /** The `ffprobe` line `key=a/b` gives the rate `a / b` and the step
      `b / a`. */
  lemma {:induction false} ReadFrameRate(line: string, key: string, num: string, den: string, parseFloat: string -> Option<real>, a: real, b: real)
    requires Strip(line) == key + ['='] + num + ['/'] + den
    requires '=' !in key && '=' !in num && '=' !in den && '/' !in num && '/' !in den
    requires parseFloat(num) == Some(a) && parseFloat(den) == Some(b) && a != 0.0 && b != 0.0
    ensures ParseFrameRate(line, parseFloat) == Success(FrameRate(a / b, b / a))
  {
    var rate := num + ['/'] + den;
    assert Strip(line) == key + ['='] + rate;
    SplitPair(key, rate, '=');
    assert ParseFrameRate(line, parseFloat) == RateOf([key, rate], parseFloat);
    SplitPair(num, den, '/');
    assert RateOf([key, rate], parseFloat) == RatioOf([num, den], parseFloat);
    Reciprocal(a, b);
  }

  /** `(x + sep + y).split(sep) == [x, y]` when neither piece holds `sep`. */
  lemma {:induction false} SplitPair(x: string, y: string, sep: char)
    requires sep !in x && sep !in y
    ensures Split(x + [sep] + y, sep) == [x, y]
  {
    assert x + [sep] + y == Join([x, y], sep);
    JoinSplit([x, y], sep);
  }

  /** `1 / (a / b) == b / a`. */
  lemma Reciprocal(a: real, b: real)
    requires a != 0.0 && b != 0.0
    ensures 1.0 / (a / b) == b / a
  {
    var q := a / b;
    assert q * b == a;
    assert q != 0.0;
    assert (b / a) * q == (b / a) * (a / b);
  }

  // ---------------------------------------------------------------------
  // Video frames
  // ---------------------------------------------------------------------

  /** `'{:04d}'.format(i)` followed by an extension such as `.png`. */
  function FrameFile(i: nat, ext: string): (name: string)
    ensures |name| == |Padded(i)| + |ext| && name[..|Padded(i)|] == Padded(i)
  {
    Padded(i) + ext
  }

  /** Two frames share a file only if they are the same frame. */
  lemma {:induction false} FrameFilesDistinct(i: nat, j: nat, ext: string)
    ensures FrameFile(i, ext) == FrameFile(j, ext) ==> i == j
  {
    if FrameFile(i, ext) == FrameFile(j, ext) {
      assert Padded(i) == FrameFile(i, ext)[..|FrameFile(i, ext)| - |ext|];
      assert Padded(j) == FrameFile(j, ext)[..|FrameFile(j, ext)| - |ext|];
      PaddedInjective(i, j);
    }
  }

  /** `img_data`: the images of frames `start` to `end` inclusive, read from
      their `.png` files; frame `i` sits at position `i - start`. */
  method LoadFrames<Image>(start: nat, end: nat, read: string -> Image) returns (frames: seq<Image>)
    ensures |frames| == if end < start then 0 else end + 1 - start
    ensures forall i :: start <= i <= end ==> frames[i - start] == read(FrameFile(i, ".png"))
  {
    frames := [];
    if end < start {
      return;
    }
    for i := start to end + 1
      invariant |frames| == i - start
      invariant forall k :: start <= k < i ==> frames[k - start] == read(FrameFile(k, ".png"))
    {
      frames := frames + [read(FrameFile(i, ".png"))];
    }
  }
}
