/** The data plumbing of `soft_starfish_3d.py`: reading the motion-capture
    CSV file, the tendon actuation signal built from it, and the numbered
    checkpoints of the optimisation history. */
module SoftStarfish {
  import opened Wrappers
  import opened Vectors
  import opened Text
  import opened Division

  // ---------------------------------------------------------------------
  // Rows
  // ---------------------------------------------------------------------

  /** `[v for v in parts if v != '']`. */
  function NonEmpty(parts: seq<string>): (r: seq<string>)
    ensures |r| <= |parts|
    ensures forall i :: 0 <= i < |r| ==> r[i] != [] && r[i] in parts
    ensures forall v :: v in parts && v != [] ==> v in r
  {
    if parts == [] then []
    else if parts[0] == [] then NonEmpty(parts[1..])
    else [parts[0]] + NonEmpty(parts[1..])
  }

  /** The comprehension filters piece by piece: it keeps the order and the
      multiplicity of the non-empty fields. */
  lemma {:induction false} NonEmptyAppend(a: seq<string>, b: seq<string>)
    ensures NonEmpty(a + b) == NonEmpty(a) + NonEmpty(b)
  {
    if a == [] {
      assert a + b == b;
    } else {
      assert (a + b)[0] == a[0] && (a + b)[1..] == a[1..] + b;
      NonEmptyAppend(a[1..], b);
    }
  }

  /** One field: kept exactly when it is not empty. */
  lemma NonEmptySingle(v: string)
    ensures v == [] ==> NonEmpty([v]) == []
    ensures v != [] ==> NonEmpty([v]) == [v]
  {
    var parts := [v];
    assert parts[0] == v && parts[1..] == [];
    assert NonEmpty(parts[1..]) == [];
  }

  /** A Python float: NaN or a number. */
  datatype Float = NaN | Num(value: real)

  /** `float(v)` for every field, `None` where one raises `ValueError`. */
  function ParseAll(fields: seq<string>, parseFloat: string -> Option<Float>): (r: Option<seq<Float>>)
    ensures r.Some? ==> |r.value| == |fields| && forall i :: 0 <= i < |fields| ==> parseFloat(fields[i]) == Some(r.value[i])
    ensures r.None? ==> exists i :: 0 <= i < |fields| && parseFloat(fields[i]).None?
  {
    if fields == [] then Some([])
    else match parseFloat(fields[0])
      case None => None
      case Some(x) =>
        match ParseAll(fields[1..], parseFloat)
        case None => None
        case Some(xs) => Some([x] + xs)
  }

  /** One measurement: time in milliseconds, tendon shortening `dl` in
      millimetres and the (x, y) position of each of the four markers. */
  datatype Sample = Sample(t: real, dl: real, markers: seq<(real, real)>)

  /** What one line of the file gives. */
  datatype Row = Blank | Dropped | Kept(sample: Sample)

  predicate AllNumbers(item: seq<Float>)
  {
    forall i :: 0 <= i < |item| ==> item[i].Num?
  }

  /** The sample held by ten numbers. */
  function ToSample(item: seq<Float>): (s: Sample)
    requires |item| == 10 && AllNumbers(item)
    ensures s.t == item[0].value && s.dl == item[1].value && |s.markers| == 4
    ensures forall j :: 0 <= j < 4 ==> s.markers[j] == (item[2 + 2 * j].value, item[3 + 2 * j].value)
  {
    Sample(item[0].value, item[1].value,
           [(item[2].value, item[3].value), (item[4].value, item[5].value),
            (item[6].value, item[7].value), (item[8].value, item[9].value)])
  }

  /** One line of the file after the header. A field that is not a number
      (`ValueError`) or a count other than ten (`AssertionError`) aborts the
      read; a NaN outside the `dl` field is reported as a failure as well. */
  function ParseRow(line: string, parseFloat: string -> Option<Float>): (r: Result<Row, string>)
    ensures Strip(line) == [] ==> r == Success(Blank)
    ensures Strip(line) != [] && ParseAll(NonEmpty(Split(Strip(line), ',')), parseFloat).None? ==> r.Failure?
    ensures (Strip(line) != [] && ParseAll(NonEmpty(Split(Strip(line), ',')), parseFloat).Some? &&
             |ParseAll(NonEmpty(Split(Strip(line), ',')), parseFloat).value| != 10) ==> r.Failure?
    ensures r.Success? && r.value.Kept? ==>
              var item := ParseAll(NonEmpty(Split(Strip(line), ',')), parseFloat).value;
              |item| == 10 && AllNumbers(item) && r.value.sample == ToSample(item) && r.value.sample.dl != 0.0
    ensures r == Success(Dropped) <==>
              Strip(line) != [] && ParseAll(NonEmpty(Split(Strip(line), ',')), parseFloat).Some? &&
              var item := ParseAll(NonEmpty(Split(Strip(line), ',')), parseFloat).value;
              |item| == 10 && (item[1].NaN? || item[1].value == 0.0)
  {
    var l := Strip(line);
    if l == [] then Success(Blank)
    else
      match ParseAll(NonEmpty(Split(l, ',')), parseFloat)
      case None => Failure("ValueError")
      case Some(item) =>
        if |item| != 10 then Failure("AssertionError")
        else if item[1].NaN? || item[1].value == 0.0 then Success(Dropped)
        else if !AllNumbers(item) then Failure("NaN")
        else Success(Kept(ToSample(item)))
  }

  /** The samples of the lines, up to the first line that aborts the read. */
  function Samples(lines: seq<string>, parseFloat: string -> Option<Float>): (r: Result<seq<Sample>, string>)
  {
    if lines == [] then Success([])
    else
      var front := Samples(lines[..|lines| - 1], parseFloat);
      if front.Failure? then front
      else
        match ParseRow(lines[|lines| - 1], parseFloat)
        case Failure(e) => Failure(e)
        case Success(row) => if row.Kept? then Success(front.value + [row.sample]) else front
  }

  /** Samples as the reader keeps them: a non-zero `dl` and four markers. */
  predicate KeptSamples(ss: seq<Sample>)
  {
    forall i :: 0 <= i < |ss| ==> ss[i].dl != 0.0 && |ss[i].markers| == 4
  }

  /** Every kept sample has a non-zero `dl` and four markers. */
  lemma {:induction false} SamplesNonzeroDl(lines: seq<string>, parseFloat: string -> Option<Float>)
    requires Samples(lines, parseFloat).Success?
    ensures KeptSamples(Samples(lines, parseFloat).value)
  {
    if lines != [] {
      var front := lines[..|lines| - 1];
      SamplesNonzeroDl(front, parseFloat);
      var row := ParseRow(lines[|lines| - 1], parseFloat);
      if row.value.Kept? {
        KeptRow(lines[|lines| - 1], parseFloat);
        KeptAppend(Samples(front, parseFloat).value, row.value.sample);
      }
    }
  }

  lemma KeptRow(line: string, parseFloat: string -> Option<Float>)
    requires ParseRow(line, parseFloat).Success? && ParseRow(line, parseFloat).value.Kept?
    ensures ParseRow(line, parseFloat).value.sample.dl != 0.0 && |ParseRow(line, parseFloat).value.sample.markers| == 4
  {
  }

  lemma {:induction false} KeptAppend(ss: seq<Sample>, x: Sample)
    requires KeptSamples(ss) && x.dl != 0.0 && |x.markers| == 4
    ensures KeptSamples(ss + [x])
  {
  }

  /** A blank line, or a line whose `dl` is NaN or zero, adds nothing. */
  lemma {:induction false} SkippedLine(lines: seq<string>, line: string, parseFloat: string -> Option<Float>)
    requires ParseRow(line, parseFloat) == Success(Blank) || ParseRow(line, parseFloat) == Success(Dropped)
    ensures Samples(lines + [line], parseFloat) == Samples(lines, parseFloat)
  {
    var all := lines + [line];
    assert all[..|all| - 1] == lines && all[|all| - 1] == line;
    var row := ParseRow(line, parseFloat);
    assert row.Success? && !row.value.Kept?;
  }

  /** The lines after the header; the header itself is never parsed. */
  function Body(lines: seq<string>): seq<string>
  {
    if lines == [] then [] else lines[1..]
  }

  lemma {:induction false} HeaderIgnored(header: string, header': string, rest: seq<string>)
    ensures Body([header] + rest) == Body([header'] + rest) == rest
  {
  }

  // ---------------------------------------------------------------------
  // Normalisation
  // ---------------------------------------------------------------------

  /** `t[1:] - t[:-1]`. */
  function Diffs(t: seq<real>): (d: seq<real>)
    requires |t| >= 1
    ensures |d| == |t| - 1
  {
    seq(|t| - 1, i requires 0 <= i < |t| - 1 => t[i + 1] - t[i])
  }

  function Abs(x: real): real
  {
    if x < 0.0 then -x else x
  }

  /** The sum of consecutive differences telescopes. */
  lemma {:induction false} SumDiffs(t: seq<real>)
    requires |t| >= 1
    ensures Sum(Diffs(t)) == t[|t| - 1] - t[0]
  {
    if |t| > 1 {
      var front := t[..|t| - 1];
      SumDiffs(front);
      assert Diffs(t)[..|t| - 2] == Diffs(front);
    }
  }

  /** The spacing test of the loader: nearly uniform and close to 60 Hz. */
  predicate Regular(t: seq<real>)
  {
    |t| >= 2 && MaxOf(Diffs(t)) - MinOf(Diffs(t)) < 0.0001 && Abs(Mean(Diffs(t)) - 1.0 / 60.0) < 0.0001
  }

  /** When the test passes every single step is within 2e-4 s of 1/60 s. */
  lemma {:induction false} RegularSteps(t: seq<real>)
    requires Regular(t)
    ensures forall i :: 0 <= i < |t| - 1 ==> Abs(t[i + 1] - t[i] - 1.0 / 60.0) < 0.0002
  {
    var d := Diffs(t);
    forall i | 0 <= i < |t| - 1
      ensures Abs(t[i + 1] - t[i] - 1.0 / 60.0) < 0.0002
    {
      assert d[i] == t[i + 1] - t[i];
    }
  }

  /** The mean step is the whole duration over the number of steps. */
  lemma {:induction false} MeanStep(t: seq<real>)
    requires |t| >= 2
    ensures Mean(Diffs(t)) == (t[|t| - 1] - t[0]) / ((|t| - 1) as real)
  {
    SumDiffs(t);
  }

  /** The loader's result: times in seconds from the first sample, the mean
      step, `dl` in metres, and per marker its x and its negated y relative to
      the first sample, in metres. */
  datatype Measurement = Measurement(time: seq<real>, dt: real, dl: seq<real>, relX: seq<seq<real>>, relZ: seq<seq<real>>)

  /** `a -= c` on a numpy array. */
  method Shift(a: array<real>, c: real)
    modifies a
    ensures forall i :: 0 <= i < a.Length ==> a[i] == old(a[i]) - c
  {
    for i := 0 to a.Length
      invariant forall k :: 0 <= k < i ==> a[k] == old(a[k]) - c
      invariant forall k :: i <= k < a.Length ==> a[k] == old(a[k])
    {
      a[i] := a[i] - c;
    }
  }

  /** `a /= 1000` on a numpy array. */
  method Milli(a: array<real>)
    modifies a
    ensures forall i :: 0 <= i < a.Length ==> a[i] == old(a[i]) / 1000.0
  {
    for i := 0 to a.Length
      invariant forall k :: 0 <= k < i ==> a[k] == old(a[k]) / 1000.0
      invariant forall k :: i <= k < a.Length ==> a[k] == old(a[k])
    {
      a[i] := a[i] / 1000.0;
    }
  }

  /** `mi_pos /= 1000; mi_pos -= mi_pos[0]` for one marker, then the two
      columns, the second negated. */
  method MarkerTrack(samples: seq<Sample>, j: nat) returns (relX: seq<real>, relZ: seq<real>)
    requires |samples| > 0 && j < 4
    requires forall i :: 0 <= i < |samples| ==> |samples[i].markers| == 4
    ensures |relX| == |samples| && |relZ| == |samples|
    ensures forall i :: 0 <= i < |samples| ==>
              relX[i] == samples[i].markers[j].0 / 1000.0 - samples[0].markers[j].0 / 1000.0 &&
              relZ[i] == -(samples[i].markers[j].1 / 1000.0 - samples[0].markers[j].1 / 1000.0)
  {
    var x := new real[|samples|](i requires 0 <= i < |samples| => samples[i].markers[j].0);
    var y := new real[|samples|](i requires 0 <= i < |samples| => samples[i].markers[j].1);
    Milli(x);
    Milli(y);
    Shift(x, x[0]);
    Shift(y, y[0]);
    relX := x[..];
    relZ := seq(y.Length, i requires 0 <= i < y.Length reads y => -y[i]);
  }

  /** The time column normalised to seconds since the first sample. */
  function Times(ss: seq<Sample>): (t: seq<real>)
    requires |ss| > 0
    ensures |t| == |ss| && t[0] == 0.0
  {
    seq(|ss|, i requires 0 <= i < |ss| => (ss[i].t - ss[0].t) / 1000.0)
  }

  /** Marker `j`'s x and negated y, in metres relative to its first sample,
      for each of the four markers. */
  ghost predicate Tracks(ss: seq<Sample>, relX: seq<seq<real>>, relZ: seq<seq<real>>)
    requires |ss| > 0
  {
    |relX| == 4 && |relZ| == 4 &&
    forall j :: 0 <= j < 4 ==>
      |relX[j]| == |ss| && |relZ[j]| == |ss| &&
      forall i :: 0 <= i < |ss| ==>
        (j < |ss[i].markers| && j < |ss[0].markers| &&
         relX[j][i] == ss[i].markers[j].0 / 1000.0 - ss[0].markers[j].0 / 1000.0 &&
         relZ[j][i] == -(ss[i].markers[j].1 / 1000.0 - ss[0].markers[j].1 / 1000.0))
  }

  /** The read loop of `load_csv_data` over the lines after the header. */
  method ReadSamples(body: seq<string>, parseFloat: string -> Option<Float>) returns (r: Result<seq<Sample>, string>)
    ensures r == Samples(body, parseFloat)
  {
    var samples := [];
    for i := 0 to |body|
      invariant Samples(body[..i], parseFloat) == Success(samples)
    {
      assert body[..i + 1][..i] == body[..i];
      var row := ParseRow(body[i], parseFloat);
      if row.Failure? {
        FailurePersists(body, i + 1, parseFloat);
        return Failure(row.error);
      }
      if row.value.Kept? {
        samples := samples + [row.value.sample];
      }
    }
    assert body[..|body|] == body;
    return Success(samples);
  }

  /** `t -= t[0]; t /= 1000`. */
  method NormaliseTimes(samples: seq<Sample>) returns (time: seq<real>)
    requires |samples| > 0
    ensures time == Times(samples)
  {
    var t := new real[|samples|](i requires 0 <= i < |samples| => samples[i].t);
    Shift(t, t[0]);
    Milli(t);
    time := t[..];
  }

  /** The loop over the four markers. */
  method MarkerTracks(samples: seq<Sample>) returns (relX: seq<seq<real>>, relZ: seq<seq<real>>)
    requires |samples| > 0
    requires forall i :: 0 <= i < |samples| ==> |samples[i].markers| == 4
    ensures Tracks(samples, relX, relZ)
  {
    relX, relZ := [], [];
    for j := 0 to 4
      invariant |relX| == j && |relZ| == j
      invariant forall j' :: 0 <= j' < j ==>
                  |relX[j']| == |samples| && |relZ[j']| == |samples| &&
                  forall i :: 0 <= i < |samples| ==>
                    relX[j'][i] == samples[i].markers[j'].0 / 1000.0 - samples[0].markers[j'].0 / 1000.0 &&
                    relZ[j'][i] == -(samples[i].markers[j'].1 / 1000.0 - samples[0].markers[j'].1 / 1000.0)
    {
      var x, z := MarkerTrack(samples, j);
      relX, relZ := relX + [x], relZ + [z];
    }
  }

  /** What `load_csv_data` gives for the outcome `read` of the read loop:
      the read's own failure; an `IndexError` for no samples; otherwise a
      measurement exactly when the normalised times are regular, holding
      the times, their mean step, `dl` in metres and the marker tracks. */
  ghost predicate Loaded(read: Result<seq<Sample>, string>, r: Result<Measurement, string>)
  {
    match read
    case Failure(e) => r == Failure(e)
    case Success(ss) =>
      if |ss| == 0 then r == Failure("IndexError")
      else
        (r.Success? <==> Regular(Times(ss))) &&
        (r.Success? ==>
           var m := r.value;
           |ss| >= 2 && m.time == Times(ss) && m.dt == Mean(Diffs(m.time)) &&
           |m.dl| == |ss| && (forall i :: 0 <= i < |ss| ==> m.dl[i] == ss[i].dl / 1000.0) &&
           Tracks(ss, m.relX, m.relZ))
  }

  /** `load_csv_data`: read the rows, normalise the times, check that they
      are regular 60 Hz steps, and convert `dl` and the markers. */
  method LoadCsvData(lines: seq<string>, parseFloat: string -> Option<Float>) returns (r: Result<Measurement, string>)
    ensures Loaded(Samples(Body(lines), parseFloat), r)
  {
    var read := ReadSamples(Body(lines), parseFloat);
    if read.Failure? {
      return Failure(read.error);
    }
    var samples := read.value;
    if |samples| == 0 {
      // `t[0]` of an empty array.
      return Failure("IndexError");
    }
    var time := NormaliseTimes(samples);
    if |samples| < 2 {
      // `np.max` of no differences.
      return Failure("ValueError");
    }
    var steps := Diffs(time);
    if !(MaxOf(steps) - MinOf(steps) < 0.0001 && Abs(Mean(steps) - 1.0 / 60.0) < 0.0001) {
      return Failure("AssertionError");
    }
    SamplesNonzeroDl(Body(lines), parseFloat);
    var dl := new real[|samples|](i requires 0 <= i < |samples| => samples[i].dl);
    Milli(dl);
    var relX, relZ := MarkerTracks(samples);
    r := Success(Measurement(time, Mean(steps), dl[..], relX, relZ));
  }

  /** Once a prefix fails, so does every longer prefix: the read stops at
      the first line that aborts it. */
  lemma {:induction false} FailurePersists(lines: seq<string>, k: nat, parseFloat: string -> Option<Float>)
    requires k <= |lines| && Samples(lines[..k], parseFloat).Failure?
    ensures Samples(lines, parseFloat) == Samples(lines[..k], parseFloat)
    decreases |lines|
  {
    if k == |lines| {
      assert lines[..k] == lines;
    } else {
      var front := lines[..|lines| - 1];
      assert front[..k] == lines[..k];
      FailurePersists(front, k, parseFloat);
    }
  }

  // ---------------------------------------------------------------------
  // Actuation
  // ---------------------------------------------------------------------

  /** The actuation signals for `60 * substep` sub-frames: sub-frame `i`
      uses the measurement `i // substep` on every actuated DOF; fewer than 60
      measurements is an `IndexError`. */
  method ActuatorSignals(dl: seq<real>, substep: nat, actDofs: nat, fullTendonLength: real)
    returns (signals: Option<seq<seq<real>>>)
    requires substep > 0 && fullTendonLength != 0.0
    ensures |dl| < 60 <==> signals.None?
    ensures signals.Some? ==>
              |signals.value| == 60 * substep &&
              forall i :: 0 <= i < 60 * substep ==>
                i / substep < 60 && |signals.value[i]| == actDofs &&
                forall d :: 0 <= d < actDofs ==> signals.value[i][d] == 1.0 - dl[i / substep] / fullTendonLength
  {
    var frameNum := 60 * substep;
    var out: seq<seq<real>> := [];
    for i := 0 to frameNum
      invariant |out| == i
      invariant forall k :: 0 <= k < i ==> k / substep < 60 && k / substep < |dl| && out[k] == Signal(dl[k / substep] / fullTendonLength, actDofs)
    {
      FrameSample(i, substep);
      if i / substep >= |dl| {
        return None;
      }
      out := out + [Signal(dl[i / substep] / fullTendonLength, actDofs)];
    }
    // The last sub-frame reads measurement 59.
    LastFrame(substep, frameNum);
    assert (frameNum - 1) / substep < |dl|;
    signals := Some(out);
  }

  /** Sub-frame `60 * substep - 1` reads measurement 59. */
  lemma LastFrame(substep: nat, frameNum: nat)
    requires substep > 0 && frameNum == 60 * substep
    ensures frameNum >= 1 && (frameNum - 1) / substep == 59
  {
    Distrib(60, 1, substep);
    SubstepsShareSample(59, substep - 1, substep);
  }

  /** `1 - np.ones(act_dofs) * level`. */
  function Signal(level: real, actDofs: nat): (a: seq<real>)
    ensures |a| == actDofs && forall d :: 0 <= d < actDofs ==> a[d] + level == 1.0
  {
    seq(actDofs, _ => 1.0 - level)
  }

  /** Sub-frame `i` of `60 * substep` reads one of the 60 measurements. */
  lemma FrameSample(i: nat, substep: nat)
    requires substep > 0 && i < 60 * substep
    ensures i / substep < 60
  {
    var q := i / substep;
    assert i == q * substep + i % substep;
    Distrib(q, 59, substep);
    if q >= 60 {
      MulAtLeast(q - 59, substep);
    }
  }

  /** The sub-frames `k * substep` to `k * substep + substep - 1` share
      measurement `k`. */
  lemma SubstepsShareSample(k: nat, s: nat, substep: nat)
    requires s < substep
    ensures (k * substep + s) / substep == k
  {
    DivUnique(k * substep + s, substep, k, s);
  }

  // ---------------------------------------------------------------------
  // Checkpoints
  // ---------------------------------------------------------------------

  /** One entry of `opt_history`: the point, its loss and its gradient. */
  datatype Entry = Entry(x: seq<real>, loss: real, grad: seq<real>)

  /** `opt_history` together with the checkpoint files written from it:
      file `k` is the pickled history at the moment it had `k + 1` entries. */
  class OptHistory {
    var entries: seq<Entry>
    var files: map<nat, seq<Entry>>

    ghost predicate Valid()
      reads this
    {
      |entries| >= 1 &&
      (forall k: int :: k in files <==> 0 <= k < |entries|) &&
      (forall k :: k in files ==> files[k] == entries[..k + 1])
    }

    /** The first evaluation and file `0000.data`. */
    constructor (x0: seq<real>, lossAndGrad: seq<real> -> (real, seq<real>))
      ensures Valid()
      ensures entries == [Entry(x0, lossAndGrad(x0).0, lossAndGrad(x0).1)]
      ensures files == map[0 := entries]
    {
      var (loss, grad) := lossAndGrad(x0);
      var first := [Entry(x0, loss, grad)];
      assert first[..1] == first;
      entries := first;
      files := map[0 := first];
    }

    /** `callback(x)`: evaluates `x`, appends it and writes file `cnt`, where
        `cnt` is the length of the history before the append. */
    method Callback(x: seq<real>, lossAndGrad: seq<real> -> (real, seq<real>)) returns (cnt: nat)
      requires Valid()
      modifies this
      ensures Valid()
      ensures cnt == |old(entries)|
      ensures entries == old(entries) + [Entry(x, lossAndGrad(x).0, lossAndGrad(x).1)]
      ensures files == old(files)[cnt := entries]
    {
      var (loss, grad) := lossAndGrad(x);
      cnt := |entries|;
      entries := entries + [Entry(x, loss, grad)];
      files := files[cnt := entries];
    }

    /** Checkpoint `k` holds `k + 1` records, and the newest file is the
        whole history. */
    lemma CheckpointSizes(k: nat)
      requires Valid() && k in files
      ensures |files[k]| == k + 1
      ensures |entries| - 1 in files && files[|entries| - 1] == entries
    {
    }
  }
}
