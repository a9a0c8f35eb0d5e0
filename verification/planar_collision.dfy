/** The planar collision penalty: every vertex below the plane `n · x + offset
    = d0` is pushed along the unit normal `n` by a force that grows
    quadratically inside the band `|d| <= d0` and linearly below it, together
    with the hand-written adjoint of that force with respect to the positions,
    the velocities and the two parameters (stiffness, cutoff distance). */
module PlanarCollision {
  import opened Wrappers
  import opened Vectors

  /** The quadratic piece `k/(4·d0)·(d − d0)²`, used on `−d0 <= d <= d0`. */
  function BandValue(k: real, d0: real, d: real): real
    requires d0 > 0.0
  {
    k / (4.0 * d0) * Sq(d - d0)
  }

  /** The linear piece `−k·d`, used on `d <= −d0`. */
  function BelowValue(k: real, d: real): real
  {
    -k * d
  }

  /** Slope of the quadratic piece, `k/(4·d0)·2·(d − d0)`. */
  function BandSlope(k: real, d0: real, d: real): real
    requires d0 > 0.0
  {
    k / (4.0 * d0) * 2.0 * (d - d0)
  }

  predicate InBand(d0: real, d: real)
  {
    -d0 <= d && d <= d0
  }

  /** Force magnitude along the normal at signed distance `d`; the band test
      comes first, so `d = −d0` takes the quadratic piece, which agrees there
      with the linear one. There is no force at and above `d0`, the linear
      piece `−k·d` applies at and below `−d0` (its sign is
      `MagnitudeNonNegative`). */
  function Magnitude(k: real, d0: real, d: real): (f: real)
    requires d0 > 0.0
    ensures d >= d0 ==> f == 0.0
    ensures d <= -d0 ==> f == BelowValue(k, d)
  {
    PiecesAgree(k, d0);
    if InBand(d0, d) then BandValue(k, d0, d)
    else if d <= -d0 then BelowValue(k, d)
    else 0.0
  }

  /** The scalar factor of `df_dq = Slope · n nᵀ`: 0 at and above `d0` and
      `−k` at and below `−d0`. */
  function Slope(k: real, d0: real, d: real): (s: real)
    requires d0 > 0.0
    ensures d >= d0 ==> s == 0.0
    ensures d <= -d0 ==> s == -k
  {
    PiecesAgree(k, d0);
    if InBand(d0, d) then BandSlope(k, d0, d)
    else if d <= -d0 then -k
    else 0.0
  }

  /** The scalar factor of the stiffness column of `df_dp`: never negative,
      and 0 at and above `d0`. */
  function StiffnessSlope(d0: real, d: real): (s: real)
    requires d0 > 0.0
    ensures s >= 0.0
    ensures d >= d0 ==> s == 0.0
  {
    BandSign(1.0, d0, d);
    assert BandValue(1.0, d0, d) == 1.0 / (4.0 * d0) * Sq(d - d0);
    if InBand(d0, d) then 1.0 / (4.0 * d0) * Sq(d - d0)
    else if d <= -d0 then -d
    else 0.0
  }

  /** The scalar factor of the cutoff column of `df_dp`; the linear piece
      does not depend on the cutoff, and the factor vanishes at both ends of
      the band, so it is 0 everywhere outside the open band. */
  function CutoffSlope(k: real, d0: real, d: real): (s: real)
    requires d0 > 0.0
    ensures !(-d0 < d < d0) ==> s == 0.0
  {
    SqSign(d0);
    CutoffEnds(d0);
    if InBand(d0, d) then (-d / Sq(d0) * (d - d0) - (d / d0 - 1.0)) * k / 4.0
    else 0.0
  }

  /** The quadratic piece is non-negative for a non-negative stiffness. */
  lemma BandSign(k: real, d0: real, d: real)
    requires d0 > 0.0
    ensures k >= 0.0 ==> BandValue(k, d0, d) >= 0.0
  {
    if k > 0.0 {
      SqSign(d - d0);
      var c := k / (4.0 * d0);
      assert c > 0.0;
      if Sq(d - d0) > 0.0 {
        MulPosPos(c, Sq(d - d0));
      }
    }
  }

  /** With a non-negative stiffness the force never pulls a vertex towards
      the plane. */
  lemma MagnitudeNonNegative(k: real, d0: real, d: real)
    requires d0 > 0.0 && k >= 0.0
    ensures Magnitude(k, d0, d) >= 0.0
  {
    BandSign(k, d0, d);
  }

  /** The bracket of the cutoff column is 0 at `d = d0` and at `d = −d0`. */
  lemma CutoffEnds(d0: real)
    requires d0 > 0.0
    ensures -d0 / Sq(d0) * (d0 - d0) - (d0 / d0 - 1.0) == 0.0
    ensures -(-d0) / Sq(d0) * (-d0 - d0) - (-d0 / d0 - 1.0) == 0.0
  {
    SqSign(d0);
    var sq := Sq(d0);
    assert sq == d0 * d0;
    assert d0 / sq * d0 == 1.0;
    assert -(-d0) / sq * (-d0 - d0) == -2.0 * (d0 / sq * d0);
  }

  /** The documented pieces meet where they overlap: the quadratic piece is 0
      at `d0`, equals the linear piece `k·d0` at `−d0`, and has slope `−k`
      there and 0 at `d0`, so force and slope are continuous. */
  lemma PiecesAgree(k: real, d0: real)
    requires d0 > 0.0
    ensures BandValue(k, d0, d0) == 0.0
    ensures BandValue(k, d0, -d0) == BelowValue(k, -d0) == k * d0
    ensures BandSlope(k, d0, -d0) == -k && BandSlope(k, d0, d0) == 0.0
  {
    assert Sq(-d0 - d0) == (4.0 * d0) * d0;
    assert k / (4.0 * d0) * ((4.0 * d0) * d0) == k * d0;
    assert k / (4.0 * d0) * 2.0 * (-d0 - d0) == -(k / (4.0 * d0) * (4.0 * d0));
  }

  /** Two signed distances in the same closed piece of the rule. */
  predicate SamePiece(d0: real, a: real, b: real)
  {
    (InBand(d0, a) && InBand(d0, b)) || (a <= -d0 && b <= -d0) || (a >= d0 && b >= d0)
  }

  /** `c·(e + t)² − c·(e − t)² = 4·c·e·t`. */
  lemma QuadraticCentral(c: real, e: real, t: real)
    ensures c * Sq(e + t) - c * Sq(e - t) == 4.0 * c * e * t
  {
    assert Sq(e + t) - Sq(e - t) == 4.0 * e * t;
    assert c * Sq(e + t) - c * Sq(e - t) == c * (Sq(e + t) - Sq(e - t));
  }

  /** `Slope` is the derivative of `Magnitude`: moving the distance by `±c·h`
      inside one piece, the central difference over `2·h` is exactly
      `c · Slope`, the quadratic piece included. */
  lemma MagnitudeCentral(k: real, d0: real, d: real, c: real, h: real)
    requires d0 > 0.0 && h != 0.0
    requires SamePiece(d0, d + c * h, d - c * h)
    ensures (Magnitude(k, d0, d + c * h) - Magnitude(k, d0, d - c * h)) / (2.0 * h) == c * Slope(k, d0, d)
  {
    var plus, minus := d + c * h, d - c * h;
    if InBand(d0, plus) && InBand(d0, minus) {
      BandCentral(k, d0, d, c * h, plus, minus);
      DivBy(Magnitude(k, d0, plus) - Magnitude(k, d0, minus), 2.0 * h, c * Slope(k, d0, d));
    } else if plus <= -d0 && minus <= -d0 {
      assert Magnitude(k, d0, plus) == -k * plus && Magnitude(k, d0, minus) == -k * minus;
      assert -k * plus - -k * minus == (2.0 * h) * (c * -k);
      DivBy(-k * plus - -k * minus, 2.0 * h, c * -k);
    }
  }

  /** Inside the band, the difference of the quadratic piece at `d ± t` is
      `2·t` times its slope at `d`. */
  lemma BandCentral(k: real, d0: real, d: real, t: real, plus: real, minus: real)
    requires d0 > 0.0 && plus == d + t && minus == d - t
    requires InBand(d0, plus) && InBand(d0, minus)
    ensures Magnitude(k, d0, plus) - Magnitude(k, d0, minus) == (2.0 * t) * Slope(k, d0, d)
  {
    assert InBand(d0, d);
    var m := k / (4.0 * d0);
    var e := d - d0;
    QuadraticCentral(m, e, t);
    assert plus - d0 == e + t && minus - d0 == e - t;
    assert Slope(k, d0, d) == m * 2.0 * e;
    assert 4.0 * m * e * t == (2.0 * t) * (m * 2.0 * e);
  }

  /** The force is linear in the stiffness, with factor `StiffnessSlope`; so
      the stiffness column of `df_dp` is the exact derivative. */
  lemma StiffnessLinear(k: real, d0: real, d: real)
    requires d0 > 0.0
    ensures Magnitude(k, d0, d) == k * StiffnessSlope(d0, d)
  {
    if InBand(d0, d) {
      assert k / (4.0 * d0) == k * (1.0 / (4.0 * d0));
    }
  }

  lemma StiffnessCentral(k: real, d0: real, d: real, h: real)
    requires d0 > 0.0 && h != 0.0
    ensures (Magnitude(k + h, d0, d) - Magnitude(k - h, d0, d)) / (2.0 * h) == StiffnessSlope(d0, d)
  {
    StiffnessLinear(k + h, d0, d);
    StiffnessLinear(k - h, d0, d);
    var s := StiffnessSlope(d0, d);
    assert (k + h) * s - (k - h) * s == (2.0 * h) * s;
  }

  /** `k/(4·D)·(d − D)² = k/4·(d²/D − 2·d + D)`. */
  lemma BandExpand(k: real, cut: real, d: real)
    requires cut > 0.0
    ensures BandValue(k, cut, d) == k / 4.0 * (Sq(d) / cut - 2.0 * d + cut)
  {
    var x := Sq(d - cut);
    assert x == Sq(d) - 2.0 * d * cut + cut * cut;
    assert x / cut == Sq(d) / cut - 2.0 * d + cut;
    assert k / (4.0 * cut) * x == k / 4.0 * (x / cut);
  }

  /** The cutoff column in closed form, `−k·(d − d0)·(d + d0)/(4·d0²)`, which
      is also `k/4·(1 − d²/d0²)`. */
  lemma CutoffClosedForm(k: real, d0: real, d: real)
    requires d0 > 0.0 && InBand(d0, d)
    ensures CutoffSlope(k, d0, d) == -k * (d - d0) * (d + d0) / (4.0 * Sq(d0))
    ensures CutoffSlope(k, d0, d) == k / 4.0 * (1.0 - Sq(d) / Sq(d0))
  {
    var sq := Sq(d0);
    SqSign(d0);
    var s := -d / sq * (d - d0) - (d / d0 - 1.0);
    CutoffFactor(d, d0, sq, s);
    var q := Sq(d) / sq;
    assert q * sq == Sq(d);
    assert (1.0 - q) * sq == sq - q * sq;
    CancelRight(s, 1.0 - q, sq);
    assert CutoffSlope(k, d0, d) == s * k / 4.0;
    assert -(d - d0) * (d + d0) == sq - Sq(d);
    DivBy(-k * (d - d0) * (d + d0), 4.0 * sq, s * k / 4.0);
  }

  /** The bracket of the cutoff column times `d0²` is `d0² − d²`. */
  lemma CutoffFactor(d: real, d0: real, sq: real, s: real)
    requires d0 > 0.0 && sq == Sq(d0) && sq > 0.0 && s == -d / sq * (d - d0) - (d / d0 - 1.0)
    ensures s * sq == sq - Sq(d)
  {
    assert d / sq * sq == d;
    assert d / d0 * d0 == d;
    assert -d / sq * (d - d0) * sq == -d * (d - d0);
    assert (d / d0 - 1.0) * sq == d * d0 - sq;
  }

  /** The cutoff column is the derivative of the quadratic piece in `d0`: the
      difference quotient for a cutoff step `h` is `k/4·(1 − d²/(d0·(d0 + h)))`,
      which at `h = 0` is `CutoffSlope` (see `CutoffClosedForm`). */
  lemma CutoffQuotient(k: real, d0: real, d: real, h: real)
    requires d0 > 0.0 && d0 + h > 0.0 && h != 0.0
    requires InBand(d0, d) && InBand(d0 + h, d)
    ensures (Magnitude(k, d0 + h, d) - Magnitude(k, d0, d)) / h == k / 4.0 * (1.0 - Sq(d) / (d0 * (d0 + h)))
  {
    var p := d0 * (d0 + h);
    ProductPositive(d0, d0 + h, p);
    BandExpand(k, d0 + h, d);
    BandExpand(k, d0, d);
    var e := Sq(d);
    var q := e / p;
    var a, b := e / (d0 + h), e / d0;
    ReciprocalGap(e, d0, h, a, b, p, q);
    var diff := Magnitude(k, d0 + h, d) - Magnitude(k, d0, d);
    assert diff == k / 4.0 * ((a - b) + h);
    ScaledGap(k, h, a - b, q, diff);
  }

  /** The step of `CutoffQuotient` that divides by `h`. */
  lemma ScaledGap(k: real, h: real, gap: real, q: real, diff: real)
    requires h != 0.0 && gap == -h * q && diff == k / 4.0 * (gap + h)
    ensures diff / h == k / 4.0 * (1.0 - q)
  {
    assert diff == h * (k / 4.0 * (1.0 - q));
    DivBy(diff, h, k / 4.0 * (1.0 - q));
  }

  /** `e/(d0 + h) − e/d0 = −h · e/(d0·(d0 + h))`. */
  lemma ReciprocalGap(e: real, d0: real, h: real, a: real, b: real, p: real, q: real)
    requires d0 > 0.0 && d0 + h > 0.0
    requires a == e / (d0 + h) && b == e / d0 && p == d0 * (d0 + h) && p > 0.0 && q == e / p
    ensures a - b == -h * q
  {
    assert a * (d0 + h) == e;
    assert b * d0 == e;
    assert q * p == e;
    assert (a - b) * p == a * (d0 + h) * d0 - b * d0 * (d0 + h);
    assert (a - b) * p == -h * e;
    assert (-h * q) * p == -h * e;
    CancelRight(a - b, -h * q, p);
  }

  /** Signed distance `n · x + offset` of a vertex from the plane. */
  function Distance(n: seq<real>, offset: real, x: seq<real>): real
    requires |x| == |n|
  {
    Dot(n, x) + offset
  }

  /** The force on one vertex at `x`: its magnitude along the normal. */
  function VertexForce(n: seq<real>, offset: real, k: real, d0: real, x: seq<real>): (f: seq<real>)
    requires d0 > 0.0 && |x| == |n|
    ensures |f| == |n|
  {
    Scale(Magnitude(k, d0, Distance(n, offset, x)), n)
  }

  /** `len` splits into whole blocks of `b` coordinates. */
  predicate Blocks(len: nat, b: nat)
    decreases len
  {
    len == 0 || (b > 0 && len >= b && Blocks(len - b, b))
  }

  /** For the dimensions 2 and 3, whole blocks are exactly the lengths the
      remainder test accepts. */
  lemma {:induction false} BlocksMod(len: nat, b: nat)
    requires b == 2 || b == 3
    ensures Blocks(len, b) <==> len % b == 0
    decreases len
  {
    if len >= b {
      BlocksMod(len - b, b);
    }
  }

  /** Two block boundaries `lo < hi` are at least one block apart. */
  lemma {:induction false} BlocksGap(lo: nat, hi: nat, b: nat)
    requires b > 0 && Blocks(lo, b) && Blocks(hi, b) && lo < hi
    ensures lo + b <= hi
    decreases lo
  {
    if lo > 0 {
      BlocksGap(lo - b, hi - b, b);
    }
  }

  /** The force vector for the vertices stored one after another in `q`,
      `|n|` coordinates each. */
  function Forces(n: seq<real>, offset: real, k: real, d0: real, q: seq<real>): (f: seq<real>)
    requires d0 > 0.0 && |n| > 0 && Blocks(|q|, |n|)
    ensures |f| == |q|
    decreases |q|
  {
    if |q| == 0 then []
    else
      var front := |q| - |n|;
      Forces(n, offset, k, d0, q[..front]) + VertexForce(n, offset, k, d0, q[front..])
  }

  /** Processing one more vertex appends its force to the force of the
      prefix. */
  lemma {:induction false} ForcesExtend(n: seq<real>, offset: real, k: real, d0: real, q: seq<real>, start: nat)
    requires d0 > 0.0 && |n| > 0 && Blocks(start, |n|) && start + |n| <= |q|
    ensures Blocks(start + |n|, |n|)
    ensures Forces(n, offset, k, d0, q[..start + |n|]) ==
            Forces(n, offset, k, d0, q[..start]) + VertexForce(n, offset, k, d0, q[start..start + |n|])
  {
    assert q[..start + |n|][..start] == q[..start];
    assert q[..start + |n|][start..] == q[start..start + |n|];
  }

  /** The force on the vertex stored at `lo`, whose coordinates are `x`, is
      the force of its own position alone: it reads no other vertex and no
      velocity. */
  lemma {:induction false} ForcesAt(n: seq<real>, offset: real, k: real, d0: real, q: seq<real>, lo: nat, x: seq<real>)
    requires d0 > 0.0 && |n| > 0 && Blocks(|q|, |n|) && Blocks(lo, |n|) && lo < |q|
    requires lo + |n| <= |q| ==> x == q[lo..lo + |n|]
    ensures lo + |n| <= |q|
    ensures Forces(n, offset, k, d0, q)[lo..lo + |n|] == VertexForce(n, offset, k, d0, x)
    decreases |q|
  {
    var front := |q| - |n|;
    if lo < front {
      BlocksGap(lo, front, |n|);
      assert q[..front][lo..lo + |n|] == x;
      ForcesAt(n, offset, k, d0, q[..front], lo, x);
      ForcesAtFront(n, offset, k, d0, q, lo, VertexForce(n, offset, k, d0, x));
    } else {
      BlocksGap(lo, |q|, |n|);
      ForcesAtLast(n, offset, k, d0, q, lo, x);
    }
  }

  /** The step of `ForcesAt` for a vertex before the last one. */
  lemma {:induction false} ForcesAtFront(n: seq<real>, offset: real, k: real, d0: real, q: seq<real>, lo: nat, v: seq<real>)
    requires d0 > 0.0 && |n| > 0 && Blocks(|q|, |n|) && |q| > 0 && lo + |n| <= |q| - |n|
    requires Blocks(|q| - |n|, |n|)
    requires Forces(n, offset, k, d0, q[..|q| - |n|])[lo..lo + |n|] == v
    ensures Forces(n, offset, k, d0, q)[lo..lo + |n|] == v
  {
    var front := |q| - |n|;
    var prefix := Forces(n, offset, k, d0, q[..front]);
    var last := VertexForce(n, offset, k, d0, q[front..]);
    var f := Forces(n, offset, k, d0, q);
    assert f == prefix + last;
    SliceLeft(prefix, last, f, lo, lo + |n|, v);
  }

  /** The step of `ForcesAt` for the last vertex. */
  lemma {:induction false} ForcesAtLast(n: seq<real>, offset: real, k: real, d0: real, q: seq<real>, lo: nat, x: seq<real>)
    requires d0 > 0.0 && |n| > 0 && Blocks(|q|, |n|) && |q| > 0 && lo + |n| == |q| && x == q[lo..]
    ensures Forces(n, offset, k, d0, q)[lo..lo + |n|] == VertexForce(n, offset, k, d0, x)
  {
    var prefix := Forces(n, offset, k, d0, q[..lo]);
    var last := VertexForce(n, offset, k, d0, x);
    assert Forces(n, offset, k, d0, q) == prefix + last;
    SliceRight(prefix, last);
  }

  lemma {:induction false} SliceLeft(a: seq<real>, b: seq<real>, f: seq<real>, lo: nat, hi: nat, v: seq<real>)
    requires lo <= hi <= |a| && f == a + b && a[lo..hi] == v
    ensures f[lo..hi] == v
  {
    assert f[lo..hi] == a[lo..hi];
  }

  lemma {:induction false} SliceRight(a: seq<real>, b: seq<real>)
    ensures (a + b)[|a|..] == b
  {
  }

  /** With a unit normal, the force's component along the normal is its
      magnitude, which is never negative. */
  lemma {:induction false} NormalComponent(n: seq<real>, offset: real, k: real, d0: real, x: seq<real>)
    requires d0 > 0.0 && k > 0.0 && |x| == |n| && SumSq(n) == 1.0
    ensures Dot(n, VertexForce(n, offset, k, d0, x)) == Magnitude(k, d0, Distance(n, offset, x)) >= 0.0
  {
    var mag := Magnitude(k, d0, Distance(n, offset, x));
    MagnitudeNonNegative(k, d0, Distance(n, offset, x));
    DotScale(n, mag, n);
    DotSelf(n);
  }

  /** The outer product `a bᵀ`, row by row. */
  function Outer(a: seq<real>, b: seq<real>): seq<seq<real>>
  {
    seq(|a|, i requires 0 <= i < |a| => Scale(a[i], b))
  }

  function MatScale(c: real, m: seq<seq<real>>): seq<seq<real>>
  {
    seq(|m|, i requires 0 <= i < |m| => Scale(c, m[i]))
  }

  function ZeroMatrix(rows: nat, cols: nat): seq<seq<real>>
  {
    seq(rows, _ => Zeros(cols))
  }

  /** Matrix-vector product, one inner product per row. */
  function MatVec(m: seq<seq<real>>, x: seq<real>): (r: seq<real>)
    requires forall i :: 0 <= i < |m| ==> |m[i]| == |x|
    ensures |r| == |m|
  {
    seq(|m|, i requires 0 <= i < |m| => Dot(m[i], x))
  }

  predicate Square(m: seq<seq<real>>, dim: nat)
  {
    |m| == dim && forall i :: 0 <= i < |m| ==> |m[i]| == dim
  }

  /** `df_dq · dl_df` for one vertex, with `df_dq = Slope · n nᵀ`. */
  function VertexQGrad(n: seq<real>, nnt: seq<seq<real>>, offset: real, k: real, d0: real,
                       x: seq<real>, g: seq<real>): (r: seq<real>)
    requires d0 > 0.0 && |x| == |n| && |g| == |n| && Square(nnt, |n|)
    ensures |r| == |n|
  {
    MatVec(MatScale(Slope(k, d0, Distance(n, offset, x)), nnt), g)
  }

  /** `dl_dfᵀ · df_dp` for one vertex: the two parameter columns are the
      normal scaled by `StiffnessSlope` and by `CutoffSlope`. */
  function VertexParamGrad(n: seq<real>, offset: real, k: real, d0: real, x: seq<real>, g: seq<real>): (r: seq<real>)
    requires d0 > 0.0 && |x| == |n| && |g| == |n|
    ensures |r| == 2
  {
    var d := Distance(n, offset, x);
    [Dot(g, Scale(StiffnessSlope(d0, d), n)), Dot(g, Scale(CutoffSlope(k, d0, d), n))]
  }

  /** The position gradient for the stacked vertices of `q`. */
  function QGrads(n: seq<real>, nnt: seq<seq<real>>, offset: real, k: real, d0: real,
                  q: seq<real>, g: seq<real>): (r: seq<real>)
    requires d0 > 0.0 && |n| > 0 && Blocks(|q|, |n|) && |g| == |q| && Square(nnt, |n|)
    ensures |r| == |q|
    decreases |q|
  {
    if |q| == 0 then []
    else
      var front := |q| - |n|;
      QGrads(n, nnt, offset, k, d0, q[..front], g[..front]) +
      VertexQGrad(n, nnt, offset, k, d0, q[front..], g[front..])
  }

  /** The parameter gradient: the per-vertex rows summed. */
  function ParamGrads(n: seq<real>, offset: real, k: real, d0: real, q: seq<real>, g: seq<real>): (r: seq<real>)
    requires d0 > 0.0 && |n| > 0 && Blocks(|q|, |n|) && |g| == |q|
    ensures |r| == 2
    decreases |q|
  {
    if |q| == 0 then [0.0, 0.0]
    else
      var front := |q| - |n|;
      Add(ParamGrads(n, offset, k, d0, q[..front], g[..front]),
          VertexParamGrad(n, offset, k, d0, q[front..], g[front..]))
  }

  /** One more vertex appends its entries to the position gradient. */
  lemma {:induction false} QGradsExtend(n: seq<real>, nnt: seq<seq<real>>, offset: real, k: real, d0: real,
                                        q: seq<real>, g: seq<real>, start: nat)
    requires d0 > 0.0 && |n| > 0 && Square(nnt, |n|) && |g| == |q| && Blocks(start, |n|) && start + |n| <= |q|
    ensures Blocks(start + |n|, |n|)
    ensures QGrads(n, nnt, offset, k, d0, q[..start + |n|], g[..start + |n|]) ==
            QGrads(n, nnt, offset, k, d0, q[..start], g[..start]) +
            VertexQGrad(n, nnt, offset, k, d0, q[start..start + |n|], g[start..start + |n|])
  {
    assert q[..start + |n|][..start] == q[..start];
    assert q[..start + |n|][start..] == q[start..start + |n|];
    assert g[..start + |n|][..start] == g[..start];
    assert g[..start + |n|][start..] == g[start..start + |n|];
  }

  /** One more vertex adds its row to the parameter gradient. */
  lemma {:induction false} ParamGradsExtend(n: seq<real>, offset: real, k: real, d0: real,
                                            q: seq<real>, g: seq<real>, start: nat)
    requires d0 > 0.0 && |n| > 0 && |g| == |q| && Blocks(start, |n|) && start + |n| <= |q|
    ensures Blocks(start + |n|, |n|)
    ensures ParamGrads(n, offset, k, d0, q[..start + |n|], g[..start + |n|]) ==
            Add(ParamGrads(n, offset, k, d0, q[..start], g[..start]),
                VertexParamGrad(n, offset, k, d0, q[start..start + |n|], g[start..start + |n|]))
  {
    assert q[..start + |n|][..start] == q[..start];
    assert q[..start + |n|][start..] == q[start..start + |n|];
    assert g[..start + |n|][..start] == g[..start];
    assert g[..start + |n|][start..] == g[start..start + |n|];
  }

  lemma {:induction false} ScaleZero(a: seq<real>)
    ensures Scale(0.0, a) == Zeros(|a|)
  {
    assert forall i :: 0 <= i < |a| ==> Scale(0.0, a)[i] == Zeros(|a|)[i];
  }

  lemma {:induction false} MatScaleZero(m: seq<seq<real>>, dim: nat)
    requires Square(m, dim)
    ensures MatScale(0.0, m) == ZeroMatrix(dim, dim)
  {
    forall i | 0 <= i < dim
      ensures MatScale(0.0, m)[i] == ZeroMatrix(dim, dim)[i]
    {
      ScaleZero(m[i]);
    }
  }

  /** `(a − b)/(2h) = s` gives `(a·G − b·G)/(2h) = s·G`. */
  lemma ScaledQuotient(a: real, b: real, gn: real, h: real, s: real)
    requires h != 0.0 && (a - b) / (2.0 * h) == s
    ensures (a * gn - b * gn) / (2.0 * h) == s * gn
  {
    assert a - b == (2.0 * h) * s;
    assert a * gn - b * gn == (2.0 * h) * (s * gn);
    DivBy(a * gn - b * gn, 2.0 * h, s * gn);
  }

  /** A row `s · c · n` of a scaled outer product, applied to `g`. */
  lemma {:induction false} OuterRow(n: seq<real>, g: seq<real>, s: real, c: real)
    requires |g| == |n|
    ensures Dot(Scale(s, Scale(c, n)), g) == (c * s) * Dot(n, g)
  {
    DotScaleLeft(s, Scale(c, n), g);
    DotScaleLeft(c, n, g);
  }

  /** `g · f(x)` is the magnitude at `x` times `g · n`. */
  lemma {:induction false} VertexLoss(n: seq<real>, offset: real, k: real, d0: real, x: seq<real>, g: seq<real>)
    requires d0 > 0.0 && |x| == |n| && |g| == |n|
    ensures Dot(VertexForce(n, offset, k, d0, x), g) == Magnitude(k, d0, Distance(n, offset, x)) * Dot(n, g)
  {
    DotScaleLeft(Magnitude(k, d0, Distance(n, offset, x)), n, g);
  }

  /** Moving coordinate `j` by `h` moves the distance by `n[j]·h`. */
  lemma {:induction false} PerturbDistance(n: seq<real>, offset: real, x: seq<real>, j: nat, h: real)
    requires |x| == |n| && j < |n|
    ensures Distance(n, offset, Perturb(x, j, h)) == Distance(n, offset, x) + n[j] * h
  {
    DotPerturb(n, x, j, h);
  }

  /** The outer product of a vector with itself is square. */
  lemma {:induction false} OuterSquare(n: seq<real>)
    ensures Square(Outer(n, n), |n|)
  {
  }

  /** Entry `j` of the position gradient is `n[j] · Slope · (g · n)`. */
  lemma {:induction false} QGradEntry(n: seq<real>, offset: real, k: real, d0: real, x: seq<real>, g: seq<real>, j: nat)
    requires d0 > 0.0 && |x| == |n| && |g| == |n| && j < |n|
    ensures Square(Outer(n, n), |n|)
    ensures VertexQGrad(n, Outer(n, n), offset, k, d0, x, g)[j] == (n[j] * Slope(k, d0, Distance(n, offset, x))) * Dot(n, g)
  {
    var s := Slope(k, d0, Distance(n, offset, x));
    var row := MatScale(s, Outer(n, n))[j];
    assert row == Scale(s, Scale(n[j], n));
    assert VertexQGrad(n, Outer(n, n), offset, k, d0, x, g)[j] == Dot(row, g);
    OuterRow(n, g, s, n[j]);
  }

  /** The scalar core of the position adjoint: with `g · f = Magnitude(d) · (g · n)`
      and the probe `x ± h·e_j` moving `d` by `± n[j]·h` (see `VertexLoss`
      and `PerturbDistance`), the central difference of the loss is
      `n[j] · Slope(d) · (g · n)`, which is entry `j` of `VertexQGrad`
      (see `QGradEntry`), whenever both probes stay in one piece. */
  lemma LossCentral(k: real, d0: real, d: real, c: real, h: real, gn: real)
    requires d0 > 0.0 && h != 0.0
    requires SamePiece(d0, d + c * h, d - c * h)
    ensures (Magnitude(k, d0, d + c * h) * gn - Magnitude(k, d0, d - c * h) * gn) / (2.0 * h) == (c * Slope(k, d0, d)) * gn
  {
    MagnitudeCentral(k, d0, d, c, h);
    ScaledQuotient(Magnitude(k, d0, d + c * h), Magnitude(k, d0, d - c * h), gn, h, c * Slope(k, d0, d));
  }

  /** The stiffness analogue of `LossCentral`: the force is linear in the
      stiffness, so the central difference of `Magnitude · (g · n)` in the
      stiffness is `StiffnessSlope(d) · (g · n)`, entry 0 of
      `VertexParamGrad` (see `ParamGradEntries`). */
  lemma StiffnessLossCentral(k: real, d0: real, d: real, h: real, gn: real)
    requires d0 > 0.0 && h != 0.0
    ensures (Magnitude(k + h, d0, d) * gn - Magnitude(k - h, d0, d) * gn) / (2.0 * h) == StiffnessSlope(d0, d) * gn
  {
    var plus, minus, s := Magnitude(k + h, d0, d), Magnitude(k - h, d0, d), StiffnessSlope(d0, d);
    StiffnessCentral(k, d0, d, h);
    ScaledQuotient(plus, minus, gn, h, s);
  }

  /** The two parameter entries are `g · n` times the stiffness and cutoff
      slopes at the vertex's distance. */
  lemma {:induction false} ParamGradEntries(n: seq<real>, offset: real, k: real, d0: real, x: seq<real>, g: seq<real>)
    requires d0 > 0.0 && |x| == |n| && |g| == |n|
    ensures VertexParamGrad(n, offset, k, d0, x, g)[0] == StiffnessSlope(d0, Distance(n, offset, x)) * Dot(n, g)
    ensures VertexParamGrad(n, offset, k, d0, x, g)[1] == CutoffSlope(k, d0, Distance(n, offset, x)) * Dot(n, g)
  {
    var d := Distance(n, offset, x);
    var a, b := StiffnessSlope(d0, d), CutoffSlope(k, d0, d);
    var r := VertexParamGrad(n, offset, k, d0, x, g);
    assert r[0] == Dot(g, Scale(a, n)) && r[1] == Dot(g, Scale(b, n));
    var gn := Dot(n, g);
    DotComm(n, g);
    assert Dot(g, n) == gn;
    DotScale(g, a, n);
    DotScale(g, b, n);
  }

  /** The result of `BackwardForce`: gradients with respect to positions,
      velocities and the parameters (stiffness, cutoff distance). */
  datatype BackwardGradients = BackwardGradients(dlDq: seq<real>, dlDv: seq<real>, dlDp: seq<real>)

  /** A planar collision force for vertices of dimension `vertexDim`. */
  class PlanarCollisionStateForce {
    const vertexDim: nat
    var stiffness: real
    var cutoffDist: real
    var normal: seq<real>
    var offset: real
    var nnt: seq<seq<real>>

    /** The state a successful `Initialize` leaves: a unit normal, its outer
        product, and positive parameters. */
    ghost predicate Ready()
      reads this
    {
      (vertexDim == 2 || vertexDim == 3) && |normal| == vertexDim && SumSq(normal) == 1.0 &&
      nnt == Outer(normal, normal) && Square(nnt, vertexDim) &&
      stiffness > 0.0 && cutoffDist > 0.0
    }

    constructor (vertexDim: nat)
      requires vertexDim == 2 || vertexDim == 3
      ensures this.vertexDim == vertexDim
      ensures stiffness == 0.0 && cutoffDist == 0.0 && normal == Zeros(vertexDim) && offset == 0.0
      ensures nnt == ZeroMatrix(vertexDim, vertexDim)
    {
      this.vertexDim := vertexDim;
      stiffness := 0.0;
      cutoffDist := 0.0;
      normal := Zeros(vertexDim);
      offset := 0.0;
      nnt := ZeroMatrix(vertexDim, vertexDim);
    }

    /** Stores the parameters, then rejects a (nearly) zero normal and a
        non-positive stiffness or cutoff; on success the plane is rescaled so
        that its normal has unit length. `norm` is the length of `normal`. */
    method Initialize(stiffness: real, cutoffDist: real, normal: seq<real>, offset: real, norm: real)
      returns (r: Result<(), string>)
      requires |normal| == vertexDim && (vertexDim == 2 || vertexDim == 3)
      requires norm >= 0.0 && Sq(norm) == SumSq(normal)
      modifies this
      ensures this.stiffness == stiffness && this.cutoffDist == cutoffDist
      ensures r == if norm <= 0.00001 then Failure("Singular normal.")
                   else if !(stiffness > 0.0 && cutoffDist > 0.0) then Failure("Invalid stiffness or cutoff_dist")
                   else Success(())
      ensures r.Failure? ==> this.normal == old(this.normal) && this.offset == old(this.offset) && nnt == old(nnt)
      ensures r.Success? ==> this.normal == Scale(1.0 / norm, normal) && this.offset == offset / norm
      ensures r.Success? ==> Ready()
    {
      this.stiffness := stiffness;
      this.cutoffDist := cutoffDist;
      if norm <= 0.00001 {
        return Failure("Singular normal.");
      }
      if !(stiffness > 0.0 && cutoffDist > 0.0) {
        return Failure("Invalid stiffness or cutoff_dist");
      }
      var unit := Scale(1.0 / norm, normal);
      UnitNormal(normal, norm);
      this.normal := unit;
      this.offset := offset / norm;
      nnt := Outer(unit, unit);
      r := Success(());
    }

    /** Stores the force on the vertex at `seg` into block `start` of `f`,
        which follows the finished blocks `done` and is still zero; a vertex
        with no force leaves its block as it is. */
    method WriteVertexForce(f: array<real>, start: nat, ghost done: seq<real>, seg: seq<real>)
      requires cutoffDist > 0.0 && |normal| == vertexDim && |seg| == vertexDim
      requires start == |done| && start + vertexDim <= f.Length && f[..] == done + Zeros(f.Length - start)
      modifies f
      ensures f[..] == done + VertexForce(normal, offset, stiffness, cutoffDist, seg) + Zeros(f.Length - start - vertexDim)
    {
      var d0 := cutoffDist;
      var k := stiffness;
      var d := Distance(normal, offset, seg);
      if -d0 <= d && d <= d0 {
        FillBlock(f, start, done, Scale(BandValue(k, d0, d), normal));
      } else if d <= -d0 {
        FillBlock(f, start, done, Scale(BelowValue(k, d), normal));
      } else {
        ScaleZero(normal);
        ZerosSplit(vertexDim, f.Length - start - vertexDim);
      }
    }

    /** The force on every vertex; velocities are not read. The loop visits
        vertex `i` at `start = vertexDim · i`. */
    method ForwardForce(q: seq<real>, v: seq<real>) returns (r: Result<seq<real>, string>)
      requires Ready()
      ensures |q| % vertexDim != 0 ==> r == Failure("Incompatible dofs and vertex_dim.")
      ensures |q| % vertexDim == 0 ==> Blocks(|q|, vertexDim) && r == Success(Forces(normal, offset, stiffness, cutoffDist, q))
    {
      var dofs := |q|;
      if dofs % vertexDim != 0 {
        return Failure("Incompatible dofs and vertex_dim.");
      }
      BlocksMod(dofs, vertexDim);
      ghost var n, c, k, d0 := normal, offset, stiffness, cutoffDist;
      var f := new real[dofs](_ => 0.0);
      var start := 0;
      while start < dofs
        invariant start <= dofs && Blocks(start, vertexDim)
        invariant f.Length == dofs
        invariant f[..] == Forces(n, c, k, d0, q[..start]) + Zeros(dofs - start)
      {
        ForwardVertex(f, q, start);
        start := start + vertexDim;
      }
      assert q[..start] == q && Zeros(dofs - start) == [];
      assert f[..] == Forces(n, c, k, d0, q) + [];
      assert f[..] == Forces(n, c, k, d0, q);
      return Success(f[..]);
    }

    /** One turn of the forward loop: the force on the vertex at `start`
        goes into its still-zero block of `f`. */
    method ForwardVertex(f: array<real>, q: seq<real>, start: nat)
      requires cutoffDist > 0.0 && |normal| == vertexDim && vertexDim > 0 && f.Length == |q| && Blocks(|q|, vertexDim) && Blocks(start, vertexDim) && start < |q|
      requires f[..] == Forces(normal, offset, stiffness, cutoffDist, q[..start]) + Zeros(|q| - start)
      modifies f
      ensures Blocks(start + vertexDim, vertexDim) && start + vertexDim <= |q|
      ensures f[..] == Forces(normal, offset, stiffness, cutoffDist, q[..start + vertexDim]) + Zeros(|q| - (start + vertexDim))
    {
      BlocksGap(start, |q|, vertexDim);
      WriteVertexForce(f, start, Forces(normal, offset, stiffness, cutoffDist, q[..start]), q[start..start + vertexDim]);
      ForcesExtend(normal, offset, stiffness, cutoffDist, q, start);
    }

    /** The three factors the backward rule sets for a vertex at distance
        `d`: of `df_dq = slope · n nᵀ` and of the two columns of `df_dp`;
        outside both branches all three stay zero. */
    method VertexFactors(d: real) returns (slope: real, stiff: real, cut: real)
      requires cutoffDist > 0.0
      ensures slope == Slope(stiffness, cutoffDist, d)
      ensures stiff == StiffnessSlope(cutoffDist, d)
      ensures cut == CutoffSlope(stiffness, cutoffDist, d)
    {
      var d0 := cutoffDist;
      var k := stiffness;
      slope, stiff, cut := 0.0, 0.0, 0.0;
      if -d0 <= d && d <= d0 {
        slope := k / (4.0 * d0) * 2.0 * (d - d0);
        stiff := 1.0 / (4.0 * d0) * Sq(d - d0);
        SqSign(d0);
        cut := (-d / Sq(d0) * (d - d0) - (d / d0 - 1.0)) * k / 4.0;
        assert InBand(d0, d);
      } else if d <= -d0 {
        slope := -k;
        stiff := -d;
        assert !InBand(d0, d);
      }
    }

    /** The gradients of `dl_df · f` for one vertex: `df_dq · dl_df` and
        `dl_dfᵀ · df_dp`. */
    method VertexBackward(x: seq<real>, g: seq<real>) returns (dq: seq<real>, dp: seq<real>)
      requires Ready() && |x| == vertexDim && |g| == vertexDim
      ensures dq == VertexQGrad(normal, nnt, offset, stiffness, cutoffDist, x, g)
      ensures dp == VertexParamGrad(normal, offset, stiffness, cutoffDist, x, g)
    {
      var slope, stiff, cut := VertexFactors(Distance(normal, offset, x));
      dq := MatVec(MatScale(slope, nnt), g);
      dp := [Dot(g, Scale(stiff, normal)), Dot(g, Scale(cut, normal))];
    }

    /** The gradients with respect to positions, velocities (always zero) and
        the two parameters, after the size checks. */
    method BackwardForce(q: seq<real>, v: seq<real>, f: seq<real>, dlDf: seq<real>)
      returns (r: Result<BackwardGradients, string>)
      requires Ready()
      ensures |q| % vertexDim != 0 ==> r == Failure("Incompatible dofs and vertex_dim.")
      ensures |q| % vertexDim == 0 && !(|q| == |v| == |f| == |dlDf|) ==> r == Failure("Inconsistent vector size.")
      ensures |q| % vertexDim == 0 && |q| == |v| == |f| == |dlDf| ==>
                Blocks(|q|, vertexDim) && r == Success(BackwardGradients(
                       QGrads(normal, nnt, offset, stiffness, cutoffDist, q, dlDf),
                       Zeros(|q|),
                       ParamGrads(normal, offset, stiffness, cutoffDist, q, dlDf)))
    {
      var dofs := |q|;
      if dofs % vertexDim != 0 {
        return Failure("Incompatible dofs and vertex_dim.");
      }
      if !(|q| == |v| && |v| == |f| && |f| == |dlDf|) {
        return Failure("Inconsistent vector size.");
      }
      BlocksMod(dofs, vertexDim);
      ghost var n, m, c, k, d0 := normal, nnt, offset, stiffness, cutoffDist;
      var dlDq := new real[dofs](_ => 0.0);
      var dlDv := Zeros(dofs);
      var dlDp := [0.0, 0.0];
      var start := 0;
      while start < dofs
        invariant start <= dofs && Blocks(start, vertexDim)
        invariant dlDq.Length == dofs
        invariant dlDq[..] == QGrads(n, m, c, k, d0, q[..start], dlDf[..start]) + Zeros(dofs - start)
        invariant dlDp == ParamGrads(n, c, k, d0, q[..start], dlDf[..start])
      {
        dlDp := AccumulateVertex(dlDq, q, dlDf, start, dlDp);
        start := start + vertexDim;
      }
      assert start == dofs;
      ghost var grads := QGrads(n, m, c, k, d0, q[..start], dlDf[..start]);
      EndOfLoop(q, dlDf, grads, dlDq[..]);
      return Success(BackwardGradients(dlDq[..], dlDv, dlDp));
    }

    /** One turn of the backward loop: adds the vertex at `start` to both
        gradients, writing its `dl_dq` block into the still-zero block of
        `dlDq` and returning the parameter gradient with its entries added. */
    method AccumulateVertex(dlDq: array<real>, q: seq<real>, g: seq<real>, start: nat, acc: seq<real>)
      returns (next: seq<real>)
      requires Ready() && |g| == |q| == dlDq.Length && Blocks(|q|, vertexDim) && Blocks(start, vertexDim) && start < |q|
      requires dlDq[..] == QGrads(normal, nnt, offset, stiffness, cutoffDist, q[..start], g[..start]) + Zeros(|q| - start)
      requires acc == ParamGrads(normal, offset, stiffness, cutoffDist, q[..start], g[..start])
      modifies dlDq
      ensures Blocks(start + vertexDim, vertexDim) && start + vertexDim <= |q|
      ensures dlDq[..] == QGrads(normal, nnt, offset, stiffness, cutoffDist, q[..start + vertexDim], g[..start + vertexDim]) +
                          Zeros(|q| - (start + vertexDim))
      ensures next == ParamGrads(normal, offset, stiffness, cutoffDist, q[..start + vertexDim], g[..start + vertexDim])
    {
      BlocksGap(start, |q|, vertexDim);
      BackwardStep(q, g, start);
      var dq, dp := VertexBackward(q[start..start + vertexDim], g[start..start + vertexDim]);
      FillBlock(dlDq, start, QGrads(normal, nnt, offset, stiffness, cutoffDist, q[..start], g[..start]), dq);
      next := Add(acc, dp);
    }

    /** Both gradients of the prefix grow by the next vertex's entries. */
    lemma {:induction false} BackwardStep(q: seq<real>, g: seq<real>, start: nat)
      requires Ready() && |g| == |q| && Blocks(start, vertexDim) && start + vertexDim <= |q|
      ensures Blocks(start + vertexDim, vertexDim)
      ensures QGrads(normal, nnt, offset, stiffness, cutoffDist, q[..start + vertexDim], g[..start + vertexDim]) ==
              QGrads(normal, nnt, offset, stiffness, cutoffDist, q[..start], g[..start]) +
              VertexQGrad(normal, nnt, offset, stiffness, cutoffDist, q[start..start + vertexDim], g[start..start + vertexDim])
      ensures ParamGrads(normal, offset, stiffness, cutoffDist, q[..start + vertexDim], g[..start + vertexDim]) ==
              Add(ParamGrads(normal, offset, stiffness, cutoffDist, q[..start], g[..start]),
                  VertexParamGrad(normal, offset, stiffness, cutoffDist, q[start..start + vertexDim], g[start..start + vertexDim]))
    {
      QGradsExtend(normal, nnt, offset, stiffness, cutoffDist, q, g, start);
      ParamGradsExtend(normal, offset, stiffness, cutoffDist, q, g, start);
    }
  }

  /** At the end of the backward loop the prefixes are the whole inputs and
      no zero block is left. */
  lemma EndOfLoop(q: seq<real>, g: seq<real>, grads: seq<real>, a: seq<real>)
    requires a == grads + Zeros(|q| - |q|)
    ensures q[..|q|] == q && g[..|g|] == g && a == grads
  {
  }

  /** Dividing by the length leaves a unit normal. */
  lemma {:induction false} UnitNormal(normal: seq<real>, norm: real)
    requires norm > 0.0 && Sq(norm) == SumSq(normal)
    ensures SumSq(Scale(1.0 / norm, normal)) == 1.0
  {
    SumSqScale(1.0 / norm, normal);
    SqMul(1.0 / norm, norm);
    assert 1.0 / norm * norm == 1.0;
  }
}
