/** Exact real-vector arithmetic standing in for the numpy/Eigen vectors of the
    source: sums, element-wise operations, squared norms, three-vectors. */
module Vectors {

  /** Sum of the entries, accumulated from the front. */
  function Sum(s: seq<real>): real
  {
    if s == [] then 0.0 else Sum(s[..|s| - 1]) + s[|s| - 1]
  }

  /** A nested list whose rows all have one length: the lists `np.array`
      turns into a two-dimensional array. A ragged one makes the conversion
      to a float array raise ValueError. */
  predicate Rectangular<T>(rows: seq<seq<T>>)
  {
    forall i, j :: 0 <= i < |rows| && 0 <= j < |rows| ==> |rows[i]| == |rows[j]|
  }

  /** `np.max(s)`: an entry no smaller than any other. */
  function MaxOf(s: seq<real>): (m: real)
    requires |s| > 0
    ensures m in s && forall i :: 0 <= i < |s| ==> s[i] <= m
  {
    if |s| == 1 then s[0]
    else var m := MaxOf(s[..|s| - 1]); if s[|s| - 1] > m then s[|s| - 1] else m
  }

  /** `np.min(s)`: an entry no larger than any other. */
  function MinOf(s: seq<real>): (m: real)
    requires |s| > 0
    ensures m in s && forall i :: 0 <= i < |s| ==> m <= s[i]
  {
    if |s| == 1 then s[0]
    else var m := MinOf(s[..|s| - 1]); if s[|s| - 1] < m then s[|s| - 1] else m
  }

  /** `np.mean(s)`, which lies between the smallest and the largest entry. */
  function Mean(s: seq<real>): (m: real)
    requires |s| > 0
    ensures MinOf(s) <= m <= MaxOf(s)
  {
    var lo, hi, n := MinOf(s), MaxOf(s), |s| as real;
    SumBounds(s, lo, hi);
    DivBounds(Sum(s), n, lo, hi);
    Sum(s) / n
  }

  lemma SqNeg(a: real)
    ensures Sq(-a) == Sq(a)
  {
  }

  lemma DivAdd(a: real, b: real, n: real)
    requires n > 0.0
    ensures (a + b) / n == a / n + b / n
  {
  }

  /** `n * lo <= Sum(s) <= n * hi` when every entry lies in `[lo, hi]`. */
  lemma {:induction false} SumBounds(s: seq<real>, lo: real, hi: real)
    requires forall i :: 0 <= i < |s| ==> lo <= s[i] <= hi
    ensures (|s| as real) * lo <= Sum(s) <= (|s| as real) * hi
  {
    if s != [] {
      SumBounds(s[..|s| - 1], lo, hi);
    }
  }

  lemma DivBounds(x: real, n: real, lo: real, hi: real)
    requires n > 0.0 && n * lo <= x <= n * hi
    ensures lo <= x / n <= hi
  {
  }

  /** Identity on reals; `Sq` multiplies through it so that the solver sees a
      product of two factors rather than a power, which it reasons about far
      less reliably. */
  function Id(a: real): real
  {
    a
  }

  /** The square of `a`. */
  function Sq(a: real): real
  {
    a * Id(a)
  }

  lemma SqSign(a: real)
    ensures Sq(a) >= 0.0
    ensures Sq(a) == 0.0 <==> a == 0.0
  {
    if a < 0.0 {
      MulNegNeg(a, Id(a));
    } else if a > 0.0 {
      MulPosPos(a, Id(a));
    }
  }

  /** The square of a product is the product of the squares. */
  lemma SqMul(a: real, b: real)
    ensures Sq(a * b) == Sq(b) * Sq(a)
  {
  }

  lemma MulPosPos(a: real, b: real)
    requires a > 0.0 && b > 0.0
    ensures a * b > 0.0
  {
  }

  lemma MulNegNeg(a: real, b: real)
    requires a < 0.0 && b < 0.0
    ensures a * b > 0.0
  {
  }

  lemma NonZeroProduct(a: real, b: real)
    requires a != 0.0 && b != 0.0
    ensures a * b != 0.0
  {
  }

  lemma CancelRight(x: real, y: real, c: real)
    requires c != 0.0 && x * c == y * c
    ensures x == y
  {
  }

  lemma NonPositiveTimesPositive(a: real, b: real)
    requires a <= 0.0 && b > 0.0
    ensures a * b <= 0.0
  {
  }

  /** `x = y·q` with `y ≠ 0` gives `x / y = q`. */
  lemma DivBy(x: real, y: real, q: real)
    requires y != 0.0 && x == y * q
    ensures x / y == q
  {
  }

  /** `p = a·b` with both factors positive; stated on `p` so that callers
      need not match the product term. */
  lemma ProductPositive(a: real, b: real, p: real)
    requires a > 0.0 && b > 0.0 && p == a * b
    ensures p > 0.0
  {
  }

  /** Squared Euclidean norm `x.dot(x)`. */
  function SumSq(s: seq<real>): (r: real)
    ensures r >= 0.0
  {
    SqSign(if s == [] then 0.0 else s[|s| - 1]);
    if s == [] then 0.0 else SumSq(s[..|s| - 1]) + Sq(s[|s| - 1])
  }

  function Zeros(n: nat): (r: seq<real>)
    ensures |r| == n && forall i :: 0 <= i < n ==> r[i] == 0.0
  {
    seq(n, _ => 0.0)
  }

  function Add(a: seq<real>, b: seq<real>): (r: seq<real>)
    requires |a| == |b|
    ensures |r| == |a| && forall i :: 0 <= i < |a| ==> r[i] == a[i] + b[i]
  {
    seq(|a|, i requires 0 <= i < |a| => a[i] + b[i])
  }

  function Sub(a: seq<real>, b: seq<real>): (r: seq<real>)
    requires |a| == |b|
    ensures |r| == |a| && forall i :: 0 <= i < |a| ==> r[i] == a[i] - b[i]
  {
    seq(|a|, i requires 0 <= i < |a| => a[i] - b[i])
  }

  function Scale(c: real, a: seq<real>): (r: seq<real>)
    ensures |r| == |a| && forall i :: 0 <= i < |a| ==> r[i] == c * a[i]
  {
    seq(|a|, i requires 0 <= i < |a| => c * a[i])
  }

  /** `x` with `h` added to coordinate `j`: the probe of a finite difference. */
  function Perturb(x: seq<real>, j: nat, h: real): (r: seq<real>)
    requires j < |x|
    ensures |r| == |x| && r[j] == x[j] + h
    ensures forall i :: 0 <= i < |x| && i != j ==> r[i] == x[i]
  {
    x[j := x[j] + h]
  }

  /** Element-wise sum of a list of equally long vectors, as
      `np.sum(ndarray(vs), axis=0)`; the empty list sums to zeros. */
  function SumVecs(vs: seq<seq<real>>, n: nat): (r: seq<real>)
    requires forall k :: 0 <= k < |vs| ==> |vs[k]| == n
    ensures |r| == n
  {
    if vs == [] then Zeros(n) else Add(SumVecs(vs[..|vs| - 1], n), vs[|vs| - 1])
  }

  /** Coordinate `i` of every vector of `vs`: the column `vs[:, i]`. */
  function Column(vs: seq<seq<real>>, i: nat): (r: seq<real>)
    requires forall k :: 0 <= k < |vs| ==> i < |vs[k]|
    ensures |r| == |vs| && forall k :: 0 <= k < |vs| ==> r[k] == vs[k][i]
  {
    seq(|vs|, k requires 0 <= k < |vs| => vs[k][i])
  }

  /** Coordinate `i` of a vector sum is the scalar sum of the coordinates. */
  lemma {:induction false} SumVecsAt(vs: seq<seq<real>>, n: nat, i: nat)
    requires forall k :: 0 <= k < |vs| ==> |vs[k]| == n
    requires i < n
    ensures SumVecs(vs, n)[i] == Sum(Column(vs, i))
  {
    if vs != [] {
      var front := vs[..|vs| - 1];
      SumVecsAt(front, n, i);
      assert Column(vs, i)[..|vs| - 1] == Column(front, i);
    }
  }

  lemma {:induction false} SumAppend(s: seq<real>, x: real)
    ensures Sum(s + [x]) == Sum(s) + x
  {
    assert (s + [x])[..|s|] == s;
  }

  lemma ZerosSplit(a: nat, b: nat)
    ensures Zeros(a + b) == Zeros(a) + Zeros(b)
  {
  }

  lemma {:induction false} SumZeros(n: nat)
    ensures Sum(Zeros(n)) == 0.0
  {
    if n > 0 {
      SumZeros(n - 1);
      assert Zeros(n)[..n - 1] == Zeros(n - 1);
    }
  }

  lemma {:induction false} SumVecsZeroLength(vs: seq<seq<real>>, n: nat)
    requires forall k :: 0 <= k < |vs| ==> |vs[k]| == n
    requires vs == []
    ensures SumVecs(vs, n) == Zeros(n)
  {
  }

  /** Adding `h` to one entry adds `h` to the sum. */
  lemma {:induction false} SumPerturb(x: seq<real>, j: nat, h: real)
    requires j < |x|
    ensures Sum(Perturb(x, j, h)) == Sum(x) + h
  {
    var p := Perturb(x, j, h);
    var n := |x| - 1;
    if j == n {
      assert p[..n] == x[..n];
    } else {
      SumPerturb(x[..n], j, h);
      assert p[..n] == Perturb(x[..n], j, h);
    }
  }

  /** The central difference of the squared norm along coordinate `j` is
      exactly its derivative `2·x_j`, for every step `h`. */
  lemma {:induction false} SumSqCentral(x: seq<real>, j: nat, h: real)
    requires j < |x| && h != 0.0
    ensures (SumSq(Perturb(x, j, h)) - SumSq(Perturb(x, j, -h))) / (2.0 * h) == 2.0 * x[j]
  {
    SumSqGap(x, j, h);
    GapQuotient(SumSq(Perturb(x, j, h)) - SumSq(Perturb(x, j, -h)), h, x[j]);
  }

  /** Moving coordinate `j` by `+h` rather than `−h` adds `4·h·x_j` to the
      squared norm. */
  lemma {:induction false} SumSqGap(x: seq<real>, j: nat, h: real)
    requires j < |x|
    ensures SumSq(Perturb(x, j, h)) - SumSq(Perturb(x, j, -h)) == 4.0 * h * x[j]
  {
    var n := |x| - 1;
    if j == n {
      GapAtLast(x, h);
    } else {
      SumSqGap(x[..n], j, h);
      GapBefore(x, j, h);
    }
  }

  lemma {:induction false} GapAtLast(x: seq<real>, h: real)
    requires |x| > 0
    ensures SumSq(Perturb(x, |x| - 1, h)) - SumSq(Perturb(x, |x| - 1, -h)) == 4.0 * h * x[|x| - 1]
  {
    var n := |x| - 1;
    var p, m := Perturb(x, n, h), Perturb(x, n, -h);
    assert p[..n] == x[..n] && m[..n] == x[..n];
    SquareGap(x[n], h);
  }

  lemma {:induction false} GapBefore(x: seq<real>, j: nat, h: real)
    requires j < |x| - 1
    requires SumSq(Perturb(x[..|x| - 1], j, h)) - SumSq(Perturb(x[..|x| - 1], j, -h)) == 4.0 * h * x[j]
    ensures SumSq(Perturb(x, j, h)) - SumSq(Perturb(x, j, -h)) == 4.0 * h * x[j]
  {
    var n := |x| - 1;
    var p, m := Perturb(x, j, h), Perturb(x, j, -h);
    assert p[..n] == Perturb(x[..n], j, h) && m[..n] == Perturb(x[..n], j, -h);
  }

  /** `(a + h)² − (a − h)² = 4·h·a`. */
  lemma SquareGap(a: real, h: real)
    ensures Sq(a + h) - Sq(a + -h) == 4.0 * h * a
  {
  }

  lemma GapQuotient(gap: real, h: real, a: real)
    requires h != 0.0 && gap == 4.0 * h * a
    ensures gap / (2.0 * h) == 2.0 * a
  {
    assert gap == (2.0 * h) * (2.0 * a);
  }

  /** Zero squared norm means the zero vector. */
  lemma {:induction false} SumSqZero(x: seq<real>)
    ensures SumSq(x) == 0.0 <==> forall i :: 0 <= i < |x| ==> x[i] == 0.0
  {
    if x != [] {
      var n := |x| - 1;
      SumSqZero(x[..n]);
      assert forall i :: 0 <= i < n ==> x[..n][i] == x[i];
      SqSign(x[n]);
    }
  }

  /** `buf[start:start + |s|] = s`. */
  method WriteSlice(buf: array<real>, start: nat, s: seq<real>)
    requires start + |s| <= buf.Length
    modifies buf
    ensures buf[..] == old(buf[..start]) + s + old(buf[start + |s|..])
  {
    ghost var before := buf[..];
    var i := 0;
    while i < |s|
      invariant 0 <= i <= |s|
      invariant buf[..] == before[..start] + s[..i] + before[start + i..]
    {
      buf[start + i] := s[i];
      i := i + 1;
    }
  }

  /** Writing `s` into the zero block right after the finished prefix
      `done` extends the prefix by `s` and leaves zeros behind it. */
  lemma {:induction false} WriteStep(before: seq<real>, after: seq<real>, done: seq<real>, s: seq<real>, start: nat, rest: nat)
    requires |done| == start && start + |s| + rest == |before|
    requires before == done + Zeros(|before| - start)
    requires after == before[..start] + s + before[start + |s|..]
    ensures after == done + s + Zeros(rest)
  {
    assert before[..start] == done;
    assert before[start + |s|..] == Zeros(rest);
  }

  /** Writes `s` into the zero block that follows the finished prefix `done`
      of `buf`. */
  method FillBlock(buf: array<real>, start: nat, ghost done: seq<real>, s: seq<real>)
    requires start == |done| && start + |s| <= buf.Length && buf[..] == done + Zeros(buf.Length - start)
    modifies buf
    ensures buf[..] == done + s + Zeros(buf.Length - start - |s|)
  {
    ghost var before := buf[..];
    WriteSlice(buf, start, s);
    WriteStep(before, buf[..], done, s, start, buf.Length - start - |s|);
  }

  /** Inner product `a.dot(b)`. */
  function Dot(a: seq<real>, b: seq<real>): real
    requires |a| == |b|
  {
    if a == [] then 0.0 else Dot(a[..|a| - 1], b[..|b| - 1]) + a[|a| - 1] * b[|b| - 1]
  }

  /** The inner product of two concatenations splits into the two parts. */
  lemma {:induction false} DotConcat(a1: seq<real>, a2: seq<real>, b1: seq<real>, b2: seq<real>)
    requires |a1| == |b1| && |a2| == |b2|
    ensures Dot(a1 + a2, b1 + b2) == Dot(a1, b1) + Dot(a2, b2)
  {
    if a2 != [] {
      var n := |a2| - 1;
      DotConcat(a1, a2[..n], b1, b2[..n]);
      assert (a1 + a2)[..|a1 + a2| - 1] == a1 + a2[..n];
      assert (b1 + b2)[..|b1 + b2| - 1] == b1 + b2[..n];
    } else {
      assert a1 + a2 == a1 && b1 + b2 == b1;
    }
  }

  lemma {:induction false} DotAdd(u: seq<real>, w: seq<real>, a: seq<real>)
    requires |u| == |w| == |a|
    ensures Dot(Add(u, w), a) == Dot(u, a) + Dot(w, a)
  {
    if u != [] {
      var n := |u| - 1;
      DotAdd(u[..n], w[..n], a[..n]);
      assert Add(u, w)[..n] == Add(u[..n], w[..n]);
    }
  }

  lemma {:induction false} DotZeros(a: seq<real>)
    ensures Dot(Zeros(|a|), a) == 0.0
  {
    if a != [] {
      DotZeros(a[..|a| - 1]);
      assert Zeros(|a|)[..|a| - 1] == Zeros(|a| - 1);
    }
  }

  lemma {:induction false} DotComm(a: seq<real>, b: seq<real>)
    requires |a| == |b|
    ensures Dot(a, b) == Dot(b, a)
  {
    if a != [] {
      DotComm(a[..|a| - 1], b[..|b| - 1]);
    }
  }

  /** A scalar factor on the right comes out of the inner product. */
  lemma {:induction false} DotScale(a: seq<real>, c: real, b: seq<real>)
    requires |a| == |b|
    ensures Dot(a, Scale(c, b)) == c * Dot(a, b)
  {
    if a != [] {
      var n := |a| - 1;
      DotScale(a[..n], c, b[..n]);
      assert forall i :: 0 <= i < n ==> Scale(c, b)[..n][i] == Scale(c, b[..n])[i];
      assert Scale(c, b)[..n] == Scale(c, b[..n]);
      assert a[n] * (c * b[n]) == c * (a[n] * b[n]);
    }
  }

  /** A scalar factor on the left comes out of the inner product. */
  lemma {:induction false} DotScaleLeft(c: real, a: seq<real>, b: seq<real>)
    requires |a| == |b|
    ensures Dot(Scale(c, a), b) == c * Dot(a, b)
  {
    if a != [] {
      var n := |a| - 1;
      DotScaleLeft(c, a[..n], b[..n]);
      assert forall i :: 0 <= i < n ==> Scale(c, a)[..n][i] == Scale(c, a[..n])[i];
      assert Scale(c, a)[..n] == Scale(c, a[..n]);
      assert (c * a[n]) * b[n] == c * (a[n] * b[n]);
    }
  }

  /** Moving one coordinate of `x` by `h` moves `a · x` by `a_j · h`. */
  lemma {:induction false} DotPerturb(a: seq<real>, x: seq<real>, j: nat, h: real)
    requires |a| == |x| && j < |x|
    ensures Dot(a, Perturb(x, j, h)) == Dot(a, x) + a[j] * h
  {
    var n := |x| - 1;
    var p := Perturb(x, j, h);
    if j == n {
      assert p[..n] == x[..n];
    } else {
      DotPerturb(a[..n], x[..n], j, h);
      assert p[..n] == Perturb(x[..n], j, h);
    }
  }

  lemma {:induction false} DotSelf(a: seq<real>)
    ensures Dot(a, a) == SumSq(a)
  {
    if a != [] {
      DotSelf(a[..|a| - 1]);
    }
  }

  /** Scaling a vector by `c` scales its squared norm by `c²`. */
  lemma {:induction false} SumSqScale(c: real, a: seq<real>)
    ensures SumSq(Scale(c, a)) == Sq(c) * SumSq(a)
  {
    if a != [] {
      var n := |a| - 1;
      var s := Scale(c, a);
      SumSqScale(c, a[..n]);
      assert forall i :: 0 <= i < n ==> s[..n][i] == Scale(c, a[..n])[i];
      assert s[..n] == Scale(c, a[..n]);
      SqMul(c, a[n]);
      var front, last := SumSq(a[..n]), Sq(a[n]);
      assert SumSq(s) == Sq(c) * front + last * Sq(c);
      assert SumSq(a) == front + last;
    }
  }

  /** Index `(i, j, k)` comes before `(a, b, c)` in the order of three nested
      loops over `i`, `j` and `k` (C order). */
  predicate Before(i: int, j: int, k: int, a: int, b: int, c: int)
  {
    i < a || (i == a && (j < b || (j == b && k < c)))
  }

  /** A point in three-space, for mesh vertices, normals and camera axes. */
  datatype Vec3 = Vec3(x: real, y: real, z: real)

  /** Coordinate `c` of a point: x, y or z. */
  function Coordinate(p: Vec3, c: nat): real
    requires c < 3
  {
    if c == 0 then p.x else if c == 1 then p.y else p.z
  }

  function Sub3(a: Vec3, b: Vec3): Vec3
  {
    Vec3(a.x - b.x, a.y - b.y, a.z - b.z)
  }

  function Neg3(a: Vec3): Vec3
  {
    Vec3(-a.x, -a.y, -a.z)
  }

  function Dot3(a: Vec3, b: Vec3): real
  {
    a.x * b.x + a.y * b.y + a.z * b.z
  }

  function Cross(a: Vec3, b: Vec3): Vec3
  {
    Vec3(a.y * b.z - a.z * b.y, a.z * b.x - a.x * b.z, a.x * b.y - a.y * b.x)
  }

  /** `ndarray(mesh.py_vertices())`: the vertices' coordinates, x, y, z per
      vertex. */
  function Flatten(vs: seq<Vec3>): (r: seq<real>)
    ensures |r| == 3 * |vs|
    ensures forall i :: 0 <= i < |vs| ==> r[3 * i] == vs[i].x && r[3 * i + 1] == vs[i].y && r[3 * i + 2] == vs[i].z
  {
    if vs == [] then []
    else
      var front := Flatten(vs[..|vs| - 1]);
      var v := vs[|vs| - 1];
      front + [v.x, v.y, v.z]
  }
}
