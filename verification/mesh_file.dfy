/** The binary mesh files written by the mesh generators, as the sequence of
    values packed into them: a 32-bit integer (`struct.pack('i', …)`) or a
    double (`struct.pack('d', …)`). Byte encoding is not modelled. */
module MeshFile {
  import opened Vectors
  import opened Division

  datatype Token = Int(i: int) | Real(r: real)

  /** The tokens written by two nested loops, `for a in range(rows): for b in
      range(cols): write(e(a, b))`: row after row. */
  function Grid(rows: nat, cols: nat, e: (nat, nat) -> Token): seq<Token>
  {
    if rows == 0 then []
    else Grid(rows - 1, cols, e) + seq(cols, b requires 0 <= b < cols => e(rows - 1, b))
  }

  lemma {:induction false} GridLength(rows: nat, cols: nat, e: (nat, nat) -> Token)
    ensures |Grid(rows, cols, e)| == rows * cols
  {
    if rows > 0 {
      GridLength(rows - 1, cols, e);
      assert rows * cols == (rows - 1) * cols + cols;
    }
  }

  /** Position of iteration `(a, b)` of two nested loops whose inner loop runs `cols` times. */
  function Flat(a: nat, b: nat, cols: nat): nat
  {
    NatProduct(a, cols);
    a * cols + b
  }

  /** Entry `(a, b)` of the nested loops is token `a·cols + b`. */
  lemma {:induction false} GridEntry(rows: nat, cols: nat, e: (nat, nat) -> Token, a: nat, b: nat)
    requires a < rows && b < cols
    ensures |Grid(rows, cols, e)| == rows * cols && Flat(a, b, cols) < rows * cols
    ensures Grid(rows, cols, e)[Flat(a, b, cols)] == e(a, b)
  {
    var last := rows - 1;
    GridLength(last, cols, e);
    GridLength(rows, cols, e);
    MulSucc(last, cols);
    var front := Grid(last, cols, e);
    var row := seq(cols, b' requires 0 <= b' < cols => e(last, b'));
    assert Grid(rows, cols, e) == front + row;
    if a < last {
      GridEntry(last, cols, e, a, b);
      MulSucc(a, cols);
      MulMono(a + 1, last, cols);
      assert Flat(a, b, cols) < |front|;
    } else {
      assert Flat(a, b, cols) == |front| + b;
      assert row[b] == e(a, b);
    }
  }

  /** Position `v` of the second of two concatenated sequences. */
  lemma {:induction false} InSecond<T>(a: seq<T>, b: seq<T>, v: nat)
    requires v < |b|
    ensures |a| + v < |a + b| && (a + b)[|a| + v] == b[v]
  {
  }

  /** Position `v` of the first of two concatenated sequences. */
  lemma {:induction false} InFirst<T>(a: seq<T>, b: seq<T>, v: nat)
    requires v < |a|
    ensures v < |a + b| && (a + b)[v] == a[v]
  {
  }

  /** An index into a prefix reads the same in the whole. */
  lemma {:induction false} PrefixIndex<T>(s: seq<T>, u: seq<T>, k: nat)
    requires s <= u && k < |s|
    ensures k < |u| && u[k] == s[k]
  {
    assert s == u[..|s|];
  }

  /** The inner loop: `for b in range(cols): write(e(a, b))`, appending to the stream `out`. */
  method WriteRow(out: seq<Token>, cols: nat, e: (nat, nat) -> Token, a: nat) returns (r: seq<Token>)
    ensures r == out + seq(cols, b requires 0 <= b < cols => e(a, b))
  {
    r := out;
    for b := 0 to cols
      invariant r == out + seq(b, b' requires 0 <= b' < b => e(a, b'))
    {
      r := r + [e(a, b)];
    }
  }

  /** The nested write loops, appending to the stream `out`. */
  method WriteGrid(out: seq<Token>, rows: nat, cols: nat, e: (nat, nat) -> Token) returns (r: seq<Token>)
    ensures r == out + Grid(rows, cols, e)
  {
    r := out;
    for a := 0 to rows
      invariant r == out + Grid(a, cols, e)
    {
      r := WriteRow(r, cols, e, a);
    }
  }

  /** `vertices.T`: row `d` holds coordinate `d` of every vertex. */
  function VertexColumns(vertices: seq<Vec3>): (nat, nat) -> Token
  {
    (d: nat, v: nat) => if d < 3 && v < |vertices| then Real(Coordinate(vertices[v], d)) else Real(0.0)
  }

  /** `elements.T`: row `c` holds corner `c` of every element. */
  function ElementColumns(elements: seq<seq<int>>): (nat, nat) -> Token
  {
    (c: nat, e: nat) => if e < |elements| && c < |elements[e]| then Int(elements[e][c]) else Int(0)
  }

  /** The volume mesh file of a three-dimensional mesh whose elements have
      `corners` corners: 3 and `corners`; then 3, the vertex count and the x,
      y and z columns; then `corners`, the element count and one column per
      corner. */
  function VolumeFile(corners: nat, vertices: seq<Vec3>, elements: seq<seq<int>>): seq<Token>
  {
    [Int(3), Int(corners), Int(3), Int(|vertices|)] + Grid(3, |vertices|, VertexColumns(vertices))
      + [Int(corners), Int(|elements|)] + Grid(corners, |elements|, ElementColumns(elements))
  }

  /** Reading a volume mesh file back: the header and the counts. */
  lemma {:induction false} VolumeFileLayout(corners: nat, vertices: seq<Vec3>, elements: seq<seq<int>>)
    ensures var f := VolumeFile(corners, vertices, elements);
            |f| == 6 + 3 * |vertices| + corners * |elements| &&
            f[..4] == [Int(3), Int(corners), Int(3), Int(|vertices|)] &&
            f[4 + 3 * |vertices|] == Int(corners) && f[5 + 3 * |vertices|] == Int(|elements|)
  {
    GridLength(3, |vertices|, VertexColumns(vertices));
    GridLength(corners, |elements|, ElementColumns(elements));
  }

  /** Coordinate `d` of vertex `v` sits in column `d`. */
  lemma {:induction false} VolumeFileVertex(corners: nat, vertices: seq<Vec3>, elements: seq<seq<int>>, d: nat, v: nat)
    requires d < 3 && v < |vertices|
    ensures var f := VolumeFile(corners, vertices, elements);
            4 + Flat(d, v, |vertices|) < |f| && f[4 + Flat(d, v, |vertices|)] == Real(Coordinate(vertices[v], d))
  {
    var head := [Int(3), Int(corners), Int(3), Int(|vertices|)];
    var xs := Grid(3, |vertices|, VertexColumns(vertices));
    var mid := [Int(corners), Int(|elements|)];
    var cols := Grid(corners, |elements|, ElementColumns(elements));
    var t := Flat(d, v, |vertices|);
    GridEntry(3, |vertices|, VertexColumns(vertices), d, v);
    assert xs[t] == Real(Coordinate(vertices[v], d));
    InSecond(head, xs, t);
    InFirst(head + xs, mid, 4 + t);
    InFirst(head + xs + mid, cols, 4 + t);
  }

  /** Corner `c` of element `e` sits in corner column `c`. */
  lemma {:induction false} VolumeFileCorner(corners: nat, vertices: seq<Vec3>, elements: seq<seq<int>>, c: nat, e: nat)
    requires e < |elements| && c < corners && c < |elements[e]|
    ensures var f := VolumeFile(corners, vertices, elements);
            6 + 3 * |vertices| + Flat(c, e, |elements|) < |f| &&
            f[6 + 3 * |vertices| + Flat(c, e, |elements|)] == Int(elements[e][c])
  {
    var head := [Int(3), Int(corners), Int(3), Int(|vertices|)] + Grid(3, |vertices|, VertexColumns(vertices))
      + [Int(corners), Int(|elements|)];
    var cols := Grid(corners, |elements|, ElementColumns(elements));
    GridLength(3, |vertices|, VertexColumns(vertices));
    assert |head| == 6 + 3 * |vertices|;
    GridEntry(corners, |elements|, ElementColumns(elements), c, e);
    assert cols[Flat(c, e, |elements|)] == Int(elements[e][c]);
    assert VolumeFile(corners, vertices, elements) == head + cols;
    InSecond(head, cols, Flat(c, e, |elements|));
  }
}

/** The boundary extraction shared by `hex2obj` and `tet2obj`: every face of
    every element is toggled in a dictionary keyed by its sorted vertex
    indices, so a face shared by two elements cancels and the faces that
    remain are those that occur an odd number of times. */
module FaceParity {
  import opened Vectors

  /** `tuple(sorted(vidx))`: two faces have the same sorted tuple exactly when
      they hold the same indices with the same multiplicities. */
  type Key = multiset<int>

  type FaceDict = map<Key, seq<int>>

  /** Every entry is stored under its own key. */
  predicate KeysMatch(d: FaceDict)
  {
    forall k :: k in d ==> multiset(d[k]) == k
  }

  /** How many faces of `faces` have key `k`. */
  function Occurrences(faces: seq<seq<int>>, k: Key): nat
  {
    if faces == [] then 0
    else Occurrences(faces[..|faces| - 1], k) + (if multiset(faces[|faces| - 1]) == k then 1 else 0)
  }

  /** `n` is odd, by counting down. */
  predicate Odd(n: nat)
  {
    if n == 0 then false else !Odd(n - 1)
  }

  /** One dictionary step: delete the key if present, otherwise store the face under it. */
  function Toggle(d: FaceDict, vidx: seq<int>): (r: FaceDict)
    ensures multiset(vidx) in r <==> multiset(vidx) !in d
    ensures multiset(vidx) in r ==> r[multiset(vidx)] == vidx
  {
    var key := multiset(vidx);
    if key in d then d - {key} else d[key := vidx]
  }

  /** Toggling one face leaves every other key as it was. */
  lemma {:induction false} ToggleOther(d: FaceDict, vidx: seq<int>, k: Key)
    requires k != multiset(vidx)
    ensures k in Toggle(d, vidx) <==> k in d
    ensures k in d ==> Toggle(d, vidx)[k] == d[k]
  {
  }

  /** Toggling keeps every entry under its own key. */
  lemma {:induction false} ToggleKeys(d: FaceDict, vidx: seq<int>)
    requires KeysMatch(d)
    ensures KeysMatch(Toggle(d, vidx))
  {
  }

  /** The dictionary after toggling the faces in order. */
  function ToggleAll(faces: seq<seq<int>>): FaceDict
  {
    if faces == [] then map[] else Toggle(ToggleAll(faces[..|faces| - 1]), faces[|faces| - 1])
  }

  /** The position of the last face with key `k`. */
  function LastWith(faces: seq<seq<int>>, k: Key): (i: nat)
    requires Occurrences(faces, k) > 0
    ensures i < |faces| && multiset(faces[i]) == k
    ensures forall j :: i < j < |faces| ==> multiset(faces[j]) != k
  {
    var n := |faces| - 1;
    if multiset(faces[n]) == k then n
    else
      var i := LastWith(faces[..n], k);
      assert forall j :: i < j < n ==> faces[..n][j] == faces[j];
      i
  }

  /** A key survives exactly when it occurs an odd number of times. */
  lemma {:induction false} Parity(faces: seq<seq<int>>, k: Key)
    ensures k in ToggleAll(faces) <==> Odd(Occurrences(faces, k))
  {
    if faces != [] {
      var n := |faces| - 1;
      var prev := ToggleAll(faces[..n]);
      var c := Occurrences(faces[..n], k);
      Parity(faces[..n], k);
      assert ToggleAll(faces) == Toggle(prev, faces[n]);
      if multiset(faces[n]) == k {
        assert Occurrences(faces, k) == c + 1;
      } else {
        ToggleOther(prev, faces[n], k);
        assert Occurrences(faces, k) == c;
      }
    }
  }

  /** A surviving key holds the last face written with that key. */
  lemma {:induction false} SurvivorIsLast(faces: seq<seq<int>>, k: Key)
    requires k in ToggleAll(faces)
    ensures Occurrences(faces, k) > 0
    ensures ToggleAll(faces)[k] == faces[LastWith(faces, k)]
  {
    var n := |faces| - 1;
    var prefix := faces[..n];
    if multiset(faces[n]) != k {
      ToggleOther(ToggleAll(prefix), faces[n], k);
      assert k in ToggleAll(prefix);
      SurvivorIsLast(prefix, k);
      var i := LastWith(prefix, k);
      assert prefix[i] == faces[i];
    }
  }

  /** Toggling keeps every entry under its own key. */
  lemma {:induction false} ToggleAllKeys(faces: seq<seq<int>>)
    ensures KeysMatch(ToggleAll(faces))
  {
    if faces != [] {
      ToggleAllKeys(faces[..|faces| - 1]);
      ToggleKeys(ToggleAll(faces[..|faces| - 1]), faces[|faces| - 1]);
    }
  }

  /** `for _, vidx in face_dict.items(): f.append(vidx)`: every stored face
      once. Python lists them in insertion order; this model fixes no order. */
  method Items(d: FaceDict) returns (f: seq<seq<int>>)
    requires KeysMatch(d)
    ensures |f| == |d|
    ensures forall k :: k in d ==> d[k] in f
    ensures forall i :: 0 <= i < |f| ==> multiset(f[i]) in d && d[multiset(f[i])] == f[i]
    ensures forall i, j :: 0 <= i < j < |f| ==> f[i] != f[j]
  {
    var rest := d;
    f := [];
    while rest != map[]
      invariant rest.Keys <= d.Keys
      invariant forall k :: k in rest ==> rest[k] == d[k]
      invariant |f| + |rest| == |d|
      invariant forall i :: 0 <= i < |f| ==> multiset(f[i]) in d && multiset(f[i]) !in rest && d[multiset(f[i])] == f[i]
      invariant forall k :: k in d && k !in rest ==> d[k] in f
      invariant forall i, j :: 0 <= i < j < |f| ==> f[i] != f[j]
      decreases |rest|
    {
      var k :| k in rest;
      assert multiset(rest[k]) == k;
      f := f + [rest[k]];
      assert (rest - {k}).Keys == rest.Keys - {k};
      rest := rest - {k};
    }
  }

  /** `f` is the boundary of the face list `faces`: one face for every key
      that occurs an odd number of times and for no other, each with the
      winding of the last face written with its key. */
  ghost predicate Boundary(faces: seq<seq<int>>, f: seq<seq<int>>)
  {
    (forall i :: 0 <= i < |f| ==>
       Odd(Occurrences(faces, multiset(f[i]))) && Occurrences(faces, multiset(f[i])) > 0 &&
       f[i] == faces[LastWith(faces, multiset(f[i]))]) &&
    (forall k :: Odd(Occurrences(faces, k)) ==> exists i :: 0 <= i < |f| && multiset(f[i]) == k) &&
    (forall i, j :: 0 <= i < j < |f| ==> multiset(f[i]) != multiset(f[j]))
  }

  /** Listing the dictionary left by the toggling gives the boundary. */
  lemma {:induction false} ItemsAreBoundary(faces: seq<seq<int>>, f: seq<seq<int>>)
    requires forall k :: k in ToggleAll(faces) ==> ToggleAll(faces)[k] in f
    requires forall i :: 0 <= i < |f| ==>
               multiset(f[i]) in ToggleAll(faces) && ToggleAll(faces)[multiset(f[i])] == f[i]
    requires forall i, j :: 0 <= i < j < |f| ==> f[i] != f[j]
    ensures Boundary(faces, f)
  {
    var d := ToggleAll(faces);
    forall i | 0 <= i < |f|
      ensures Odd(Occurrences(faces, multiset(f[i]))) && Occurrences(faces, multiset(f[i])) > 0 &&
              f[i] == faces[LastWith(faces, multiset(f[i]))]
    {
      Parity(faces, multiset(f[i]));
      SurvivorIsLast(faces, multiset(f[i]));
    }
    forall k | Odd(Occurrences(faces, k))
      ensures exists i :: 0 <= i < |f| && multiset(f[i]) == k
    {
      Parity(faces, k);
      ToggleAllKeys(faces);
      var i :| 0 <= i < |f| && f[i] == d[k];
    }
  }

  /** An OBJ line: a vertex, or a face listing 1-based vertex numbers. */
  datatype ObjLine = Vertex(p: Vec3) | Face(numbers: seq<int>)

  /** The face line written for a 0-based index list. */
  function FaceLine(vidx: seq<int>): (l: ObjLine)
    ensures l.Face? && |l.numbers| == |vidx|
    ensures forall t :: 0 <= t < |vidx| ==> l.numbers[t] - 1 == vidx[t]
  {
    Face(seq(|vidx|, t requires 0 <= t < |vidx| => vidx[t] + 1))
  }

  /** Reading a face line back: the 0-based indices. */
  function ReadFace(l: ObjLine): (vidx: seq<int>)
    requires l.Face?
    ensures |vidx| == |l.numbers|
  {
    seq(|l.numbers|, t requires 0 <= t < |l.numbers| => l.numbers[t] - 1)
  }

  lemma {:induction false} FaceLineRoundTrip(vidx: seq<int>)
    ensures ReadFace(FaceLine(vidx)) == vidx
  {
    var back := ReadFace(FaceLine(vidx));
    assert forall t :: 0 <= t < |vidx| ==> back[t] == vidx[t];
  }

  /** The OBJ file: one `v` line per vertex, then one `f` line per face. */
  function ObjFile(v: seq<Vec3>, f: seq<seq<int>>): (lines: seq<ObjLine>)
    ensures |lines| == |v| + |f|
    ensures forall t :: 0 <= t < |v| ==> lines[t] == Vertex(v[t])
    ensures forall t :: 0 <= t < |f| ==> lines[|v| + t] == FaceLine(f[t])
  {
    seq(|v|, t requires 0 <= t < |v| => Vertex(v[t])) + seq(|f|, t requires 0 <= t < |f| => FaceLine(f[t]))
  }
}
