/** The string handling the example scripts share: `str.strip()`,
    `str.split(sep)` and the zero-padded `'{:04d}'` frame numbers. */
module Text {

  /** The characters `str.strip()` removes that can occur in the files read. */
  predicate IsSpace(c: char)
  {
    c == ' ' || c == '\t' || c == '\n' || c == '\r' || c == '\U{000B}' || c == '\U{000C}'
  }

  /** `s.strip()`. */
  function Strip(s: string): (r: string)
    ensures |r| <= |s|
    ensures r != [] ==> !IsSpace(r[0]) && !IsSpace(r[|r| - 1])
    ensures r == [] <==> forall i :: 0 <= i < |s| ==> IsSpace(s[i])
  {
    StripRight(StripLeft(s))
  }

  function StripLeft(s: string): (r: string)
    ensures |r| <= |s| && (r != [] ==> !IsSpace(r[0]))
    ensures r == [] <==> forall i :: 0 <= i < |s| ==> IsSpace(s[i])
    ensures r == s[|s| - |r|..]
  {
    if s != [] && IsSpace(s[0]) then StripLeft(s[1..]) else s
  }

  function StripRight(s: string): (r: string)
    ensures |r| <= |s| && (r != [] ==> !IsSpace(r[|r| - 1]))
    ensures r == [] <==> forall i :: 0 <= i < |s| ==> IsSpace(s[i])
    ensures r == s[..|r|]
  {
    if s != [] && IsSpace(s[|s| - 1]) then StripRight(s[..|s| - 1]) else s
  }

  /** `s.split(sep)`: the pieces between the separators, `cur` being the
      piece read so far. */
  function SplitFrom(s: string, sep: char, cur: string): (parts: seq<string>)
    ensures |parts| >= 1
  {
    if s == [] then [cur]
    else if s[0] == sep then [cur] + SplitFrom(s[1..], sep, [])
    else SplitFrom(s[1..], sep, cur + [s[0]])
  }

  function Split(s: string, sep: char): (parts: seq<string>)
    ensures |parts| >= 1
  {
    SplitFrom(s, sep, [])
  }

  /** `sep.join(parts)`. */
  function Join(parts: seq<string>, sep: char): string
    requires |parts| >= 1
  {
    if |parts| == 1 then parts[0] else parts[0] + [sep] + Join(parts[1..], sep)
  }

  /** Splitting loses nothing: joining the pieces gives back the text, and
      no piece contains the separator. */
  lemma {:induction false} SplitFromJoin(s: string, sep: char, cur: string)
    requires sep !in cur
    ensures Join(SplitFrom(s, sep, cur), sep) == cur + s
    ensures forall i :: 0 <= i < |SplitFrom(s, sep, cur)| ==> sep !in SplitFrom(s, sep, cur)[i]
    decreases |s|
  {
    if s == [] {
    } else if s[0] == sep {
      SplitFromJoin(s[1..], sep, []);
      assert s == [sep] + s[1..];
      var rest := SplitFrom(s[1..], sep, []);
      assert ([cur] + rest)[1..] == rest;
    } else {
      SplitFromJoin(s[1..], sep, cur + [s[0]]);
      assert s == [s[0]] + s[1..];
    }
  }

  lemma SplitJoin(s: string, sep: char)
    ensures Join(Split(s, sep), sep) == s
    ensures forall i :: 0 <= i < |Split(s, sep)| ==> sep !in Split(s, sep)[i]
  {
    SplitFromJoin(s, sep, []);
  }

  /** Joining pieces free of the separator and splitting again gives the
      pieces back. */
  lemma {:induction false} JoinSplit(parts: seq<string>, sep: char)
    requires |parts| >= 1
    requires forall i :: 0 <= i < |parts| ==> sep !in parts[i]
    ensures Split(Join(parts, sep), sep) == parts
    decreases |parts|
  {
    SplitPrefix(parts[0], sep, [], if |parts| == 1 then [] else [sep] + Join(parts[1..], sep));
    if |parts| > 1 {
      JoinSplit(parts[1..], sep);
      var tail := [sep] + Join(parts[1..], sep);
      assert Join(parts, sep) == parts[0] + tail;
      assert tail[0] == sep && tail[1..] == Join(parts[1..], sep);
      assert [] + parts[0] == parts[0];
      assert [parts[0]] + parts[1..] == parts;
    } else {
      assert parts[0] + [] == parts[0] && [] + parts[0] == parts[0];
      assert parts == [parts[0]];
    }
  }

  /** Reading a separator-free piece only extends the current piece. */
  lemma {:induction false} SplitPrefix(piece: string, sep: char, cur: string, rest: string)
    requires sep !in piece
    ensures SplitFrom(piece + rest, sep, cur) == SplitFrom(rest, sep, cur + piece)
    decreases |piece|
  {
    if piece == [] {
      assert piece + rest == rest && cur + piece == cur;
    } else {
      assert (piece + rest)[0] == piece[0] && (piece + rest)[1..] == piece[1..] + rest;
      SplitPrefix(piece[1..], sep, cur + [piece[0]], rest);
      assert cur + [piece[0]] + piece[1..] == cur + piece;
    }
  }

  // ---------------------------------------------------------------------
  // Frame numbers
  // ---------------------------------------------------------------------

  function DigitChar(d: nat): (c: char)
    requires d < 10
    ensures '0' <= c <= '9' && (c as int) - ('0' as int) == d
  {
    ('0' as int + d) as char
  }

  predicate IsDigits(s: string)
  {
    forall i :: 0 <= i < |s| ==> '0' <= s[i] <= '9'
  }

  /** `str(n)`: the decimal digits of `n`, most significant first. */
  function Decimal(n: nat): (s: string)
    ensures 1 <= |s| && IsDigits(s)
    ensures n < 10 <==> |s| == 1
    ensures n >= 10 ==> s[0] != '0'
  {
    if n < 10 then [DigitChar(n)] else Decimal(n / 10) + [DigitChar(n % 10)]
  }

  /** `int(s)` for a string of digits. */
  function ParseDecimal(s: string): nat
    requires IsDigits(s)
  {
    if s == [] then 0 else 10 * ParseDecimal(s[..|s| - 1]) + ((s[|s| - 1] as int) - ('0' as int))
  }

  /** `'{:04d}'.format(n)`: `str(n)` padded with zeros to four characters. */
  function Padded(n: nat): (s: string)
    ensures |s| >= 4 && IsDigits(s)
    ensures n < 10000 ==> |s| == 4
  {
    var d := Decimal(n);
    DecimalLength(n);
    ZeroDigits(4 - |d|) + d
  }

  function ZeroDigits(k: int): (s: string)
    ensures |s| == (if k < 0 then 0 else k) && IsDigits(s)
    ensures forall i :: 0 <= i < |s| ==> s[i] == '0'
  {
    if k <= 0 then [] else ZeroDigits(k - 1) + ['0']
  }

  /** `str(n)` has at most four digits below 10000. */
  lemma {:induction false} DecimalLength(n: nat)
    ensures n < 10000 ==> |Decimal(n)| <= 4
    ensures n < 1000 ==> |Decimal(n)| <= 3
    ensures n < 100 ==> |Decimal(n)| <= 2
  {
    if n >= 10 {
      DecimalLength(n / 10);
    }
  }

  /** `int(str(n)) == n`. */
  lemma {:induction false} DecimalRoundTrip(n: nat)
    ensures ParseDecimal(Decimal(n)) == n
  {
    if n >= 10 {
      DecimalRoundTrip(n / 10);
      var s := Decimal(n);
      assert s[..|s| - 1] == Decimal(n / 10);
    }
  }

  /** Leading zeros do not change the value read. */
  lemma {:induction false} LeadingZeros(k: nat, s: string)
    requires IsDigits(s)
    ensures ParseDecimal(ZeroDigits(k) + s) == ParseDecimal(s)
    decreases |s|
  {
    if s == [] {
      assert ZeroDigits(k) + s == ZeroDigits(k);
      ZeroDigitsValue(k);
    } else {
      var front := s[..|s| - 1];
      LeadingZeros(k, front);
      assert (ZeroDigits(k) + s)[..|ZeroDigits(k) + s| - 1] == ZeroDigits(k) + front;
    }
  }

  lemma {:induction false} ZeroDigitsValue(k: nat)
    ensures ParseDecimal(ZeroDigits(k)) == 0
  {
    if k > 0 {
      ZeroDigitsValue(k - 1);
      assert ZeroDigits(k)[..k - 1] == ZeroDigits(k - 1);
    }
  }

  /** The frame number is read back from its file name, so distinct frames
      get distinct names. */
  lemma PaddedRoundTrip(n: nat)
    ensures ParseDecimal(Padded(n)) == n
  {
    DecimalLength(n);
    var d := Decimal(n);
    var k := if 4 - |d| < 0 then 0 else 4 - |d|;
    assert ZeroDigits(4 - |d|) == ZeroDigits(k);
    LeadingZeros(k, d);
    DecimalRoundTrip(n);
  }

  lemma PaddedInjective(m: nat, n: nat)
    ensures Padded(m) == Padded(n) ==> m == n
  {
    PaddedRoundTrip(m);
    PaddedRoundTrip(n);
  }
}
