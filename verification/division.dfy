/** Integer arithmetic shared by the index computations: products of
    naturals, and Python's `//` and `%` on non-negative integers, where they
    agree with Dafny's `/` and `%`. */
module Division {

  lemma MulAtLeast(a: int, d: nat)
    requires a >= 1
    ensures a * d >= d
  {
  }

  lemma NatProduct(a: nat, b: nat)
    ensures a * b >= 0
  {
  }

  lemma MulSucc(a: nat, c: nat)
    ensures (a + 1) * c == a * c + c
  {
  }

  lemma MulMono(a: nat, b: nat, c: nat)
    requires a <= b
    ensures a * c <= b * c
  {
  }

  /** Products grow with both factors. */
  lemma ProductAtLeast(a: int, a0: int, b: int, b0: int)
    requires 0 <= a0 <= a && 0 <= b0 <= b
    ensures a * b >= a0 * b0
  {
    assert a * b - a0 * b0 == a * (b - b0) + (a - a0) * b0;
    NatProduct(a, b - b0);
    NatProduct(a - a0, b0);
  }

  lemma Distrib(a: int, b: int, d: int)
    ensures (a - b) * d == a * d - b * d
  {
  }

  /** `x // d == k` when `x = k * d + s` with `0 <= s < d`. */
  lemma DivUnique(x: nat, d: nat, k: nat, s: nat)
    requires d > 0 && s < d && x == k * d + s
    ensures x / d == k
  {
    var q := x / d;
    assert x == q * d + x % d;
    Distrib(q, k, d);
    Distrib(k, q, d);
    if q > k {
      MulAtLeast(q - k, d);
    } else if q < k {
      MulAtLeast(k - q, d);
    }
  }

  /** A multiple `c * d` of `d` leaves no remainder and has quotient `c`. */
  lemma MultipleOf(c: nat, d: nat, cd: nat)
    requires d > 0 && cd == c * d
    ensures cd % d == 0 && cd / d == c
  {
    DivUnique(cd, d, c, 0);
  }

  /** Strictly between two consecutive multiples of `d` there is no
      multiple of `d`. */
  lemma BetweenMultiples(i: nat, c: nat, d: nat, cd: nat)
    requires d > 0 && cd == c * d && cd - d < i < cd
    ensures i % d != 0
  {
    Distrib(c, 1, d);
    DivUnique(i, d, c - 1, i - (cd - d));
  }

  /** `q * d < c * d` gives `q < c`. */
  lemma BelowMultiple(q: nat, c: nat, d: nat)
    requires d > 0 && q * d < c * d
    ensures q < c
  {
    Distrib(q, c, d);
  }
}
