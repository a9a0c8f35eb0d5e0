/** The conversion from Young's modulus and Poisson's ratio to the Lamé
    parameters that every environment performs before adding its elastic
    energies (`corotated` with `2·mu`, `volume` with `la`). */
module Material {
  import opened Vectors

  datatype Lame = Lame(la: real, mu: real)

  /** The ratios at which one of the two denominators `(1 + ν)(1 − 2ν)` and
      `2(1 + ν)` vanishes and the conversion divides by zero. */
  predicate Convertible(nu: real)
  {
    nu != -1.0 && nu != 0.5
  }

  /** `la = E·ν / ((1 + ν)(1 − 2ν))` and `mu = E / (2(1 + ν))`, which are the
      solutions of the two division-free defining equations
      `mu·2(1 + ν) = E` and `la·(1 + ν)(1 − 2ν) = E·ν`. */
  function LameParameters(youngsModulus: real, poissonsRatio: real): (p: Lame)
    requires Convertible(poissonsRatio)
    ensures p.mu * (2.0 * (1.0 + poissonsRatio)) == youngsModulus
    ensures p.la * ((1.0 + poissonsRatio) * (1.0 - 2.0 * poissonsRatio)) == youngsModulus * poissonsRatio
  {
    var e := youngsModulus;
    var nu := poissonsRatio;
    NonZeroProduct(1.0 + nu, 1.0 - 2.0 * nu);
    Lame(e * nu / ((1.0 + nu) * (1.0 - 2.0 * nu)), e / (2.0 * (1.0 + nu)))
  }

  /** The classical inverse: `E = mu(3la + 2mu)/(la + mu)`. */
  function YoungsModulus(p: Lame): real
    requires p.la + p.mu != 0.0
  {
    p.mu * (3.0 * p.la + 2.0 * p.mu) / (p.la + p.mu)
  }

  /** The classical inverse: `ν = la / (2(la + mu))`. */
  function PoissonsRatio(p: Lame): real
    requires p.la + p.mu != 0.0
  {
    p.la / (2.0 * (p.la + p.mu))
  }

  /** `la + mu = E / (2(1 + ν)(1 − 2ν))`, which vanishes only with `E`. */
  lemma LameSum(e: real, nu: real)
    requires Convertible(nu)
    ensures var p := LameParameters(e, nu);
            (p.la + p.mu) * (2.0 * ((1.0 + nu) * (1.0 - 2.0 * nu))) == e
  {
    var p := LameParameters(e, nu);
    SumEquation(p.la, p.mu, e, nu);
  }

  /** `LameSum` on the two defining equations of `la` and `mu` alone. */
  lemma SumEquation(la: real, mu: real, e: real, nu: real)
    requires mu * (2.0 * (1.0 + nu)) == e && la * ((1.0 + nu) * (1.0 - 2.0 * nu)) == e * nu
    ensures (la + mu) * (2.0 * ((1.0 + nu) * (1.0 - 2.0 * nu))) == e
  {
    var a := 1.0 + nu;
    var b := 1.0 - 2.0 * nu;
    calc {
      (la + mu) * (2.0 * (a * b));
      2.0 * (la * (a * b)) + (mu * (2.0 * a)) * b;
      2.0 * e * nu + e * b;
      e;
    }
  }

  /** The conversion loses nothing: for a non-zero modulus the two inverse
      formulas recover exactly the modulus and the ratio it was given. */
  lemma LameRoundTrip(e: real, nu: real)
    requires Convertible(nu) && e != 0.0
    ensures var p := LameParameters(e, nu);
            p.la + p.mu != 0.0 && PoissonsRatio(p) == nu && YoungsModulus(p) == e
  {
    var p := LameParameters(e, nu);
    InverseFormulas(p.la, p.mu, e, nu);
  }

  /** The round trip on the two defining equations of `la` and `mu` alone. */
  lemma InverseFormulas(la: real, mu: real, e: real, nu: real)
    requires Convertible(nu) && e != 0.0
    requires mu * (2.0 * (1.0 + nu)) == e && la * ((1.0 + nu) * (1.0 - 2.0 * nu)) == e * nu
    ensures la + mu != 0.0 && la / (2.0 * (la + mu)) == nu && mu * (3.0 * la + 2.0 * mu) / (la + mu) == e
  {
    var s := la + mu;
    var ab := (1.0 + nu) * (1.0 - 2.0 * nu);
    NonZeroProduct(1.0 + nu, 1.0 - 2.0 * nu);
    SumEquation(la, mu, e, nu);
    LaFromSum(la, s, e, nu, ab);
    DivBy(la, 2.0 * s, nu);
    YoungFromSum(la, mu, s, e, nu);
  }

  /** From `la·ab = Eν` and `s·2ab = E` with `ab ≠ 0`: `la = 2sν`, and `s ≠ 0`
      when `E ≠ 0`. */
  lemma LaFromSum(la: real, s: real, e: real, nu: real, ab: real)
    requires ab != 0.0 && e != 0.0 && la * ab == e * nu && s * (2.0 * ab) == e
    ensures s != 0.0 && la == 2.0 * s * nu
  {
    assert (2.0 * s * nu) * ab == e * nu;
    CancelRight(la, 2.0 * s * nu, ab);
  }

  /** With `s = la + mu`, `la = 2sν` and `mu·2(1 + ν) = E`:
      `mu(3la + 2mu) = E·s`, so `E` is recovered by dividing by `s`. */
  lemma YoungFromSum(la: real, mu: real, s: real, e: real, nu: real)
    requires s != 0.0 && s == la + mu && la == 2.0 * s * nu && mu * (2.0 * (1.0 + nu)) == e
    ensures mu * (3.0 * la + 2.0 * mu) / s == e
  {
    assert 3.0 * la + 2.0 * mu == s * (2.0 * (1.0 + nu));
    assert mu * (3.0 * la + 2.0 * mu) == s * e;
    DivBy(mu * (3.0 * la + 2.0 * mu), s, e);
  }

  /** In the physical range `E > 0`, `0 ≤ ν < 1/2` both parameters are
      non-negative and the shear modulus is positive. */
  lemma LamePhysical(e: real, nu: real)
    requires e > 0.0 && 0.0 <= nu < 0.5
    ensures var p := LameParameters(e, nu);
            p.mu > 0.0 && p.la >= 0.0 && (p.la == 0.0 <==> nu == 0.0)
  {
    var p := LameParameters(e, nu);
    var a := 1.0 + nu;
    var b := 1.0 - 2.0 * nu;
    assert a > 0.0 && b > 0.0;
    MulPosPos(a, b);
    assert p.mu * (2.0 * a) == e;
    if p.mu <= 0.0 {
      NonPositiveTimesPositive(p.mu, 2.0 * a);
      assert false;
    }
    assert p.la * (a * b) == e * nu;
    if nu > 0.0 {
      MulPosPos(e, nu);
      if p.la <= 0.0 {
        NonPositiveTimesPositive(p.la, a * b);
        assert false;
      }
    } else {
      assert p.la * (a * b) == 0.0;
    }
  }
}
