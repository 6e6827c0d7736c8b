/** LineOfSightLoss: the loss in the line-of-sight region, a blend of the two-ray
    (direct plus ground-reflected) loss and the extrapolated diffraction line. */
module LineOfSight {
  import opened Numerics

  /** The rms deviation of terrain within the first Fresnel zone, equation A-67:
      (delta_h / 1.282) exp(-delta_h^0.25 / 2). */
  function RmsDeviation(e: Externals, deltaH: real): real {
    (deltaH / 1.282) * Exp(e, -Pow(e, deltaH, 0.25) / 2.0)
  }

  /** The sine of the grazing angle, equation A-65:
      (h_e0 + h_e1) / sqrt(s^2 + (h_e0 + h_e1)^2). */
  function SinPsi(e: Externals, s: real, hE0: real, hE1: real): real {
    Quot(e, hE0 + hE1, Sqrt(e, Pow(e, s, 2.0) + Pow(e, hE0 + hE1, 2.0)))
  }

  /** The effective ground reflection coefficient before the floor, equation A-66:
      (sin psi - Z_g) / (sin psi + Z_g) exp(-k sigma_h sin psi). */
  function ReflectionCoefficient(e: Externals, sinPsi: real, zg: Complex, k: real, sigmaH: real): Complex {
    Scale(Div(e, Sub(FromReal(sinPsi), zg), Add(FromReal(sinPsi), zg)), Exp(e, -k * sigmaH * sinPsi))
  }

  /** The squared magnitude pow(re, 2) + pow(im, 2) as the source computes it. */
  function SquaredMagnitude(e: Externals, c: Complex): real {
    Pow(e, c.re, 2.0) + Pow(e, c.im, 2.0)
  }

  /** The floor of equation A-69 applies when |R_e|^2 is below 0.25 or below sin psi. */
  predicate FloorApplies(q: real, sinPsi: real) {
    q < 0.25 || q < sinPsi
  }

  /** The reflection coefficient after the floor: rescaled by sqrt(sin psi / q) when
      the floor applies, unchanged otherwise. */
  function FlooredReflection(e: Externals, re: Complex, sinPsi: real): Complex {
    var q := SquaredMagnitude(e, re);
    if FloorApplies(q, sinPsi) then Scale(re, Sqrt(e, Quot(e, sinPsi, q))) else re
  }

  /** The phase difference 2 k h_e0 h_e1 / s of the two rays, equation A-68. */
  function PhaseDifference(e: Externals, k: real, hE0: real, hE1: real, s: real): real {
    Quot(e, 2.0 * k * hE0 * hE1, s)
  }

  /** Equation A-70: a phase above pi/2 is mapped to pi - (pi/2)^2 / delta_phi. */
  function SaturatedPhase(e: Externals, deltaPhi: real): real {
    if deltaPhi > Pi / 2.0 then Pi - Quot(e, Pow(e, Pi / 2.0, 2.0), deltaPhi) else deltaPhi
  }

  /** The two-ray loss of equation A-71: -10 log10 |exp(-i delta_phi) + R_e|^2. */
  function TwoRayLoss(e: Externals, deltaPhi: real, re: Complex): real {
    var rr := Add(Complex(Cos(e, deltaPhi), -Sin(e, deltaPhi)), re);
    -10.0 * Log10(e, SquaredMagnitude(e, rr))
  }

  /** The two-ray loss of a path of length s between effective heights h_e. */
  function TwoRayLossAt(e: Externals, s: real, hE: seq<real>, zg: Complex, deltaH: real, f: real): real
    requires |hE| == 2
  {
    var sigmaH := RmsDeviation(e, deltaH);
    var k := Wavenumber(f);
    var sinPsi := SinPsi(e, s, hE[0], hE[1]);
    var re := FlooredReflection(e, ReflectionCoefficient(e, sinPsi, zg, k, sigmaH), sinPsi);
    TwoRayLoss(e, SaturatedPhase(e, PhaseDifference(e, k, hE[0], hE[1], s)), re)
  }

  /** The diffraction line A_ed + m_d d: the extrapolated diffraction loss at d. */
  function DiffractionLine(aEd: real, mD: real, d: real): real {
    aEd + mD * d
  }

  /** The weight of the two-ray loss, equation A-63: 1 / (1 + 47.7 k delta_h / max(10 km, d_ls)). */
  function LineOfSightWeight(e: Externals, k: real, deltaH: real, dLs: real): real {
    Quot(e, 1.0, 1.0 + 47.7 * k * deltaH / Max(10000.0, dLs))
  }

  /** The line-of-sight loss of equation A-62: (1 - w) A_d + w A_t. */
  function LineOfSightLoss(e: Externals, s: real, hE: seq<real>, zg: Complex, deltaH: real,
                           mD: real, aEd: real, dLs: real, f: real): real
    requires |hE| == 2
  {
    var w := LineOfSightWeight(e, Wavenumber(f), deltaH, dLs);
    Blend(w, DiffractionLine(aEd, mD, s), TwoRayLossAt(e, s, hE, zg, deltaH, f))
  }

  /** For a path of positive length between effective heights of positive sum, the
      sine of the grazing angle lies in (0, 1). */
  lemma SinPsiInUnitInterval(e: Externals, s: real, hE0: real, hE1: real)
    requires Sound(e) && 0.0 < s && 0.0 < hE0 + hE1
    ensures 0.0 < SinPsi(e, s, hE0, hE1) < 1.0
  {
    var sum := hE0 + hE1;
    ProductPositive(s, s);
    var rad := Pow(e, s, 2.0) + Pow(e, sum, 2.0);
    assert sum * sum < rad;
    SqrtOfSquare(e, sum);
    SqrtStrictlyIncreasing(e, sum * sum, rad);
    QuotientInUnitInterval(sum, Sqrt(e, rad), SinPsi(e, s, hE0, hE1));
  }

  /** (a / q) q = a for q != 0. */
  lemma QuotientTimesDivisor(a: real, q: real, c: real, n: real)
    requires q != 0.0 && c == a / q && n == c * q
    ensures n == a
  {
    assert a == q * (a / q);
  }

  /** When the floor applies, the rescaled coefficient has squared magnitude exactly
      sin psi; otherwise the coefficient is unchanged. Either way its squared magnitude
      is at least sin psi. */
  lemma FloorReachesSinPsi(e: Externals, re: Complex, sinPsi: real)
    requires Sound(e) && 0.0 <= sinPsi && 0.0 < SquaredMagnitude(e, re)
    ensures FloorApplies(SquaredMagnitude(e, re), sinPsi)
      ==> SquaredMagnitude(e, FlooredReflection(e, re, sinPsi)) == sinPsi
    ensures !FloorApplies(SquaredMagnitude(e, re), sinPsi) ==> FlooredReflection(e, re, sinPsi) == re
    ensures SquaredMagnitude(e, FlooredReflection(e, re, sinPsi)) >= sinPsi
  {
    var q := SquaredMagnitude(e, re);
    var r := FlooredReflection(e, re, sinPsi);
    assert q == NormSq(re);
    assert SquaredMagnitude(e, r) == NormSq(r);
    if FloorApplies(q, sinPsi) {
      var ratio := sinPsi / q;
      ProductNonNegative(sinPsi, 1.0 / q);
      assert ratio == sinPsi * (1.0 / q);
      var c := Sqrt(e, ratio);
      assert c * c == ratio;
      assert r == Scale(re, c);
      QuotientTimesDivisor(sinPsi, q, c * c, c * c * q);
    }
  }

  /** Arithmetic of the saturation: for 0 < h < x, t = h^2 / x lies in (0, h). */
  lemma SaturationBounds(h: real, x: real, t: real)
    requires 0.0 < h < x && t == h * h / x
    ensures 0.0 < t && t < h
  {
    var r := h / x;
    QuotientInUnitInterval(h, x, r);
    assert t == h * r;
    ProductPositive(h, r);
    MultiplyStrict(r, 1.0, h, t, h);
  }

  /** Arithmetic of the saturation: for 0 < h < x and t = h^2 / x, h - t < x - h. */
  lemma SaturationContracts(h: real, x: real, t: real)
    requires 0.0 < h < x && t == h * h / x
    ensures h - t < x - h
  {
    var r := h / x;
    QuotientInUnitInterval(h, x, r);
    assert h - t == h * (1.0 - r);
    assert x - h == x * (1.0 - r);
    MultiplyStrict(h, x, 1.0 - r, h - t, x - h);
  }

  /** Phase saturation maps any phase above pi/2 into (pi/2, pi), strictly closer to
      pi/2 than the phase itself, so it is continuous at pi/2; phases up to pi/2 pass
      unchanged. */
  lemma PhaseSaturation(e: Externals, deltaPhi: real)
    requires PowTwoIsSquare(e)
    ensures deltaPhi > Pi / 2.0 ==> Pi / 2.0 < SaturatedPhase(e, deltaPhi) < Pi
    ensures deltaPhi > Pi / 2.0 ==> SaturatedPhase(e, deltaPhi) - Pi / 2.0 < deltaPhi - Pi / 2.0
    ensures deltaPhi <= Pi / 2.0 ==> SaturatedPhase(e, deltaPhi) == deltaPhi
  {
    if deltaPhi > Pi / 2.0 {
      var h := Pi / 2.0;
      assert Pow(e, h, 2.0) == h * h;
      SaturationBounds(h, deltaPhi, Quot(e, Pow(e, h, 2.0), deltaPhi));
      SaturationContracts(h, deltaPhi, Quot(e, Pow(e, h, 2.0), deltaPhi));
    }
  }

  /** For k delta_h >= 0 the divisor max(10 km, d_ls) is at least 10 km and the weight
      of the two-ray loss lies in (0, 1]; it is 1 exactly when k delta_h = 0. */
  lemma LineOfSightWeightInUnitInterval(e: Externals, k: real, deltaH: real, dLs: real)
    requires 0.0 <= k * deltaH
    ensures 10000.0 <= Max(10000.0, dLs)
    ensures 0.0 < LineOfSightWeight(e, k, deltaH, dLs) <= 1.0
    ensures LineOfSightWeight(e, k, deltaH, dLs) == 1.0 <==> k * deltaH == 0.0
  {
    var m := Max(10000.0, dLs);
    var x := 47.7 * k * deltaH / m;
    assert 47.7 * k * deltaH == 47.7 * (k * deltaH);
    ProductNonNegative(47.7 * (k * deltaH), 1.0 / m);
    assert x == 47.7 * (k * deltaH) * (1.0 / m);
    if k * deltaH != 0.0 {
      ProductPositive(47.7 * (k * deltaH), 1.0 / m);
    }
    assert LineOfSightWeight(e, k, deltaH, dLs) == 1.0 / (1.0 + x);
  }

  /** The line-of-sight loss lies between the extrapolated diffraction loss and the
      two-ray loss; over smooth terrain it is the two-ray loss. */
  lemma LineOfSightLossBetween(e: Externals, s: real, hE: seq<real>, zg: Complex, deltaH: real,
                               mD: real, aEd: real, dLs: real, f: real)
    requires |hE| == 2 && 0.0 <= Wavenumber(f) * deltaH
    ensures Between(LineOfSightLoss(e, s, hE, zg, deltaH, mD, aEd, dLs, f),
                    DiffractionLine(aEd, mD, s), TwoRayLossAt(e, s, hE, zg, deltaH, f))
    ensures Wavenumber(f) * deltaH == 0.0
      ==> LineOfSightLoss(e, s, hE, zg, deltaH, mD, aEd, dLs, f) == TwoRayLossAt(e, s, hE, zg, deltaH, f)
  {
    LineOfSightWeightInUnitInterval(e, Wavenumber(f), deltaH, dLs);
    ConvexCombination(LineOfSightWeight(e, Wavenumber(f), deltaH, dLs),
                      DiffractionLine(aEd, mD, s), TwoRayLossAt(e, s, hE, zg, deltaH, f));
  }
}
