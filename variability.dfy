/** Variability: the location variability added to the reference attenuation, and the
    rational clamp that keeps a negative result from growing without bound. */
module Variability {
  import opened Numerics

  /** The standard deviation of the location variability, equation A-73:
      10 k delta_h_d / (k delta_h_d + 13). */
  function Sigma(e: Externals, k: real, deltaHd: real): real {
    Quot(e, 10.0 * k * deltaHd, k * deltaHd + 13.0)
  }

  /** The clamp of equation 52: a negative attenuation a becomes
      a (29 - a) / (29 - 10 a); a nonnegative one is kept. */
  function NegativeClamp(a: real): real {
    if a < 0.0 then a * (29.0 - a) / (29.0 - 10.0 * a) else a
  }

  /** The attenuation with variability: the reference attenuation plus sigma times the
      standard normal deviate of the location percentage p, clamped when negative. */
  function Variability(e: Externals, p: real, deltaH: real, f: real, d: real, aRef: real): real {
    NegativeClamp(Unclamped(e, p, deltaH, f, d, aRef))
  }

  /** The value A_ref + sigma z before the clamp. */
  function Unclamped(e: Externals, p: real, deltaH: real, f: real, d: real, aRef: real): real {
    aRef + PathSigma(e, deltaH, f, d) * e.inverseCcdf(p)
  }

  /** Sigma at the path's wave number and terrain irregularity. */
  function PathSigma(e: Externals, deltaH: real, f: real, d: real): real {
    Sigma(e, Wavenumber(f), TerrainRoughness(e, d, deltaH))
  }

  /** Arithmetic of sigma: for x >= 0, s = 10 x / (x + 13) lies in [0, 10), and it is 0
      exactly when x is. */
  lemma SigmaArithmetic(x: real, s: real)
    requires 0.0 <= x && s == 10.0 * x / (x + 13.0)
    ensures 0.0 <= s && s < 10.0
    ensures s == 0.0 <==> x == 0.0
  {
    var r := 1.0 / (x + 13.0);
    assert 0.0 < r;
    assert s == 10.0 * x * r;
    ProductNonNegative(10.0 * x, r);
    assert 10.0 - s == 130.0 * r;
    if x != 0.0 {
      ProductPositive(10.0 * x, r);
    }
  }

  /** For k delta_h_d >= 0 sigma lies in [0, 10), and it is 0 exactly when
      k delta_h_d is. */
  lemma SigmaBounds(e: Externals, k: real, deltaHd: real)
    requires 0.0 <= k * deltaHd
    ensures 0.0 <= Sigma(e, k, deltaHd) < 10.0
    ensures Sigma(e, k, deltaHd) == 0.0 <==> k * deltaHd == 0.0
  {
    var x := k * deltaHd;
    assert 10.0 * k * deltaHd == 10.0 * x;
    SigmaArithmetic(x, Sigma(e, k, deltaHd));
  }

  /** At a nonnegative frequency, distance and terrain irregularity the path's sigma
      lies in [0, 10), and smooth terrain gives sigma = 0. */
  lemma PathSigmaBounds(e: Externals, deltaH: real, f: real, d: real)
    requires ExpPositive(e) && ExpAtMostOneBelowZero(e) && 0.0 <= f && 0.0 <= d && 0.0 <= deltaH
    ensures 0.0 <= PathSigma(e, deltaH, f, d) < 10.0
    ensures deltaH == 0.0 ==> PathSigma(e, deltaH, f, d) == 0.0
  {
    TerrainRoughnessBounds(e, d, deltaH);
    ProductNonNegative(Wavenumber(f), TerrainRoughness(e, d, deltaH));
    SigmaBounds(e, Wavenumber(f), TerrainRoughness(e, d, deltaH));
  }

  /** Arithmetic of the clamp: for a < 0 both factors 29 - a and 29 - 10 a are positive
      and a (29 - a) / (29 - 10 a) lies strictly between a and 0. */
  lemma ClampArithmetic(a: real, r: real)
    requires a < 0.0 && r == a * (29.0 - a) / (29.0 - 10.0 * a)
    ensures 0.0 < 29.0 - a && 0.0 < 29.0 - 10.0 * a
    ensures a < r && r < 0.0
  {
    var t := (29.0 - a) / (29.0 - 10.0 * a);
    QuotientInUnitInterval(29.0 - a, 29.0 - 10.0 * a, t);
    assert r == a * t;
    assert -r == t * -a;
    ProductPositive(t, -a);
    MultiplyStrict(t, 1.0, -a, -r, -a);
  }

  /** A nonnegative value passes the clamp unchanged; a negative one is pulled strictly
      toward 0 and stays negative, so the clamp never changes the sign. */
  lemma ClampBounds(a: real)
    ensures 0.0 <= a ==> NegativeClamp(a) == a
    ensures a < 0.0 ==> 0.0 < 29.0 - a && 0.0 < 29.0 - 10.0 * a
    ensures a < 0.0 ==> a < NegativeClamp(a) < 0.0
    ensures 0.0 <= NegativeClamp(a) <==> 0.0 <= a
  {
    if a < 0.0 {
      ClampArithmetic(a, NegativeClamp(a));
    }
  }

  /** The attenuation with variability: A_ref + sigma z when that is nonnegative, and a
      value strictly between it and 0 otherwise; over smooth terrain sigma vanishes and
      only A_ref is clamped. */
  lemma VariabilityBounds(e: Externals, p: real, deltaH: real, f: real, d: real, aRef: real)
    requires ExpPositive(e) && ExpAtMostOneBelowZero(e) && 0.0 <= f && 0.0 <= d && 0.0 <= deltaH
    ensures 0.0 <= PathSigma(e, deltaH, f, d) < 10.0
    ensures var a := Unclamped(e, p, deltaH, f, d, aRef);
      && (0.0 <= a ==> Variability(e, p, deltaH, f, d, aRef) == a)
      && (a < 0.0 ==> a < Variability(e, p, deltaH, f, d, aRef) < 0.0)
    ensures deltaH == 0.0 ==> Variability(e, p, deltaH, f, d, aRef) == NegativeClamp(aRef)
  {
    PathSigmaBounds(e, deltaH, f, d);
    ClampBounds(Unclamped(e, p, deltaH, f, d, aRef));
  }

  /** The basic transmission loss both prediction modes return: free-space loss over
      the path plus the reference attenuation with variability at the location ratio
      p / 100 (p given in percent). */
  function TransmissionLoss(e: Externals, p: real, f: real, deltaH: real, d: real, aRef: real): real {
    FreeSpaceLoss(e, d, f) + Variability(e, p / 100.0, deltaH, f, d, aRef)
  }

  /** The loss is at least the free-space loss exactly when A_ref + sigma z is
      nonnegative; it then equals free-space loss plus A_ref + sigma z, and otherwise
      its excess over free space lies strictly between A_ref + sigma z and 0. */
  lemma LossAboveFreeSpaceIff(e: Externals, p: real, f: real, deltaH: real, d: real, aRef: real)
    ensures var u := Unclamped(e, p / 100.0, deltaH, f, d, aRef);
      var fs := FreeSpaceLoss(e, d, f);
      && (TransmissionLoss(e, p, f, deltaH, d, aRef) >= fs <==> u >= 0.0)
      && (u >= 0.0 ==> TransmissionLoss(e, p, f, deltaH, d, aRef) == fs + u)
      && (u < 0.0 ==> fs + u < TransmissionLoss(e, p, f, deltaH, d, aRef) < fs)
  {
    ClampBounds(Unclamped(e, p / 100.0, deltaH, f, d, aRef));
  }

  /** Over smooth terrain a nonnegative reference attenuation is added to free-space
      loss unchanged, whatever the location percentage. */
  lemma SmoothTerrainLoss(e: Externals, p: real, f: real, d: real, aRef: real)
    requires ExpPositive(e) && ExpAtMostOneBelowZero(e) && 0.0 <= f && 0.0 <= d && 0.0 <= aRef
    ensures TransmissionLoss(e, p, f, 0.0, d, aRef) == FreeSpaceLoss(e, d, f) + aRef
  {
    VariabilityBounds(e, p / 100.0, 0.0, f, d, aRef);
  }
}
