/** InitializeArea: the effective heights, horizon distances and horizon angles of the
    two terminals in area mode, from their siting criteria, their structural heights
    and delta_h. */
module AreaTerminals {
  import opened Numerics
  import opened Codes
  import opened QuickProfile

  /** The siting factor B: 10, lowered to 9 sin(0.1 pi h) + 1 for heights below 5 m. */
  function SitingFactor(e: Externals, h: real): real {
    if h < 5.0 then (10.0 - 1.0) * Sin(e, 0.1 * Pi * h) + 1.0 else 10.0
  }

  /** The effective height: the structural height for a mobile terminal, raised by
      B exp(-2 h / delta_h) under any other siting criterion. */
  function AreaEffectiveHeight(e: Externals, siting: int, h: real, deltaH: real): real {
    if siting == SitingCriteriaMobile then h
    else h + SitingFactor(e, h) * Exp(e, Quot(e, -2.0 * h, deltaH))
  }

  /** The horizon angle as InitializeArea writes it:
      -(2 h_e + 0.65 delta_h (d_ls / d_l - 1)) / d_ls. */
  function AreaHorizonAngleAsWritten(e: Externals, hE: real, dL: real, deltaH: real): real {
    var dLs := SmoothHorizon(e, hE);
    Quot(e, -(2.0 * hE + 0.65 * deltaH * (Quot(e, dLs, dL) - 1.0)), dLs)
  }

  /** One terminal's outputs: effective height, horizon distance and horizon angle. */
  datatype TerminalGeometry = TerminalGeometry(hE: real, dL: real, theta: real)

  /** The outputs of one terminal, with the horizon angle of equation A-10 of the
      Longley-Rice documentation, the formula QuickPfl uses. */
  function AreaTerminal(e: Externals, siting: int, h: real, deltaH: real): TerminalGeometry {
    var hE := AreaEffectiveHeight(e, siting, h, deltaH);
    var dL := RoughHorizon(e, hE, deltaH);
    TerminalGeometry(hE, dL, HorizonAngle(e, hE, dL, deltaH))
  }

  /** The body of the loop for one terminal. */
  method InitializeTerminal(e: Externals, siting: int, h: real, deltaH: real)
    returns (hE: real, dL: real, theta: real)
    ensures TerminalGeometry(hE, dL, theta) == AreaTerminal(e, siting, h, deltaH)
  {
    if siting == SitingCriteriaMobile {
      hE := h;
    } else {
      var b := 10.0;
      if h < 5.0 {
        b := (b - 1.0) * Sin(e, 0.1 * Pi * h) + 1.0;
      }
      assert b == SitingFactor(e, h);
      hE := h + b * Exp(e, Quot(e, -2.0 * h, deltaH));
    }
    assert hE == AreaEffectiveHeight(e, siting, h, deltaH);
    dL := RoughHorizon(e, hE, deltaH);
    theta := HorizonAngle(e, hE, dL, deltaH);
  }

  /** InitializeArea: each terminal's outputs from its own siting criterion, its own
      height and delta_h. */
  method InitializeArea(e: Externals, siting: seq<int>, deltaH: real, h: seq<real>,
                        hE: array<real>, dL: array<real>, thetaHzn: array<real>)
    requires |siting| == 2 && |h| == 2
    requires hE.Length == 2 && dL.Length == 2 && thetaHzn.Length == 2
    requires hE != dL && hE != thetaHzn && dL != thetaHzn
    modifies hE, dL, thetaHzn
    ensures forall i | 0 <= i < 2 ::
      TerminalGeometry(hE[i], dL[i], thetaHzn[i]) == AreaTerminal(e, siting[i], h[i], deltaH)
  {
    for i := 0 to 2
      invariant forall k | 0 <= k < i ::
        TerminalGeometry(hE[k], dL[k], thetaHzn[k]) == AreaTerminal(e, siting[k], h[k], deltaH)
    {
      var hEi, dLi, thetaI := InitializeTerminal(e, siting[i], h[i], deltaH);
      hE[i], dL[i], thetaHzn[i] := hEi, dLi, thetaI;
    }
  }

  /** A mobile terminal's effective height is its structural height. */
  lemma MobileKeepsStructuralHeight(e: Externals, h: real, deltaH: real)
    ensures AreaTerminal(e, SitingCriteriaMobile, h, deltaH).hE == h
  {
  }

  /** Any criterion other than MOBILE is the fixed siting, whose factor is 10 from 5 m up. */
  lemma FixedSitingFactor(e: Externals, siting: int, h: real, deltaH: real)
    requires siting != SitingCriteriaMobile && 5.0 <= h
    ensures AreaTerminal(e, siting, h, deltaH).hE == h + 10.0 * Exp(e, Quot(e, -2.0 * h, deltaH))
  {
  }

  /** The siting factor is positive for positive heights: sin(0.1 pi h) > 0 below 5 m. */
  lemma SitingFactorPositive(e: Externals, h: real)
    requires SinPositiveOnHalfTurn(e) && 0.0 < h
    ensures 0.0 < SitingFactor(e, h)
  {
    if h < 5.0 {
      ProductPositive(0.1 * Pi, h);
      assert 0.1 * Pi * h < 0.5 * Pi;
      assert 0.0 < Sin(e, 0.1 * Pi * h);
      ProductPositive(10.0 - 1.0, Sin(e, 0.1 * Pi * h));
    }
  }

  /** Under fixed siting a positive structural height is strictly raised. */
  lemma FixedSitingRaisesHeight(e: Externals, siting: int, h: real, deltaH: real)
    requires ExpPositive(e) && SinPositiveOnHalfTurn(e)
    requires siting != SitingCriteriaMobile && 0.0 < h && 0.0 < deltaH
    ensures AreaTerminal(e, siting, h, deltaH).hE > h
  {
    var b := SitingFactor(e, h);
    var x := Exp(e, Quot(e, -2.0 * h, deltaH));
    SitingFactorPositive(e, h);
    assert 0.0 < x;
    ProductPositive(b, x);
    assert AreaEffectiveHeight(e, siting, h, deltaH) == h + b * x;
  }

  /** The roughness factor exp(-0.07 sqrt(delta_h / max(h_e, 5))) lies strictly between
      0 and 1 over rough terrain. */
  lemma RoughnessFactorBelowOne(e: Externals, hE: real, deltaH: real)
    requires Sound(e) && 0.0 < deltaH
    ensures 0.0 < RoughnessFactor(e, hE, deltaH) < 1.0
  {
    var m := Max(hE, 5.0);
    ProductPositive(deltaH, 1.0 / m);
    assert deltaH / m == deltaH * (1.0 / m);
    SqrtPositive(e, deltaH / m);
  }

  lemma SmoothHorizonPositive(e: Externals, hE: real)
    requires Sound(e) && 0.0 < hE
    ensures 0.0 < SmoothHorizon(e, hE)
  {
    ProductPositive(2.0 * hE, MoonRadius);
    SqrtPositive(e, 2.0 * hE * MoonRadius);
  }

  /** The rough horizon is the smooth one shortened by a roughness factor below 1. */
  lemma RoughHorizonShortened(e: Externals, hE: real, deltaH: real)
    requires 0.0 < SmoothHorizon(e, hE) && RoughnessFactor(e, hE, deltaH) < 1.0
    ensures RoughHorizon(e, hE, deltaH) < SmoothHorizon(e, hE)
  {
    MultiplyStrict(RoughnessFactor(e, hE, deltaH), 1.0, SmoothHorizon(e, hE),
                   RoughHorizon(e, hE, deltaH), SmoothHorizon(e, hE));
  }

  /** Over rough terrain (delta_h > 0) the horizon is nearer than the smooth-surface one. */
  lemma RoughHorizonBelowSmooth(e: Externals, hE: real, deltaH: real)
    requires Sound(e) && 0.0 < hE && 0.0 < deltaH
    ensures 0.0 < RoughHorizon(e, hE, deltaH)
    ensures RoughHorizon(e, hE, deltaH) < SmoothHorizon(e, hE)
  {
    SmoothHorizonPositive(e, hE);
    RoughnessFactorBelowOne(e, hE, deltaH);
    RoughHorizonSign(e, hE, deltaH);
    RoughHorizonShortened(e, hE, deltaH);
  }

  /** d_ls / d_l - 1 is positive when 0 < d_l < d_ls. */
  lemma RatioAboveOne(dLs: real, dL: real)
    requires 0.0 < dL < dLs
    ensures 0.0 < dLs / dL - 1.0
  {
    ProductPositive(dLs - dL, 1.0 / dL);
    assert dLs / dL - 1.0 == (dLs - dL) * (1.0 / dL);
  }

  /** Adding a positive t to the numerator -c raises the quotient by s > 0. */
  lemma RaisedQuotient(t: real, c: real, s: real, q: real)
    requires 0.0 < t && 0.0 < s && q == (t - c) / s
    ensures q > -c / s
  {
    ProductPositive(t, 1.0 / s);
    assert q == t * (1.0 / s) + -c / s;
  }

  /** Subtracting a positive t from the numerator -c lowers the quotient by s > 0. */
  lemma LoweredQuotient(t: real, c: real, s: real, q: real)
    requires 0.0 < t && 0.0 < s && q == -(c + t) / s
    ensures q < -c / s
  {
    ProductPositive(t, 1.0 / s);
    assert q == -c / s - t * (1.0 / s);
  }

  /** The term 0.65 delta_h (d_ls / d_l - 1) of equation A-10 is positive over rough
      terrain. */
  lemma RoughnessTermPositive(e: Externals, hE: real, deltaH: real)
    requires Sound(e) && 0.0 < hE && 0.0 < deltaH
    ensures var dLs := SmoothHorizon(e, hE);
      0.0 < 0.65 * deltaH * (Quot(e, dLs, RoughHorizon(e, hE, deltaH)) - 1.0)
  {
    var dLs, dL := SmoothHorizon(e, hE), RoughHorizon(e, hE, deltaH);
    RoughHorizonBelowSmooth(e, hE, deltaH);
    RatioAboveOne(dLs, dL);
    ProductPositive(0.65 * deltaH, dLs / dL - 1.0);
  }

  /** Equation A-10 with a positive roughness term lies above -2 h_e / d_ls. */
  lemma AngleAboveSmoothForPositiveTerm(e: Externals, hE: real, dL: real, deltaH: real)
    requires 0.0 < SmoothHorizon(e, hE)
    requires 0.0 < 0.65 * deltaH * (Quot(e, SmoothHorizon(e, hE), dL) - 1.0)
    ensures HorizonAngle(e, hE, dL, deltaH) > -2.0 * hE / SmoothHorizon(e, hE)
  {
    var dLs := SmoothHorizon(e, hE);
    RaisedQuotient(0.65 * deltaH * (Quot(e, dLs, dL) - 1.0), 2.0 * hE, dLs, HorizonAngle(e, hE, dL, deltaH));
  }

  /** The as-written angle with a positive roughness term lies below -2 h_e / d_ls. */
  lemma AsWrittenBelowSmoothForPositiveTerm(e: Externals, hE: real, dL: real, deltaH: real)
    requires 0.0 < SmoothHorizon(e, hE)
    requires 0.0 < 0.65 * deltaH * (Quot(e, SmoothHorizon(e, hE), dL) - 1.0)
    ensures AreaHorizonAngleAsWritten(e, hE, dL, deltaH) < -2.0 * hE / SmoothHorizon(e, hE)
  {
    var dLs := SmoothHorizon(e, hE);
    LoweredQuotient(0.65 * deltaH * (Quot(e, dLs, dL) - 1.0), 2.0 * hE, dLs,
      AreaHorizonAngleAsWritten(e, hE, dL, deltaH));
  }

  /** With the angle of equation A-10, terrain roughness raises each horizon above the
      smooth-surface angle -2 h_e / d_ls. */
  lemma CorrectedAngleAboveSmooth(e: Externals, hE: real, deltaH: real)
    requires Sound(e) && 0.0 < hE && 0.0 < deltaH
    ensures HorizonAngle(e, hE, RoughHorizon(e, hE, deltaH), deltaH) > -2.0 * hE / SmoothHorizon(e, hE)
  {
    SmoothHorizonPositive(e, hE);
    RoughnessTermPositive(e, hE, deltaH);
    AngleAboveSmoothForPositiveTerm(e, hE, RoughHorizon(e, hE, deltaH), deltaH);
  }

  /** InitializeArea as written flips the sign of the roughness term: the angle drops
      below the smooth-surface angle, the opposite of equation A-10, so the two
      formulas disagree whenever delta_h > 0. */
  lemma AsWrittenAngleBelowSmooth(e: Externals, hE: real, deltaH: real)
    requires Sound(e) && 0.0 < hE && 0.0 < deltaH
    ensures AreaHorizonAngleAsWritten(e, hE, RoughHorizon(e, hE, deltaH), deltaH) < -2.0 * hE / SmoothHorizon(e, hE)
    ensures AreaHorizonAngleAsWritten(e, hE, RoughHorizon(e, hE, deltaH), deltaH)
      != HorizonAngle(e, hE, RoughHorizon(e, hE, deltaH), deltaH)
  {
    SmoothHorizonPositive(e, hE);
    RoughnessTermPositive(e, hE, deltaH);
    AngleAboveSmoothForPositiveTerm(e, hE, RoughHorizon(e, hE, deltaH), deltaH);
    AsWrittenBelowSmoothForPositiveTerm(e, hE, RoughHorizon(e, hE, deltaH), deltaH);
  }
}
