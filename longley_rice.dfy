/** LongleyRice: the reference attenuation of a path. It raises the horizon and path
    warnings, rejects an unusable ground impedance, fits the diffraction line through
    two points beyond the smooth-Moon horizon, fits the line-of-sight curve below it,
    classifies the propagation mode and keeps the result nonnegative. */
module LongleyRice {
  import opened Numerics
  import opened Codes
  import Diffraction
  import LineOfSight
  import QuickProfile

  /** The natural logarithm as the source calls it. */
  function Log(e: Externals, x: real): real { e.log(x) }

  /** d_ls, equation A-11: the sum of the terminals' smooth-Moon horizon distances. */
  function SmoothHorizonSum(e: Externals, hE: seq<real>): real
    requires |hE| == 2
  {
    QuickProfile.SmoothHorizon(e, hE[0]) + QuickProfile.SmoothHorizon(e, hE[1])
  }

  /** theta_e, equation A-13: -max(theta_hzn0 + theta_hzn1, -d_l / a). */
  function ThetaE(thetaHzn: seq<real>, dL: real): real
    requires |thetaHzn| == 2
  {
    -Max(thetaHzn[0] + thetaHzn[1], -dL / MoonRadius)
  }

  /** The flag w when the condition holds, no flag otherwise. */
  function Flag(c: bool, w: Warning): Warnings {
    if c then {w} else NoWarnings
  }

  /** The horizon flags: a horizon angle beyond 200 mrad, where the small-angle
      approximation fails, and a horizon distance below 0.1 or above 3 times its
      smooth-Moon value. */
  function HorizonFlags(thetaHzn: seq<real>, dHzn: seq<real>, dHznS: seq<real>): Warnings
    requires |thetaHzn| == 2 && |dHzn| == 2 && |dHznS| == 2
  {
    Flag(Abs(thetaHzn[0]) > 0.2, TxHorizonAngle) + Flag(Abs(thetaHzn[1]) > 0.2, RxHorizonAngle)
    + Flag(dHzn[0] < 0.1 * dHznS[0], TxHorizonDistance1) + Flag(dHzn[1] < 0.1 * dHznS[1], RxHorizonDistance1)
    + Flag(dHzn[0] > 3.0 * dHznS[0], TxHorizonDistance2) + Flag(dHzn[1] > 3.0 * dHznS[1], RxHorizonDistance2)
  }

  /** The shortest path the model is meant for: |h_e0 - h_e1| / 200 mrad. */
  function MinimumDistance(hE: seq<real>): real
    requires |hE| == 2
  {
    Abs(hE[0] - hE[1]) / 0.2
  }

  /** The path-distance flags: shorter than the minimum distance or than 1 km, longer
      than 1000 km or than 2000 km. */
  function PathFlags(d: real, hE: seq<real>): Warnings
    requires |hE| == 2
  {
    Flag(d < MinimumDistance(hE), PathDistanceTooSmall1) + Flag(d < 1000.0, PathDistanceTooSmall2)
    + Flag(d > 1000000.0, PathDistanceTooBig1) + Flag(d > 2000000.0, PathDistanceTooBig2)
  }

  /** The ground impedance is usable when its real part exceeds the magnitude of its
      imaginary part. */
  predicate ImpedanceAccepted(zg: Complex) {
    zg.re > Abs(zg.im)
  }

  /** X_ae, equation A-20: (k / a^2)^(-1/3). */
  function Xae(e: Externals, k: real): real {
    Pow(e, Quot(e, k, Pow(e, MoonRadius, 2.0)), -1.0 / 3.0)
  }

  /** The two-point fit of the diffraction line: the points d_3 and d_4, the
      diffraction losses there, the slope m_d and the intercept A_ed. */
  datatype Fit = Fit(d3: real, d4: real, a3: real, a4: real, mD: real, aEd: real)

  /** Equations A-16 to A-22, with theta_los the angle passed to DiffractionLoss. */
  function DiffractionFit(e: Externals, dHzn: seq<real>, hE: seq<real>, zg: Complex, deltaH: real,
                          h: seq<real>, dLs: real, dL: real, thetaLos: real, f: real): Fit
    requires |dHzn| == 2 && |hE| == 2 && |h| == 2
  {
    var x := Xae(e, Wavenumber(f));
    var d3 := Max(dLs, dL + 1.3787 * x);
    var d4 := d3 + 2.7574 * x;
    var a3 := Diffraction.DiffractionLoss(e, d3, dHzn, hE, zg, deltaH, h, thetaLos, f);
    var a4 := Diffraction.DiffractionLoss(e, d4, dHzn, hE, zg, deltaH, h, thetaLos, f);
    var mD := Quot(e, a4 - a3, d4 - d3);
    Fit(d3, d4, a3, a4, mD, a3 - mD * d3)
  }

  /** The transition points d_0 and d_1 of the line-of-sight fit: case 1 of the
      algorithm (A_ed >= 0, equations A-37 and A-38) or its alternative (A-47, A-48). */
  function TransitionPoints(e: Externals, k: real, hE: seq<real>, dL: real, aEd: real, mD: real): (real, real)
    requires |hE| == 2
  {
    if aEd >= 0.0 then
      var d0 := Min(0.5 * dL, HeightGainDistance(k, hE));
      (d0, 3.0 / 4.0 * d0 + dL / 4.0)
    else
      (HeightGainDistance(k, hE), Max(Quot(e, -aEd, mD), dL / 4.0))
  }

  /** The distance 1.908 k h_e0 h_e1 of equations A-37 and A-47. */
  function HeightGainDistance(k: real, hE: seq<real>): real
    requires |hE| == 2
  {
    1.908 * k * hE[0] * hE[1]
  }

  /** The first estimate of the logarithmic rate kHat_2, never negative (equation 3.20
      of ERL 79-ITS 67). */
  function InitialLogRate(e: Externals, dLs: real, d0: real, d1: real, a0: real, a1: real, a2: real): real {
    Max(0.0, Quot(e, (dLs - d0) * (a1 - a0) - (d1 - d0) * (a2 - a0),
                  (dLs - d0) * Log(e, Quot(e, d1, d0)) - (d1 - d0) * Log(e, Quot(e, dLs, d0))))
  }

  /** Whether the two-term fit is used: d_0 < d_1, and A_ed > 0 or the first
      logarithmic rate is positive. */
  predicate Flagged(e: Externals, dLs: real, d0: real, d1: real, a0: real, a1: real, a2: real, aEd: real) {
    d0 < d1 && (aEd > 0.0 || InitialLogRate(e, dLs, d0, d1, a0, a1, a2) > 0.0)
  }

  /** The linear rate of the two-term fit, equations A-42 and A-52, with d_2 = d_ls. */
  function TwoTermLinearRate(e: Externals, dLs: real, d0: real, a0: real, a2: real, k2: real): real {
    Quot(e, a2 - a0 - k2 * Log(e, Quot(e, dLs, d0)), dLs - d0)
  }

  /** The rates of the two-term fit; a negative linear rate is replaced by 0 and the
      logarithmic rate by DIM(A_2, A_0) / log(d_ls / d_0) (equation A-54), and when
      that too is 0 the linear rate falls back to m_d. */
  function TwoTermRates(e: Externals, dLs: real, d0: real, a0: real, a2: real, k2: real, mD: real): (real, real) {
    var k1 := TwoTermLinearRate(e, dLs, d0, a0, a2, k2);
    if k1 < 0.0 then
      var k2' := Quot(e, Dim(a2, a0), Log(e, Quot(e, dLs, d0)));
      (if k2' == 0.0 then mD else 0.0, k2')
    else (k1, k2)
  }

  /** The rates of the purely linear fit through (d_1, A_1) and (d_ls, A_2); a zero
      rate falls back to m_d. */
  function LinearRates(e: Externals, dLs: real, d1: real, a1: real, a2: real, mD: real): (real, real) {
    var k1 := Quot(e, Dim(a2, a1), dLs - d1);
    (if k1 == 0.0 then mD else k1, 0.0)
  }

  /** The rates (kHat_1, kHat_2) the line-of-sight fit settles on. */
  function Rates(e: Externals, dLs: real, d0: real, d1: real, a0: real, a1: real, a2: real,
                 aEd: real, mD: real): (real, real)
  {
    if Flagged(e, dLs, d0, d1, a0, a1, a2, aEd) then
      TwoTermRates(e, dLs, d0, a0, a2, InitialLogRate(e, dLs, d0, d1, a0, a1, a2), mD)
    else LinearRates(e, dLs, d1, a1, a2, mD)
  }

  /** The line-of-sight curve A_o + kHat_1 d + kHat_2 log d, with A_o chosen so that it
      passes through (d_ls, A_2) (equation 3.19 of ERL 79-ITS 67). */
  function SubHorizonCurve(e: Externals, a2: real, k1: real, k2: real, dLs: real, d: real): real {
    (a2 - k1 * dLs - k2 * Log(e, dLs)) + k1 * d + k2 * Log(e, d)
  }

  /** The reference attenuation of a path shorter than d_ls. */
  function SubHorizonAttenuation(e: Externals, hE: seq<real>, zg: Complex, deltaH: real, dLs: real, dL: real,
                                 mD: real, aEd: real, f: real, d: real): real
    requires |hE| == 2
  {
    var pts := TransitionPoints(e, Wavenumber(f), hE, dL, aEd, mD);
    var a2 := LineOfSight.DiffractionLine(aEd, mD, dLs);
    var a0 := LineOfSight.LineOfSightLoss(e, pts.0, hE, zg, deltaH, mD, aEd, dLs, f);
    var a1 := LineOfSight.LineOfSightLoss(e, pts.1, hE, zg, deltaH, mD, aEd, dLs, f);
    var rates := Rates(e, dLs, pts.0, pts.1, a0, a1, a2, aEd, mD);
    SubHorizonCurve(e, a2, rates.0, rates.1, dLs, d)
  }

  /** The reference attenuation before the clamp: the line-of-sight curve below d_ls,
      the diffraction line beyond it. */
  function UnclampedAttenuation(e: Externals, thetaHzn: seq<real>, f: real, zg: Complex, dHzn: seq<real>,
                                hE: seq<real>, deltaH: real, h: seq<real>, d: real): real
    requires |thetaHzn| == 2 && |dHzn| == 2 && |hE| == 2 && |h| == 2
  {
    var dLs := SmoothHorizonSum(e, hE);
    var dL := dHzn[0] + dHzn[1];
    var fit := DiffractionFit(e, dHzn, hE, zg, deltaH, h, dLs, dL, ThetaE(thetaHzn, dL), f);
    if d < dLs then SubHorizonAttenuation(e, hE, zg, deltaH, dLs, dL, fit.mD, fit.aEd, f, d)
    else LineOfSight.DiffractionLine(fit.aEd, fit.mD, d)
  }

  /** The mode of propagation from the C++ truncation toward zero of d - d_l. */
  function PropagationMode(d: real, dL: real): (m: int)
    ensures m == ModeLineOfSight <==> d - dL <= -1.0
    ensures m == ModeDiffractionSingleHorizon <==> -1.0 < d - dL < 1.0
    ensures m == ModeDiffractionDoubleHorizon <==> d - dL >= 1.0
  {
    var n := TruncToInt(d - dL);
    if n < 0 then ModeLineOfSight
    else if n == 0 then ModeDiffractionSingleHorizon
    else ModeDiffractionDoubleHorizon
  }

  /** LongleyRice. The outputs A_ref and propmode are written only on success, so their
      values on entry are parameters and come back unchanged after an error. */
  method LongleyRice(e: Externals, thetaHzn: seq<real>, f: real, zg: Complex, dHzn: seq<real>,
                     hE: seq<real>, deltaH: real, h: seq<real>, d: real,
                     aRefIn: real, warningsIn: Warnings, propmodeIn: int)
    returns (rtn: int, aRef: real, warnings: Warnings, propmode: int)
    requires |thetaHzn| == 2 && |dHzn| == 2 && |hE| == 2 && |h| == 2
    ensures var dHznS := [QuickProfile.SmoothHorizon(e, hE[0]), QuickProfile.SmoothHorizon(e, hE[1])];
      warnings == warningsIn + HorizonFlags(thetaHzn, dHzn, dHznS)
                  + (if ImpedanceAccepted(zg) then PathFlags(d, hE) else NoWarnings)
    ensures rtn == (if ImpedanceAccepted(zg) then Success else ErrorGroundImpedance)
    ensures !ImpedanceAccepted(zg) ==> aRef == aRefIn && propmode == propmodeIn
    ensures ImpedanceAccepted(zg) ==>
      && aRef == Max(UnclampedAttenuation(e, thetaHzn, f, zg, dHzn, hE, deltaH, h, d), 0.0)
      && aRef >= 0.0
      && propmode == PropagationMode(d, dHzn[0] + dHzn[1])
  {
    var dHznS := new real[2];
    for i := 0 to 2
      invariant forall j | 0 <= j < i :: dHznS[j] == QuickProfile.SmoothHorizon(e, hE[j])
    {
      dHznS[i] := Sqrt(e, 2.0 * hE[i] * MoonRadius);
    }
    var dLs := dHznS[0] + dHznS[1];
    var dL := dHzn[0] + dHzn[1];
    var thetaE := ThetaE(thetaHzn, dL);
    assert dLs == SmoothHorizonSum(e, hE);
    assert dHznS[..] == [QuickProfile.SmoothHorizon(e, hE[0]), QuickProfile.SmoothHorizon(e, hE[1])];
    warnings := AddHorizonFlags(thetaHzn, dHzn, dHznS[..], warningsIn);
    if zg.re <= Abs(zg.im) {
      return ErrorGroundImpedance, aRefIn, warnings, propmodeIn;
    }
    aRef, warnings, propmode := ReferenceAttenuation(e, thetaHzn, f, zg, dHzn, hE, deltaH, h, d, dLs, dL, thetaE, warnings);
    rtn := Success;
  }

  /** LongleyRice past the ground-impedance check: the diffraction fit, the
      path-distance flags, the attenuation of the path's region, the mode and the
      clamp. */
  method ReferenceAttenuation(e: Externals, thetaHzn: seq<real>, f: real, zg: Complex, dHzn: seq<real>,
                              hE: seq<real>, deltaH: real, h: seq<real>, d: real,
                              dLs: real, dL: real, thetaE: real, warningsIn: Warnings)
    returns (aRef: real, warnings: Warnings, propmode: int)
    requires |thetaHzn| == 2 && |dHzn| == 2 && |hE| == 2 && |h| == 2
    requires dLs == SmoothHorizonSum(e, hE) && dL == dHzn[0] + dHzn[1] && thetaE == ThetaE(thetaHzn, dL)
    ensures warnings == warningsIn + PathFlags(d, hE)
    ensures aRef == Max(UnclampedAttenuation(e, thetaHzn, f, zg, dHzn, hE, deltaH, h, d), 0.0)
    ensures propmode == PropagationMode(d, dL)
  {
    var fit := DiffractionFit(e, dHzn, hE, zg, deltaH, h, dLs, dL, thetaE, f);
    var mD, aEd := fit.mD, fit.aEd;
    warnings := AddPathFlags(d, hE, warningsIn);
    if d < dLs {
      aRef := SubHorizon(e, hE, zg, deltaH, dLs, dL, mD, aEd, f, d);
    } else {
      aRef := LineOfSight.DiffractionLine(aEd, mD, d);
    }
    UnclampedFromFit(e, thetaHzn, f, zg, dHzn, hE, deltaH, h, d, dLs, dL, thetaE, fit, aRef);
    propmode := SetPropagationMode(d, dL);
    aRef := Max(aRef, 0.0);
  }

  /** The unclamped attenuation from the fit: the sub-horizon curve below d_ls, the
      diffraction line beyond. */
  lemma UnclampedFromFit(e: Externals, thetaHzn: seq<real>, f: real, zg: Complex, dHzn: seq<real>,
                         hE: seq<real>, deltaH: real, h: seq<real>, d: real,
                         dLs: real, dL: real, thetaE: real, fit: Fit, a: real)
    requires |thetaHzn| == 2 && |dHzn| == 2 && |hE| == 2 && |h| == 2
    requires dLs == SmoothHorizonSum(e, hE) && dL == dHzn[0] + dHzn[1] && thetaE == ThetaE(thetaHzn, dL)
    requires fit == DiffractionFit(e, dHzn, hE, zg, deltaH, h, dLs, dL, thetaE, f)
    requires d < dLs ==> a == SubHorizonAttenuation(e, hE, zg, deltaH, dLs, dL, fit.mD, fit.aEd, f, d)
    requires d >= dLs ==> a == LineOfSight.DiffractionLine(fit.aEd, fit.mD, d)
    ensures a == UnclampedAttenuation(e, thetaHzn, f, zg, dHzn, hE, deltaH, h, d)
  {
  }

  /** The mode of propagation, from int(d - d_l). */
  method SetPropagationMode(d: real, dL: real) returns (propmode: int)
    ensures propmode == PropagationMode(d, dL)
  {
    var delta := d - dL;
    if TruncToInt(delta) < 0 {
      propmode := ModeLineOfSight;
    } else {
      propmode := if TruncToInt(delta) == 0 then ModeDiffractionSingleHorizon else ModeDiffractionDoubleHorizon;
    }
  }

  /** The horizon-angle and horizon-distance checks of LongleyRice. */
  method AddHorizonFlags(thetaHzn: seq<real>, dHzn: seq<real>, dHznS: seq<real>, warningsIn: Warnings)
    returns (warnings: Warnings)
    requires |thetaHzn| == 2 && |dHzn| == 2 && |dHznS| == 2
    ensures warnings == warningsIn + HorizonFlags(thetaHzn, dHzn, dHznS)
  {
    warnings := warningsIn;
    if Abs(thetaHzn[0]) > 0.2 {
      warnings := warnings + {TxHorizonAngle};
    }
    if Abs(thetaHzn[1]) > 0.2 {
      warnings := warnings + {RxHorizonAngle};
    }
    if dHzn[0] < 0.1 * dHznS[0] {
      warnings := warnings + {TxHorizonDistance1};
    }
    if dHzn[1] < 0.1 * dHznS[1] {
      warnings := warnings + {RxHorizonDistance1};
    }
    if dHzn[0] > 3.0 * dHznS[0] {
      warnings := warnings + {TxHorizonDistance2};
    }
    if dHzn[1] > 3.0 * dHznS[1] {
      warnings := warnings + {RxHorizonDistance2};
    }
  }

  /** The path-distance checks of LongleyRice. */
  method AddPathFlags(d: real, hE: seq<real>, warningsIn: Warnings) returns (warnings: Warnings)
    requires |hE| == 2
    ensures warnings == warningsIn + PathFlags(d, hE)
  {
    warnings := warningsIn;
    var dMin := Abs(hE[0] - hE[1]) / 0.2;
    if d < dMin {
      warnings := warnings + {PathDistanceTooSmall1};
    }
    if d < 1000.0 {
      warnings := warnings + {PathDistanceTooSmall2};
    }
    if d > 1000000.0 {
      warnings := warnings + {PathDistanceTooBig1};
    }
    if d > 2000000.0 {
      warnings := warnings + {PathDistanceTooBig2};
    }
  }

  /** The sub-horizon branch of LongleyRice: the transition points, the line-of-sight
      losses there, the rates and the curve at d. */
  method SubHorizon(e: Externals, hE: seq<real>, zg: Complex, deltaH: real, dLs: real, dL: real,
                    mD: real, aEd: real, f: real, d: real)
    returns (aRef: real)
    requires |hE| == 2
    ensures aRef == SubHorizonAttenuation(e, hE, zg, deltaH, dLs, dL, mD, aEd, f, d)
  {
    var k := Wavenumber(f);
    var a2 := aEd + mD * dLs;
    var d0, d1;
    if aEd >= 0.0 {
      d0 := Min(0.5 * dL, HeightGainDistance(k, hE));
      d1 := 3.0 / 4.0 * d0 + dL / 4.0;
    } else {
      d0 := HeightGainDistance(k, hE);
      d1 := Max(Quot(e, -aEd, mD), dL / 4.0);
    }
    assert (d0, d1) == TransitionPoints(e, k, hE, dL, aEd, mD);
    var a1 := LineOfSight.LineOfSightLoss(e, d1, hE, zg, deltaH, mD, aEd, dLs, f);
    var kHat1, kHat2 := FitRates(e, hE, zg, deltaH, dLs, d0, d1, a1, a2, mD, aEd, f);
    aRef := SubHorizonCurve(e, a2, kHat1, kHat2, dLs, d);
  }

  /** The rate selection of the sub-horizon branch, with its flag and the fallbacks
      that reassign kHat_1 and kHat_2. */
  method FitRates(e: Externals, hE: seq<real>, zg: Complex, deltaH: real, dLs: real, d0: real, d1: real,
                  a1: real, a2: real, mD: real, aEd: real, f: real)
    returns (kHat1: real, kHat2: real)
    requires |hE| == 2
    ensures (kHat1, kHat2)
      == Rates(e, dLs, d0, d1, LineOfSight.LineOfSightLoss(e, d0, hE, zg, deltaH, mD, aEd, dLs, f), a1, a2, aEd, mD)
  {
    ghost var a0' := LineOfSight.LineOfSightLoss(e, d0, hE, zg, deltaH, mD, aEd, dLs, f);
    var flag := false;
    kHat1, kHat2 := 0.0, 0.0;
    if d0 < d1 {
      var a0 := LineOfSight.LineOfSightLoss(e, d0, hE, zg, deltaH, mD, aEd, dLs, f);
      var term1 := Log(e, Quot(e, dLs, d0));
      kHat2 := InitialLogRate(e, dLs, d0, d1, a0, a1, a2);
      flag := aEd > 0.0 || kHat2 > 0.0;
      if flag {
        kHat1 := TwoTermLinearRate(e, dLs, d0, a0, a2, kHat2);
        if kHat1 < 0.0 {
          kHat1 := 0.0;
          kHat2 := Quot(e, Dim(a2, a0), term1);
          if kHat2 == 0.0 {
            kHat1 := mD;
          }
        }
      }
    }
    assert flag == Flagged(e, dLs, d0, d1, a0', a1, a2, aEd);
    if !flag {
      kHat1 := Quot(e, Dim(a2, a1), dLs - d1);
      kHat2 := 0.0;
      if kHat1 == 0.0 {
        kHat1 := mD;
      }
    }
  }

  /** The line through (x3, y3) and (x4, y4), x3 != x4, with slope m = (y4 - y3) / (x4 - x3)
      and intercept b = y3 - m x3, passes through both points. */
  lemma LineThroughTwoPoints(x3: real, x4: real, y3: real, y4: real, m: real, b: real)
    requires x3 != x4 && m == (y4 - y3) / (x4 - x3) && b == y3 - m * x3
    ensures b + m * x3 == y3
    ensures b + m * x4 == y4
  {
    LineOfSight.QuotientTimesDivisor(y4 - y3, x4 - x3, m, m * (x4 - x3));
    assert m * x4 - m * x3 == m * (x4 - x3);
  }

  /** At a positive frequency X_ae = (k / a^2)^(-1/3) is positive. */
  lemma XaePositive(e: Externals, f: real)
    requires PowPositive(e) && 0.0 < f
    ensures 0.0 < Xae(e, Wavenumber(f))
  {
    var k := Wavenumber(f);
    var p := Pow(e, MoonRadius, 2.0);
    assert 0.0 < p;
    ProductPositive(k, 1.0 / p);
    assert Quot(e, k, p) == k * (1.0 / p);
  }

  /** At a positive frequency d_4 - d_3 = 2.7574 X_ae > 0, and the fitted line
      m_d d + A_ed passes through (d_3, A_3) and (d_4, A_4). */
  lemma DiffractionLineThroughFitPoints(e: Externals, dHzn: seq<real>, hE: seq<real>, zg: Complex, deltaH: real,
                                        h: seq<real>, dLs: real, dL: real, thetaLos: real, f: real)
    requires PowPositive(e) && |dHzn| == 2 && |hE| == 2 && |h| == 2 && 0.0 < f
    ensures var fit := DiffractionFit(e, dHzn, hE, zg, deltaH, h, dLs, dL, thetaLos, f);
      && fit.d4 - fit.d3 == 2.7574 * Xae(e, Wavenumber(f))
      && fit.d3 < fit.d4
      && LineOfSight.DiffractionLine(fit.aEd, fit.mD, fit.d3) == fit.a3
      && LineOfSight.DiffractionLine(fit.aEd, fit.mD, fit.d4) == fit.a4
  {
    XaePositive(e, f);
    var fit := DiffractionFit(e, dHzn, hE, zg, deltaH, h, dLs, dL, thetaLos, f);
    LineThroughTwoPoints(fit.d3, fit.d4, fit.a3, fit.a4, fit.mD, fit.aEd);
  }

  /** The line-of-sight curve passes through (d_ls, A_2) whatever its rates are. */
  lemma CurvePassesThroughSmoothHorizon(e: Externals, a2: real, k1: real, k2: real, dLs: real)
    ensures SubHorizonCurve(e, a2, k1, k2, dLs, dLs) == a2
  {
  }

  /** The reference attenuation is continuous at d_ls: the sub-horizon formula at
      d = d_ls gives A_2 = A_ed + m_d d_ls, the diffraction line's value there, whatever
      kHat_1 and kHat_2 came out as. */
  lemma SubHorizonMeetsDiffractionLine(e: Externals, hE: seq<real>, zg: Complex, deltaH: real, dLs: real, dL: real,
                                       mD: real, aEd: real, f: real)
    requires |hE| == 2
    ensures SubHorizonAttenuation(e, hE, zg, deltaH, dLs, dL, mD, aEd, f, dLs) == LineOfSight.DiffractionLine(aEd, mD, dLs)
  {
    var pts := TransitionPoints(e, Wavenumber(f), hE, dL, aEd, mD);
    var a2 := LineOfSight.DiffractionLine(aEd, mD, dLs);
    var a0 := LineOfSight.LineOfSightLoss(e, pts.0, hE, zg, deltaH, mD, aEd, dLs, f);
    var a1 := LineOfSight.LineOfSightLoss(e, pts.1, hE, zg, deltaH, mD, aEd, dLs, f);
    var rates := Rates(e, dLs, pts.0, pts.1, a0, a1, a2, aEd, mD);
    CurvePassesThroughSmoothHorizon(e, a2, rates.0, rates.1, dLs);
  }

  /** In case 1 (A_ed >= 0) with d_l > 0 the transition points satisfy
      d_0 <= d_l / 2 and d_0 < d_1 < d_l, so the two-term fit is always tried; in the
      other case d_1 >= d_l / 4. */
  lemma TransitionPointsOrdered(e: Externals, k: real, hE: seq<real>, dL: real, aEd: real, mD: real)
    requires |hE| == 2
    ensures var pts := TransitionPoints(e, k, hE, dL, aEd, mD);
      && (aEd >= 0.0 && 0.0 < dL ==> pts.0 <= 0.5 * dL && pts.0 < pts.1 < dL)
      && (aEd < 0.0 ==> pts.0 == HeightGainDistance(k, hE) && dL / 4.0 <= pts.1)
  {
  }

  /** 1 < a / b for 0 < b < a. */
  lemma QuotientAboveOne(a: real, b: real)
    requires 0.0 < b < a
    ensures 1.0 < a / b
  {
    MultiplyStrict(1.0, a / b, b, b, a);
  }

  /** With 0 < d_0 < d_ls the logarithmic rate kHat_2 is never negative: the first
      estimate is a MAX with 0, the replacement DIM(A_2, A_0) / log(d_ls / d_0) has a
      positive divisor, and the linear fit sets it to 0. */
  lemma LogRateNonNegative(e: Externals, dLs: real, d0: real, d1: real, a0: real, a1: real, a2: real,
                           aEd: real, mD: real)
    requires LogPositiveAboveOne(e) && 0.0 < d0 < dLs
    ensures 0.0 <= Rates(e, dLs, d0, d1, a0, a1, a2, aEd, mD).1
  {
    if Flagged(e, dLs, d0, d1, a0, a1, a2, aEd) {
      QuotientAboveOne(dLs, d0);
      var term1 := Log(e, Quot(e, dLs, d0));
      assert 0.0 < term1;
      ProductNonNegative(Dim(a2, a0), 1.0 / term1);
      assert Quot(e, Dim(a2, a0), term1) == Dim(a2, a0) * (1.0 / term1);
    }
  }

  /** The purely linear fit is used unless the two-term fit is flagged; it sets
      kHat_2 = 0, and its rate DIM(A_2, A_1) / (d_ls - d_1) is replaced by m_d exactly
      when it is 0, that is when A_2 <= A_1 (for d_1 = d_ls the rate is 0 / 0,
      not a number, and no fallback happens). */
  lemma LinearFitFallback(e: Externals, dLs: real, d0: real, d1: real, a0: real, a1: real, a2: real,
                          aEd: real, mD: real)
    requires !Flagged(e, dLs, d0, d1, a0, a1, a2, aEd)
    ensures Rates(e, dLs, d0, d1, a0, a1, a2, aEd, mD).1 == 0.0
    ensures a2 <= a1 && d1 != dLs ==> Rates(e, dLs, d0, d1, a0, a1, a2, aEd, mD).0 == mD
    ensures a1 < a2 && d1 < dLs ==> Rates(e, dLs, d0, d1, a0, a1, a2, aEd, mD).0 == (a2 - a1) / (dLs - d1)
    ensures a1 < a2 && d1 < dLs ==> Rates(e, dLs, d0, d1, a0, a1, a2, aEd, mD).0 > 0.0
  {
    if a1 < a2 && d1 < dLs {
      var k1 := Quot(e, Dim(a2, a1), dLs - d1);
      assert k1 == (a2 - a1) / (dLs - d1);
      ProductPositive(a2 - a1, 1.0 / (dLs - d1));
      assert (a2 - a1) / (dLs - d1) == (a2 - a1) * (1.0 / (dLs - d1));
      assert LinearRates(e, dLs, d1, a1, a2, mD) == (k1, 0.0);
      assert Rates(e, dLs, d0, d1, a0, a1, a2, aEd, mD) == (k1, 0.0);
    }
  }

  /** In the two-term fit a negative linear rate is dropped to 0; when in addition
      A_2 <= A_0 the replacement logarithmic rate is 0 too, and the linear rate falls
      back to m_d. */
  lemma TwoTermFitFallback(e: Externals, dLs: real, d0: real, d1: real, a0: real, a1: real, a2: real,
                           aEd: real, mD: real)
    requires LogPositiveAboveOne(e) && 0.0 < d0 < dLs && Flagged(e, dLs, d0, d1, a0, a1, a2, aEd)
    requires TwoTermLinearRate(e, dLs, d0, a0, a2, InitialLogRate(e, dLs, d0, d1, a0, a1, a2)) < 0.0
    ensures a2 <= a0 ==> Rates(e, dLs, d0, d1, a0, a1, a2, aEd, mD) == (mD, 0.0)
    ensures a0 < a2 ==> Rates(e, dLs, d0, d1, a0, a1, a2, aEd, mD).0 == 0.0
    ensures a0 < a2 ==> Rates(e, dLs, d0, d1, a0, a1, a2, aEd, mD).1 > 0.0
  {
    QuotientAboveOne(dLs, d0);
    var term1 := Log(e, Quot(e, dLs, d0));
    assert 0.0 < term1;
    if a0 < a2 {
      ProductPositive(a2 - a0, 1.0 / term1);
      assert Quot(e, Dim(a2, a0), term1) == (a2 - a0) * (1.0 / term1);
    }
  }

  /** The path-distance flags: each is raised exactly at its bound, so a path beyond
      2000 km raises both TOO_BIG flags, and nothing but path-distance flags is
      raised. Horizon checks raise only horizon flags. */
  lemma PathFlagsNested(d: real, hE: seq<real>, thetaHzn: seq<real>, dHzn: seq<real>, dHznS: seq<real>)
    requires |hE| == 2 && |thetaHzn| == 2 && |dHzn| == 2 && |dHznS| == 2
    ensures PathDistanceTooBig2 in PathFlags(d, hE) <==> d > 2000000.0
    ensures PathDistanceTooBig1 in PathFlags(d, hE) <==> d > 1000000.0
    ensures PathDistanceTooSmall2 in PathFlags(d, hE) <==> d < 1000.0
    ensures PathDistanceTooSmall1 in PathFlags(d, hE) <==> d < MinimumDistance(hE)
    ensures PathDistanceTooBig2 in PathFlags(d, hE) ==> PathDistanceTooBig1 in PathFlags(d, hE)
    ensures PathFlags(d, hE) <= PathDistanceWarnings
    ensures HorizonFlags(thetaHzn, dHzn, dHznS) <= HorizonWarnings
  {
  }

  /** As the call is written, DiffractionLoss receives d_ls, a distance in metres, as
      its angle theta_los. For mobile terminals (h_e = h) on rough terrain, and any
      distance d with d + d_l < d_ls a, the roughness parameter q is then negative, so
      the weight 1 / (1 + 0.1 sqrt(q)) takes the square root of a negative number. */
  lemma AsWrittenRoughnessParameterNegative(e: Externals, dHzn: seq<real>, h: seq<real>, deltaH: real,
                                            dLs: real, f: real, d: real)
    requires SqrtExact(e) && ExpPositive(e) && ExpAtMostOneBelowZero(e)
    requires |dHzn| == 2 && |h| == 2 && 0.0 < h[0] && 0.0 < h[1]
    requires 0.0 < deltaH && 0.0 < f && 0.0 < d && dHzn[0] + dHzn[1] + d < dLs * MoonRadius
    ensures Diffraction.DiffractionQ(e, d, dHzn, h, TerrainRoughness(e, d, deltaH), h, dLs, f) < 0.0
  {
    var dhd := TerrainRoughness(e, d, deltaH);
    TerrainRoughnessBounds(e, d, deltaH);
    ProductPositive(dhd, f);
    var rff := Diffraction.RoughnessFrequencyFactor(dhd, f);
    assert 0.0 < rff;
    var hh := h[0] * h[1];
    ProductPositive(h[0], h[1]);
    QuotSelf(e, hh);
    assert Quot(e, hh, hh) == 1.0 * 1.0;
    SqrtOfSquare(e, 1.0);
    var n := -dLs * MoonRadius + (dHzn[0] + dHzn[1]);
    NegativeQuotient(n, d);
    var s := 1.0 + Quot(e, n, d);
    ProductPositive(-s, rff);
    assert Diffraction.DiffractionQ(e, d, dHzn, h, dhd, h, dLs, f) == s * rff;
  }

  /** n / d < -1 for n < -d, d > 0. */
  lemma NegativeQuotient(n: real, d: real)
    requires 0.0 < d && n < -d
    ensures n / d < -1.0
  {
    MultiplyStrict(n / d, -1.0, d, n, -d);
  }

  /** With theta_e in the theta_los position, as DiffractionLoss expects, the roughness
      parameter is never negative: -theta_e a >= -d_l, so every term of q is
      nonnegative for nonnegative heights, a positive distance and k delta_h_d >= 0. */
  lemma CorrectedRoughnessParameterNonNegative(e: Externals, d: real, thetaHzn: seq<real>, dHzn: seq<real>,
                                               hE: seq<real>, deltaHd: real, h: seq<real>, f: real)
    requires SqrtExact(e) && |thetaHzn| == 2 && |dHzn| == 2 && |hE| == 2 && |h| == 2
    requires 0.0 <= hE[0] && 0.0 <= hE[1] && 0.0 < h[0] && 0.0 < h[1] && 0.0 < d && 0.0 <= deltaHd * f
    ensures 0.0 <= Diffraction.DiffractionQ(e, d, dHzn, hE, deltaHd, h, ThetaE(thetaHzn, dHzn[0] + dHzn[1]), f)
  {
    var dL := dHzn[0] + dHzn[1];
    ProductNonNegative(hE[0], hE[1]);
    ProductPositive(h[0], h[1]);
    ProductNonNegative(hE[0] * hE[1], 1.0 / (h[0] * h[1]));
    assert Quot(e, hE[0] * hE[1], h[0] * h[1]) == hE[0] * hE[1] * (1.0 / (h[0] * h[1]));
    var term1 := Sqrt(e, Quot(e, hE[0] * hE[1], h[0] * h[1]));
    assert 0.0 <= term1;
    var n := -ThetaE(thetaHzn, dL) * MoonRadius + dL;
    assert 0.0 <= n;
    ProductNonNegative(n, 1.0 / d);
    assert Quot(e, n, d) == n * (1.0 / d);
    var rff := Diffraction.RoughnessFrequencyFactor(deltaHd, f);
    assert 0.0 <= rff;
    ProductNonNegative(term1 + Quot(e, n, d), rff);
  }

  /** Consequently, with theta_e the diffraction loss the fit samples lies between the
      knife-edge and the smooth-Moon losses at every positive distance. */
  lemma CorrectedDiffractionLossBetweenLimits(e: Externals, d: real, thetaHzn: seq<real>, dHzn: seq<real>,
                                              hE: seq<real>, zg: Complex, deltaH: real, h: seq<real>, f: real)
    requires SqrtExact(e) && ExpPositive(e) && ExpAtMostOneBelowZero(e)
    requires |thetaHzn| == 2 && |dHzn| == 2 && |hE| == 2 && |h| == 2
    requires 0.0 <= hE[0] && 0.0 <= hE[1] && 0.0 < h[0] && 0.0 < h[1] && 0.0 < d && 0.0 <= deltaH && 0.0 <= f
    ensures var thetaE := ThetaE(thetaHzn, dHzn[0] + dHzn[1]);
      Between(Diffraction.DiffractionLoss(e, d, dHzn, hE, zg, deltaH, h, thetaE, f),
              e.knifeEdge(d, f, thetaE, dHzn), e.smoothMoon(d, f, thetaE, dHzn, hE, zg))
  {
    var thetaE := ThetaE(thetaHzn, dHzn[0] + dHzn[1]);
    TerrainRoughnessBounds(e, d, deltaH);
    ProductNonNegative(TerrainRoughness(e, d, deltaH), f);
    CorrectedRoughnessParameterNonNegative(e, d, thetaHzn, dHzn, hE, TerrainRoughness(e, d, deltaH), h, f);
    Diffraction.DiffractionLossBetweenLimits(e, d, dHzn, hE, zg, deltaH, h, thetaE, f);
  }
}
