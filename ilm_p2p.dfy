/** Point-to-point mode: validate the inputs, extract the terrain parameters of the
    profile with QuickPfl, run the Longley-Rice reference attenuation over them, and
    add free-space loss and location variability. */
module PointToPointMode {
  import opened Numerics
  import opened Codes
  import opened Validation
  import opened Horizons
  import QuickProfile
  import LongleyRice
  import Variability
  import opened Intermediate

  /** The inputs of a point-to-point prediction: structural heights in m, the profile
      in PFL format, f in MHz and p in percent. */
  datatype P2PInputs = P2PInputs(hTx: real, hRx: real, pfl: seq<real>, f: real, pol: int,
                                 epsilon: real, sigma: real, p: real)

  /** ValidateInputs accepted the inputs. */
  predicate Validated(a: P2PInputs) {
    ValidationCode(a.hTx, a.hRx, a.p, a.f, a.pol, a.epsilon, a.sigma) == Success
  }

  /** The path distance in km, pfl[0] pfl[1] / 1000. */
  function PathKm(a: P2PInputs): real
    requires |a.pfl| >= 2
  {
    PathDistance(a.pfl) / 1000.0
  }

  /** The terrain parameters QuickPfl extracts; accepted inputs have a positive TX
      height, which QuickPfl's fit window needs. */
  function P2PTerrain(e: Externals, a: P2PInputs): (t: QuickProfile.Terrain)
    requires Proper(a.pfl) && Validated(a)
    ensures |t.thetaHzn| == 2 && |t.dHzn| == 2 && |t.hE| == 2
  {
    ValidationSucceedsIffInBounds(a.hTx, a.hRx, a.p, a.f, a.pol, a.epsilon, a.sigma);
    QuickProfile.QuickPflSpec(e, a.pfl, StructuralHeights(a.hTx, a.hRx))
  }

  /** The ground impedance of the path. */
  function Impedance(e: Externals, a: P2PInputs): Complex {
    GroundImpedance(e, a.f, a.pol, a.epsilon, a.sigma)
  }

  /** Each terminal's smooth-Moon horizon distance sqrt(2 h_e a). */
  function SmoothHorizons(e: Externals, hE: seq<real>): (s: seq<real>)
    requires |hE| == 2
    ensures |s| == 2
  {
    [QuickProfile.SmoothHorizon(e, hE[0]), QuickProfile.SmoothHorizon(e, hE[1])]
  }

  /** The flags LongleyRice adds for the extracted terrain. */
  function ModelWarnings(e: Externals, a: P2PInputs): Warnings
    requires Proper(a.pfl) && Validated(a)
  {
    LongleyRice.HorizonFlags(P2PTerrain(e, a).thetaHzn, P2PTerrain(e, a).dHzn, SmoothHorizons(e, P2PTerrain(e, a).hE))
      + (if LongleyRice.ImpedanceAccepted(Impedance(e, a)) then LongleyRice.PathFlags(P2PTerrain(e, a).d, P2PTerrain(e, a).hE)
         else NoWarnings)
  }

  /** The warnings of a prediction: ValidateInputs' flags, and LongleyRice's once the
      inputs have been accepted. */
  function P2PWarnings(e: Externals, a: P2PInputs): Warnings
    requires Proper(a.pfl)
  {
    SoftWarnings(a.hTx, a.hRx, a.f) + (if Validated(a) then ModelWarnings(e, a) else NoWarnings)
  }

  /** The code PointToPoint returns: ValidateInputs' error, else the ground-impedance
      error, else SUCCESS or SUCCESS_WITH_WARNINGS. */
  function P2PCode(e: Externals, a: P2PInputs): int
    requires Proper(a.pfl)
  {
    if !Validated(a) then ValidationCode(a.hTx, a.hRx, a.p, a.f, a.pol, a.epsilon, a.sigma)
    else if !LongleyRice.ImpedanceAccepted(Impedance(e, a)) then ErrorGroundImpedance
    else SuccessCode(P2PWarnings(e, a))
  }

  predicate Succeeded(rtn: int) {
    rtn == Success || rtn == SuccessWithWarnings
  }

  /** The reference attenuation LongleyRice computes for the extracted terrain. */
  function P2PReference(e: Externals, a: P2PInputs): real
    requires Proper(a.pfl) && Validated(a)
  {
    Max(LongleyRice.UnclampedAttenuation(e, P2PTerrain(e, a).thetaHzn, a.f, Impedance(e, a), P2PTerrain(e, a).dHzn,
                                         P2PTerrain(e, a).hE, P2PTerrain(e, a).deltaH, StructuralHeights(a.hTx, a.hRx), P2PTerrain(e, a).d), 0.0)
  }

  /** The free-space loss over the path. */
  function P2PFreeSpace(e: Externals, a: P2PInputs): real
    requires Proper(a.pfl) && Validated(a)
  {
    FreeSpaceLoss(e, P2PTerrain(e, a).d, a.f)
  }

  /** The basic transmission loss over the extracted path. */
  function P2PLoss(e: Externals, a: P2PInputs): real
    requires Proper(a.pfl) && Validated(a)
  {
    Variability.TransmissionLoss(e, a.p, a.f, P2PTerrain(e, a).deltaH, P2PTerrain(e, a).d, P2PReference(e, a))
  }

  /** The propagation mode of the extracted terrain. */
  function P2PPropagationMode(e: Externals, a: P2PInputs): int
    requires Proper(a.pfl) && Validated(a)
  {
    LongleyRice.PropagationMode(P2PTerrain(e, a).d, P2PTerrain(e, a).dHzn[0] + P2PTerrain(e, a).dHzn[1])
  }

  /** The 10% of the np intervals that the average path height leaves out at each end. */
  function TenPercent(np: int): int {
    TruncToInt(0.1 * np as real)
  }

  lemma TenPercentBounds(np: int)
    requires 0 <= np
    ensures 0 <= TenPercent(np) && 2 * TenPercent(np) <= np
  {
  }

  /** The sum of the elevations pfl[i + 2] for lo <= i < hi, added in index order. */
  function WindowSum(pfl: seq<real>, lo: int, hi: int): real
    requires 0 <= lo <= hi && hi + 2 <= |pfl|
    decreases hi - lo
  {
    if hi == lo then 0.0 else WindowSum(pfl, lo, hi - 1) + pfl[hi + 1]
  }

  /** The number of elevations the average path height adds: those of the points
      p10 .. np - p10. */
  function WindowCount(pfl: seq<real>): int
    requires Readable(pfl)
  {
    Np(pfl) - 2 * TenPercent(Np(pfl)) + 1
  }

  /** The mean elevation of the points p10 .. np - p10 of the profile. */
  function AverageHeight(pfl: seq<real>): real
    requires Readable(pfl)
  {
    var np := Np(pfl);
    TenPercentBounds(np);
    WindowSum(pfl, TenPercent(np), np - TenPercent(np) + 1) / WindowCount(pfl) as real
  }

  /** The average path height h_sys: the elevations of the points p10 .. np - p10
      added one by one, then divided by their number. */
  method AveragePathHeight(pfl: seq<real>) returns (hSys: real)
    requires Readable(pfl)
    ensures hSys == AverageHeight(pfl)
  {
    var np := Np(pfl);
    var p10 := TruncToInt(0.1 * np as real);
    TenPercentBounds(np);
    hSys := 0.0;
    for i := p10 to np - p10 + 1
      invariant hSys == WindowSum(pfl, p10, i)
    {
      hSys := hSys + pfl[i + 2];
    }
    hSys := hSys / (np - 2 * p10 + 1) as real;
  }

  /** Bounds on every summed elevation bound the sum. */
  lemma {:induction false} WindowSumBounds(pfl: seq<real>, lo: int, hi: int, low: real, high: real)
    requires 0 <= lo <= hi && hi + 2 <= |pfl|
    requires forall j | lo + 2 <= j < hi + 2 :: low <= pfl[j] <= high
    ensures (hi - lo) as real * low <= WindowSum(pfl, lo, hi) <= (hi - lo) as real * high
  {
    if hi > lo {
      WindowSumBounds(pfl, lo, hi - 1, low, high);
      assert low <= pfl[hi + 1] <= high;
      assert (hi - lo) as real * low == (hi - 1 - lo) as real * low + low;
      assert (hi - lo) as real * high == (hi - 1 - lo) as real * high + high;
    }
  }

  /** A sum of c terms, each within [low, high], divided by c lies within [low, high]. */
  lemma MeanBetween(s: real, c: real, low: real, high: real)
    requires 0.0 < c && c * low <= s <= c * high
    ensures low <= s / c <= high
  {
    var m := s / c;
    assert s == m * c;
    if m < low {
      MultiplyStrict(m, low, c, s, low * c);
    }
    if high < m {
      MultiplyStrict(high, m, c, high * c, s);
    }
  }

  /** The divisor is the number of elevations added, at least 1, and the average path
      height lies between the lowest and the highest of those elevations. */
  lemma AverageHeightBetween(pfl: seq<real>, low: real, high: real)
    requires Readable(pfl)
    requires forall j | TenPercent(Np(pfl)) + 2 <= j <= Np(pfl) - TenPercent(Np(pfl)) + 2 :: low <= pfl[j] <= high
    ensures 1 <= WindowCount(pfl) == (Np(pfl) - TenPercent(Np(pfl)) + 1) - TenPercent(Np(pfl))
    ensures low <= AverageHeight(pfl) <= high
  {
    var np := Np(pfl);
    var p10 := TenPercent(np);
    TenPercentBounds(np);
    WindowMeanBetween(pfl, p10, np - p10 + 1, low, high);
  }

  /** The mean of the elevations pfl[lo + 2 .. hi + 1] lies between bounds on all of them. */
  lemma WindowMeanBetween(pfl: seq<real>, lo: int, hi: int, low: real, high: real)
    requires 0 <= lo < hi && hi + 2 <= |pfl|
    requires forall j | lo + 2 <= j < hi + 2 :: low <= pfl[j] <= high
    ensures low <= WindowSum(pfl, lo, hi) / (hi - lo) as real <= high
  {
    WindowSumBounds(pfl, lo, hi, low, high);
    MeanBetween(WindowSum(pfl, lo, hi), (hi - lo) as real, low, high);
  }

  /** The ground impedance, QuickPfl and LongleyRice over its outputs. */
  method Reference(e: Externals, a: P2PInputs, warningsIn: Warnings)
    returns (rtn: int, t: QuickProfile.Terrain, aRef: real, warnings: Warnings, propmode: int)
    requires Proper(a.pfl) && Validated(a)
    ensures t == P2PTerrain(e, a)
    ensures rtn == (if LongleyRice.ImpedanceAccepted(Impedance(e, a)) then Success else ErrorGroundImpedance)
    ensures warnings == warningsIn + ModelWarnings(e, a)
    ensures rtn == Success ==> aRef == P2PReference(e, a) && propmode == P2PPropagationMode(e, a)
  {
    ValidationSucceedsIffInBounds(a.hTx, a.hRx, a.p, a.f, a.pol, a.epsilon, a.sigma);
    var zg := GroundImpedance(e, a.f, a.pol, a.epsilon, a.sigma);
    t := ExtractTerrain(e, a.pfl, StructuralHeights(a.hTx, a.hRx));
    rtn, aRef, warnings, propmode :=
      LongleyRice.LongleyRice(e, t.thetaHzn, a.f, zg, t.dHzn, t.hE, t.deltaH, StructuralHeights(a.hTx, a.hRx), t.d, 0.0, warningsIn, ModeNotSet);
  }

  /** QuickPfl through its output arrays. */
  method ExtractTerrain(e: Externals, pfl: seq<real>, h: seq<real>) returns (t: QuickProfile.Terrain)
    requires Proper(pfl) && |h| == 2 && 0.0 < h[0]
    ensures t == QuickProfile.QuickPflSpec(e, pfl, h)
  {
    var thetaHzn, dHzn, hE := new real[2], new real[2], new real[2];
    var deltaH, d := QuickProfile.QuickPfl(e, pfl, h, thetaHzn, dHzn, hE);
    t := QuickProfile.Terrain(thetaHzn[..], dHzn[..], hE[..], deltaH, d);
  }

  /** Once the inputs have been accepted, PointToPoint's code and warnings are
      LongleyRice's. */
  lemma CodeFromLongleyRice(e: Externals, a: P2PInputs, rtn: int, warnings: Warnings)
    requires Proper(a.pfl) && Validated(a)
    requires rtn == (if LongleyRice.ImpedanceAccepted(Impedance(e, a)) then Success else ErrorGroundImpedance)
    requires warnings == SoftWarnings(a.hTx, a.hRx, a.f) + ModelWarnings(e, a)
    ensures warnings == P2PWarnings(e, a)
    ensures rtn != Success ==> rtn == P2PCode(e, a) && !Succeeded(rtn)
    ensures rtn == Success ==> SuccessCode(warnings) == P2PCode(e, a)
  {
  }

  /** PointToPoint_Ex past ValidateInputs. */
  method Predict(e: Externals, a: P2PInputs, aIn: real, warningsIn: Warnings, values: IntermediateValues)
    returns (rtn: int, loss: real, warnings: Warnings)
    requires Proper(a.pfl) && Validated(a) && warningsIn == SoftWarnings(a.hTx, a.hRx, a.f)
    modifies values
    ensures rtn == P2PCode(e, a) && warnings == P2PWarnings(e, a)
    ensures Succeeded(rtn) ==> loss == P2PLoss(e, a)
    ensures !Succeeded(rtn) ==> loss == aIn
    ensures values.dKm == old(values.dKm)
    ensures !Succeeded(rtn) ==>
      && values.thetaHzn == old(values.thetaHzn) && values.dHzn == old(values.dHzn)
      && values.hE == old(values.hE) && values.deltaH == old(values.deltaH)
      && values.aRef == old(values.aRef) && values.aFs == old(values.aFs) && values.mode == old(values.mode)
    ensures Succeeded(rtn) ==>
      && values.thetaHzn == P2PTerrain(e, a).thetaHzn && values.dHzn == P2PTerrain(e, a).dHzn
      && values.hE == P2PTerrain(e, a).hE && values.deltaH == P2PTerrain(e, a).deltaH && values.aRef == P2PReference(e, a)
      && values.aFs == P2PFreeSpace(e, a) && values.mode == P2PPropagationMode(e, a)
  {
    var t, aRef, propmode;
    rtn, t, aRef, warnings, propmode := Reference(e, a, warningsIn);
    CodeFromLongleyRice(e, a, rtn, warnings);
    if rtn != Success {
      return rtn, aIn, warnings;
    }
    var aFs := FreeSpaceLoss(e, t.d, a.f);
    loss := Variability.TransmissionLoss(e, a.p, a.f, t.deltaH, t.d, aRef);
    values.Record(aRef, aFs, t.deltaH, t.dHzn, t.hE, t.thetaHzn, propmode);
    rtn := SuccessCode(warnings);
  }

  /** PointToPoint_Ex. A__db is written only on success, so its value on entry is a
      parameter and comes back unchanged after an error; the path distance is saved
      once ValidateInputs accepted the inputs and the other intermediate values once the
      prediction succeeded. The average path height over the middle 80% of the profile
      is computed as the source computes it, and no later step reads it. */
  method PointToPointEx(e: Externals, hTx: real, hRx: real, pfl: seq<real>, f: real, pol: int,
                        epsilon: real, sigma: real, p: real, aIn: real, values: IntermediateValues)
    returns (rtn: int, a: real, warnings: Warnings)
    requires Proper(pfl)
    modifies values
    ensures var inputs := P2PInputs(hTx, hRx, pfl, f, pol, epsilon, sigma, p);
      && rtn == P2PCode(e, inputs)
      && warnings == P2PWarnings(e, inputs)
      && (Succeeded(rtn) ==> Validated(inputs) && a == P2PLoss(e, inputs))
      && (!Succeeded(rtn) ==> a == aIn)
    ensures var inputs := P2PInputs(hTx, hRx, pfl, f, pol, epsilon, sigma, p);
      values.dKm == (if Validated(inputs) then PathKm(inputs) else old(values.dKm))
    ensures !Succeeded(rtn) ==>
      && values.thetaHzn == old(values.thetaHzn) && values.dHzn == old(values.dHzn)
      && values.hE == old(values.hE) && values.deltaH == old(values.deltaH)
      && values.aRef == old(values.aRef) && values.aFs == old(values.aFs) && values.mode == old(values.mode)
    ensures var inputs := P2PInputs(hTx, hRx, pfl, f, pol, epsilon, sigma, p);
      Succeeded(rtn) ==> (
        && Validated(inputs)
        && values.thetaHzn == P2PTerrain(e, inputs).thetaHzn && values.dHzn == P2PTerrain(e, inputs).dHzn
        && values.hE == P2PTerrain(e, inputs).hE && values.deltaH == P2PTerrain(e, inputs).deltaH
        && values.aRef == P2PReference(e, inputs)
        && values.aFs == P2PFreeSpace(e, inputs) && values.mode == P2PPropagationMode(e, inputs))
  {
    var inputs := P2PInputs(hTx, hRx, pfl, f, pol, epsilon, sigma, p);
    rtn, warnings := ValidateInputs(hTx, hRx, p, f, pol, epsilon, sigma, NoWarnings);
    if rtn != Success {
      RejectedByValidation(e, inputs, rtn, warnings);
      return rtn, aIn, warnings;
    }
    assert warnings == SoftWarnings(hTx, hRx, f);
    values.SetDistance(PathKm(inputs));
    var hSys := AveragePathHeight(pfl);
    rtn, a, warnings := Predict(e, inputs, aIn, warnings, values);
  }

  /** An error from ValidateInputs is PointToPoint's code, with ValidateInputs' flags. */
  lemma RejectedByValidation(e: Externals, a: P2PInputs, rtn: int, warnings: Warnings)
    requires Proper(a.pfl)
    requires rtn == ValidationCode(a.hTx, a.hRx, a.p, a.f, a.pol, a.epsilon, a.sigma) && rtn != Success
    requires warnings == NoWarnings + SoftWarnings(a.hTx, a.hRx, a.f)
    ensures !Validated(a) && !Succeeded(rtn)
    ensures rtn == P2PCode(e, a) && warnings == P2PWarnings(e, a)
  {
    ValidationCodeRange(a.hTx, a.hRx, a.p, a.f, a.pol, a.epsilon, a.sigma);
  }

  /** PointToPoint: PointToPoint_Ex with intermediate values of its own that the
      caller never sees. */
  method PointToPoint(e: Externals, hTx: real, hRx: real, pfl: seq<real>, f: real, pol: int,
                      epsilon: real, sigma: real, p: real, aIn: real)
    returns (rtn: int, a: real, warnings: Warnings)
    requires Proper(pfl)
    ensures var inputs := P2PInputs(hTx, hRx, pfl, f, pol, epsilon, sigma, p);
      && rtn == P2PCode(e, inputs)
      && warnings == P2PWarnings(e, inputs)
      && (Succeeded(rtn) ==> Validated(inputs) && a == P2PLoss(e, inputs))
      && (!Succeeded(rtn) ==> a == aIn)
  {
    var values := new IntermediateValues();
    rtn, a, warnings := PointToPointEx(e, hTx, hRx, pfl, f, pol, epsilon, sigma, p, aIn, values);
  }

  /** The prediction succeeds exactly when ValidateInputs accepts the inputs and the
      ground impedance is accepted, and reports SUCCESS_WITH_WARNINGS exactly when it
      succeeds with a flag set and SUCCESS exactly when it succeeds with none. */
  lemma P2PSucceedsIff(e: Externals, a: P2PInputs)
    requires Proper(a.pfl)
    ensures Succeeded(P2PCode(e, a)) <==>
      InBounds(a.hTx, a.hRx, a.p, a.f, a.pol, a.epsilon, a.sigma) && LongleyRice.ImpedanceAccepted(Impedance(e, a))
    ensures P2PCode(e, a) == SuccessWithWarnings <==> Succeeded(P2PCode(e, a)) && P2PWarnings(e, a) != NoWarnings
    ensures P2PCode(e, a) == Success <==> Succeeded(P2PCode(e, a)) && P2PWarnings(e, a) == NoWarnings
  {
    ValidationCodeRange(a.hTx, a.hRx, a.p, a.f, a.pol, a.epsilon, a.sigma);
    ValidationSucceedsIffInBounds(a.hTx, a.hRx, a.p, a.f, a.pol, a.epsilon, a.sigma);
  }

  /** The warnings come from ValidateInputs and LongleyRice only; rejected inputs report
      ValidateInputs' flags alone. */
  lemma P2PWarningsBounded(e: Externals, a: P2PInputs)
    requires Proper(a.pfl)
    ensures P2PWarnings(e, a) <= InputWarnings + HorizonWarnings + PathDistanceWarnings
    ensures !Validated(a) ==> P2PWarnings(e, a) == SoftWarnings(a.hTx, a.hRx, a.f) <= InputWarnings
  {
    WarningsFollowEarlyReturns(a.hTx, a.hRx, a.f);
    if Validated(a) {
      var t := P2PTerrain(e, a);
      LongleyRice.PathFlagsNested(t.d, t.hE, t.thetaHzn, t.dHzn, SmoothHorizons(e, t.hE));
    }
  }
}
