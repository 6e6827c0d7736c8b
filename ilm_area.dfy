/** Area mode: validate the inputs, derive each terminal's geometry from its siting
    criterion, run the Longley-Rice reference attenuation over a path of the given
    length and terrain irregularity, and add free-space loss and location variability. */
module AreaMode {
  import opened Numerics
  import opened Codes
  import opened Validation
  import opened AreaTerminals
  import LongleyRice
  import QuickProfile
  import Variability
  import opened Intermediate

  /** The inputs of an area-mode prediction, all in the units the caller gives them
      (heights and delta_h in m, d in km, f in MHz, p in percent). */
  datatype AreaInputs = AreaInputs(hTx: real, hRx: real, txSiting: int, rxSiting: int, dKm: real,
                                   deltaH: real, f: real, pol: int, epsilon: real, sigma: real, p: real)

  /** A siting criterion is MOBILE or FIXED. */
  predicate ValidSiting(siting: int) {
    siting == SitingCriteriaMobile || siting == SitingCriteriaFixed
  }

  /** The code of the input checks: ValidateInputs' code, then the path distance,
      delta_h and the two siting criteria, in that order. */
  function InputCode(a: AreaInputs): int {
    var v := ValidationCode(a.hTx, a.hRx, a.p, a.f, a.pol, a.epsilon, a.sigma);
    if v != Success then v
    else if a.dKm <= 0.0 then ErrorPathDistance
    else if a.deltaH < 0.0 then ErrorDeltaH
    else if !ValidSiting(a.txSiting) then ErrorTxSitingCriteria
    else if !ValidSiting(a.rxSiting) then ErrorRxSitingCriteria
    else Success
  }

  /** The path distance in meters. */
  function PathMeters(a: AreaInputs): real {
    a.dKm * 1000.0
  }

  function Tx(e: Externals, a: AreaInputs): TerminalGeometry {
    AreaTerminal(e, a.txSiting, a.hTx, a.deltaH)
  }

  function Rx(e: Externals, a: AreaInputs): TerminalGeometry {
    AreaTerminal(e, a.rxSiting, a.hRx, a.deltaH)
  }

  /** The pairs InitializeArea writes: horizon angles, horizon distances and effective
      heights, TX first. */
  function HorizonAngles(e: Externals, a: AreaInputs): (s: seq<real>)
    ensures |s| == 2
  {
    [Tx(e, a).theta, Rx(e, a).theta]
  }

  function HorizonDistances(e: Externals, a: AreaInputs): (s: seq<real>)
    ensures |s| == 2
  {
    [Tx(e, a).dL, Rx(e, a).dL]
  }

  function EffectiveHeights(e: Externals, a: AreaInputs): (s: seq<real>)
    ensures |s| == 2
  {
    [Tx(e, a).hE, Rx(e, a).hE]
  }

  /** The ground impedance of the path. */
  function Impedance(e: Externals, a: AreaInputs): Complex {
    GroundImpedance(e, a.f, a.pol, a.epsilon, a.sigma)
  }

  /** The flags LongleyRice adds for the geometry InitializeArea derives. */
  function ModelWarnings(e: Externals, a: AreaInputs): Warnings {
    var hE := EffectiveHeights(e, a);
    var dHznS := [QuickProfile.SmoothHorizon(e, hE[0]), QuickProfile.SmoothHorizon(e, hE[1])];
    LongleyRice.HorizonFlags(HorizonAngles(e, a), HorizonDistances(e, a), dHznS)
      + (if LongleyRice.ImpedanceAccepted(Impedance(e, a)) then LongleyRice.PathFlags(PathMeters(a), hE)
         else NoWarnings)
  }

  /** The warnings of a prediction: ValidateInputs' flags, and LongleyRice's once the
      input checks have passed. */
  function AreaWarnings(e: Externals, a: AreaInputs): Warnings {
    SoftWarnings(a.hTx, a.hRx, a.f) + (if InputCode(a) == Success then ModelWarnings(e, a) else NoWarnings)
  }

  /** The code Area returns: the first failed input check, else the ground-impedance
      error, else SUCCESS or SUCCESS_WITH_WARNINGS. */
  function AreaCode(e: Externals, a: AreaInputs): int {
    if InputCode(a) != Success then InputCode(a)
    else if !LongleyRice.ImpedanceAccepted(Impedance(e, a)) then ErrorGroundImpedance
    else SuccessCode(AreaWarnings(e, a))
  }

  predicate Succeeded(rtn: int) {
    rtn == Success || rtn == SuccessWithWarnings
  }

  /** The reference attenuation LongleyRice computes for the derived geometry. */
  function AreaReference(e: Externals, a: AreaInputs): real {
    Max(LongleyRice.UnclampedAttenuation(e, HorizonAngles(e, a), a.f, Impedance(e, a), HorizonDistances(e, a),
                                         EffectiveHeights(e, a), a.deltaH, StructuralHeights(a.hTx, a.hRx), PathMeters(a)), 0.0)
  }

  /** The free-space loss over the path. */
  function AreaFreeSpace(e: Externals, a: AreaInputs): real {
    FreeSpaceLoss(e, PathMeters(a), a.f)
  }

  /** The basic transmission loss over the path. */
  function AreaLoss(e: Externals, a: AreaInputs): real {
    Variability.TransmissionLoss(e, a.p, a.f, a.deltaH, PathMeters(a), AreaReference(e, a))
  }

  /** The propagation mode of the derived geometry. */
  function AreaPropagationMode(e: Externals, a: AreaInputs): int {
    var dHzn := HorizonDistances(e, a);
    LongleyRice.PropagationMode(PathMeters(a), dHzn[0] + dHzn[1])
  }

  /** The derived geometry of both terminals, through InitializeArea's arrays. */
  method AreaGeometry(e: Externals, a: AreaInputs)
    returns (thetaHzn: seq<real>, dHzn: seq<real>, hE: seq<real>)
    ensures thetaHzn == HorizonAngles(e, a) && dHzn == HorizonDistances(e, a) && hE == EffectiveHeights(e, a)
  {
    var hEa, dHzna, thetaHzna := new real[2], new real[2], new real[2];
    InitializeArea(e, [a.txSiting, a.rxSiting], a.deltaH, [a.hTx, a.hRx], hEa, dHzna, thetaHzna);
    thetaHzn, dHzn, hE := [thetaHzna[0], thetaHzna[1]], [dHzna[0], dHzna[1]], [hEa[0], hEa[1]];
  }

  /** Once the input checks have passed, Area's code and warnings are LongleyRice's. */
  lemma CodeFromLongleyRice(e: Externals, a: AreaInputs, rtn: int, warnings: Warnings)
    requires InputCode(a) == Success
    requires rtn == (if LongleyRice.ImpedanceAccepted(Impedance(e, a)) then Success else ErrorGroundImpedance)
    requires warnings == SoftWarnings(a.hTx, a.hRx, a.f) + ModelWarnings(e, a)
    ensures warnings == AreaWarnings(e, a)
    ensures rtn != Success ==> rtn == AreaCode(e, a) && !Succeeded(rtn)
    ensures rtn == Success ==> SuccessCode(warnings) == AreaCode(e, a)
  {
  }

  /** The ground impedance, the geometry and LongleyRice over them. */
  method Reference(e: Externals, a: AreaInputs, warningsIn: Warnings)
    returns (rtn: int, thetaHzn: seq<real>, dHzn: seq<real>, hE: seq<real>, aRef: real,
             warnings: Warnings, propmode: int)
    ensures thetaHzn == HorizonAngles(e, a) && dHzn == HorizonDistances(e, a) && hE == EffectiveHeights(e, a)
    ensures rtn == (if LongleyRice.ImpedanceAccepted(Impedance(e, a)) then Success else ErrorGroundImpedance)
    ensures warnings == warningsIn + ModelWarnings(e, a)
    ensures rtn == Success ==> aRef == AreaReference(e, a) && propmode == AreaPropagationMode(e, a)
  {
    var zg := GroundImpedance(e, a.f, a.pol, a.epsilon, a.sigma);
    thetaHzn, dHzn, hE := AreaGeometry(e, a);
    var d := a.dKm * 1000.0;
    rtn, aRef, warnings, propmode :=
      LongleyRice.LongleyRice(e, thetaHzn, a.f, zg, dHzn, hE, a.deltaH, [a.hTx, a.hRx], d, 0.0, warningsIn, ModeNotSet);
  }

  /** Area_Ex past its input checks: the ground impedance, the geometry, LongleyRice,
      and on success the loss and the saved intermediate values. */
  method Predict(e: Externals, a: AreaInputs, aIn: real, warningsIn: Warnings, values: IntermediateValues)
    returns (rtn: int, loss: real, warnings: Warnings)
    requires InputCode(a) == Success && warningsIn == SoftWarnings(a.hTx, a.hRx, a.f)
    modifies values
    ensures rtn == AreaCode(e, a) && warnings == AreaWarnings(e, a)
    ensures Succeeded(rtn) ==> loss == AreaLoss(e, a)
    ensures !Succeeded(rtn) ==> loss == aIn
    ensures values.dKm == old(values.dKm)
    ensures !Succeeded(rtn) ==>
      && values.thetaHzn == old(values.thetaHzn) && values.dHzn == old(values.dHzn)
      && values.hE == old(values.hE) && values.deltaH == old(values.deltaH)
      && values.aRef == old(values.aRef) && values.aFs == old(values.aFs) && values.mode == old(values.mode)
    ensures Succeeded(rtn) ==>
      && values.thetaHzn == HorizonAngles(e, a) && values.dHzn == HorizonDistances(e, a)
      && values.hE == EffectiveHeights(e, a) && values.deltaH == a.deltaH
      && values.aRef == AreaReference(e, a) && values.aFs == AreaFreeSpace(e, a)
      && values.mode == AreaPropagationMode(e, a)
  {
    var thetaHzn, dHzn, hE, aRef, propmode;
    rtn, thetaHzn, dHzn, hE, aRef, warnings, propmode := Reference(e, a, warningsIn);
    CodeFromLongleyRice(e, a, rtn, warnings);
    if rtn != Success {
      return rtn, aIn, warnings;
    }
    var d := PathMeters(a);
    var aFs := FreeSpaceLoss(e, d, a.f);
    loss := Variability.TransmissionLoss(e, a.p, a.f, a.deltaH, d, aRef);
    values.Record(aRef, aFs, a.deltaH, dHzn, hE, thetaHzn, propmode);
    rtn := SuccessCode(warnings);
  }

  /** Area_Ex. A__db is written only on success, so its value on entry is a parameter
      and comes back unchanged after an error; the intermediate values are written in
      two steps, the path distance once the inputs are accepted and the rest once the
      prediction succeeded. */
  method AreaEx(e: Externals, hTx: real, hRx: real, txSiting: int, rxSiting: int, dKm: real,
                deltaH: real, f: real, pol: int, epsilon: real, sigma: real, p: real,
                aIn: real, values: IntermediateValues)
    returns (rtn: int, a: real, warnings: Warnings)
    modifies values
    ensures var inputs := AreaInputs(hTx, hRx, txSiting, rxSiting, dKm, deltaH, f, pol, epsilon, sigma, p);
      && rtn == AreaCode(e, inputs)
      && warnings == AreaWarnings(e, inputs)
      && (Succeeded(rtn) ==> a == AreaLoss(e, inputs))
      && (!Succeeded(rtn) ==> a == aIn)
    ensures var inputs := AreaInputs(hTx, hRx, txSiting, rxSiting, dKm, deltaH, f, pol, epsilon, sigma, p);
      values.dKm == (if InputCode(inputs) == Success then dKm else old(values.dKm))
    ensures !Succeeded(rtn) ==>
      && values.thetaHzn == old(values.thetaHzn) && values.dHzn == old(values.dHzn)
      && values.hE == old(values.hE) && values.deltaH == old(values.deltaH)
      && values.aRef == old(values.aRef) && values.aFs == old(values.aFs) && values.mode == old(values.mode)
    ensures var inputs := AreaInputs(hTx, hRx, txSiting, rxSiting, dKm, deltaH, f, pol, epsilon, sigma, p);
      Succeeded(rtn) ==>
      && values.thetaHzn == HorizonAngles(e, inputs) && values.dHzn == HorizonDistances(e, inputs)
      && values.hE == EffectiveHeights(e, inputs) && values.deltaH == deltaH
      && values.aRef == AreaReference(e, inputs) && values.aFs == AreaFreeSpace(e, inputs)
      && values.mode == AreaPropagationMode(e, inputs)
  {
    var inputs := AreaInputs(hTx, hRx, txSiting, rxSiting, dKm, deltaH, f, pol, epsilon, sigma, p);
    rtn, warnings := ValidateInputs(hTx, hRx, p, f, pol, epsilon, sigma, NoWarnings);
    ValidationCodeRange(hTx, hRx, p, f, pol, epsilon, sigma);
    if rtn != Success {
      return rtn, aIn, warnings;
    }
    if dKm <= 0.0 {
      return ErrorPathDistance, aIn, warnings;
    }
    if deltaH < 0.0 {
      return ErrorDeltaH, aIn, warnings;
    }
    if txSiting != SitingCriteriaMobile && txSiting != SitingCriteriaFixed {
      return ErrorTxSitingCriteria, aIn, warnings;
    }
    if rxSiting != SitingCriteriaMobile && rxSiting != SitingCriteriaFixed {
      return ErrorRxSitingCriteria, aIn, warnings;
    }
    assert InputCode(inputs) == Success;
    values.SetDistance(dKm);
    rtn, a, warnings := Predict(e, inputs, aIn, warnings, values);
  }

  /** Area: Area_Ex with intermediate values of its own that the caller never sees. */
  method Area(e: Externals, hTx: real, hRx: real, txSiting: int, rxSiting: int, dKm: real,
              deltaH: real, f: real, pol: int, epsilon: real, sigma: real, p: real, aIn: real)
    returns (rtn: int, a: real, warnings: Warnings)
    ensures var inputs := AreaInputs(hTx, hRx, txSiting, rxSiting, dKm, deltaH, f, pol, epsilon, sigma, p);
      && rtn == AreaCode(e, inputs)
      && warnings == AreaWarnings(e, inputs)
      && (Succeeded(rtn) ==> a == AreaLoss(e, inputs))
      && (!Succeeded(rtn) ==> a == aIn)
  {
    var values := new IntermediateValues();
    rtn, a, warnings := AreaEx(e, hTx, hRx, txSiting, rxSiting, dKm, deltaH, f, pol, epsilon, sigma, p, aIn, values);
  }

  /** The input checks in their order: ValidateInputs' error first, then a path
      distance that is not positive, a negative delta_h, the TX siting criterion and
      the RX siting criterion; they pass exactly when every bound holds. */
  lemma InputCodePrecedence(a: AreaInputs)
    ensures var v := ValidationCode(a.hTx, a.hRx, a.p, a.f, a.pol, a.epsilon, a.sigma);
      v != Success ==> InputCode(a) == v
    ensures var ok := InBounds(a.hTx, a.hRx, a.p, a.f, a.pol, a.epsilon, a.sigma);
      && (ok && a.dKm <= 0.0 ==> InputCode(a) == ErrorPathDistance)
      && (ok && 0.0 < a.dKm && a.deltaH < 0.0 ==> InputCode(a) == ErrorDeltaH)
      && (ok && 0.0 < a.dKm && 0.0 <= a.deltaH && !ValidSiting(a.txSiting) ==> InputCode(a) == ErrorTxSitingCriteria)
      && (ok && 0.0 < a.dKm && 0.0 <= a.deltaH && ValidSiting(a.txSiting) && !ValidSiting(a.rxSiting)
          ==> InputCode(a) == ErrorRxSitingCriteria)
    ensures InputCode(a) == Success <==>
      && InBounds(a.hTx, a.hRx, a.p, a.f, a.pol, a.epsilon, a.sigma)
      && 0.0 < a.dKm && 0.0 <= a.deltaH && ValidSiting(a.txSiting) && ValidSiting(a.rxSiting)
  {
    ValidationSucceedsIffInBounds(a.hTx, a.hRx, a.p, a.f, a.pol, a.epsilon, a.sigma);
  }

  /** Area succeeds exactly when every input check passes and the ground impedance is
      accepted, and it reports SUCCESS_WITH_WARNINGS exactly when it succeeds with a
      flag set and SUCCESS exactly when it succeeds with none. */
  lemma AreaSucceedsIff(e: Externals, a: AreaInputs)
    ensures Succeeded(AreaCode(e, a)) <==>
      InputCode(a) == Success && LongleyRice.ImpedanceAccepted(Impedance(e, a))
    ensures AreaCode(e, a) == SuccessWithWarnings <==>
      Succeeded(AreaCode(e, a)) && AreaWarnings(e, a) != NoWarnings
    ensures AreaCode(e, a) == Success <==> Succeeded(AreaCode(e, a)) && AreaWarnings(e, a) == NoWarnings
  {
    ValidationCodeRange(a.hTx, a.hRx, a.p, a.f, a.pol, a.epsilon, a.sigma);
  }

  /** The warnings come from ValidateInputs and LongleyRice only; a prediction stopped
      by its input checks reports ValidateInputs' flags alone. */
  lemma AreaWarningsBounded(e: Externals, a: AreaInputs)
    ensures AreaWarnings(e, a) <= InputWarnings + HorizonWarnings + PathDistanceWarnings
    ensures InputCode(a) != Success ==> AreaWarnings(e, a) == SoftWarnings(a.hTx, a.hRx, a.f) <= InputWarnings
  {
    WarningsFollowEarlyReturns(a.hTx, a.hRx, a.f);
    var hE := EffectiveHeights(e, a);
    LongleyRice.PathFlagsNested(PathMeters(a), hE, HorizonAngles(e, a), HorizonDistances(e, a),
                                [QuickProfile.SmoothHorizon(e, hE[0]), QuickProfile.SmoothHorizon(e, hE[1])]);
  }

  /** Over smooth terrain (delta_h = 0) accepted inputs give exactly free-space loss
      plus the reference attenuation, so never less than free-space loss. */
  lemma SmoothTerrainLoss(e: Externals, a: AreaInputs)
    requires ExpPositive(e) && ExpAtMostOneBelowZero(e)
    requires InputCode(a) == Success && a.deltaH == 0.0
    ensures AreaLoss(e, a) == AreaFreeSpace(e, a) + AreaReference(e, a)
    ensures AreaLoss(e, a) >= AreaFreeSpace(e, a)
  {
    InputCodePrecedence(a);
    Variability.SmoothTerrainLoss(e, a.p, a.f, PathMeters(a), AreaReference(e, a));
  }
}
