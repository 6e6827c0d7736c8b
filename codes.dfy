/** The warning flags, return codes and enumerated values of the library,
    with the values the headers give them. */
module Codes {

  /** The flags of the `long` warning mask. */
  datatype Warning =
    | TxTerminalHeight | RxTerminalHeight | Frequency
    | PathDistanceTooBig1 | PathDistanceTooBig2 | PathDistanceTooSmall1 | PathDistanceTooSmall2
    | TxHorizonAngle | RxHorizonAngle
    | TxHorizonDistance1 | RxHorizonDistance1 | TxHorizonDistance2 | RxHorizonDistance2

  /** The bit each flag occupies in the mask. */
  function FlagBit(w: Warning): (b: bv32)
    ensures b != 0 && b & (b - 1) == 0
  {
    match w
    case TxTerminalHeight => 0x0001
    case RxTerminalHeight => 0x0002
    case Frequency => 0x0004
    case PathDistanceTooBig1 => 0x0008
    case PathDistanceTooBig2 => 0x0010
    case PathDistanceTooSmall1 => 0x0020
    case PathDistanceTooSmall2 => 0x0040
    case TxHorizonAngle => 0x0080
    case RxHorizonAngle => 0x0100
    case TxHorizonDistance1 => 0x0200
    case RxHorizonDistance1 => 0x0400
    case TxHorizonDistance2 => 0x0800
    case RxHorizonDistance2 => 0x1000
  }

  /** A warning mask, as the set of the flags whose bits are set. Since every flag has
      its own bit, OR-ing a flag in is adding it to the set, and the mask equals
      NO_WARNINGS exactly when the set is empty. */
  type Warnings = set<Warning>

  const NoWarnings: Warnings := {}

  /** The flags that only ValidateInputs sets. */
  const InputWarnings: Warnings := {TxTerminalHeight, RxTerminalHeight, Frequency}

  /** The four path-distance flags. */
  const PathDistanceWarnings: Warnings :=
    {PathDistanceTooBig1, PathDistanceTooBig2, PathDistanceTooSmall1, PathDistanceTooSmall2}

  /** The six horizon flags. */
  const HorizonWarnings: Warnings :=
    {TxHorizonAngle, RxHorizonAngle, TxHorizonDistance1, RxHorizonDistance1, TxHorizonDistance2, RxHorizonDistance2}

  /** Distinct flags occupy distinct bits, so the set model loses nothing. */
  lemma FlagBitsDistinct(a: Warning, b: Warning)
    ensures a != b ==> FlagBit(a) & FlagBit(b) == 0
  {
  }

  const Success: int := 0
  const SuccessWithWarnings: int := 1
  const ErrorTxTerminalHeight: int := 1000
  const ErrorRxTerminalHeight: int := 1001
  const ErrorInvalidPercentage: int := 1002
  const ErrorRefractivity: int := 1003
  const ErrorFrequency: int := 1004
  const ErrorPolarization: int := 1005
  const ErrorEpsilon: int := 1006
  const ErrorSigma: int := 1007
  const ErrorGroundImpedance: int := 1008
  const ErrorPathDistance: int := 1009
  const ErrorDeltaH: int := 1010
  const ErrorTxSitingCriteria: int := 1011
  const ErrorRxSitingCriteria: int := 1012

  const PolarizationHorizontal: int := 0
  const PolarizationVertical: int := 1

  const SitingCriteriaMobile: int := 0
  const SitingCriteriaFixed: int := 1

  const ModeNotSet: int := 0
  const ModeLineOfSight: int := 10
  const ModeDiffractionSingleHorizon: int := 20
  const ModeDiffractionDoubleHorizon: int := 21

  /** The code an orchestrator returns once every step has succeeded. */
  function SuccessCode(warnings: Warnings): (rtn: int)
    ensures rtn == SuccessWithWarnings <==> warnings != NoWarnings
    ensures rtn == Success <==> warnings == NoWarnings
  {
    if warnings != NoWarnings then SuccessWithWarnings else Success
  }
}
