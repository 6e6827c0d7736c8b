/** Input validation shared by the point-to-point and area modes: soft bounds that
    OR warning flags into the caller's mask, and hard bounds checked in a fixed order
    whose first failure is the returned error code. */
module Validation {
  import opened Codes

  /** One hard bound: whether it holds, and the error code raised when it does not. */
  datatype Check = Check(holds: bool, code: int)

  /** The hard bounds in the order ValidateInputs tests them. */
  function HardChecks(hTx: real, hRx: real, p: real, f: real, pol: int, epsilon: real, sigma: real): (cs: seq<Check>)
    ensures |cs| == 7
  {
    [ Check(0.5 <= hTx <= 3000.0, ErrorTxTerminalHeight),
      Check(0.5 <= hRx <= 3000.0, ErrorRxTerminalHeight),
      Check(20.0 <= f <= 20000.0, ErrorFrequency),
      Check(pol == PolarizationHorizontal || pol == PolarizationVertical, ErrorPolarization),
      Check(1.0 <= epsilon, ErrorEpsilon),
      Check(0.0 < sigma, ErrorSigma),
      Check(0.0 < p < 100.0, ErrorInvalidPercentage) ]
  }

  /** The code of the first failing check, or Success when every check holds. */
  function FirstFailure(cs: seq<Check>): (rtn: int)
    ensures (forall i | 0 <= i < |cs| :: cs[i].holds) ==> rtn == Success
    ensures forall i | 0 <= i < |cs| && !cs[i].holds && (forall j | 0 <= j < i :: cs[j].holds) :: rtn == cs[i].code
  {
    if |cs| == 0 then Success
    else if !cs[0].holds then cs[0].code
    else FirstFailure(cs[1..])
  }

  /** The error code ValidateInputs returns. */
  function ValidationCode(hTx: real, hRx: real, p: real, f: real, pol: int, epsilon: real, sigma: real): int
  {
    FirstFailure(HardChecks(hTx, hRx, p, f, pol, epsilon, sigma))
  }

  /** Every hard bound of ValidateInputs holds. */
  predicate InBounds(hTx: real, hRx: real, p: real, f: real, pol: int, epsilon: real, sigma: real) {
    0.5 <= hTx <= 3000.0 && 0.5 <= hRx <= 3000.0 && 20.0 <= f <= 20000.0
    && (pol == PolarizationHorizontal || pol == PolarizationVertical)
    && 1.0 <= epsilon && 0.0 < sigma && 0.0 < p < 100.0
  }

  /** The TX height flag: tested first, so always reached. */
  function TxHeightFlag(hTx: real): Warnings {
    if hTx < 1.0 || hTx > 1000.0 then {TxTerminalHeight} else NoWarnings
  }

  /** The RX height flag: reached only once the TX height passed its hard bound. */
  function RxHeightFlag(hTx: real, hRx: real): Warnings {
    if 0.5 <= hTx <= 3000.0 && (hRx < 1.0 || hRx > 1000.0) then {RxTerminalHeight} else NoWarnings
  }

  /** The frequency flag: reached only once both heights passed their hard bounds. */
  function FrequencyFlag(hTx: real, hRx: real, f: real): Warnings {
    if 0.5 <= hTx <= 3000.0 && 0.5 <= hRx <= 3000.0 && (f < 40.0 || f > 10000.0) then {Frequency} else NoWarnings
  }

  /** The flags ValidateInputs ORs in. */
  function SoftWarnings(hTx: real, hRx: real, f: real): Warnings
  {
    TxHeightFlag(hTx) + RxHeightFlag(hTx, hRx) + FrequencyFlag(hTx, hRx, f)
  }

  /** ValidateInputs: adds the soft-bound flags to `warningsIn` and returns the first
      hard-bound failure, or Success. */
  method ValidateInputs(hTx: real, hRx: real, p: real, f: real, pol: int, epsilon: real, sigma: real,
                        warningsIn: Warnings)
    returns (rtn: int, warnings: Warnings)
    ensures rtn == ValidationCode(hTx, hRx, p, f, pol, epsilon, sigma)
    ensures warnings == warningsIn + SoftWarnings(hTx, hRx, f)
  {
    ValidationPrecedence(hTx, hRx, p, f, pol, epsilon, sigma);
    ValidationSucceedsIffInBounds(hTx, hRx, p, f, pol, epsilon, sigma);
    warnings := warningsIn;
    if hTx < 1.0 || hTx > 1000.0 {
      warnings := warnings + {TxTerminalHeight};
    }
    assert warnings == warningsIn + TxHeightFlag(hTx);
    if hTx < 0.5 || hTx > 3000.0 {
      assert RxHeightFlag(hTx, hRx) == NoWarnings && FrequencyFlag(hTx, hRx, f) == NoWarnings;
      rtn := ErrorTxTerminalHeight;
      return;
    }
    if hRx < 1.0 || hRx > 1000.0 {
      warnings := warnings + {RxTerminalHeight};
    }
    assert warnings == warningsIn + TxHeightFlag(hTx) + RxHeightFlag(hTx, hRx);
    if hRx < 0.5 || hRx > 3000.0 {
      assert FrequencyFlag(hTx, hRx, f) == NoWarnings;
      rtn := ErrorRxTerminalHeight;
      return;
    }
    if f < 40.0 || f > 10000.0 {
      warnings := warnings + {Frequency};
    }
    assert warnings == warningsIn + SoftWarnings(hTx, hRx, f);
    if f < 20.0 || f > 20000.0 {
      rtn := ErrorFrequency;
      return;
    }
    if pol != PolarizationHorizontal && pol != PolarizationVertical {
      rtn := ErrorPolarization;
      return;
    }
    if epsilon < 1.0 {
      rtn := ErrorEpsilon;
      return;
    }
    if sigma <= 0.0 {
      rtn := ErrorSigma;
      return;
    }
    if p <= 0.0 || p >= 100.0 {
      rtn := ErrorInvalidPercentage;
      return;
    }
    rtn := Success;
  }

  /** SUCCESS is returned exactly when every hard bound holds. */
  lemma ValidationSucceedsIffInBounds(hTx: real, hRx: real, p: real, f: real, pol: int, epsilon: real, sigma: real)
    ensures ValidationCode(hTx, hRx, p, f, pol, epsilon, sigma) == Success
            <==> InBounds(hTx, hRx, p, f, pol, epsilon, sigma)
  {
    ValidationPrecedence(hTx, hRx, p, f, pol, epsilon, sigma);
  }

  /** The structural heights of the two terminals, TX first, as both modes pass them on. */
  function StructuralHeights(hTx: real, hRx: real): (s: seq<real>)
    ensures |s| == 2
  {
    [hTx, hRx]
  }

  /** ValidateInputs returns SUCCESS or one of its seven error codes, never
      SUCCESS_WITH_WARNINGS. */
  lemma ValidationCodeRange(hTx: real, hRx: real, p: real, f: real, pol: int, epsilon: real, sigma: real)
    ensures var rtn := ValidationCode(hTx, hRx, p, f, pol, epsilon, sigma);
      rtn in {Success, ErrorTxTerminalHeight, ErrorRxTerminalHeight, ErrorInvalidPercentage,
              ErrorFrequency, ErrorPolarization, ErrorEpsilon, ErrorSigma}
  {
    ValidationPrecedence(hTx, hRx, p, f, pol, epsilon, sigma);
    ValidationSucceedsIffInBounds(hTx, hRx, p, f, pol, epsilon, sigma);
  }

  /** The errors follow a fixed precedence: TX height, RX height, frequency,
      polarization, epsilon, sigma, percentage. */
  lemma ValidationPrecedence(hTx: real, hRx: real, p: real, f: real, pol: int, epsilon: real, sigma: real)
    ensures var rtn := ValidationCode(hTx, hRx, p, f, pol, epsilon, sigma);
      var tx, rx, fr := 0.5 <= hTx <= 3000.0, 0.5 <= hRx <= 3000.0, 20.0 <= f <= 20000.0;
      var po := pol == PolarizationHorizontal || pol == PolarizationVertical;
      && (!tx ==> rtn == ErrorTxTerminalHeight)
      && (tx && !rx ==> rtn == ErrorRxTerminalHeight)
      && (tx && rx && !fr ==> rtn == ErrorFrequency)
      && (tx && rx && fr && !po ==> rtn == ErrorPolarization)
      && (tx && rx && fr && po && epsilon < 1.0 ==> rtn == ErrorEpsilon)
      && (tx && rx && fr && po && 1.0 <= epsilon && sigma <= 0.0 ==> rtn == ErrorSigma)
      && (tx && rx && fr && po && 1.0 <= epsilon && 0.0 < sigma && !(0.0 < p < 100.0)
          ==> rtn == ErrorInvalidPercentage)
  {
    var cs := HardChecks(hTx, hRx, p, f, pol, epsilon, sigma);
    assert cs[0].code == ErrorTxTerminalHeight && cs[1].code == ErrorRxTerminalHeight;
    assert cs[2].code == ErrorFrequency && cs[3].code == ErrorPolarization;
    assert cs[4].code == ErrorEpsilon && cs[5].code == ErrorSigma && cs[6].code == ErrorInvalidPercentage;
  }

  /** The hard height bound is closed at 0.5 m; the soft one sets no flag at 1.0 m
      and sets the flag for anything below. */
  lemma HeightBoundaries(hTx: real, hRx: real, p: real, f: real, pol: int, epsilon: real, sigma: real)
    ensures hTx == 0.5 ==> ValidationCode(hTx, hRx, p, f, pol, epsilon, sigma) != ErrorTxTerminalHeight
    ensures hTx < 0.5 ==> ValidationCode(hTx, hRx, p, f, pol, epsilon, sigma) == ErrorTxTerminalHeight
    ensures hTx == 1.0 ==> TxTerminalHeight !in SoftWarnings(hTx, hRx, f)
    ensures hTx < 1.0 ==> TxTerminalHeight in SoftWarnings(hTx, hRx, f)
  {
    ValidationPrecedence(hTx, hRx, p, f, pol, epsilon, sigma);
  }

  /** Because of the early returns, the RX height flag is raised only once the TX
      height passed its hard bound, and the frequency flag only once both did. */
  lemma WarningsFollowEarlyReturns(hTx: real, hRx: real, f: real)
    ensures RxTerminalHeight in SoftWarnings(hTx, hRx, f)
            <==> 0.5 <= hTx <= 3000.0 && (hRx < 1.0 || hRx > 1000.0)
    ensures Frequency in SoftWarnings(hTx, hRx, f)
            <==> 0.5 <= hTx <= 3000.0 && 0.5 <= hRx <= 3000.0 && (f < 40.0 || f > 10000.0)
    ensures SoftWarnings(hTx, hRx, f) <= InputWarnings
  {
  }

  /** Flags are ORed in: no existing bit is cleared, and only the three input flags
      can be added. */
  lemma WarningsOnlyAdded(warningsIn: Warnings, hTx: real, hRx: real, f: real)
    ensures var w := warningsIn + SoftWarnings(hTx, hRx, f);
      && warningsIn <= w
      && w - InputWarnings == warningsIn - InputWarnings
  {
    WarningsFollowEarlyReturns(hTx, hRx, f);
  }

  /** The percentage bound is open at both ends, and a zero conductivity is rejected. */
  lemma OpenPercentageAndSigmaBounds(hTx: real, hRx: real, f: real, pol: int, epsilon: real)
    requires 0.5 <= hTx <= 3000.0 && 0.5 <= hRx <= 3000.0 && 20.0 <= f <= 20000.0
    requires pol == PolarizationHorizontal || pol == PolarizationVertical
    requires 1.0 <= epsilon
    ensures ValidationCode(hTx, hRx, 0.0, f, pol, epsilon, 1.0) == ErrorInvalidPercentage
    ensures ValidationCode(hTx, hRx, 100.0, f, pol, epsilon, 1.0) == ErrorInvalidPercentage
    ensures forall p :: ValidationCode(hTx, hRx, p, f, pol, epsilon, 0.0) == ErrorSigma
  {
    ValidationPrecedence(hTx, hRx, 0.0, f, pol, epsilon, 1.0);
    ValidationPrecedence(hTx, hRx, 100.0, f, pol, epsilon, 1.0);
    forall p {
      ValidationPrecedence(hTx, hRx, p, f, pol, epsilon, 0.0);
    }
  }
}
