# Irregular Lunar Model: a verified Dafny model of its propagation core

The Irregular Lunar Model (ILM) predicts the basic transmission loss of a radio path
over the surface of the Moon. It is the Longley-Rice irregular-terrain model with the
Moon's radius in place of the Earth's. Two entry points share one engine:

- point-to-area mode (`Area`, `Area_Ex`) derives the terminal geometry statistically
  from the siting criteria and a terrain irregularity parameter delta_h;
- point-to-point mode (`PointToPoint`, `PointToPoint_Ex`) extracts the geometry and
  delta_h from an elevation profile in PFL format (`pfl[0]` intervals, spacing `pfl[1]`,
  elevations from `pfl[2]`).

Both modes validate their inputs, compute the reference attenuation with the
Longley-Rice state machine (line-of-sight and diffraction losses, the curve fit that
stitches the regimes together, the propagation mode, the clamp at 0), add free-space loss
and the location variability, return an error code and a set of warning flags, and save
a record of intermediate values.

The model follows the source file by file, one Dafny module each:

| module | file | source |
|---|---|---|
| `Numerics` | numerics.dfy | MAX/MIN/DIM, constants, `int()` truncation, complex numbers, TerrainRoughness, the external functions |
| `Codes` | codes.dfy | the error and warning codes |
| `Validation` | validate_inputs.dfy | ValidateInputs |
| `Horizons` | find_horizons.dfy | FindHorizons |
| `OrderStatistics` | order_statistics.dfy | the `std::nth_element` calls of ComputeDeltaH |
| `DeltaH` | compute_delta_h.dfy | ComputeDeltaH |
| `QuickProfile` | quick_pfl.dfy | QuickPfl |
| `AreaTerminals` | initialize_area.dfy | InitializeArea |
| `Diffraction` | diffraction_loss.dfy | DiffractionLoss |
| `LineOfSight` | line_of_sight_loss.dfy | LineOfSightLoss |
| `LongleyRice` | longley_rice.dfy | LongleyRice |
| `Variability` | variability.dfy | Variability, and the loss both modes return |
| `Intermediate` | intermediate_values.dfy | the IntermediateValues record |
| `AreaMode` | ilm_area.dfy | Area, Area_Ex |
| `PointToPointMode` | ilm_p2p.dfy | PointToPoint, PointToPoint_Ex |

The routines that fill arrays in place (FindHorizons, the resampling buffer of
ComputeDeltaH, QuickPfl, InitializeArea) are methods over Dafny arrays. Each is proved
against a specification function on sequences, and the properties are proved as lemmas
about that function. DiffractionLoss, LineOfSightLoss and Variability are functions.
`IntermediateValues` is a class whose fields the two modes write in two steps.

Everything outside the core is a parameter. These are the transcendental functions,
FreeSpaceLoss, the ground impedance of InitializePointToPoint, the knife-edge and
smooth-Moon diffraction, the inverse complementary normal CDF and the linear
least-squares fit. They are fields of a datatype `Externals` of function values.
Properties of these functions that a proof needs (exp is positive, sqrt is exact, pow is
positive, and so on) are predicates over `Externals` taken as preconditions. A division
whose divisor is not provably nonzero goes through `Quot`, which hands `x / 0` to the
external `divByZero`.

The propagation mode follows the code: it is classified by `int(d - d_L)`, a truncation
toward zero. A path that falls short of the combined horizon distance d_L, or passes
it, by less than one meter therefore counts as single-horizon diffraction
(src/LongleyRice.cpp:194-197). The model does not classify by the sign of d - d_L.

## Model

| member | source | states |
|---|---|---|
| Codes.FlagBit | include/Warnings.h:11-71 | each warning flag has the bit value the header gives it, and that value is a single bit |
| Codes.FlagBitsDistinct | include/Warnings.h:11-71 | two different flags never share a bit, so a mask is faithfully the set of its flags |
| Validation.FirstFailure | src/ValidateInputs.cpp:33-61 | the code returned is that of the first failing hard check in test order, and SUCCESS when every check holds |
| Validation.ValidateInputs | src/ValidateInputs.cpp:27-62 | the method returns the first hard-bound failure and adds to the caller's mask exactly the soft flags whose tests are reached before an early return |
| Validation.ValidationSucceedsIffInBounds | src/ValidateInputs.cpp:33-61 | SUCCESS is returned if and only if all seven hard bounds hold |
| Validation.ValidationCodeRange | src/ValidateInputs.cpp:33-61 | validation returns SUCCESS or one of exactly its seven error codes (TX height, RX height, percentage, frequency, polarization, epsilon, sigma); never SUCCESS_WITH_WARNINGS and never another error such as ERROR__REFRACTIVITY |
| Validation.ValidationPrecedence | src/ValidateInputs.cpp:33-59 | the errors follow the fixed order TX height, RX height, frequency, polarization, epsilon, sigma, percentage |
| Validation.HeightBoundaries | src/ValidateInputs.cpp:30-34 | the hard height bound is closed at 0.5 m, and the soft bound flags heights below 1 m but not 1 m itself |
| Validation.WarningsFollowEarlyReturns | src/ValidateInputs.cpp:30-46 | the RX height flag is set exactly when the TX height passed its hard bound and the RX height is outside its soft bound; the frequency flag likewise needs both heights to pass; only the three input flags are set |
| Validation.WarningsOnlyAdded | src/ValidateInputs.cpp:31-43 | flags are ORed in: no flag already in the mask is cleared and no flag other than the three input flags is added |
| Validation.OpenPercentageAndSigmaBounds | src/ValidateInputs.cpp:55-59 | a percentage of 0 or 100 is rejected, and so is a conductivity of 0 |
| Horizons.ProperPathDistance | src/FindHorizons.cpp:34-37 | on a profile with at least one interval and a positive spacing the path distance pfl[0] * pfl[1] is positive |
| Horizons.ScanSelectsFirstMaximum | src/FindHorizons.cpp:66-76 | the strict-comparison scan returns a horizon of maximal angle, and when it left its start, the earliest candidate of that angle |
| Horizons.Offer | src/FindHorizons.cpp:66-76 | a candidate replaces the horizon of one terminal exactly when its angle is strictly higher, and the other terminal's horizon is untouched |
| Horizons.TxScannedIsScan | src/FindHorizons.cpp:58-77 | after n interior samples the TX horizon is the scan of its start over the first n TX candidates |
| Horizons.RxScannedIsScan | src/FindHorizons.cpp:58-77 | after n interior samples the RX horizon is the scan of its start over the first n RX candidates |
| Horizons.HorizonsAreScans | src/FindHorizons.cpp:58-77 | each computed horizon is the scan of its start over all its candidates in path order |
| Horizons.ScanSample | src/FindHorizons.cpp:60-76 | one loop iteration advances both horizons by exactly one sample |
| Horizons.FindHorizons | src/FindHorizons.cpp:28-78 | the method leaves in the two output arrays the TX and RX horizons of the specification scan, from the endpoint-to-endpoint start over samples 1 .. np-1 |
| Horizons.HorizonsStartAtPathDistance | src/FindHorizons.cpp:47-51 | both horizons start at the path distance |
| Horizons.TxHorizonIsMaximum | src/FindHorizons.cpp:47-77 | the TX horizon angle is at least the endpoint angle and every interior sample's angle, and the horizon is the start or one of the samples |
| Horizons.RxHorizonIsMaximum | src/FindHorizons.cpp:48-77 | the RX horizon angle is at least the endpoint angle and every interior sample's angle, and the horizon is the start or one of the samples |
| Horizons.TxHorizonIsFirstMaximum | src/FindHorizons.cpp:66-70 | when the TX horizon moved off its start it sits at the first interior sample of maximal angle, because ties do not replace |
| Horizons.RxHorizonIsFirstMaximum | src/FindHorizons.cpp:72-76 | when the RX horizon moved off its start it sits at the first sample of maximal angle in scan order |
| Horizons.CandidateDistancesInside | src/FindHorizons.cpp:53-61 | every interior sample lies strictly inside the path as seen from either terminal |
| Horizons.HorizonDistancesInRange | src/FindHorizons.cpp:50-77 | on a proper profile both horizon distances lie in (0, d] |
| DeltaH.P10 | src/ComputeDeltaH.cpp:54-55 | the 10% rank int(0.1 (span + 8)) is clamped to [4, 25] |
| DeltaH.BucketBounds | src/ComputeDeltaH.cpp:39-59 | the clamp keeps n = 10 p10 - 5 in [35, 245], so header and samples fit the 247-slot buffer, and both ranks are valid with p10 - 1 < p90 < n |
| DeltaH.WalkIndexMonotone | src/ComputeDeltaH.cpp:71-75 | the index the resampling walk rests on never moves backwards as the position grows |
| DeltaH.WalkStaysInProfile | src/ComputeDeltaH.cpp:66-77 | the walk rests only on indices from int(x_start) to np - 1, so each read of pfl[i + 2] and pfl[i + 3] is inside the profile |
| DeltaH.BufferLayout | src/ComputeDeltaH.cpp:39-77 | the resampling buffer holds the header n - 1 and 1, then the samples, then zeros |
| DeltaH.BufferFromLayout | src/ComputeDeltaH.cpp:39-77 | any 247-slot sequence with that header, those samples and zeros is that buffer |
| DeltaH.ResampledAt | src/ComputeDeltaH.cpp:65-80 | sample j of the window is the linear interpolation at x_start + j step from the index the walk rests on |
| DeltaH.BufferHeader | src/ComputeDeltaH.cpp:61-77 | the window's buffer carries the PFL header s[0] = n - 1 and s[1] = 1, then the resampled elevations, then zeros |
| DeltaH.Advance | src/ComputeDeltaH.cpp:71-75 | the inner while loop moves the index forward to the one the position calls for, never past np - 1, without changing the position i + 1 + x_start |
| DeltaH.WalkIndexStep | src/ComputeDeltaH.cpp:69-80 | advancing from the index of an earlier position reaches the index of the later one |
| DeltaH.Resample | src/ComputeDeltaH.cpp:39-80 | the resampling loop fills a fresh 247-slot buffer with the header and the n interpolated samples at x_start, x_start + step, ... |
| DeltaH.FitResiduals | src/ComputeDeltaH.cpp:82-100 | the residual loop yields sample j minus the fitted line's value after j slope steps, for every j < n |
| DeltaH.SelectRanks | src/ComputeDeltaH.cpp:102-116 | the two nth_element calls read the values at p10 - 1 and at p90, the second applied to the first's arrangement |
| DeltaH.WindowQuantiles | src/ComputeDeltaH.cpp:57-116 | resampling, residuals and selection of a long window give the 10% and 90% rank values of its residuals |
| DeltaH.ComputeDeltaH | src/ComputeDeltaH.cpp:33-124 | the method returns delta_h as specified: 0 for a window shorter than two intervals, otherwise the rank spread over 1 - 0.8 exp(-(d_end - d_start) / 50 km) |
| DeltaH.LongWindowDeltaH | src/ComputeDeltaH.cpp:54-123 | past the short-window return the method computes the corrected rank spread |
| DeltaH.DeltaHFromQuantiles | src/ComputeDeltaH.cpp:118-121 | past the short-window case delta_h is the quantile spread divided by the window correction |
| DeltaH.ShortWindowIsFlat | src/ComputeDeltaH.cpp:50-51 | a window shorter than two profile intervals gives delta_h = 0 |
| DeltaH.QuantilesAreRanks | src/ComputeDeltaH.cpp:102-118 | q10 is the p10-th largest residual and q90 the (p90 + 1)-th largest, whatever arrangement the first nth_element leaves, so q10 >= q90 |
| DeltaH.LongWindowIsForward | src/ComputeDeltaH.cpp:44-50 | a window of at least two intervals on a positive spacing has d_end > d_start |
| DeltaH.WindowCorrectionBounds | src/ComputeDeltaH.cpp:121 | for a forward window the correction lies in [0.2, 1) |
| DeltaH.DeltaHNonNegative | src/ComputeDeltaH.cpp:50-123 | on a proper profile delta_h is never negative |
| OrderStatistics.InsertKeepsDescending | src/ComputeDeltaH.cpp:102-116 | inserting into a descending sequence keeps it descending and adds exactly the inserted value to its multiset |
| OrderStatistics.SortDescending | src/ComputeDeltaH.cpp:102-116 | the reference ordering under std::greater: a descending permutation of its input |
| OrderStatistics.DescendingPermutationsEqual | src/ComputeDeltaH.cpp:102-116 | two descending arrangements of the same multiset are equal, so the ordering a rank refers to is unique |
| OrderStatistics.NthElement | src/ComputeDeltaH.cpp:102-116 | the arrangement nth_element leaves is a permutation whose elements before k are not smaller and after k not larger than the one at k |
| OrderStatistics.NthElementValue | src/ComputeDeltaH.cpp:102-116 | in every arrangement nth_element may leave, the element at k is the (k+1)-th largest of the input |
| OrderStatistics.KthLargestMonotone | src/ComputeDeltaH.cpp:108-116 | a smaller rank never selects a smaller value |
| QuickProfile.RescaledHeights | src/QuickPfl.cpp:101-114 | the line-of-sight heights are rescaled by (d / combined)^2 exactly when the combined rough horizons do not reach the path distance, and kept otherwise |
| QuickProfile.LineOfSightTerrain | src/QuickPfl.cpp:83-121 | the line-of-sight regime yields two horizon angles, distances and heights, the horizons re-derived from the final heights |
| QuickProfile.FarTerrain | src/QuickPfl.cpp:122-142 | the far-horizon regime keeps the scanned horizons and yields two effective heights from the two end fits |
| QuickProfile.FitStartBounds | src/QuickPfl.cpp:72 | the fit window starts after the TX end and within the first 10% of the path |
| QuickProfile.FitStartInProfile | src/QuickPfl.cpp:72-81 | so the delta_h window starts inside the profile |
| QuickProfile.RegimeTerrain | src/QuickPfl.cpp:83-142 | the regime is chosen by whether the scanned horizons add up to more than 1.5 d |
| QuickProfile.QuickPflSpec | src/QuickPfl.cpp:39-143 | the terrain parameters QuickPfl produces, two per terminal |
| QuickProfile.QuickPflFromStages | src/QuickPfl.cpp:54-142 | the path distance, the scanned horizons, the fit window, delta_h and the selected regime's output together are the QuickPfl result |
| QuickProfile.SetRoughHorizons | src/QuickPfl.cpp:101-102 | the first loop sets both horizon distances to sqrt(2 h_e a) exp(-0.07 sqrt(delta_h / max(h_e, 5))) |
| QuickProfile.RescaleHeights | src/QuickPfl.cpp:109-113 | the rescale loop multiplies both heights by q and re-derives both horizon distances from the new heights |
| QuickProfile.SetHorizonAngles | src/QuickPfl.cpp:116-120 | the last loop sets both horizon angles to (0.65 delta_h (q / d_hzn - 1) - 2 h_e) / q with q = sqrt(2 h_e a) |
| QuickProfile.LineOfSightBranch | src/QuickPfl.cpp:90-120 | the line-of-sight branch leaves in the three arrays exactly the line-of-sight regime's values |
| QuickProfile.FarBranch | src/QuickPfl.cpp:124-141 | the far-horizon branch writes both effective heights from their own fits |
| QuickProfile.QuickPfl | src/QuickPfl.cpp:39-143 | the method's outputs (arrays, delta_h and d) are exactly the specified terrain parameters |
| QuickProfile.FitWindowInsidePath | src/QuickPfl.cpp:71-75 | the fit window starts within the first 10% of the path and ends within the last 10%, so it is never empty |
| QuickProfile.RescaleFactorAtLeastOne | src/QuickPfl.cpp:105-107 | the rescale factor (d / combined)^2 is at least 1 when the combined horizons do not reach d |
| QuickProfile.RoughHorizonSign | src/QuickPfl.cpp:102 | a rough horizon distance is nonnegative, and positive for a positive effective height |
| QuickProfile.RescaledNotLower | src/QuickPfl.cpp:111 | multiplying a nonnegative height by a factor of at least 1 never lowers it |
| QuickProfile.RescaledHeightsNotLower | src/QuickPfl.cpp:105-114 | the one-shot rescale never lowers an effective height |
| QuickProfile.RegimeHeightsAtLeastStructural | src/QuickPfl.cpp:98-141 | in either regime no effective height is below its structural height |
| QuickProfile.EffectiveHeightsAtLeastStructural | src/QuickPfl.cpp:98-141 | the effective heights QuickPfl produces are never below the structural heights |
| QuickProfile.RegimeHorizons | src/QuickPfl.cpp:83-142 | above 1.5 d the horizons are re-derived from the final heights; otherwise the scanned horizons are kept |
| AreaTerminals.InitializeTerminal | src/InitializeArea.cpp:30-57 | one loop iteration yields the terminal's effective height, horizon distance and horizon angle as AreaTerminal defines them |
| AreaTerminals.InitializeArea | src/InitializeArea.cpp:25-59 | each terminal's outputs depend only on its own siting criterion and height and on delta_h, as AreaTerminal defines them |
| AreaTerminals.MobileKeepsStructuralHeight | src/InitializeArea.cpp:30-34 | a mobile terminal's effective height is its structural height |
| AreaTerminals.FixedSitingFactor | src/InitializeArea.cpp:35-48 | any other siting criterion is treated as fixed; from 5 m up its factor B is 10 |
| AreaTerminals.SitingFactorPositive | src/InitializeArea.cpp:38-44 | the siting factor B is positive for positive heights |
| AreaTerminals.FixedSitingRaisesHeight | src/InitializeArea.cpp:47 | under fixed siting a positive structural height is strictly raised |
| AreaTerminals.RoughnessFactorBelowOne | src/InitializeArea.cpp:54 | over rough terrain the factor exp(-0.07 sqrt(delta_h / max(h_e, 5))) lies strictly between 0 and 1 |
| AreaTerminals.SmoothHorizonPositive | src/InitializeArea.cpp:51 | the smooth-surface horizon sqrt(2 h_e a) is positive for a positive effective height |
| AreaTerminals.RoughHorizonShortened | src/InitializeArea.cpp:51-54 | the rough horizon is the smooth one shortened by a factor below 1 |
| AreaTerminals.RoughHorizonBelowSmooth | src/InitializeArea.cpp:51-54 | over rough terrain the horizon distance is positive and nearer than the smooth-surface one |
| AreaTerminals.RoughnessTermPositive | src/InitializeArea.cpp:57 | the term 0.65 delta_h (d_ls / d_l - 1) is positive over rough terrain |
| AreaTerminals.AngleAboveSmoothForPositiveTerm | src/QuickPfl.cpp:119 | the angle of equation A-10 with a positive roughness term lies above -2 h_e / d_ls |
| AreaTerminals.AsWrittenBelowSmoothForPositiveTerm | src/InitializeArea.cpp:57 | the angle as written, with a positive roughness term, lies below -2 h_e / d_ls |
| AreaTerminals.CorrectedAngleAboveSmooth | src/InitializeArea.cpp:57 | with the angle of equation A-10 roughness raises each horizon angle above the smooth-surface angle |
| AreaTerminals.AsWrittenAngleBelowSmooth | src/InitializeArea.cpp:57 | the angle as written drops below the smooth-surface angle, so it differs from equation A-10 whenever delta_h > 0 |
| Diffraction.RoughnessFrequencyFactor | src/DiffractionLoss.cpp:38 | the capped factor never exceeds 1000 nor the uncapped delta_h_d f / 47.7; for nonnegative roughness and frequency it is nonnegative and vanishes exactly when delta_h_d f = 0 (smooth terrain or f = 0) |
| Diffraction.DiffractionWeightInUnitInterval | src/DiffractionLoss.cpp:41 | for q >= 0 the weight 1 / (1 + 0.1 sqrt(q)) lies in (0, 1], and it is 1 exactly when q = 0 |
| Diffraction.DiffractionLossIsBlend | src/DiffractionLoss.cpp:29-44 | the diffraction loss is the blend w A_r + (1 - w) A_k of the smooth-Moon and knife-edge losses |
| Diffraction.DiffractionLossBetweenLimits | src/DiffractionLoss.cpp:26-47 | with a nonnegative roughness parameter the loss lies between the knife-edge and smooth-Moon losses, and equals the smooth-Moon loss when the parameter is 0 |
| Diffraction.SmoothTerrainGivesSmoothMoonLoss | src/DiffractionLoss.cpp:33-44 | over smooth terrain the diffraction loss is the smooth-Moon loss alone |
| LineOfSight.SinPsiInUnitInterval | src/LineOfSightLoss.cpp:35 | for a path of positive length between heights of positive sum, sin psi lies in (0, 1) |
| LineOfSight.FloorReachesSinPsi | src/LineOfSightLoss.cpp:41-43 | when the floor applies the rescaled reflection coefficient has squared magnitude exactly sin psi, and otherwise the coefficient is unchanged |
| LineOfSight.PhaseSaturation | src/LineOfSightLoss.cpp:46-50 | a phase above pi/2 is mapped into (pi/2, pi), strictly nearer to pi/2 than before; smaller phases pass unchanged |
| LineOfSight.LineOfSightWeightInUnitInterval | src/LineOfSightLoss.cpp:60-62 | the divisor max(10 km, d_ls) is at least 10 km and the two-ray weight lies in (0, 1], being 1 exactly when k delta_h = 0 |
| LineOfSight.LineOfSightLossBetween | src/LineOfSightLoss.cpp:22-68 | the line-of-sight loss lies between the extrapolated diffraction line and the two-ray loss, and over smooth terrain it is the two-ray loss |
| Variability.SigmaBounds | src/Variability.cpp:34 | for k delta_h_d >= 0 the location sigma lies in [0, 10), and it is 0 exactly when k delta_h_d is |
| Variability.PathSigmaBounds | src/Variability.cpp:28-34 | at nonnegative frequency, distance and delta_h the path's sigma lies in [0, 10), and it is 0 over smooth terrain |
| Variability.ClampBounds | src/Variability.cpp:43-44 | the clamp keeps a nonnegative attenuation and pulls a negative one strictly toward 0 without changing its sign |
| Variability.VariabilityBounds | src/Variability.cpp:23-47 | the result is A_ref + sigma z when that is nonnegative and strictly between it and 0 otherwise; over smooth terrain only A_ref is clamped |
| Variability.LossAboveFreeSpaceIff | src/ilm_area.cpp:122-124 | the returned loss is at least the free-space loss exactly when A_ref + sigma z is nonnegative, equals free space plus that value then, and otherwise exceeds free space by a value strictly between it and 0 |
| Variability.SmoothTerrainLoss | src/ilm_p2p.cpp:100-102 | over smooth terrain a nonnegative reference attenuation is added to free-space loss unchanged, whatever the location percentage |
| LongleyRice.PropagationMode | src/LongleyRice.cpp:193-197 | with C++ truncation of d - d_l toward zero: line of sight exactly when d - d_l <= -1, single-horizon diffraction exactly when -1 < d - d_l < 1, double-horizon exactly when d - d_l >= 1 |
| LongleyRice.LongleyRice | src/LongleyRice.cpp:40-203 | the horizon flags are always added and the path flags only past the impedance check; an impedance whose real part does not exceed the magnitude of its imaginary part gives ERROR__GROUND_IMPEDANCE with A_ref and propmode untouched; otherwise SUCCESS, A_ref = max(unclamped attenuation, 0) >= 0 and the mode of int(d - d_l) |
| LongleyRice.ReferenceAttenuation | src/LongleyRice.cpp:78-200 | past the impedance check the method adds the path flags, returns the clamped attenuation of the path's region and the propagation mode |
| LongleyRice.UnclampedFromFit | src/LongleyRice.cpp:111-190 | the line-of-sight curve below d_ls and the diffraction line beyond it make up the unclamped attenuation |
| LongleyRice.SetPropagationMode | src/LongleyRice.cpp:193-197 | the mode assignment computes PropagationMode |
| LongleyRice.AddHorizonFlags | src/LongleyRice.cpp:58-72 | the six horizon checks add exactly the horizon flags whose conditions hold |
| LongleyRice.AddPathFlags | src/LongleyRice.cpp:100-109 | the four path-distance checks add exactly the path flags whose conditions hold |
| LongleyRice.SubHorizon | src/LongleyRice.cpp:111-185 | the sub-horizon branch computes the line-of-sight curve at d from the transition points and the selected rates |
| LongleyRice.FitRates | src/LongleyRice.cpp:137-180 | the flag and the fallbacks that reassign kHat_1 and kHat_2 settle on the rates Rates defines |
| LongleyRice.LineThroughTwoPoints | src/LongleyRice.cpp:96-98 | the line with slope (y4 - y3) / (x4 - x3) and intercept y3 - m x3 passes through both points |
| LongleyRice.XaePositive | src/LongleyRice.cpp:83 | at a positive frequency X_ae is positive |
| LongleyRice.DiffractionLineThroughFitPoints | src/LongleyRice.cpp:83-98 | d_4 - d_3 = 2.7574 X_ae > 0, and the fitted diffraction line passes through (d_3, A_3) and (d_4, A_4) |
| LongleyRice.CurvePassesThroughSmoothHorizon | src/LongleyRice.cpp:182-185 | the line-of-sight curve passes through (d_ls, A_2) whatever its rates |
| LongleyRice.SubHorizonMeetsDiffractionLine | src/LongleyRice.cpp:111-190 | the reference attenuation is continuous at d_ls: the sub-horizon formula there gives the diffraction line's value |
| LongleyRice.TransitionPointsOrdered | src/LongleyRice.cpp:122-135 | in case 1 with d_l > 0, d_0 <= d_l / 2 and d_0 < d_1 < d_l, so the two-term fit is always tried; otherwise d_1 >= d_l / 4 |
| LongleyRice.LogRateNonNegative | src/LongleyRice.cpp:151-176 | with 0 < d_0 < d_ls the logarithmic rate kHat_2 is never negative |
| LongleyRice.LinearFitFallback | src/LongleyRice.cpp:173-180 | the linear fit sets kHat_2 = 0 and falls back to m_d exactly when its rate DIM(A_2, A_1) / (d_ls - d_1) is 0; a rising fit gives a positive rate |
| LongleyRice.TwoTermFitFallback | src/LongleyRice.cpp:158-169 | a negative two-term linear rate is dropped to 0; when also A_2 <= A_0 the logarithmic rate is 0 and the linear rate falls back to m_d, otherwise the logarithmic rate is positive |
| LongleyRice.PathFlagsNested | src/LongleyRice.cpp:58-109 | each path flag is raised exactly at its bound, a path beyond 2000 km raises both TOO_BIG flags, and the path and horizon checks raise only their own flags |
| LongleyRice.AsWrittenRoughnessParameterNegative | src/LongleyRice.cpp:91-93 | with d_ls passed as theta_los, mobile terminals over rough terrain and d + d_l < d_ls a give a negative roughness parameter, whose square root is then taken |
| LongleyRice.CorrectedRoughnessParameterNonNegative | src/LongleyRice.cpp:56 | with theta_e passed as theta_los the roughness parameter is never negative |
| LongleyRice.CorrectedDiffractionLossBetweenLimits | src/LongleyRice.cpp:56-93 | with theta_e the diffraction losses the fit samples lie between the knife-edge and smooth-Moon losses at every positive distance |
| Numerics.TerrainRoughnessBounds | src/TerrainRoughness.cpp:15-19 | over a nonnegative distance delta_h_d lies in [0.2 delta_h, delta_h) for rough terrain and is 0 for smooth terrain |
| Intermediate.IntermediateValues.SetDistance | src/ilm_area.cpp:104 | writes the path distance in km and leaves every other saved value as it was |
| Intermediate.IntermediateValues.Record | src/ilm_area.cpp:127-136 | saves A_ref, A_fs, delta_h, both horizon distances, effective heights and horizon angles and the mode, and leaves the path distance as it was |
| AreaMode.AreaGeometry | src/ilm_area.cpp:114 | the horizon angles, horizon distances and effective heights InitializeArea writes for the two terminals are those of the model's terminal geometry |
| AreaMode.Reference | src/ilm_area.cpp:112-120 | LongleyRice over the derived geometry returns SUCCESS exactly when the ground impedance is accepted, adds exactly the horizon and path flags, and on success yields the clamped reference attenuation and the propagation mode |
| AreaMode.CodeFromLongleyRice | src/ilm_area.cpp:118-141 | once the input checks have passed, a LongleyRice error is Area's return code and a LongleyRice success becomes SUCCESS or SUCCESS_WITH_WARNINGS from the accumulated flags |
| AreaMode.Predict | src/ilm_area.cpp:110-141 | past the input checks: the return code and warnings are Area's; on success the loss is free-space loss plus the variability-adjusted reference attenuation at p / 100 and every intermediate value is saved; on error nothing but the code and warnings changes |
| AreaMode.AreaEx | src/ilm_area.cpp:76-142 | warnings start empty; the code is the first failing input check, else LongleyRice's error, else SUCCESS or SUCCESS_WITH_WARNINGS; A__db is written only on success; d__km is saved once the inputs pass and the other intermediate values once the prediction succeeds |
| AreaMode.Area | src/ilm_area.cpp:37-45 | the same code, warnings and loss as Area_Ex, with intermediate values the caller never sees |
| AreaMode.InputCodePrecedence | src/ilm_area.cpp:83-100 | the input checks fail in the source's order (ValidateInputs, path distance <= 0, delta_h < 0, TX siting, RX siting) and pass exactly when every bound holds |
| AreaMode.AreaSucceedsIff | src/ilm_area.cpp:83-141 | Area succeeds exactly when every input check passes and the ground impedance is accepted; it reports SUCCESS_WITH_WARNINGS exactly when it succeeds with a flag set and SUCCESS exactly when it succeeds with none, the choice Codes.SuccessCode makes at lines 138-141 |
| AreaMode.AreaWarningsBounded | src/ilm_area.cpp:80-141 | the reported flags are among ValidateInputs' and LongleyRice's; when an input check fails they are ValidateInputs' flags alone |
| AreaMode.SmoothTerrainLoss | src/ilm_area.cpp:122-124 | over smooth terrain the loss is exactly free-space loss plus A_ref, hence never below free-space loss |
| PointToPointMode.P2PTerrain | src/ilm_p2p.cpp:90-91 | QuickPfl yields two horizon angles, two horizon distances and two effective heights |
| PointToPointMode.TenPercentBounds | src/ilm_p2p.cpp:80 | p10 = int(0.1 np) is nonnegative and at most half of np, so the averaging window is never empty |
| PointToPointMode.AveragePathHeight | src/ilm_p2p.cpp:79-86 | the loop over i = p10 .. np - p10 adds the elevations pfl[i + 2] one by one and divides by np - 2 p10 + 1, giving the mean elevation of that window |
| PointToPointMode.WindowSumBounds | src/ilm_p2p.cpp:83-84 | bounds on every summed elevation bound the running sum by the count times the bound |
| PointToPointMode.MeanBetween | src/ilm_p2p.cpp:86 | a sum of c terms within [low, high] divided by c lies within [low, high] |
| PointToPointMode.WindowMeanBetween | src/ilm_p2p.cpp:83-86 | the mean of a run of elevations lies between any bounds that hold for all of them |
| PointToPointMode.AverageHeightBetween | src/ilm_p2p.cpp:79-86 | the divisor is the number of elevations added and at least 1, and h_sys lies between the lowest and highest elevation of the window |
| PointToPointMode.ExtractTerrain | src/ilm_p2p.cpp:90-91 | QuickPfl through its output arrays returns the terrain parameters of the profile's specification |
| PointToPointMode.Reference | src/ilm_p2p.cpp:88-98 | LongleyRice over the extracted terrain returns SUCCESS exactly when the ground impedance is accepted, adds exactly the horizon and path flags, and on success yields the clamped reference attenuation and the propagation mode |
| PointToPointMode.CodeFromLongleyRice | src/ilm_p2p.cpp:96-119 | once ValidateInputs has accepted the inputs, a LongleyRice error is PointToPoint's return code and a LongleyRice success becomes SUCCESS or SUCCESS_WITH_WARNINGS from the accumulated flags |
| PointToPointMode.Predict | src/ilm_p2p.cpp:88-119 | past ValidateInputs: the return code and warnings are PointToPoint's; on success the loss is free-space loss plus the variability-adjusted reference attenuation at p / 100 and every intermediate value is saved; on error nothing but the code and warnings changes |
| PointToPointMode.PointToPointEx | src/ilm_p2p.cpp:55-120 | warnings start empty; the code is ValidateInputs' error, else LongleyRice's error, else SUCCESS or SUCCESS_WITH_WARNINGS; A__db is written only on success; d__km = pfl[0] pfl[1] / 1000 is saved once the inputs pass and the other intermediate values once the prediction succeeds |
| PointToPointMode.RejectedByValidation | src/ilm_p2p.cpp:66-71 | an error from ValidateInputs is returned as PointToPoint's code, with only ValidateInputs' flags and no success |
| PointToPointMode.PointToPoint | src/ilm_p2p.cpp:26-33 | the same code, warnings and loss as PointToPoint_Ex, with intermediate values the caller never sees |
| PointToPointMode.P2PSucceedsIff | src/ilm_p2p.cpp:66-119 | PointToPoint succeeds exactly when every ValidateInputs bound holds and the ground impedance is accepted; it reports SUCCESS_WITH_WARNINGS exactly when it succeeds with a flag set and SUCCESS exactly when it succeeds with none, through Codes.SuccessCode |
| PointToPointMode.P2PWarningsBounded | src/ilm_p2p.cpp:66-119 | the reported flags are among ValidateInputs' and LongleyRice's; rejected inputs report ValidateInputs' flags alone |

## Left out

- Transcendental functions (exp, log, log10, sqrt, sin, cos, pow) are uninterpreted fields of `Externals`. A proof that needs a property of one takes it as a precondition: exp is positive, sqrt is exact on nonnegative reals, pow(x, 2) is x squared, and so on.
- src/SmoothMoonDiffraction.cpp, src/KnifeEdgeDiffraction.cpp, src/FresnelIntegral.cpp, src/FreeSpaceLoss.cpp and src/SigmaHFunction.cpp are closed-form curve fits over those functions. They are uninterpreted functions of their arguments, and no property of their values is claimed.
- src/InitializePointToPoint.cpp computes the ground impedance with a complex square root and a complex division. The model takes the impedance as an uninterpreted (re, im) pair. Only the LongleyRice check on that pair is modelled.
- LinearLeastSquaresFit and InverseComplementaryCumulativeDistributionFunction are declared without a body in the source headers. They are uninterpreted functions.
- IEEE-754 behaviour is not modelled. The model computes over unbounded reals: no rounding, NaN or infinity. A division whose divisor may be 0 yields the uninterpreted `divByZero(x)`. The `float(i + 1.0)` cast at src/ComputeDeltaH.cpp:67 is the identity, which is exact for any index a profile can have.
- Numerics.Quot: states no relation between its result and its operands, because of the division-by-zero case above. Lemmas that need the quotient call it only where the divisor is proved nonzero.
- The warning bitmask is a set of flags. Codes.FlagBit maps each flag to its bit value, and Codes.FlagBitsDistinct shows that no two flags share a bit, so a union of flags corresponds to an OR of their bits. Machine-word ORs are not modelled.
- src/ilm.cpp only reports version and build strings, and the DLL export macros and duplicate header declarations carry no behaviour. Neither is modelled. The Python wrapper is not part of this model.
- Intermediate.IntermediateValues.constructor: the C++ wrappers `Area` and `PointToPoint` declare an uninitialized struct. The constructor starts from zeros and empty horizon sequences instead. No caller reads those values, so the choice is not observable.
- The two-element C arrays of IntermediateValues are sequence fields. Each mode writes them only through the IntermediateValues methods, which replace both elements at once.
- DeltaH.ComputeDeltaH: requires that int(x_start) indexes the profile whenever the window is long enough to be resampled. The source reads pfl[i + 2] and pfl[i + 3] from that index without a check, so another start reads outside the profile. QuickPfl's fit windows always satisfy the requirement.
- QuickProfile.QuickPfl: requires a profile with at least one interval and a positive spacing, and a positive TX height. The interface documents the profile condition, and PointToPoint_Ex calls QuickPfl only after ValidateInputs has enforced the height bound of 0.5 m.
- PointToPointMode.PointToPointEx: requires a profile with at least one interval and a positive spacing. The source documents this but never checks it.
- PointToPointMode.PointToPoint: the same profile requirement as PointToPointEx.
- Horizons.FindHorizons: requires a profile whose header fits its elevations (np + 3 entries at least), which the source assumes when it reads pfl[np + 2].
- LineOfSight.FloorReachesSinPsi: requires a nonzero reflection coefficient. For a coefficient of magnitude 0 the floor at src/LineOfSightLoss.cpp:41-42 divides by q = 0.
- LongleyRice.LinearFitFallback and LongleyRice.TwoTermFitFallback: each states its branch of the kHat_1/kHat_2 chain under that branch's own condition. LongleyRice.LogRateNonNegative states kHat_2 >= 0 only for 0 < d_0 < d_ls, where term1 > 0.
- LineOfSightLoss computes delta_h_d at src/LineOfSightLoss.cpp:25 and never reads it; the model computes only what the source then uses.
- Point-to-point mode computes the average path height h_sys (src/ilm_p2p.cpp:79-86) and no later step reads it. The model computes it as PointToPointMode.AveragePathHeight and proves its bounds, and the result is discarded as in the source.
- The two modes add free-space loss and the variability adjustment in opposite orders (src/ilm_area.cpp:124, src/ilm_p2p.cpp:102). Over reals the sum is the same, and both modes return Variability.TransmissionLoss.
- The model's LongleyRice passes theta_e where the source passes d_ls, and the model's InitializeArea uses the horizon angle of equation A-10. Both corrections, and members for the code as written, are under Findings.

## Findings

| source | as written | input that shows it | evidently intended | confidence | as-written member | corrected member |
|---|---|---|---|---|---|---|
| src/InitializeArea.cpp:57 | theta_hzn = -(2 h_e + 0.65 delta_h (d_ls / d_l - 1)) / d_ls: the roughness term is subtracted, so rougher terrain lowers the horizon | any terminal with h_e > 0 over terrain with delta_h > 0: d_l < d_ls, the roughness term is positive, and the angle falls below the smooth-Moon angle -2 h_e / d_ls | theta_hzn = (0.65 delta_h (d_ls / d_l - 1) - 2 h_e) / d_ls, as in equation A-10 and as QuickPfl writes it at src/QuickPfl.cpp:119; the horizon then lies above the smooth-Moon angle | not executed; medium | AreaTerminals.AsWrittenAngleBelowSmooth | AreaTerminals.CorrectedAngleAboveSmooth |
| src/LongleyRice.cpp:91-93 | DiffractionLoss receives d_ls__meter, a distance in meters, as its theta_los argument. theta_e, computed at line 56 for this purpose, is never used | mobile terminals (h_e = h) over terrain with delta_h > 0 and a path with d + d_l < d_ls a_m: the roughness parameter q of src/DiffractionLoss.cpp:38 is negative, and src/DiffractionLoss.cpp:41 takes its square root | DiffractionLoss(d_3, ..., theta_e, f) and DiffractionLoss(d_4, ..., theta_e, f): q is then nonnegative and the diffraction loss lies between the knife-edge and smooth-Moon losses | not executed; medium | LongleyRice.AsWrittenRoughnessParameterNegative | LongleyRice.CorrectedRoughnessParameterNonNegative |
