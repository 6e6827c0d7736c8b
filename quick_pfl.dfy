/** QuickPfl: the terrain parameters of a point-to-point path. It finds the horizons,
    computes delta_h over a window that skips the terrain near each terminal, and
    derives the effective heights, choosing between a line-of-sight regime (horizons
    re-estimated from the effective heights) and a far-horizon regime (the scanned
    horizons kept). */
module QuickProfile {
  import opened Numerics
  import opened Horizons
  import opened DeltaH

  /** The outputs of QuickPfl: the two horizon angles, horizon distances and effective
      heights (TX first), delta_h and the path distance. */
  datatype Terrain = Terrain(thetaHzn: seq<real>, dHzn: seq<real>, hE: seq<real>, deltaH: real, d: real)

  /** Where the fit window starts: the lesser of 15 times the TX height and 10% of the
      TX horizon distance. */
  function FitStart(h: seq<real>, dHznTx: real): real
    requires |h| == 2
  {
    Min(15.0 * h[0], 0.1 * dHznTx)
  }

  /** Where the fit window ends: the same margin, measured from the far end. */
  function FitEnd(d: real, h: seq<real>, dHznRx: real): real
    requires |h| == 2
  {
    d - Min(15.0 * h[1], 0.1 * dHznRx)
  }

  /** The combined horizon distance exceeds the path by more than 50%. */
  predicate LineOfSightRegime(dHznTx: real, dHznRx: real, d: real) {
    dHznTx + dHznRx > 1.5 * d
  }

  /** The smooth-surface horizon distance sqrt(2 h_e a) of an effective height. */
  function SmoothHorizon(e: Externals, hE: real): real {
    Sqrt(e, 2.0 * hE * MoonRadius)
  }

  /** The factor exp(-0.07 sqrt(delta_h / max(h_e, 5))) by which terrain roughness
      shortens the horizon distance. */
  function RoughnessFactor(e: Externals, hE: real, deltaH: real): real {
    Exp(e, -0.07 * Sqrt(e, deltaH / Max(hE, 5.0)))
  }

  /** The horizon distance over rough terrain: sqrt(2 h_e a) times the roughness factor. */
  function RoughHorizon(e: Externals, hE: real, deltaH: real): real {
    SmoothHorizon(e, hE) * RoughnessFactor(e, hE, deltaH)
  }

  /** The horizon angle (0.65 delta_h (q / d_hzn - 1) - 2 h_e) / q, q = sqrt(2 h_e a). */
  function HorizonAngle(e: Externals, hE: real, dHzn: real, deltaH: real): real {
    var q := SmoothHorizon(e, hE);
    Quot(e, 0.65 * deltaH * (Quot(e, q, dHzn) - 1.0) - 2.0 * hE, q)
  }

  /** The effective heights from the fitted line's values at the two ends. */
  function EffectiveHeights(pfl: seq<real>, h: seq<real>, fitTx: real, fitRx: real): (hE: seq<real>)
    requires Readable(pfl) && |h| == 2
    ensures |hE| == 2
  {
    [h[0] + Dim(pfl[2], fitTx), h[1] + Dim(pfl[Np(pfl) + 2], fitRx)]
  }

  /** The rescale factor (d / combined)^2; applied only when the combined rough horizons
      do not reach the path distance. */
  function RescaleFactor(e: Externals, d: real, combined: real): real {
    Pow(e, Quot(e, d, combined), 2.0)
  }

  /** The rough horizon distances of both terminals. */
  function RoughHorizons(e: Externals, hE: seq<real>, deltaH: real): (r: seq<real>)
    requires |hE| == 2
    ensures |r| == 2 && forall i | 0 <= i < 2 :: r[i] == RoughHorizon(e, hE[i], deltaH)
  {
    [RoughHorizon(e, hE[0], deltaH), RoughHorizon(e, hE[1], deltaH)]
  }

  /** One effective height multiplied by the rescale factor q. */
  function Rescaled(hE: real, q: real): real {
    hE * q
  }

  /** Both effective heights multiplied by q. */
  function ScaledHeights(hE: seq<real>, q: real): (r: seq<real>)
    requires |hE| == 2
    ensures |r| == 2 && forall i | 0 <= i < 2 :: r[i] == Rescaled(hE[i], q)
  {
    [Rescaled(hE[0], q), Rescaled(hE[1], q)]
  }

  /** The horizon angles of both terminals. */
  function HorizonAngles(e: Externals, hE: seq<real>, dHzn: seq<real>, deltaH: real): (r: seq<real>)
    requires |hE| == 2 && |dHzn| == 2
    ensures |r| == 2 && forall i | 0 <= i < 2 :: r[i] == HorizonAngle(e, hE[i], dHzn[i], deltaH)
  {
    [HorizonAngle(e, hE[0], dHzn[0], deltaH), HorizonAngle(e, hE[1], dHzn[1], deltaH)]
  }

  /** The effective heights after the one-shot rescale of the line-of-sight regime:
      rescaled by RescaleFactor when the rough horizons of the fitted heights do not
      reach the path distance, else unchanged. */
  function RescaledHeights(e: Externals, hE: seq<real>, deltaH: real, d: real): (r: seq<real>)
    requires |hE| == 2
    ensures |r| == 2
  {
    var first := RoughHorizons(e, hE, deltaH);
    var combined := first[0] + first[1];
    if combined <= d then ScaledHeights(hE, RescaleFactor(e, d, combined)) else hE
  }

  /** The line-of-sight regime: heights from the fit over the window, rescaled at most
      once; horizon distances and angles re-derived from the final heights. */
  function LineOfSightTerrain(e: Externals, pfl: seq<real>, h: seq<real>, dStart: real, dEnd: real,
                              deltaH: real, d: real): (t: Terrain)
    requires Readable(pfl) && |h| == 2
    ensures |t.thetaHzn| == 2 && |t.dHzn| == 2 && |t.hE| == 2
  {
    var fit := LeastSquaresFit(e, pfl, dStart, dEnd);
    var hE := RescaledHeights(e, EffectiveHeights(pfl, h, fit.0, fit.1), deltaH, d);
    var dHzn := RoughHorizons(e, hE, deltaH);
    Terrain(HorizonAngles(e, hE, dHzn, deltaH), dHzn, hE, deltaH, d)
  }

  /** The effective heights of the far-horizon regime: each from a fit between its
      window end and 90% of its horizon distance. */
  function FarHeights(e: Externals, pfl: seq<real>, h: seq<real>, dStart: real, dEnd: real, d: real,
                      dHznTx: real, dHznRx: real): (hE: seq<real>)
    requires Readable(pfl) && |h| == 2
    ensures |hE| == 2
  {
    EffectiveHeights(pfl, h, LeastSquaresFit(e, pfl, dStart, 0.9 * dHznTx).0,
                     LeastSquaresFit(e, pfl, d - 0.9 * dHznRx, dEnd).1)
  }

  /** The far-horizon regime: the scanned horizons are kept. */
  function FarTerrain(e: Externals, pfl: seq<real>, h: seq<real>, tx: Horizon, rx: Horizon,
                      dStart: real, dEnd: real, deltaH: real, d: real): (t: Terrain)
    requires Readable(pfl) && |h| == 2
    ensures |t.thetaHzn| == 2 && |t.dHzn| == 2 && |t.hE| == 2
  {
    Terrain([tx.theta, rx.theta], [tx.dist, rx.dist], FarHeights(e, pfl, h, dStart, dEnd, d, tx.dist, rx.dist), deltaH, d)
  }

  lemma DivideMonotone(a: real, b: real, c: real)
    requires a <= b && 0.0 < c
    ensures a / c <= b / c
  {
    ProductNonNegative(b - a, 1.0 / c);
    assert b / c - a / c == (b - a) * (1.0 / c);
  }

  /** A distance of at most 10% of pfl[0] intervals of spacing xi is fewer than
      int(pfl[0]) intervals, once there is at least one. */
  lemma TenthInsideProfile(dStart: real, xi: real, p0: real, np: int)
    requires 0.0 < dStart <= 0.1 * (p0 * xi) && 0.0 < xi
    requires 1 <= np && np as real <= p0 < np as real + 1.0
    ensures 0.0 < dStart / xi < np as real
  {
    DivideMonotone(dStart, 0.1 * (p0 * xi), xi);
    assert 0.1 * (p0 * xi) / xi == 0.1 * p0;
    ProductPositive(dStart, 1.0 / xi);
    assert dStart / xi == dStart * (1.0 / xi);
  }

  /** The fit window starts within the first 10% of the path, after its TX end. */
  lemma FitStartBounds(e: Externals, pfl: seq<real>, h: seq<real>)
    requires Proper(pfl) && |h| == 2 && 0.0 < h[0]
    ensures 0.0 < FitStart(h, TxHorizon(e, pfl, h).dist) <= 0.1 * PathDistance(pfl)
  {
    HorizonDistancesInRange(e, pfl, h);
  }

  /** So the window starts inside the profile, at fewer than int(pfl[0]) intervals. */
  lemma FitStartInProfile(e: Externals, pfl: seq<real>, h: seq<real>, dEnd: real)
    requires Proper(pfl) && |h| == 2 && 0.0 < h[0]
    ensures StartInRange(e, pfl, FitStart(h, TxHorizon(e, pfl, h).dist), dEnd)
  {
    var dStart := FitStart(h, TxHorizon(e, pfl, h).dist);
    FitStartBounds(e, pfl, h);
    TenthInsideProfile(dStart, pfl[1], pfl[0], Np(pfl));
  }

  /** The terrain of the regime the scanned horizons select. */
  function RegimeTerrain(e: Externals, pfl: seq<real>, h: seq<real>, tx: Horizon, rx: Horizon,
                         dStart: real, dEnd: real, deltaH: real, d: real): (t: Terrain)
    requires Readable(pfl) && |h| == 2
    ensures |t.thetaHzn| == 2 && |t.dHzn| == 2 && |t.hE| == 2
  {
    if LineOfSightRegime(tx.dist, rx.dist, d) then LineOfSightTerrain(e, pfl, h, dStart, dEnd, deltaH, d)
    else FarTerrain(e, pfl, h, tx, rx, dStart, dEnd, deltaH, d)
  }

  /** The terrain parameters QuickPfl produces. */
  function QuickPflSpec(e: Externals, pfl: seq<real>, h: seq<real>): (t: Terrain)
    requires Proper(pfl) && |h| == 2 && 0.0 < h[0]
    ensures |t.thetaHzn| == 2 && |t.dHzn| == 2 && |t.hE| == 2
  {
    var d := PathDistance(pfl);
    var tx, rx := TxHorizon(e, pfl, h), RxHorizon(e, pfl, h);
    var dStart, dEnd := FitStart(h, tx.dist), FitEnd(d, h, rx.dist);
    FitStartInProfile(e, pfl, h, dEnd);
    RegimeTerrain(e, pfl, h, tx, rx, dStart, dEnd, DeltaHSpec(e, pfl, dStart, dEnd), d)
  }

  /** QuickPflSpec assembled from its stages. */
  lemma QuickPflFromStages(e: Externals, pfl: seq<real>, h: seq<real>, d: real, tx: Horizon, rx: Horizon,
                           dStart: real, dEnd: real, deltaH: real, t: Terrain)
    requires Proper(pfl) && |h| == 2 && 0.0 < h[0]
    requires d == PathDistance(pfl) && tx == TxHorizon(e, pfl, h) && rx == RxHorizon(e, pfl, h)
    requires dStart == FitStart(h, tx.dist) && dEnd == FitEnd(d, h, rx.dist)
    requires StartInRange(e, pfl, dStart, dEnd) && deltaH == DeltaHSpec(e, pfl, dStart, dEnd)
    requires LineOfSightRegime(tx.dist, rx.dist, d) ==> t == LineOfSightTerrain(e, pfl, h, dStart, dEnd, deltaH, d)
    requires !LineOfSightRegime(tx.dist, rx.dist, d) ==> t == FarTerrain(e, pfl, h, tx, rx, dStart, dEnd, deltaH, d)
    ensures t == QuickPflSpec(e, pfl, h)
  {
  }

  /** The first loop of the line-of-sight branch: both horizon distances from the
      effective heights. */
  method SetRoughHorizons(e: Externals, hE: array<real>, deltaH: real, dHzn: array<real>)
    requires hE.Length == 2 && dHzn.Length == 2 && hE != dHzn
    modifies dHzn
    ensures dHzn[..] == RoughHorizons(e, hE[..], deltaH)
  {
    for i := 0 to 2
      invariant forall k | 0 <= k < i :: dHzn[k] == RoughHorizon(e, hE[k], deltaH)
    {
      dHzn[i] := RoughHorizon(e, hE[i], deltaH);
    }
  }

  /** The rescale loop: each height multiplied by q and its horizon distance re-derived. */
  method RescaleHeights(e: Externals, q: real, deltaH: real, hE: array<real>, dHzn: array<real>)
    requires hE.Length == 2 && dHzn.Length == 2 && hE != dHzn
    modifies hE, dHzn
    ensures hE[..] == ScaledHeights(old(hE[..]), q)
    ensures dHzn[..] == RoughHorizons(e, hE[..], deltaH)
  {
    for i := 0 to 2
      invariant forall k | 0 <= k < i :: hE[k] == Rescaled(old(hE[k]), q)
      invariant forall k | i <= k < 2 :: hE[k] == old(hE[k])
      invariant forall k | 0 <= k < i :: dHzn[k] == RoughHorizon(e, hE[k], deltaH)
    {
      hE[i] := Rescaled(hE[i], q);
      dHzn[i] := RoughHorizon(e, hE[i], deltaH);
    }
  }

  /** The last loop of the line-of-sight branch: both horizon angles. */
  method SetHorizonAngles(e: Externals, hE: array<real>, dHzn: array<real>, deltaH: real,
                          thetaHzn: array<real>)
    requires hE.Length == 2 && dHzn.Length == 2 && thetaHzn.Length == 2
    requires thetaHzn != hE && thetaHzn != dHzn
    modifies thetaHzn
    ensures thetaHzn[..] == HorizonAngles(e, hE[..], dHzn[..], deltaH)
  {
    for i := 0 to 2
      invariant forall k | 0 <= k < i :: thetaHzn[k] == HorizonAngle(e, hE[k], dHzn[k], deltaH)
    {
      thetaHzn[i] := HorizonAngle(e, hE[i], dHzn[i], deltaH);
    }
  }

  /** The line-of-sight branch of QuickPfl on the three output arrays. */
  method LineOfSightBranch(e: Externals, pfl: seq<real>, h: seq<real>, dStart: real, dEnd: real,
                           deltaH: real, d: real,
                           thetaHzn: array<real>, dHzn: array<real>, hE: array<real>)
    requires Readable(pfl) && |h| == 2
    requires thetaHzn.Length == 2 && dHzn.Length == 2 && hE.Length == 2
    requires thetaHzn != dHzn && thetaHzn != hE && dHzn != hE
    modifies thetaHzn, dHzn, hE
    ensures var t := LineOfSightTerrain(e, pfl, h, dStart, dEnd, deltaH, d);
      thetaHzn[..] == t.thetaHzn && dHzn[..] == t.dHzn && hE[..] == t.hE
  {
    var np := TruncToInt(pfl[0]);
    var fit := LeastSquaresFit(e, pfl, dStart, dEnd);
    ghost var base := EffectiveHeights(pfl, h, fit.0, fit.1);
    ghost var final := RescaledHeights(e, base, deltaH, d);
    var hETx, hERx := h[0] + Dim(pfl[2], fit.0), h[1] + Dim(pfl[np + 2], fit.1);
    assert [hETx, hERx] == base;
    hE[0], hE[1] := hETx, hERx;
    assert hE[..] == base;
    SetRoughHorizons(e, hE, deltaH, dHzn);
    var combined := dHzn[0] + dHzn[1];
    if combined <= d {
      var q := RescaleFactor(e, d, combined);
      RescaleHeights(e, q, deltaH, hE, dHzn);
    }
    assert hE[..] == final;
    SetHorizonAngles(e, hE, dHzn, deltaH, thetaHzn);
  }

  /** The far-horizon branch: each effective height from its own fit; the scanned
      horizons stay in place. */
  method FarBranch(e: Externals, pfl: seq<real>, h: seq<real>, dStart: real, dEnd: real,
                   d: real, dHznTx: real, dHznRx: real, hE: array<real>)
    requires Readable(pfl) && |h| == 2 && hE.Length == 2
    modifies hE
    ensures hE[..] == FarHeights(e, pfl, h, dStart, dEnd, d, dHznTx, dHznRx)
  {
    var np := TruncToInt(pfl[0]);
    var fitTx := LeastSquaresFit(e, pfl, dStart, 0.9 * dHznTx).0;
    hE[0] := h[0] + Dim(pfl[2], fitTx);
    var fitRx := LeastSquaresFit(e, pfl, d - 0.9 * dHznRx, dEnd).1;
    hE[1] := h[1] + Dim(pfl[np + 2], fitRx);
  }

  /** QuickPfl: the path distance, the horizons from FindHorizons, delta_h over the fit
      window, then the effective heights of the regime the horizons select. */
  method QuickPfl(e: Externals, pfl: seq<real>, h: seq<real>,
                  thetaHzn: array<real>, dHzn: array<real>, hE: array<real>)
    returns (deltaH: real, d: real)
    requires Proper(pfl) && |h| == 2 && 0.0 < h[0]
    requires thetaHzn.Length == 2 && dHzn.Length == 2 && hE.Length == 2
    requires thetaHzn != dHzn && thetaHzn != hE && dHzn != hE
    modifies thetaHzn, dHzn, hE
    ensures Terrain(thetaHzn[..], dHzn[..], hE[..], deltaH, d) == QuickPflSpec(e, pfl, h)
  {
    ghost var tx, rx := TxHorizon(e, pfl, h), RxHorizon(e, pfl, h);
    d := PathDistance(pfl);

    FindHorizons(e, pfl, h, thetaHzn, dHzn);
    var dHznTx, dHznRx := dHzn[0], dHzn[1];
    assert dHznTx == tx.dist && dHznRx == rx.dist;
    assert thetaHzn[..] == [tx.theta, rx.theta] && dHzn[..] == [tx.dist, rx.dist];

    var dStart := Min(15.0 * h[0], 0.1 * dHznTx);
    var dEnd := d - Min(15.0 * h[1], 0.1 * dHznRx);
    assert d == PathDistance(pfl) && dStart == FitStart(h, tx.dist) && dEnd == FitEnd(d, h, rx.dist);
    FitStartInProfile(e, pfl, h, dEnd);
    deltaH := ComputeDeltaH(e, pfl, dStart, dEnd);

    if dHznTx + dHznRx > 1.5 * d {
      LineOfSightBranch(e, pfl, h, dStart, dEnd, deltaH, d, thetaHzn, dHzn, hE);
    } else {
      ghost var scanned := (thetaHzn[..], dHzn[..]);
      FarBranch(e, pfl, h, dStart, dEnd, d, dHznTx, dHznRx, hE);
      assert (thetaHzn[..], dHzn[..]) == scanned;
      assert Terrain(thetaHzn[..], dHzn[..], hE[..], deltaH, d) == FarTerrain(e, pfl, h, tx, rx, dStart, dEnd, deltaH, d);
    }
    QuickPflFromStages(e, pfl, h, d, tx, rx, dStart, dEnd, deltaH,
                       Terrain(thetaHzn[..], dHzn[..], hE[..], deltaH, d));
  }

  /** The fit window lies inside the path: it starts within the first 10% and ends
      within the last 10%, so it is never empty. */
  lemma FitWindowInsidePath(e: Externals, pfl: seq<real>, h: seq<real>)
    requires Proper(pfl) && |h| == 2 && 0.0 < h[0] && 0.0 < h[1]
    ensures var d := PathDistance(pfl);
      && 0.0 < FitStart(h, TxHorizon(e, pfl, h).dist) <= 0.1 * d
      && 0.9 * d <= FitEnd(d, h, RxHorizon(e, pfl, h).dist) < d
  {
    FitStartBounds(e, pfl, h);
    HorizonDistancesInRange(e, pfl, h);
  }

  /** (d / combined)^2 is at least 1 when the combined horizons do not reach d. */
  lemma RescaleFactorAtLeastOne(e: Externals, d: real, combined: real)
    requires PowTwoIsSquare(e) && 0.0 < combined <= d
    ensures RescaleFactor(e, d, combined) >= 1.0
  {
    var x := d / combined;
    DivideMonotone(combined, d, combined);
    assert 1.0 <= x;
    ProductNonNegative(x - 1.0, x + 1.0);
    assert x * x - 1.0 == (x - 1.0) * (x + 1.0);
  }

  /** A rough horizon is nonnegative for a nonnegative height and positive for a
      positive one. */
  lemma RoughHorizonSign(e: Externals, hE: real, deltaH: real)
    requires Sound(e) && 0.0 <= hE
    ensures 0.0 <= RoughHorizon(e, hE, deltaH)
    ensures 0.0 < hE ==> 0.0 < RoughHorizon(e, hE, deltaH)
  {
    var s, x := SmoothHorizon(e, hE), RoughnessFactor(e, hE, deltaH);
    assert 0.0 < x;
    assert 0.0 <= s;
    ProductNonNegative(s, x);
    if 0.0 < hE {
      SqrtPositive(e, 2.0 * hE * MoonRadius);
      ProductPositive(s, x);
    }
  }

  /** Multiplying a nonnegative height by a factor of at least 1 never lowers it. */
  lemma RescaledNotLower(hE: real, q: real)
    requires 0.0 <= hE && 1.0 <= q
    ensures hE <= Rescaled(hE, q)
  {
    ProductNonNegative(hE, q - 1.0);
    assert Rescaled(hE, q) - hE == hE * (q - 1.0);
  }

  /** The one-shot rescale never lowers an effective height. */
  lemma RescaledHeightsNotLower(e: Externals, hE: seq<real>, deltaH: real, d: real)
    requires Sound(e) && |hE| == 2 && 0.0 < hE[0] && 0.0 <= hE[1]
    ensures forall i | 0 <= i < 2 :: hE[i] <= RescaledHeights(e, hE, deltaH, d)[i]
  {
    var first := RoughHorizons(e, hE, deltaH);
    var combined := first[0] + first[1];
    RoughHorizonSign(e, hE[0], deltaH);
    RoughHorizonSign(e, hE[1], deltaH);
    if combined <= d {
      var q := RescaleFactor(e, d, combined);
      RescaleFactorAtLeastOne(e, d, combined);
      RescaledNotLower(hE[0], q);
      RescaledNotLower(hE[1], q);
    }
  }

  /** Whichever regime is selected, no effective height is below its structural height. */
  lemma RegimeHeightsAtLeastStructural(e: Externals, pfl: seq<real>, h: seq<real>, tx: Horizon, rx: Horizon,
                                       dStart: real, dEnd: real, deltaH: real, d: real)
    requires Sound(e) && Readable(pfl) && |h| == 2 && 0.0 < h[0] && 0.0 <= h[1]
    ensures forall i | 0 <= i < 2 :: h[i] <= RegimeTerrain(e, pfl, h, tx, rx, dStart, dEnd, deltaH, d).hE[i]
  {
    if LineOfSightRegime(tx.dist, rx.dist, d) {
      var fit := LeastSquaresFit(e, pfl, dStart, dEnd);
      RescaledHeightsNotLower(e, EffectiveHeights(pfl, h, fit.0, fit.1), deltaH, d);
    }
  }

  /** In both regimes the effective heights are never below the structural heights. */
  lemma EffectiveHeightsAtLeastStructural(e: Externals, pfl: seq<real>, h: seq<real>)
    requires Sound(e) && Proper(pfl) && |h| == 2 && 0.0 < h[0] && 0.0 <= h[1]
    ensures forall i | 0 <= i < 2 :: h[i] <= QuickPflSpec(e, pfl, h).hE[i]
  {
    var d := PathDistance(pfl);
    var tx, rx := TxHorizon(e, pfl, h), RxHorizon(e, pfl, h);
    var dStart, dEnd := FitStart(h, tx.dist), FitEnd(d, h, rx.dist);
    FitStartInProfile(e, pfl, h, dEnd);
    RegimeHeightsAtLeastStructural(e, pfl, h, tx, rx, dStart, dEnd, DeltaHSpec(e, pfl, dStart, dEnd), d);
  }

  /** The line-of-sight regime is chosen exactly when the scanned horizons add up to
      more than 1.5 d. Its horizons are re-derived from the final effective heights;
      the far-horizon regime keeps the scanned ones. */
  lemma RegimeHorizons(e: Externals, pfl: seq<real>, h: seq<real>)
    requires Proper(pfl) && |h| == 2 && 0.0 < h[0]
    ensures var t := QuickPflSpec(e, pfl, h);
      var tx, rx := TxHorizon(e, pfl, h), RxHorizon(e, pfl, h);
      && (tx.dist + rx.dist > 1.5 * PathDistance(pfl) ==>
            t.dHzn == RoughHorizons(e, t.hE, t.deltaH) && t.thetaHzn == HorizonAngles(e, t.hE, t.dHzn, t.deltaH))
      && (tx.dist + rx.dist <= 1.5 * PathDistance(pfl) ==>
            t.thetaHzn == [tx.theta, rx.theta] && t.dHzn == [tx.dist, rx.dist])
  {
  }
}
