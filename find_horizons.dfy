/** Terrain profiles in PFL format and the greedy horizon scan of FindHorizons. */
module Horizons {
  import opened Numerics

  /** The number of intervals np = int(pfl[0]) of a PFL profile: pfl[0] is np, pfl[1]
      the spacing between samples, pfl[2 .. np+2] the np+1 elevations. */
  function Np(pfl: seq<real>): int
    requires |pfl| >= 1
  {
    TruncToInt(pfl[0])
  }

  /** Every index the profile scans reads (pfl[0], pfl[1], pfl[2 .. np+2]) exists. */
  predicate Readable(pfl: seq<real>) {
    |pfl| >= 3 && 0 <= Np(pfl) && Np(pfl) + 3 <= |pfl|
  }

  /** A readable profile with at least one interval and a positive spacing. */
  predicate Proper(pfl: seq<real>) {
    Readable(pfl) && 1 <= Np(pfl) && 0.0 < pfl[1]
  }

  /** The path distance pfl[0] * pfl[1], in meters. */
  function PathDistance(pfl: seq<real>): real
    requires |pfl| >= 2
  {
    pfl[0] * pfl[1]
  }

  lemma ProperPathDistance(pfl: seq<real>)
    requires Proper(pfl)
    ensures 0.0 < PathDistance(pfl)
    ensures Np(pfl) as real <= pfl[0]
  {
    ProductPositive(pfl[0], pfl[1]);
  }

  /** A horizon: its elevation angle (radians) and its distance from the terminal (meters). */
  datatype Horizon = Horizon(theta: real, dist: real)

  /** One step of the scan: a candidate replaces the current horizon only if strictly higher. */
  function Replace(best: Horizon, c: Horizon): Horizon {
    if c.theta > best.theta then c else best
  }

  /** The horizon left after offering the candidates, in order, to `init`. */
  function Scan(init: Horizon, cands: seq<Horizon>): Horizon
    decreases |cands|
  {
    if |cands| == 0 then init else Replace(Scan(init, cands[..|cands| - 1]), cands[|cands| - 1])
  }

  /** The scan returns a maximum of the start and the candidates, and because the
      comparison is strict it returns the earliest one attaining it: either the start,
      when no candidate exceeds it, or the first candidate of maximal angle. */
  lemma {:induction false} ScanSelectsFirstMaximum(init: Horizon, cands: seq<Horizon>)
    ensures Scan(init, cands).theta >= init.theta
    ensures forall k | 0 <= k < |cands| :: Scan(init, cands).theta >= cands[k].theta
    ensures || (Scan(init, cands) == init && forall k | 0 <= k < |cands| :: cands[k].theta <= init.theta)
            || exists k | 0 <= k < |cands| ::
                 && Scan(init, cands) == cands[k] && init.theta < cands[k].theta
                 && forall j | 0 <= j < k :: cands[j].theta < cands[k].theta
    decreases |cands|
  {
    if |cands| > 0 {
      var n := |cands| - 1;
      var pre := cands[..n];
      ScanSelectsFirstMaximum(init, pre);
      assert forall k | 0 <= k < n :: pre[k] == cands[k];
      var p := Scan(init, pre);
      if cands[n].theta > p.theta {
        assert Scan(init, cands) == cands[n];
      } else {
        assert Scan(init, cands) == p;
        if p != init || exists k | 0 <= k < n :: cands[k].theta > init.theta {
          var k :| 0 <= k < n && p == pre[k] && init.theta < pre[k].theta
                   && forall j | 0 <= j < k :: pre[j].theta < pre[k].theta;
          assert p == cands[k];
        }
      }
    }
  }

  lemma ScanStep(init: Horizon, cs: seq<Horizon>, n: int)
    requires 0 <= n < |cs|
    ensures Scan(init, cs[..n + 1]) == Replace(Scan(init, cs[..n]), cs[n])
  {
    assert cs[..n + 1][..n] == cs[..n];
  }

  /** The height above the datum of the TX antenna (pfl[2] + h[0]). */
  function TxAntenna(pfl: seq<real>, h: seq<real>): real
    requires Readable(pfl) && |h| == 2
  {
    pfl[2] + h[0]
  }

  /** The height above the datum of the RX antenna (pfl[np+2] + h[1]). */
  function RxAntenna(pfl: seq<real>, h: seq<real>): real
    requires Readable(pfl) && |h| == 2
  {
    pfl[Np(pfl) + 2] + h[1]
  }

  /** The curvature drop d / (2 a) of the lunar surface over a distance d. */
  function Curvature(d: real): real {
    d / (2.0 * MoonRadius)
  }

  /** The TX horizon before the scan: the endpoint-to-endpoint angle, at the path distance. */
  function TxStart(e: Externals, pfl: seq<real>, h: seq<real>): Horizon
    requires Readable(pfl) && |h| == 2
  {
    var d := PathDistance(pfl);
    Horizon(Quot(e, RxAntenna(pfl, h) - TxAntenna(pfl, h), d) - Curvature(d), d)
  }

  /** The RX horizon before the scan. */
  function RxStart(e: Externals, pfl: seq<real>, h: seq<real>): Horizon
    requires Readable(pfl) && |h| == 2
  {
    var d := PathDistance(pfl);
    Horizon(Quot(e, -(RxAntenna(pfl, h) - TxAntenna(pfl, h)), d) - Curvature(d), d)
  }

  /** The number of interior samples 1 .. np-1 the scan visits. */
  function InteriorCount(pfl: seq<real>): nat
    requires Readable(pfl)
  {
    if Np(pfl) >= 1 then Np(pfl) - 1 else 0
  }

  /** Sample i seen from the TX, at distance d_tx = xi + ... + xi (i times), which is i * xi. */
  function TxCandidate(e: Externals, pfl: seq<real>, h: seq<real>, i: int): Horizon
    requires Readable(pfl) && |h| == 2 && 1 <= i < Np(pfl)
  {
    var dTx := March(0.0, pfl[1], i);
    Horizon(Quot(e, pfl[i + 2] - TxAntenna(pfl, h), dTx) - Curvature(dTx), dTx)
  }

  /** Sample i seen from the RX, at distance d_rx = d - xi - ... - xi, which is d - i * xi. */
  function RxCandidate(e: Externals, pfl: seq<real>, h: seq<real>, i: int): Horizon
    requires Readable(pfl) && |h| == 2 && 1 <= i < Np(pfl)
  {
    var dRx := March(PathDistance(pfl), -pfl[1], i);
    Horizon(Quot(e, -(RxAntenna(pfl, h) - pfl[i + 2]), dRx) - Curvature(dRx), dRx)
  }

  /** The interior samples from the TX, in scan order (element k is sample k+1). */
  function TxCandidates(e: Externals, pfl: seq<real>, h: seq<real>): (cs: seq<Horizon>)
    requires Readable(pfl) && |h| == 2
    ensures |cs| == InteriorCount(pfl)
    ensures forall k | 0 <= k < |cs| :: cs[k] == TxCandidate(e, pfl, h, k + 1)
  {
    seq(InteriorCount(pfl), k requires 0 <= k < InteriorCount(pfl) => TxCandidate(e, pfl, h, k + 1))
  }

  function RxCandidates(e: Externals, pfl: seq<real>, h: seq<real>): (cs: seq<Horizon>)
    requires Readable(pfl) && |h| == 2
    ensures |cs| == InteriorCount(pfl)
    ensures forall k | 0 <= k < |cs| :: cs[k] == RxCandidate(e, pfl, h, k + 1)
  {
    seq(InteriorCount(pfl), k requires 0 <= k < InteriorCount(pfl) => RxCandidate(e, pfl, h, k + 1))
  }

  /** The TX horizon after the first n interior samples, one Replace step per sample. */
  function TxScanned(e: Externals, pfl: seq<real>, h: seq<real>, n: nat): Horizon
    requires Readable(pfl) && |h| == 2 && n <= InteriorCount(pfl)
  {
    if n == 0 then TxStart(e, pfl, h) else Replace(TxScanned(e, pfl, h, n - 1), TxCandidate(e, pfl, h, n))
  }

  /** The RX horizon after the first n interior samples. */
  function RxScanned(e: Externals, pfl: seq<real>, h: seq<real>, n: nat): Horizon
    requires Readable(pfl) && |h| == 2 && n <= InteriorCount(pfl)
  {
    if n == 0 then RxStart(e, pfl, h) else Replace(RxScanned(e, pfl, h, n - 1), RxCandidate(e, pfl, h, n))
  }

  /** The TX horizon FindHorizons computes. */
  function TxHorizon(e: Externals, pfl: seq<real>, h: seq<real>): Horizon
    requires Readable(pfl) && |h| == 2
  {
    TxScanned(e, pfl, h, InteriorCount(pfl))
  }

  /** The RX horizon FindHorizons computes. */
  function RxHorizon(e: Externals, pfl: seq<real>, h: seq<real>): Horizon
    requires Readable(pfl) && |h| == 2
  {
    RxScanned(e, pfl, h, InteriorCount(pfl))
  }

  /** One step of the scan on the output arrays: the candidate (theta, dist) replaces
      horizon j only if its angle is strictly higher; the other horizon is untouched. */
  method Offer(thetaHzn: array<real>, dHzn: array<real>, j: int, theta: real, dist: real)
    requires thetaHzn.Length == 2 && dHzn.Length == 2 && thetaHzn != dHzn && 0 <= j < 2
    modifies thetaHzn, dHzn
    ensures Horizon(thetaHzn[j], dHzn[j]) == Replace(old(Horizon(thetaHzn[j], dHzn[j])), Horizon(theta, dist))
    ensures thetaHzn[1 - j] == old(thetaHzn[1 - j]) && dHzn[1 - j] == old(dHzn[1 - j])
  {
    if theta > thetaHzn[j] {
      thetaHzn[j] := theta;
      dHzn[j] := dist;
    }
  }

  /** The sample-by-sample scan is the scan of the candidate prefix. */
  lemma {:induction false} TxScannedIsScan(e: Externals, pfl: seq<real>, h: seq<real>, n: nat)
    requires Readable(pfl) && |h| == 2 && n <= InteriorCount(pfl)
    ensures TxScanned(e, pfl, h, n) == Scan(TxStart(e, pfl, h), TxCandidates(e, pfl, h)[..n])
  {
    if n > 0 {
      TxScannedIsScan(e, pfl, h, n - 1);
      ScanStep(TxStart(e, pfl, h), TxCandidates(e, pfl, h), n - 1);
    }
  }

  lemma {:induction false} RxScannedIsScan(e: Externals, pfl: seq<real>, h: seq<real>, n: nat)
    requires Readable(pfl) && |h| == 2 && n <= InteriorCount(pfl)
    ensures RxScanned(e, pfl, h, n) == Scan(RxStart(e, pfl, h), RxCandidates(e, pfl, h)[..n])
  {
    if n > 0 {
      RxScannedIsScan(e, pfl, h, n - 1);
      ScanStep(RxStart(e, pfl, h), RxCandidates(e, pfl, h), n - 1);
    }
  }

  /** Each horizon is the scan of its start and all its candidates in order. */
  lemma HorizonsAreScans(e: Externals, pfl: seq<real>, h: seq<real>)
    requires Readable(pfl) && |h| == 2
    ensures TxHorizon(e, pfl, h) == Scan(TxStart(e, pfl, h), TxCandidates(e, pfl, h))
    ensures RxHorizon(e, pfl, h) == Scan(RxStart(e, pfl, h), RxCandidates(e, pfl, h))
  {
    var n := InteriorCount(pfl);
    TxScannedIsScan(e, pfl, h, n);
    RxScannedIsScan(e, pfl, h, n);
    assert TxCandidates(e, pfl, h)[..n] == TxCandidates(e, pfl, h);
    assert RxCandidates(e, pfl, h)[..n] == RxCandidates(e, pfl, h);
  }

  /** The body of the scan for interior sample i: its angle seen from each terminal
      is offered to that terminal's horizon. */
  method ScanSample(e: Externals, pfl: seq<real>, h: seq<real>, i: int, zTx: real, zRx: real,
                    dTx: real, dRx: real, thetaHzn: array<real>, dHzn: array<real>)
    requires Readable(pfl) && |h| == 2 && 1 <= i < Np(pfl)
    requires zTx == TxAntenna(pfl, h) && zRx == RxAntenna(pfl, h)
    requires dTx == March(0.0, pfl[1], i) && dRx == March(PathDistance(pfl), -pfl[1], i)
    requires thetaHzn.Length == 2 && dHzn.Length == 2 && thetaHzn != dHzn
    requires Horizon(thetaHzn[0], dHzn[0]) == TxScanned(e, pfl, h, i - 1)
    requires Horizon(thetaHzn[1], dHzn[1]) == RxScanned(e, pfl, h, i - 1)
    modifies thetaHzn, dHzn
    ensures Horizon(thetaHzn[0], dHzn[0]) == TxScanned(e, pfl, h, i)
    ensures Horizon(thetaHzn[1], dHzn[1]) == RxScanned(e, pfl, h, i)
  {
    var thetaTx := Quot(e, pfl[i + 2] - zTx, dTx) - Curvature(dTx);
    var thetaRx := Quot(e, -(zRx - pfl[i + 2]), dRx) - Curvature(dRx);
    assert Horizon(thetaTx, dTx) == TxCandidate(e, pfl, h, i);
    assert Horizon(thetaRx, dRx) == RxCandidate(e, pfl, h, i);
    Offer(thetaHzn, dHzn, 0, thetaTx, dTx);
    Offer(thetaHzn, dHzn, 1, thetaRx, dRx);
  }

  /** FindHorizons: one pass over the interior samples keeps, for each terminal, the
      highest angle seen so far and its distance. Only the two output arrays change. */
  method FindHorizons(e: Externals, pfl: seq<real>, h: seq<real>, thetaHzn: array<real>, dHzn: array<real>)
    requires Readable(pfl) && |h| == 2
    requires thetaHzn.Length == 2 && dHzn.Length == 2 && thetaHzn != dHzn
    modifies thetaHzn, dHzn
    ensures Horizon(thetaHzn[0], dHzn[0]) == TxHorizon(e, pfl, h)
    ensures Horizon(thetaHzn[1], dHzn[1]) == RxHorizon(e, pfl, h)
  {
    var np := TruncToInt(pfl[0]);
    var xi := pfl[1];
    var d := PathDistance(pfl);
    var zTx := TxAntenna(pfl, h);
    var zRx := RxAntenna(pfl, h);
    var startTx := Quot(e, zRx - zTx, d) - Curvature(d);
    var startRx := Quot(e, -(zRx - zTx), d) - Curvature(d);
    assert Horizon(startTx, d) == TxScanned(e, pfl, h, 0);
    assert Horizon(startRx, d) == RxScanned(e, pfl, h, 0);

    thetaHzn[0], thetaHzn[1] := startTx, startRx;
    dHzn[0], dHzn[1] := d, d;

    var dTx := 0.0;
    var dRx := d;
    var i := 1;
    while i < np
      invariant 1 <= i <= if np >= 1 then np else 1
      invariant dTx == March(0.0, xi, i - 1) && dRx == March(d, -xi, i - 1)
      invariant Horizon(thetaHzn[0], dHzn[0]) == TxScanned(e, pfl, h, i - 1)
      invariant Horizon(thetaHzn[1], dHzn[1]) == RxScanned(e, pfl, h, i - 1)
    {
      dTx := dTx + xi;
      dRx := dRx - xi;
      ScanSample(e, pfl, h, i, zTx, zRx, dTx, dRx, thetaHzn, dHzn);
      i := i + 1;
    }
  }

  /** Each horizon starts from the endpoint-to-endpoint angle, at the path distance. */
  lemma HorizonsStartAtPathDistance(e: Externals, pfl: seq<real>, h: seq<real>)
    requires Readable(pfl) && |h| == 2
    ensures TxStart(e, pfl, h).dist == PathDistance(pfl) == RxStart(e, pfl, h).dist
  {
  }

  /** The TX horizon angle is at least the start angle and at least the angle of every
      interior sample, and the horizon is the start or one of the samples. */
  lemma TxHorizonIsMaximum(e: Externals, pfl: seq<real>, h: seq<real>)
    requires Readable(pfl) && |h| == 2
    ensures TxHorizon(e, pfl, h).theta >= TxStart(e, pfl, h).theta
    ensures forall i | 1 <= i < Np(pfl) :: TxHorizon(e, pfl, h).theta >= TxCandidate(e, pfl, h, i).theta
    ensures TxHorizon(e, pfl, h) == TxStart(e, pfl, h)
            || exists i | 1 <= i < Np(pfl) :: TxHorizon(e, pfl, h) == TxCandidate(e, pfl, h, i)
  {
    var cs := TxCandidates(e, pfl, h);
    HorizonsAreScans(e, pfl, h);
    ScanSelectsFirstMaximum(TxStart(e, pfl, h), cs);
    forall i | 1 <= i < Np(pfl)
      ensures TxHorizon(e, pfl, h).theta >= TxCandidate(e, pfl, h, i).theta
    {
      assert cs[i - 1] == TxCandidate(e, pfl, h, i);
    }
    if TxHorizon(e, pfl, h) != TxStart(e, pfl, h) {
      var k :| 0 <= k < |cs| && TxHorizon(e, pfl, h) == cs[k];
      assert cs[k] == TxCandidate(e, pfl, h, k + 1);
    }
  }

  /** The same for the RX horizon. */
  lemma RxHorizonIsMaximum(e: Externals, pfl: seq<real>, h: seq<real>)
    requires Readable(pfl) && |h| == 2
    ensures RxHorizon(e, pfl, h).theta >= RxStart(e, pfl, h).theta
    ensures forall i | 1 <= i < Np(pfl) :: RxHorizon(e, pfl, h).theta >= RxCandidate(e, pfl, h, i).theta
    ensures RxHorizon(e, pfl, h) == RxStart(e, pfl, h)
            || exists i | 1 <= i < Np(pfl) :: RxHorizon(e, pfl, h) == RxCandidate(e, pfl, h, i)
  {
    var cs := RxCandidates(e, pfl, h);
    HorizonsAreScans(e, pfl, h);
    ScanSelectsFirstMaximum(RxStart(e, pfl, h), cs);
    forall i | 1 <= i < Np(pfl)
      ensures RxHorizon(e, pfl, h).theta >= RxCandidate(e, pfl, h, i).theta
    {
      assert cs[i - 1] == RxCandidate(e, pfl, h, i);
    }
    if RxHorizon(e, pfl, h) != RxStart(e, pfl, h) {
      var k :| 0 <= k < |cs| && RxHorizon(e, pfl, h) == cs[k];
      assert cs[k] == RxCandidate(e, pfl, h, k + 1);
    }
  }

  /** Ties keep the earliest sample: when the TX horizon moved off its start, it sits
      at the first interior sample of maximal angle. */
  lemma TxHorizonIsFirstMaximum(e: Externals, pfl: seq<real>, h: seq<real>)
    requires Readable(pfl) && |h| == 2
    ensures TxHorizon(e, pfl, h) == TxStart(e, pfl, h)
            || exists i | 1 <= i < Np(pfl) ::
                 && TxHorizon(e, pfl, h) == TxCandidate(e, pfl, h, i)
                 && TxStart(e, pfl, h).theta < TxCandidate(e, pfl, h, i).theta
                 && forall j | 1 <= j < i :: TxCandidate(e, pfl, h, j).theta < TxCandidate(e, pfl, h, i).theta
  {
    var cs := TxCandidates(e, pfl, h);
    HorizonsAreScans(e, pfl, h);
    ScanSelectsFirstMaximum(TxStart(e, pfl, h), cs);
    if TxHorizon(e, pfl, h) != TxStart(e, pfl, h) {
      var k :| 0 <= k < |cs| && TxHorizon(e, pfl, h) == cs[k] && TxStart(e, pfl, h).theta < cs[k].theta
               && forall j | 0 <= j < k :: cs[j].theta < cs[k].theta;
      assert cs[k] == TxCandidate(e, pfl, h, k + 1);
      forall j | 1 <= j < k + 1
        ensures TxCandidate(e, pfl, h, j).theta < TxCandidate(e, pfl, h, k + 1).theta
      {
        assert cs[j - 1] == TxCandidate(e, pfl, h, j);
      }
    }
  }

  /** Ties keep the earliest sample in scan order for the RX horizon too. */
  lemma RxHorizonIsFirstMaximum(e: Externals, pfl: seq<real>, h: seq<real>)
    requires Readable(pfl) && |h| == 2
    ensures RxHorizon(e, pfl, h) == RxStart(e, pfl, h)
            || exists i | 1 <= i < Np(pfl) ::
                 && RxHorizon(e, pfl, h) == RxCandidate(e, pfl, h, i)
                 && RxStart(e, pfl, h).theta < RxCandidate(e, pfl, h, i).theta
                 && forall j | 1 <= j < i :: RxCandidate(e, pfl, h, j).theta < RxCandidate(e, pfl, h, i).theta
  {
    var cs := RxCandidates(e, pfl, h);
    HorizonsAreScans(e, pfl, h);
    ScanSelectsFirstMaximum(RxStart(e, pfl, h), cs);
    if RxHorizon(e, pfl, h) != RxStart(e, pfl, h) {
      var k :| 0 <= k < |cs| && RxHorizon(e, pfl, h) == cs[k] && RxStart(e, pfl, h).theta < cs[k].theta
               && forall j | 0 <= j < k :: cs[j].theta < cs[k].theta;
      assert cs[k] == RxCandidate(e, pfl, h, k + 1);
      forall j | 1 <= j < k + 1
        ensures RxCandidate(e, pfl, h, j).theta < RxCandidate(e, pfl, h, k + 1).theta
      {
        assert cs[j - 1] == RxCandidate(e, pfl, h, j);
      }
    }
  }

  /** Every interior sample lies strictly inside the path, from either end. */
  lemma CandidateDistancesInside(e: Externals, pfl: seq<real>, h: seq<real>, i: int)
    requires Proper(pfl) && |h| == 2 && 1 <= i < Np(pfl)
    ensures 0.0 < TxCandidate(e, pfl, h, i).dist < PathDistance(pfl)
    ensures 0.0 < RxCandidate(e, pfl, h, i).dist < PathDistance(pfl)
  {
    ProperPathDistance(pfl);
    MarchIsLinear(0.0, pfl[1], i);
    MarchIsLinear(PathDistance(pfl), -pfl[1], i);
    StepsInside(pfl[0], pfl[1], i as real);
  }

  /** i steps of xi from either end of a path of n steps stay strictly inside it. */
  lemma StepsInside(n: real, xi: real, i: real)
    requires 0.0 < xi && 1.0 <= i < n
    ensures 0.0 < 0.0 + i * xi < n * xi
    ensures 0.0 < n * xi + i * -xi < n * xi
  {
    ProductPositive(i, xi);
    ProductPositive(n - i, xi);
    assert n * xi + i * -xi == (n - i) * xi;
    assert n * xi - i * xi == (n - i) * xi;
  }

  /** On a proper profile both horizon distances lie in (0, d]. */
  lemma HorizonDistancesInRange(e: Externals, pfl: seq<real>, h: seq<real>)
    requires Proper(pfl) && |h| == 2
    ensures 0.0 < TxHorizon(e, pfl, h).dist <= PathDistance(pfl)
    ensures 0.0 < RxHorizon(e, pfl, h).dist <= PathDistance(pfl)
  {
    ProperPathDistance(pfl);
    TxHorizonIsMaximum(e, pfl, h);
    RxHorizonIsMaximum(e, pfl, h);
    if TxHorizon(e, pfl, h) != TxStart(e, pfl, h) {
      var i :| 1 <= i < Np(pfl) && TxHorizon(e, pfl, h) == TxCandidate(e, pfl, h, i);
      CandidateDistancesInside(e, pfl, h, i);
    }
    if RxHorizon(e, pfl, h) != RxStart(e, pfl, h) {
      var i :| 1 <= i < Np(pfl) && RxHorizon(e, pfl, h) == RxCandidate(e, pfl, h, i);
      CandidateDistancesInside(e, pfl, h, i);
    }
  }
}
