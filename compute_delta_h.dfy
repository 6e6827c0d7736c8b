/** ComputeDeltaH: the terrain irregularity parameter of a profile window. The window
    is resampled onto n evenly spaced points in a 247-slot PFL-style buffer, a line is
    fitted to it, and delta_h is the spread between the 10% and 90% residual ranks,
    corrected for the window length. */
module DeltaH {
  import opened Numerics
  import opened Horizons
  import opened OrderStatistics

  /** The size of the local resampling buffer. */
  const BufferSize: int := 247

  /** The window ends as fractional profile indices (x_start, x_end). */
  function XStart(e: Externals, pfl: seq<real>, dStart: real): real
    requires |pfl| >= 2
  {
    Quot(e, dStart, pfl[1])
  }

  function XEnd(e: Externals, pfl: seq<real>, dEnd: real): real
    requires |pfl| >= 2
  {
    Quot(e, dEnd, pfl[1])
  }

  /** The window length, in profile intervals. */
  function Span(e: Externals, pfl: seq<real>, dStart: real, dEnd: real): real
    requires |pfl| >= 2
  {
    XEnd(e, pfl, dEnd) - XStart(e, pfl, dStart)
  }

  /** What the caller must provide: once the window is long enough to be resampled,
      its start index lies inside the profile. */
  predicate StartInRange(e: Externals, pfl: seq<real>, dStart: real, dEnd: real)
    requires Readable(pfl)
  {
    Span(e, pfl, dStart, dEnd) >= 2.0 ==> 0.0 <= XStart(e, pfl, dStart) < Np(pfl) as real
  }

  /** The 10% rank: int(0.1 (span + 8)) clamped to [4, 25]. */
  function P10(span: real): (p10: int)
    ensures 4 <= p10 <= 25
  {
    IntMin(IntMax(4, TruncToInt(0.1 * (span + 8.0))), 25)
  }

  /** The number of resampled points, n = 10 p10 - 5. */
  function SampleCount(p10: int): int {
    10 * p10 - 5
  }

  /** The 90% rank, p90 = n - p10. */
  function P90(p10: int): int {
    SampleCount(p10) - p10
  }

  /** The clamp keeps n in [35, 245], so the header and the n samples fit in the
      buffer, and both ranks are valid indices with p10 - 1 < p90 < n. */
  lemma BucketBounds(span: real)
    ensures var p10 := P10(span);
      && 35 <= SampleCount(p10) <= 245
      && SampleCount(p10) + 2 <= BufferSize
      && 0 <= p10 - 1 < P90(p10) < SampleCount(p10)
  {
  }

  /** The sample spacing of the walk, in profile intervals: span / (n - 1). */
  function Step(e: Externals, pfl: seq<real>, dStart: real, dEnd: real): real
    requires |pfl| >= 2
  {
    var span := Span(e, pfl, dStart, dEnd);
    span / (SampleCount(P10(span)) - 1) as real
  }

  /** The index the walk rests on for a position: starting from i0 = int(x_start) it
      advances while the position lies beyond i + 1, and never past np - 1. */
  function WalkIndex(np: int, i0: int, pos: real): int {
    IntMax(i0, IntMin(Ceil(pos) - 1, np - 1))
  }

  lemma WalkIndexMonotone(np: int, i0: int, p: real, q: real)
    requires p <= q
    ensures WalkIndex(np, i0, p) <= WalkIndex(np, i0, q)
  {
    CeilMonotone(p, q);
  }

  /** The line through (-1, lo) and (0, hi), evaluated at t. */
  function Extrapolate(lo: real, hi: real, t: real): real {
    hi + (hi - lo) * t
  }

  /** Linear interpolation at pos from the samples at indices i and i + 1 (elevations
      pfl[i + 2] and pfl[i + 3]). */
  function Interpolate(pfl: seq<real>, i: int, pos: real): real
    requires 0 <= i && i + 3 < |pfl|
  {
    Extrapolate(pfl[i + 2], pfl[i + 3], pos - (i as real + 1.0))
  }

  /** The walk's preconditions: a start position inside the np intervals of the profile
      and a positive step. */
  predicate WalkInRange(pfl: seq<real>, np: int, x0: real, step: real) {
    0.0 <= x0 < np as real && np + 3 <= |pfl| && 0.0 < step
  }

  /** The elevation sampled at position x0 + j step, from the index the walk rests on
      when started at int(x0). */
  function Sample(pfl: seq<real>, np: int, x0: real, step: real, j: nat): real
    requires WalkInRange(pfl, np, x0, step)
  {
    var pos := March(x0, step, j);
    Interpolate(pfl, WalkIndex(np, TruncToInt(x0), pos), pos)
  }

  /** The n elevations sampled at positions x0, x0 + step, ... */
  function Samples(pfl: seq<real>, np: int, x0: real, step: real, n: nat): (rs: seq<real>)
    requires WalkInRange(pfl, np, x0, step)
    ensures |rs| == n
    ensures forall j | 0 <= j < n :: rs[j] == Sample(pfl, np, x0, step, j)
  {
    seq(n, j requires 0 <= j < n => Sample(pfl, np, x0, step, j))
  }

  /** The walk rests on indices i0 .. np - 1 only, so every read of pfl[i + 2] and
      pfl[i + 3] is inside the profile. */
  lemma WalkStaysInProfile(pfl: seq<real>, np: int, x0: real, step: real, j: nat)
    requires WalkInRange(pfl, np, x0, step)
    ensures var i := WalkIndex(np, TruncToInt(x0), March(x0, step, j));
      0 <= TruncToInt(x0) <= i <= np - 1 && 2 <= i + 2 && i + 3 < |pfl|
  {
  }

  /** A PFL-style buffer of 247 slots: the header (n - 1 intervals of spacing 1),
      the n samples, and zeros. */
  function BufferOf(rs: seq<real>): (s: seq<real>)
    requires |rs| + 2 <= BufferSize
    ensures |s| == BufferSize
  {
    [(|rs| - 1) as real, 1.0] + rs + seq(BufferSize - 2 - |rs|, _ => 0.0)
  }

  lemma BufferLayout(rs: seq<real>)
    requires |rs| + 2 <= BufferSize
    ensures var s := BufferOf(rs);
      && s[0] == (|rs| - 1) as real && s[1] == 1.0
      && (forall j | 0 <= j < |rs| :: s[j + 2] == rs[j])
      && (forall k | |rs| + 2 <= k < BufferSize :: s[k] == 0.0)
  {
  }

  /** A sequence laid out as header, samples and zeros is that buffer. */
  lemma BufferFromLayout(t: seq<real>, rs: seq<real>)
    requires |rs| + 2 <= BufferSize && |t| == BufferSize
    requires t[0] == (|rs| - 1) as real && t[1] == 1.0
    requires forall j | 0 <= j < |rs| :: t[j + 2] == rs[j]
    requires forall k | |rs| + 2 <= k < BufferSize :: t[k] == 0.0
    ensures t == BufferOf(rs)
  {
    var b := BufferOf(rs);
    BufferLayout(rs);
    forall k | 0 <= k < BufferSize
      ensures t[k] == b[k]
    {
      if 2 <= k < |rs| + 2 {
        assert t[(k - 2) + 2] == b[(k - 2) + 2];
      }
    }
  }

  /** The line fitted over buffer samples 2 .. n + 1 at x = 0 .. n - 1: its value at
      x = 0 and its slope per sample. */
  function FittedLine(e: Externals, s: seq<real>, n: nat): (line: (real, real))
    requires 2 <= n
  {
    var fit := e.leastSquaresFit(s, 0.0, (n - 1) as real);
    (fit.0, (fit.1 - fit.0) / (n - 1) as real)
  }

  /** The residual of sample j from the fitted line, whose value advances by its slope
      from one sample to the next. */
  function Residual(e: Externals, s: seq<real>, n: nat, j: nat): real
    requires 2 <= n && j + 2 < |s|
  {
    var line := FittedLine(e, s, n);
    s[j + 2] - March(line.0, line.1, j)
  }

  /** The residuals of buffer samples 2 .. n + 1 from the fitted line. */
  function ResidualsOf(e: Externals, s: seq<real>, n: nat): (ds: seq<real>)
    requires 2 <= n && n + 2 <= |s|
    ensures |ds| == n
    ensures forall j | 0 <= j < n :: ds[j] == Residual(e, s, n, j)
  {
    seq(n, j requires 0 <= j < n => Residual(e, s, n, j))
  }

  /** The profile position of sample j: x_start advanced by j steps. */
  function Position(e: Externals, pfl: seq<real>, dStart: real, dEnd: real, j: nat): real
    requires |pfl| >= 2
  {
    March(XStart(e, pfl, dStart), Step(e, pfl, dStart, dEnd), j)
  }

  /** Once the window is long enough, the walk over it is in range. */
  lemma WindowWalkInRange(e: Externals, pfl: seq<real>, dStart: real, dEnd: real)
    requires Readable(pfl) && StartInRange(e, pfl, dStart, dEnd) && Span(e, pfl, dStart, dEnd) >= 2.0
    ensures WalkInRange(pfl, Np(pfl), XStart(e, pfl, dStart), Step(e, pfl, dStart, dEnd))
  {
    BucketBounds(Span(e, pfl, dStart, dEnd));
  }

  /** The n resampled elevations of the window. */
  function Resampled(e: Externals, pfl: seq<real>, dStart: real, dEnd: real): (rs: seq<real>)
    requires Readable(pfl) && StartInRange(e, pfl, dStart, dEnd) && Span(e, pfl, dStart, dEnd) >= 2.0
    ensures |rs| == SampleCount(P10(Span(e, pfl, dStart, dEnd)))
  {
    WindowWalkInRange(e, pfl, dStart, dEnd);
    Samples(pfl, Np(pfl), XStart(e, pfl, dStart), Step(e, pfl, dStart, dEnd), SampleCount(P10(Span(e, pfl, dStart, dEnd))))
  }

  /** Sample j of the window is the interpolation at Position(j), from the index the
      walk rests on. */
  lemma ResampledAt(e: Externals, pfl: seq<real>, dStart: real, dEnd: real, j: nat)
    requires Readable(pfl) && StartInRange(e, pfl, dStart, dEnd) && Span(e, pfl, dStart, dEnd) >= 2.0
    requires j < SampleCount(P10(Span(e, pfl, dStart, dEnd)))
    ensures var i := WalkIndex(Np(pfl), TruncToInt(XStart(e, pfl, dStart)), Position(e, pfl, dStart, dEnd, j));
      && 0 <= i <= Np(pfl) - 1
      && Resampled(e, pfl, dStart, dEnd)[j] == Interpolate(pfl, i, Position(e, pfl, dStart, dEnd, j))
  {
    WindowWalkInRange(e, pfl, dStart, dEnd);
    WalkStaysInProfile(pfl, Np(pfl), XStart(e, pfl, dStart), Step(e, pfl, dStart, dEnd), j);
  }

  /** The local buffer after resampling. */
  function Buffer(e: Externals, pfl: seq<real>, dStart: real, dEnd: real): (s: seq<real>)
    requires Readable(pfl) && StartInRange(e, pfl, dStart, dEnd) && Span(e, pfl, dStart, dEnd) >= 2.0
    ensures |s| == BufferSize
  {
    BucketBounds(Span(e, pfl, dStart, dEnd));
    BufferOf(Resampled(e, pfl, dStart, dEnd))
  }

  /** The buffer carries the PFL header s[0] = n - 1, s[1] = 1, then the samples and
      zeros. */
  lemma BufferHeader(e: Externals, pfl: seq<real>, dStart: real, dEnd: real)
    requires Readable(pfl) && StartInRange(e, pfl, dStart, dEnd) && Span(e, pfl, dStart, dEnd) >= 2.0
    ensures var s := Buffer(e, pfl, dStart, dEnd);
      var n := SampleCount(P10(Span(e, pfl, dStart, dEnd)));
      && s[0] == (n - 1) as real && s[1] == 1.0
      && (forall j | 0 <= j < n :: s[j + 2] == Resampled(e, pfl, dStart, dEnd)[j])
      && (forall k | n + 2 <= k < BufferSize :: s[k] == 0.0)
  {
    BucketBounds(Span(e, pfl, dStart, dEnd));
    BufferLayout(Resampled(e, pfl, dStart, dEnd));
  }

  /** The residuals of the window. */
  function Residuals(e: Externals, pfl: seq<real>, dStart: real, dEnd: real): (ds: seq<real>)
    requires Readable(pfl) && StartInRange(e, pfl, dStart, dEnd) && Span(e, pfl, dStart, dEnd) >= 2.0
    ensures |ds| == SampleCount(P10(Span(e, pfl, dStart, dEnd)))
  {
    BucketBounds(Span(e, pfl, dStart, dEnd));
    ResidualsOf(e, Buffer(e, pfl, dStart, dEnd), SampleCount(P10(Span(e, pfl, dStart, dEnd))))
  }

  /** The window-length correction 1 - 0.8 exp(-(d_end - d_start) / 50 km). */
  function WindowCorrection(e: Externals, dStart: real, dEnd: real): real {
    1.0 - 0.8 * e.exp(-(dEnd - dStart) / 50000.0)
  }

  /** The values read at positions p10 - 1 and p90 after the two nth_element calls,
      the second applied to the first's arrangement. */
  function RankPair(ds: seq<real>, p10: int): (real, real)
    requires 4 <= p10 <= 25 && |ds| == SampleCount(p10)
  {
    var first := NthElement(ds, p10 - 1);
    var second := NthElement(first, P90(p10));
    (first[p10 - 1], second[P90(p10)])
  }

  /** The 10% and 90% rank values of the window's residuals. */
  function Quantiles(e: Externals, pfl: seq<real>, dStart: real, dEnd: real): (real, real)
    requires Readable(pfl) && StartInRange(e, pfl, dStart, dEnd) && Span(e, pfl, dStart, dEnd) >= 2.0
  {
    RankPair(Residuals(e, pfl, dStart, dEnd), P10(Span(e, pfl, dStart, dEnd)))
  }

  /** The value ComputeDeltaH returns. */
  function DeltaHSpec(e: Externals, pfl: seq<real>, dStart: real, dEnd: real): real
    requires Readable(pfl) && StartInRange(e, pfl, dStart, dEnd)
  {
    if Span(e, pfl, dStart, dEnd) < 2.0 then 0.0
    else
      var q := Quantiles(e, pfl, dStart, dEnd);
      Quot(e, q.0 - q.1, WindowCorrection(e, dStart, dEnd))
  }

  /** The inner loop of the walk: moves the index forward one interval at a time while
      the position x + i + 1 lies beyond i + 1, and never past np - 1. The position
      itself does not change. */
  method Advance(np: int, i: int, x: real) returns (i': int, x': real)
    requires i <= np - 1
    ensures i' == IntMax(i, IntMin(Ceil(x + (i as real + 1.0)) - 1, np - 1))
    ensures x' + (i' as real + 1.0) == x + (i as real + 1.0)
  {
    ghost var pos := x + (i as real + 1.0);
    ghost var target := IntMax(i, IntMin(Ceil(pos) - 1, np - 1));
    i', x' := i, x;
    while x' > 0.0 && i' + 1 < np
      invariant i <= i' <= target
      invariant x' + (i' as real + 1.0) == pos
      decreases np - i'
    {
      x' := x' - 1.0;
      i' := i' + 1;
    }
  }

  /** Advancing from the index of an earlier position reaches the index of the later one. */
  lemma WalkIndexStep(np: int, i0: int, p: real, q: real)
    requires p <= q && i0 <= np - 1
    ensures IntMax(WalkIndex(np, i0, p), IntMin(Ceil(q) - 1, np - 1)) == WalkIndex(np, i0, q)
  {
    CeilMonotone(p, q);
  }

  /** The resampling walk: fills a fresh buffer with the header and the n samples at
      x0, x0 + step, ..., carrying the fractional offset x and the index i from one
      sample to the next. */
  method Resample(pfl: seq<real>, np: int, x0: real, step: real, n: int) returns (s: array<real>)
    requires WalkInRange(pfl, np, x0, step) && 1 <= n && n + 2 <= BufferSize
    ensures fresh(s)
    ensures s[..] == BufferOf(Samples(pfl, np, x0, step, n))
  {
    s := new real[247](_ => 0.0);
    s[0] := (n - 1) as real;
    s[1] := 1.0;
    var i := TruncToInt(x0);
    var x := x0 - (i as real + 1.0);
    ghost var i0 := i;

    var j := 0;
    while j < n
      invariant 0 <= j <= n
      invariant 0 <= i0 <= i <= np - 1
      invariant i == if j == 0 then i0 else WalkIndex(np, i0, March(x0, step, j - 1))
      invariant x + (i as real + 1.0) == March(x0, step, j)
      invariant s[0] == (n - 1) as real && s[1] == 1.0
      invariant forall k | 0 <= k < j :: s[k + 2] == Sample(pfl, np, x0, step, k)
      invariant forall k | j + 2 <= k < BufferSize :: s[k] == 0.0
    {
      ghost var pos := March(x0, step, j);
      if j > 0 {
        WalkIndexStep(np, i0, March(x0, step, j - 1), pos);
      }
      i, x := Advance(np, i, x);
      assert i == WalkIndex(np, i0, pos);

      var v := Extrapolate(pfl[i + 2], pfl[i + 3], x);
      assert v == Sample(pfl, np, x0, step, j);
      s[j + 2] := v;

      x := x + step;
      j := j + 1;
    }
    BufferFromLayout(s[..], Samples(pfl, np, x0, step, n));
  }

  /** The residual loop: subtracts the fitted line, advanced one slope per sample. */
  method FitResiduals(e: Externals, s: seq<real>, n: int) returns (diffs: seq<real>)
    requires 2 <= n && n + 2 <= |s|
    ensures diffs == ResidualsOf(e, s, n)
  {
    var npS := (n - 1) as real;
    var fit := e.leastSquaresFit(s, 0.0, npS);
    var fitY1 := fit.0;
    var fitY2 := (fit.1 - fit.0) / npS;
    ghost var line := FittedLine(e, s, n);
    assert line == (fit.0, fitY2);
    diffs := [];
    var j := 0;
    while j < n
      invariant 0 <= j <= n && |diffs| == j
      invariant fitY1 == March(line.0, line.1, j)
      invariant forall k | 0 <= k < j :: diffs[k] == Residual(e, s, n, k)
    {
      diffs := diffs + [s[j + 2] - fitY1];
      fitY1 := fitY1 + fitY2;
      j := j + 1;
    }
  }

  /** The two nth_element calls on the residuals and the reads at p10 - 1 and p90. */
  method SelectRanks(diffs: seq<real>, p10: int) returns (q10: real, q90: real)
    requires 4 <= p10 <= 25 && |diffs| == SampleCount(p10)
    ensures (q10, q90) == RankPair(diffs, p10)
  {
    var p90 := SampleCount(p10) - p10;
    var ds := NthElement(diffs, p10 - 1);
    q10 := ds[p10 - 1];
    ds := NthElement(ds, p90);
    q90 := ds[p90];
  }

  /** The resampling walk, the residual loop and the two selections of a window of at
      least two intervals: the 10% and 90% rank values of its residuals. */
  method WindowQuantiles(e: Externals, pfl: seq<real>, dStart: real, dEnd: real,
                         np: int, xStart: real, step: real, p10: int, n: int)
    returns (q10: real, q90: real)
    requires Readable(pfl) && StartInRange(e, pfl, dStart, dEnd) && Span(e, pfl, dStart, dEnd) >= 2.0
    requires np == Np(pfl) && xStart == XStart(e, pfl, dStart) && step == Step(e, pfl, dStart, dEnd)
    requires p10 == P10(Span(e, pfl, dStart, dEnd)) && n == SampleCount(p10)
    ensures (q10, q90) == Quantiles(e, pfl, dStart, dEnd)
  {
    BucketBounds(Span(e, pfl, dStart, dEnd));
    WindowWalkInRange(e, pfl, dStart, dEnd);
    var s := Resample(pfl, np, xStart, step, n);
    assert s[..] == Buffer(e, pfl, dStart, dEnd);
    var diffs := FitResiduals(e, s[..], n);
    assert diffs == Residuals(e, pfl, dStart, dEnd);
    q10, q90 := SelectRanks(diffs, p10);
  }

  /** ComputeDeltaH, with the resampling buffer as a local array and the residuals as a
      growing sequence reordered by nth_element. */
  method ComputeDeltaH(e: Externals, pfl: seq<real>, dStart: real, dEnd: real) returns (deltaH: real)
    requires Readable(pfl) && StartInRange(e, pfl, dStart, dEnd)
    ensures deltaH == DeltaHSpec(e, pfl, dStart, dEnd)
  {
    var xStart := Quot(e, dStart, pfl[1]);
    var xEnd := Quot(e, dEnd, pfl[1]);
    assert xEnd - xStart == Span(e, pfl, dStart, dEnd);
    if xEnd - xStart < 2.0 {
      ShortWindowIsFlat(e, pfl, dStart, dEnd);
      return 0.0;
    }
    deltaH := LongWindowDeltaH(e, pfl, dStart, dEnd, xStart, xEnd);
  }

  /** ComputeDeltaH past the short-window return: the bucket sizes, the quantiles and
      the corrected spread. */
  method LongWindowDeltaH(e: Externals, pfl: seq<real>, dStart: real, dEnd: real, xStart: real, xEnd: real)
    returns (deltaH: real)
    requires Readable(pfl) && StartInRange(e, pfl, dStart, dEnd)
    requires xStart == XStart(e, pfl, dStart) && xEnd - xStart == Span(e, pfl, dStart, dEnd) && xEnd - xStart >= 2.0
    ensures deltaH == DeltaHSpec(e, pfl, dStart, dEnd)
  {
    var span := xEnd - xStart;
    BucketBounds(span);
    var np := TruncToInt(pfl[0]);
    var p10 := IntMin(IntMax(4, TruncToInt(0.1 * (span + 8.0))), 25);
    var n := 10 * p10 - 5;
    var step := span / (n - 1) as real;
    var correction := 1.0 - 0.8 * e.exp(-(dEnd - dStart) / 50000.0);
    assert np == Np(pfl) && p10 == P10(span) && n == SampleCount(p10);
    assert step == Step(e, pfl, dStart, dEnd);
    var q10, q90 := WindowQuantiles(e, pfl, dStart, dEnd, np, xStart, step, p10, n);
    deltaH := Quot(e, q10 - q90, correction);
    DeltaHFromQuantiles(e, pfl, dStart, dEnd, q10, q90, correction, deltaH);
  }

  /** Past the short-window case, delta_h is the quantile spread over the correction. */
  lemma DeltaHFromQuantiles(e: Externals, pfl: seq<real>, dStart: real, dEnd: real,
                            q10: real, q90: real, correction: real, deltaH: real)
    requires Readable(pfl) && StartInRange(e, pfl, dStart, dEnd) && Span(e, pfl, dStart, dEnd) >= 2.0
    requires (q10, q90) == Quantiles(e, pfl, dStart, dEnd)
    requires correction == 1.0 - 0.8 * e.exp(-(dEnd - dStart) / 50000.0)
    requires deltaH == Quot(e, q10 - q90, correction)
    ensures deltaH == DeltaHSpec(e, pfl, dStart, dEnd)
  {
    assert correction == WindowCorrection(e, dStart, dEnd);
  }

  /** A window shorter than two intervals gives delta_h = 0. */
  lemma ShortWindowIsFlat(e: Externals, pfl: seq<real>, dStart: real, dEnd: real)
    requires Readable(pfl) && StartInRange(e, pfl, dStart, dEnd)
    requires XEnd(e, pfl, dEnd) - XStart(e, pfl, dStart) < 2.0
    ensures DeltaHSpec(e, pfl, dStart, dEnd) == 0.0
  {
  }

  /** The first selection reads the p10-th largest residual and the second, which only
      permutes the first's result, the (p90 + 1)-th largest; so q10 >= q90. */
  lemma QuantilesAreRanks(e: Externals, pfl: seq<real>, dStart: real, dEnd: real)
    requires Readable(pfl) && StartInRange(e, pfl, dStart, dEnd) && Span(e, pfl, dStart, dEnd) >= 2.0
    ensures var q := Quantiles(e, pfl, dStart, dEnd);
      var p10 := P10(Span(e, pfl, dStart, dEnd));
      var ds := Residuals(e, pfl, dStart, dEnd);
      && q.0 == KthLargest(ds, p10 - 1)
      && q.1 == KthLargest(ds, P90(p10))
      && q.0 >= q.1
  {
    var p10 := P10(Span(e, pfl, dStart, dEnd));
    var ds := Residuals(e, pfl, dStart, dEnd);
    BucketBounds(Span(e, pfl, dStart, dEnd));
    var first := NthElement(ds, p10 - 1);
    var second := NthElement(first, P90(p10));
    NthElementValue(ds, first, p10 - 1);
    assert NthElementOutcome(ds, second, P90(p10));
    NthElementValue(ds, second, P90(p10));
    KthLargestMonotone(ds, p10 - 1, P90(p10));
  }

  lemma QuotientNonNegative(x: real, y: real)
    requires 0.0 <= x && 0.0 < y
    ensures 0.0 <= x / y
  {
  }

  /** A window of at least two intervals on a positive spacing has d_end > d_start. */
  lemma LongWindowIsForward(e: Externals, pfl: seq<real>, dStart: real, dEnd: real)
    requires |pfl| >= 2 && 0.0 < pfl[1] && Span(e, pfl, dStart, dEnd) >= 2.0
    ensures dStart < dEnd
  {
    var xi := pfl[1];
    assert Span(e, pfl, dStart, dEnd) == dEnd / xi - dStart / xi;
  }

  /** For a forward window the correction 1 - 0.8 exp(-(d_end - d_start) / 50 km) lies
      in [0.2, 1). */
  lemma WindowCorrectionBounds(e: Externals, dStart: real, dEnd: real)
    requires ExpPositive(e) && ExpAtMostOneBelowZero(e) && dStart < dEnd
    ensures 0.2 <= WindowCorrection(e, dStart, dEnd) < 1.0
  {
    assert 0.0 < e.exp(-(dEnd - dStart) / 50000.0) <= 1.0;
  }

  /** On a proper profile, delta_h is never negative: the rank spread is nonnegative and
      the window correction is positive. */
  lemma DeltaHNonNegative(e: Externals, pfl: seq<real>, dStart: real, dEnd: real)
    requires ExpPositive(e) && ExpAtMostOneBelowZero(e) && Proper(pfl) && StartInRange(e, pfl, dStart, dEnd)
    ensures DeltaHSpec(e, pfl, dStart, dEnd) >= 0.0
  {
    if Span(e, pfl, dStart, dEnd) >= 2.0 {
      QuantilesAreRanks(e, pfl, dStart, dEnd);
      LongWindowIsForward(e, pfl, dStart, dEnd);
      WindowCorrectionBounds(e, dStart, dEnd);
      var q := Quantiles(e, pfl, dStart, dEnd);
      var c := WindowCorrection(e, dStart, dEnd);
      QuotientNonNegative(q.0 - q.1, c);
      DeltaHFromQuantiles(e, pfl, dStart, dEnd, q.0, q.1, c, Quot(e, q.0 - q.1, c));
    }
  }
}
