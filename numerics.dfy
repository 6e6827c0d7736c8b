/** Shared numeric vocabulary of the lunar Longley-Rice model: the utility macros
    MAX, MIN and DIM, the physical constants, the C++ conversion of a double to an
    int (truncation toward zero), complex numbers as (re, im) pairs, and the external
    functions whose bodies are not part of the model. */
module Numerics {

  /** PI as the headers define it. */
  const Pi: real := 3.1415926535897932384

  /** Radius of the Moon, in meters (a_m__meter; the other header calls it a_e__meter). */
  const MoonRadius: real := 1737400.0

  /** Speed of light, in m/s, as LongleyRice, LineOfSightLoss and Variability write it. */
  const SpeedOfLight: real := 299792458.0

  /** The MAX macro: the first argument when it is strictly larger, else the second. */
  function Max(x: real, y: real): (r: real)
    ensures r >= x && r >= y
    ensures r == x || r == y
  {
    if x > y then x else y
  }

  /** The MIN macro. */
  function Min(x: real, y: real): (r: real)
    ensures r <= x && r <= y
    ensures r == x || r == y
  {
    if x < y then x else y
  }

  /** The DIM macro (and fdim on non-NaN values): the positive difference. */
  function Dim(x: real, y: real): (r: real)
    ensures r >= 0.0
    ensures r > 0.0 <==> x > y
    ensures x > y ==> x == y + r
  {
    if x > y then x - y else 0.0
  }

  /** std::max on ints. */
  function IntMax(x: int, y: int): (r: int)
    ensures r >= x && r >= y && (r == x || r == y)
  {
    if x < y then y else x
  }

  /** std::min on ints. */
  function IntMin(x: int, y: int): (r: int)
    ensures r <= x && r <= y && (r == x || r == y)
  {
    if y < x then y else x
  }

  function Abs(x: real): (r: real)
    ensures r >= 0.0 && (r == x || r == -x)
  {
    if x < 0.0 then -x else x
  }

  function Square(x: real): (r: real)
    ensures r >= 0.0
  {
    x * x
  }

  /** The C++ conversion int(x) of a double: truncation toward zero. */
  function TruncToInt(x: real): (n: int)
    ensures 0.0 <= x ==> n as real <= x < n as real + 1.0
    ensures x < 0.0 ==> n as real - 1.0 < x <= n as real
  {
    if x >= 0.0 then x.Floor else -((-x).Floor)
  }

  /** The least integer not below x. */
  function Ceil(x: real): (c: int)
    ensures c as real - 1.0 < x <= c as real
  {
    -((-x).Floor)
  }

  lemma CeilMonotone(x: real, y: real)
    requires x <= y
    ensures Ceil(x) <= Ceil(y)
  {
  }

  /** Complex numbers of the source (std::complex<double>) as (re, im) pairs. */
  datatype Complex = Complex(re: real, im: real)

  function FromReal(x: real): Complex { Complex(x, 0.0) }

  function Add(a: Complex, b: Complex): Complex { Complex(a.re + b.re, a.im + b.im) }

  function Sub(a: Complex, b: Complex): Complex { Complex(a.re - b.re, a.im - b.im) }

  /** Multiplication of a complex number by a real one. */
  function Scale(a: Complex, c: real): (r: Complex)
    ensures NormSq(r) == c * c * NormSq(a)
  {
    Complex(a.re * c, a.im * c)
  }

  /** The squared magnitude re^2 + im^2. */
  function NormSq(a: Complex): (r: real)
    ensures r >= 0.0
  {
    a.re * a.re + a.im * a.im
  }

  /** Complex division a / b; a zero divisor falls back to IEEE's non-finite result. */
  function Div(e: Externals, a: Complex, b: Complex): Complex
  {
    var n := NormSq(b);
    Complex(Quot(e, a.re * b.re + a.im * b.im, n), Quot(e, a.im * b.re - a.re * b.im, n))
  }

  /** The collaborators of the core whose bodies lie outside the model: the C math
      library, the excluded loss curve fits, and the two helpers declared without a
      body in the header. Each is an arbitrary function of the right signature; the
      predicates below state the only facts the proofs use about them. */
  datatype Externals = Externals(
    exp: real -> real,
    log: real -> real,
    log10: real -> real,
    sqrt: real -> real,
    sin: real -> real,
    cos: real -> real,
    pow: (real, real) -> real,
    /** The value of x / 0.0 in IEEE-754 (an infinity or NaN); the model leaves it unspecified. */
    divByZero: real -> real,
    /** KnifeEdgeDiffraction(d, f, theta_los, d_hzn). */
    knifeEdge: (real, real, real, seq<real>) -> real,
    /** SmoothMoonDiffraction(d, f, theta_los, d_hzn, h_e, Z_g). */
    smoothMoon: (real, real, real, seq<real>, seq<real>, Complex) -> real,
    /** LinearLeastSquaresFit(pfl, d_start, d_end) as its two outputs (fit_y1, fit_y2). */
    leastSquaresFit: (seq<real>, real, real) -> (real, real),
    /** InverseComplementaryCumulativeDistributionFunction(q). */
    inverseCcdf: real -> real,
    /** InitializePointToPoint(f, pol, epsilon, sigma): the complex ground impedance. */
    groundImpedance: (real, int, real, real) -> Complex,
    /** FreeSpaceLoss(d, f): the free-space basic transmission loss, in dB. */
    freeSpaceLoss: (real, real) -> real
  )

  /** Division as the source performs it on doubles: the exact quotient when the
      divisor is nonzero, IEEE's non-finite result otherwise. */
  function Quot(e: Externals, x: real, y: real): real
  {
    if y == 0.0 then e.divByZero(x) else x / y
  }

  /** A nonzero value divided by itself is 1. */
  lemma QuotSelf(e: Externals, x: real)
    requires x != 0.0
    ensures Quot(e, x, x) == 1.0
  {
  }

  /** The C library functions as the model's code calls them. */
  function Exp(e: Externals, x: real): real { e.exp(x) }

  function Sqrt(e: Externals, x: real): real { e.sqrt(x) }

  function Pow(e: Externals, x: real, y: real): real { e.pow(x, y) }

  function Log10(e: Externals, x: real): real { e.log10(x) }

  function Sin(e: Externals, x: real): real { e.sin(x) }

  function Cos(e: Externals, x: real): real { e.cos(x) }

  /** InitializePointToPoint(f, pol, epsilon, sigma): the complex ground impedance Z_g. */
  function GroundImpedance(e: Externals, f: real, pol: int, epsilon: real, sigma: real): Complex {
    e.groundImpedance(f, pol, epsilon, sigma)
  }

  /** FreeSpaceLoss(d, f), in dB. */
  function FreeSpaceLoss(e: Externals, d: real, f: real): real { e.freeSpaceLoss(d, f) }

  /** LinearLeastSquaresFit(pfl, d_start, d_end) as its pair of outputs. */
  function LeastSquaresFit(e: Externals, pfl: seq<real>, dStart: real, dEnd: real): (real, real) {
    e.leastSquaresFit(pfl, dStart, dEnd)
  }

  ghost predicate ExpPositive(e: Externals) {
    forall x :: e.exp(x) > 0.0
  }

  ghost predicate ExpAtMostOneBelowZero(e: Externals) {
    forall x :: x <= 0.0 ==> e.exp(x) <= 1.0
  }

  ghost predicate ExpBelowOneForNegative(e: Externals) {
    forall x :: x < 0.0 ==> e.exp(x) < 1.0
  }

  ghost predicate SqrtExact(e: Externals) {
    forall x :: 0.0 <= x ==> 0.0 <= e.sqrt(x) && e.sqrt(x) * e.sqrt(x) == x
  }

  ghost predicate PowPositive(e: Externals) {
    forall x, y :: 0.0 < x ==> 0.0 < e.pow(x, y)
  }

  ghost predicate LogPositiveAboveOne(e: Externals) {
    forall x :: 1.0 < x ==> 0.0 < e.log(x)
  }

  ghost predicate SinPositiveOnHalfTurn(e: Externals) {
    forall x :: 0.0 < x < Pi ==> 0.0 < e.sin(x)
  }

  /** pow(x, 2) is the exact square, as it is for IEEE doubles up to rounding. */
  ghost predicate PowTwoIsSquare(e: Externals) {
    forall x :: e.pow(x, 2.0) == x * x
  }

  /** Facts of real analysis the proofs rely on; the real functions satisfy all of them. */
  ghost predicate Sound(e: Externals) {
    ExpPositive(e) && ExpAtMostOneBelowZero(e) && ExpBelowOneForNegative(e) && SqrtExact(e) && PowPositive(e)
    && LogPositiveAboveOne(e) && SinPositiveOnHalfTurn(e) && PowTwoIsSquare(e)
  }

  lemma SqrtPositive(e: Externals, x: real)
    requires SqrtExact(e) && 0.0 < x
    ensures 0.0 < e.sqrt(x)
  {
    assert e.sqrt(x) * e.sqrt(x) == x;
  }

  lemma ProductNonNegative(x: real, y: real)
    requires 0.0 <= x && 0.0 <= y
    ensures 0.0 <= x * y
  {
  }

  lemma ProductPositive(x: real, y: real)
    requires 0.0 < x && 0.0 < y
    ensures 0.0 < x * y
  {
  }

  /** 0 < a / b < 1 when 0 < a < b. */
  lemma QuotientInUnitInterval(a: real, b: real, r: real)
    requires 0.0 < a < b && r == a / b
    ensures 0.0 < r && r < 1.0
  {
    ProductPositive(a, 1.0 / b);
    ProductPositive(b - a, 1.0 / b);
    assert 1.0 - r == (b - a) * (1.0 / b);
  }

  /** Multiplying both sides of a < b by c > 0 keeps the order. */
  lemma MultiplyStrict(a: real, b: real, c: real, p: real, q: real)
    requires a < b && 0.0 < c && p == a * c && q == b * c
    ensures p < q
  {
    ProductPositive(b - a, c);
    assert q - p == (b - a) * c;
  }

  /** Squaring is strictly increasing on the nonnegative reals. */
  lemma SquareStrictlyIncreasing(b: real, a: real)
    requires 0.0 <= b < a
    ensures b * b < a * a
  {
    ProductPositive(a - b, a + b);
    assert a * a - b * b == (a - b) * (a + b);
  }

  lemma {:induction false} SqrtOfSquare(e: Externals, x: real)
    requires SqrtExact(e) && 0.0 <= x
    ensures e.sqrt(x * x) == x
  {
    var r := e.sqrt(x * x);
    assert 0.0 <= r && r * r == x * x;
    if r < x {
      SquareStrictlyIncreasing(r, x);
    } else if x < r {
      SquareStrictlyIncreasing(x, r);
    }
  }

  lemma {:induction false} SqrtStrictlyIncreasing(e: Externals, x: real, y: real)
    requires SqrtExact(e) && 0.0 <= x < y
    ensures e.sqrt(x) < e.sqrt(y)
  {
    var a, b := e.sqrt(x), e.sqrt(y);
    assert 0.0 <= a && a * a == x;
    assert 0.0 <= b && b * b == y;
    if b < a {
      SquareStrictlyIncreasing(b, a);
    }
  }

  /** The value after i steps of repeated addition of `step` to `start`, as the profile
      scans advance a distance or an index one step at a time. */
  function March(start: real, step: real, i: nat): real {
    if i == 0 then start else March(start, step, i - 1) + step
  }

  lemma {:induction false} MarchIsLinear(start: real, step: real, i: nat)
    ensures March(start, step, i) == start + i as real * step
  {
    if i > 0 {
      MarchIsLinear(start, step, i - 1);
      assert (i - 1) as real * step + step == i as real * step;
    }
  }

  /** TerrainRoughness(d, delta_h): the terrain irregularity of a path of length d,
      delta_h (1 - 0.8 exp(-d / 50 km)). */
  function TerrainRoughness(e: Externals, d: real, deltaH: real): real {
    deltaH * (1.0 - 0.8 * Exp(e, -d / 50000.0))
  }

  /** A smooth terrain (delta_h = 0) stays smooth at every distance, and a rough one
      never gets rougher than delta_h. */
  lemma TerrainRoughnessBounds(e: Externals, d: real, deltaH: real)
    requires ExpPositive(e) && ExpAtMostOneBelowZero(e) && 0.0 <= d && 0.0 <= deltaH
    ensures 0.2 * deltaH <= TerrainRoughness(e, d, deltaH) < deltaH || deltaH == 0.0
    ensures deltaH == 0.0 ==> TerrainRoughness(e, d, deltaH) == 0.0
  {
    var x := Exp(e, -d / 50000.0);
    assert 0.0 < x <= 1.0;
    if deltaH > 0.0 {
      ProductPositive(deltaH, 0.8 * x);
      ProductNonNegative(deltaH, 0.8 - 0.8 * x);
      assert TerrainRoughness(e, d, deltaH) == deltaH - deltaH * (0.8 * x);
      assert deltaH * (0.8 - 0.8 * x) == 0.8 * deltaH - deltaH * (0.8 * x);
    }
  }

  /** The wave number k = 2 pi f / c, in 1/m, for a frequency in MHz. */
  function Wavenumber(f: real): (k: real)
    ensures f > 0.0 ==> k > 0.0
    ensures f >= 0.0 ==> k >= 0.0
  {
    2.0 * Pi * (f * 1000000.0) / SpeedOfLight
  }

  /** v lies between a and b (in either order): a convex combination of the two. */
  predicate Between(v: real, a: real, b: real) {
    Min(a, b) <= v <= Max(a, b)
  }

  /** The blend (1 - w) a + w b of two losses with weight w on the second. */
  function Blend(w: real, a: real, b: real): real {
    (1.0 - w) * a + w * b
  }

  /** A blend with a weight in [0, 1] is a convex combination: it lies between the two
      losses, and a weight of 1 selects the second. */
  lemma ConvexCombination(w: real, a: real, b: real)
    requires 0.0 <= w <= 1.0
    ensures Between(Blend(w, a, b), a, b)
    ensures w == 1.0 ==> Blend(w, a, b) == b
  {
    var v := Blend(w, a, b);
    if a <= b {
      assert v == a + w * (b - a);
      ProductNonNegative(w, b - a);
      ProductNonNegative(1.0 - w, b - a);
      assert (1.0 - w) * (b - a) == (b - a) - w * (b - a);
      assert Min(a, b) == a && Max(a, b) == b;
    } else {
      assert v == b + (1.0 - w) * (a - b);
      ProductNonNegative(w, a - b);
      ProductNonNegative(1.0 - w, a - b);
      assert w * (a - b) == (a - b) - (1.0 - w) * (a - b);
      assert Min(a, b) == b && Max(a, b) == a;
    }
  }
}
