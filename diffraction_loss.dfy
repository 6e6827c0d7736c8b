/** DiffractionLoss: the diffraction loss at a distance, a blend of the knife-edge and
    the smooth-Moon diffraction losses whose weight falls with terrain roughness. */
module Diffraction {
  import opened Numerics

  /** The roughness-frequency factor delta_h_d f / 47.7 of equation A-25, capped at 1000. */
  function RoughnessFrequencyFactor(deltaHd: real, f: real): (r: real)
    ensures r <= 1000.0 && r <= deltaHd * f / 47.7
    ensures 0.0 <= deltaHd * f ==> 0.0 <= r && (r == 0.0 <==> deltaHd * f == 0.0)
  {
    Min(deltaHd * f / 47.7, 1000.0)
  }

  /** The dimensionless roughness parameter q of equation A-25. */
  function DiffractionQ(e: Externals, d: real, dHzn: seq<real>, hE: seq<real>, deltaHd: real,
                        h: seq<real>, thetaLos: real, f: real): real
    requires |dHzn| == 2 && |hE| == 2 && |h| == 2
  {
    var term1 := Sqrt(e, Quot(e, hE[0] * hE[1], h[0] * h[1]));
    var dL := dHzn[0] + dHzn[1];
    (term1 + Quot(e, -thetaLos * MoonRadius + dL, d)) * RoughnessFrequencyFactor(deltaHd, f)
  }

  /** The blend weight w = 1 / (1 + 0.1 sqrt(q)) of equation A-24. */
  function DiffractionWeight(e: Externals, q: real): real {
    Quot(e, 1.0, 1.0 + 0.1 * Sqrt(e, q))
  }

  /** The diffraction loss of equation A-23: w A_r + (1 - w) A_k, with A_k the
      knife-edge loss, A_r the smooth-Moon loss and w the weight of the roughness
      parameter q at the path's terrain irregularity. */
  function DiffractionLoss(e: Externals, d: real, dHzn: seq<real>, hE: seq<real>, zg: Complex,
                           deltaH: real, h: seq<real>, thetaLos: real, f: real): real
    requires |dHzn| == 2 && |hE| == 2 && |h| == 2
  {
    var aK := e.knifeEdge(d, f, thetaLos, dHzn);
    var aR := e.smoothMoon(d, f, thetaLos, dHzn, hE, zg);
    var deltaHd := TerrainRoughness(e, d, deltaH);
    var q := DiffractionQ(e, d, dHzn, hE, deltaHd, h, thetaLos, f);
    var w := DiffractionWeight(e, q);
    w * aR + (1.0 - w) * aK
  }

  /** The weight of the smooth-Moon loss. */
  function SmoothWeight(e: Externals, d: real, dHzn: seq<real>, hE: seq<real>, deltaH: real,
                        h: seq<real>, thetaLos: real, f: real): real
    requires |dHzn| == 2 && |hE| == 2 && |h| == 2
  {
    DiffractionWeight(e, DiffractionQ(e, d, dHzn, hE, TerrainRoughness(e, d, deltaH), h, thetaLos, f))
  }

  /** For q >= 0 the weight lies in (0, 1], and it is 1 exactly when q = 0. */
  lemma {:induction false} DiffractionWeightInUnitInterval(e: Externals, q: real)
    requires SqrtExact(e) && 0.0 <= q
    ensures 0.0 < DiffractionWeight(e, q) <= 1.0
    ensures DiffractionWeight(e, q) == 1.0 <==> q == 0.0
  {
    var r := Sqrt(e, q);
    assert 0.0 <= r && r * r == q;
    var den := 1.0 + 0.1 * r;
    assert 1.0 <= den;
    assert DiffractionWeight(e, q) == 1.0 / den;
    if q == 0.0 {
      SqrtOfSquare(e, 0.0);
    } else {
      SqrtPositive(e, q);
      assert 1.0 < den;
    }
  }

  /** The loss is the blend of the knife-edge and smooth-Moon losses with the
      smooth-Moon weight. */
  lemma DiffractionLossIsBlend(e: Externals, d: real, dHzn: seq<real>, hE: seq<real>, zg: Complex,
                               deltaH: real, h: seq<real>, thetaLos: real, f: real)
    requires |dHzn| == 2 && |hE| == 2 && |h| == 2
    ensures DiffractionLoss(e, d, dHzn, hE, zg, deltaH, h, thetaLos, f)
      == Blend(SmoothWeight(e, d, dHzn, hE, deltaH, h, thetaLos, f),
               e.knifeEdge(d, f, thetaLos, dHzn), e.smoothMoon(d, f, thetaLos, dHzn, hE, zg))
  {
  }

  /** With a nonnegative roughness parameter the loss lies between the knife-edge and
      the smooth-Moon losses, and a zero parameter gives the smooth-Moon loss. */
  lemma DiffractionLossBetweenLimits(e: Externals, d: real, dHzn: seq<real>, hE: seq<real>, zg: Complex,
                                     deltaH: real, h: seq<real>, thetaLos: real, f: real)
    requires SqrtExact(e) && |dHzn| == 2 && |hE| == 2 && |h| == 2
    requires 0.0 <= DiffractionQ(e, d, dHzn, hE, TerrainRoughness(e, d, deltaH), h, thetaLos, f)
    ensures Between(DiffractionLoss(e, d, dHzn, hE, zg, deltaH, h, thetaLos, f),
                    e.knifeEdge(d, f, thetaLos, dHzn), e.smoothMoon(d, f, thetaLos, dHzn, hE, zg))
    ensures DiffractionQ(e, d, dHzn, hE, TerrainRoughness(e, d, deltaH), h, thetaLos, f) == 0.0
      ==> DiffractionLoss(e, d, dHzn, hE, zg, deltaH, h, thetaLos, f) == e.smoothMoon(d, f, thetaLos, dHzn, hE, zg)
  {
    var q := DiffractionQ(e, d, dHzn, hE, TerrainRoughness(e, d, deltaH), h, thetaLos, f);
    DiffractionWeightInUnitInterval(e, q);
    DiffractionLossIsBlend(e, d, dHzn, hE, zg, deltaH, h, thetaLos, f);
    ConvexCombination(SmoothWeight(e, d, dHzn, hE, deltaH, h, thetaLos, f),
                      e.knifeEdge(d, f, thetaLos, dHzn), e.smoothMoon(d, f, thetaLos, dHzn, hE, zg));
  }

  /** Over smooth terrain (delta_h = 0) the roughness parameter vanishes, the weight is
      1 and the loss is the smooth-Moon loss alone. */
  lemma SmoothTerrainGivesSmoothMoonLoss(e: Externals, d: real, dHzn: seq<real>, hE: seq<real>, zg: Complex,
                                         h: seq<real>, thetaLos: real, f: real)
    requires SqrtExact(e) && |dHzn| == 2 && |hE| == 2 && |h| == 2
    ensures DiffractionLoss(e, d, dHzn, hE, zg, 0.0, h, thetaLos, f)
      == e.smoothMoon(d, f, thetaLos, dHzn, hE, zg)
  {
    assert TerrainRoughness(e, d, 0.0) == 0.0;
    assert 0.0 * f == 0.0;
    assert DiffractionQ(e, d, dHzn, hE, 0.0, h, thetaLos, f) == 0.0;
    DiffractionLossBetweenLimits(e, d, dHzn, hE, zg, 0.0, h, thetaLos, f);
  }
}
