/** The intermediate values the two prediction modes save for debugging output. */
module Intermediate {
  /** The IntermediateValues record: each terminal's horizon angle, horizon distance and
      effective height, delta_h, the reference and free-space losses, the path distance
      in km and the propagation mode. The caller owns it and the modes write into it. */
  class IntermediateValues {
    var thetaHzn: seq<real>
    var dHzn: seq<real>
    var hE: seq<real>
    var deltaH: real
    var aRef: real
    var aFs: real
    var dKm: real
    var mode: int

    /** A record no prediction has written yet: no horizons, every value 0 and the mode
        MODE__NOT_SET (whose value is 0). */
    constructor ()
      ensures thetaHzn == [] && dHzn == [] && hE == []
      ensures deltaH == 0.0 && aRef == 0.0 && aFs == 0.0 && dKm == 0.0 && mode == 0
    {
      thetaHzn, dHzn, hE := [], [], [];
      deltaH, aRef, aFs, dKm, mode := 0.0, 0.0, 0.0, 0.0, 0;
    }

    /** The path distance, written as soon as the inputs have been accepted. */
    method SetDistance(dKm': real)
      modifies this
      ensures dKm == dKm'
      ensures thetaHzn == old(thetaHzn) && dHzn == old(dHzn) && hE == old(hE)
      ensures deltaH == old(deltaH) && aRef == old(aRef) && aFs == old(aFs) && mode == old(mode)
    {
      dKm := dKm';
    }

    /** The block that saves everything but the path distance once a prediction has
        succeeded. */
    method Record(aRef': real, aFs': real, deltaH': real, dHzn': seq<real>, hE': seq<real>,
                  thetaHzn': seq<real>, mode': int)
      requires |dHzn'| == 2 && |hE'| == 2 && |thetaHzn'| == 2
      modifies this
      ensures aRef == aRef' && aFs == aFs' && deltaH == deltaH' && mode == mode'
      ensures dHzn == dHzn' && hE == hE' && thetaHzn == thetaHzn'
      ensures dKm == old(dKm)
    {
      aRef, aFs, deltaH := aRef', aFs', deltaH';
      dHzn, hE, thetaHzn := dHzn', hE', thetaHzn';
      mode := mode';
    }
  }
}
