/** The lower zone (Sources/SwiftHBV/models/4-LowerZoneTank.swift): a linear
    store LZ fed by percolation and by the precipitation on the lakes,
    draining KLZ of itself each step and losing the lake evaporation. */
module LowerZone {
  import opened Catchment
  import opened Parameters

  /** The new state and the two outputs of one time step. */
  datatype LowerOutput = LowerOutput(lz: real, qlz: real, evapLake: real)

  /** The lake share of the catchment as a fraction. */
  function LakeFraction(cp: CatchmentParameters): (f: real)
    ensures f * 100.0 == cp.lakePercentage
    ensures 0.0 <= cp.lakePercentage <= 100.0 ==> 0.0 <= f <= 1.0
  {
    cp.lakePercentage / 100.0
  }

  /** The precipitation that falls on the lakes: `p` times the lake
      percentage over 100. */
  function LakePrecipitation(p: real, cp: CatchmentParameters): (l: real)
    ensures cp.lakePercentage == 0.0 ==> l == 0.0
  {
    p * cp.lakePercentage / 100.0
  }

  /** The lake precipitation is the lake fraction of `p`; with a
      percentage in [0, 100] it is a non-negative part of a non-negative
      `p`. */
  lemma LakePrecipitationShare(p: real, cp: CatchmentParameters)
    ensures LakePrecipitation(p, cp) == p * LakeFraction(cp)
    ensures 0.0 <= cp.lakePercentage <= 100.0 && p >= 0.0 ==> 0.0 <= LakePrecipitation(p, cp) <= p
  {
    var f := LakeFraction(cp);
    assert p * cp.lakePercentage == p * (f * 100.0);
    if 0.0 <= cp.lakePercentage <= 100.0 && p >= 0.0 {
      assert p - p * f == p * (1.0 - f);
    }
  }

  /** One step: the lake share of the precipitation and the percolation
      come in, KLZ of the filled store drains, and the lake share of the
      evaporation potential leaves. */
  function LowerStep(lz: real, p: real, perc: real, cp: CatchmentParameters, mp: Params): (r: LowerOutput)
    ensures r.lz + r.qlz + r.evapLake == lz + LakePrecipitation(p, cp) + perc
  {
    var pLake := LakePrecipitation(p, cp);
    var evapLake := LakeFraction(cp) * mp.epot;
    var lzIn := lz + pLake + perc;
    var qlz := mp.klz * lzIn;
    LowerOutput(lzIn - qlz - evapLake, qlz, evapLake)
  }

  /** Water is conserved: the state gains the percolation and the lake
      precipitation, less the outflow and the lake evaporation. Neither
      lake term depends on the store. */
  lemma LowerStepBalance(lz: real, p: real, perc: real, cp: CatchmentParameters, mp: Params)
    ensures var r := LowerStep(lz, p, perc, cp, mp);
      r.lz + r.qlz + r.evapLake == lz + LakePrecipitation(p, cp) + perc &&
      r.evapLake == LakeFraction(cp) * mp.epot &&
      r.qlz == mp.klz * (lz + LakePrecipitation(p, cp) + perc)
  {
  }

  /** Without lakes only the percolation comes in and nothing evaporates. */
  lemma NoLakes(lz: real, p: real, perc: real, cp: CatchmentParameters, mp: Params)
    requires cp.lakePercentage == 0.0
    ensures var r := LowerStep(lz, p, perc, cp, mp);
      r.evapLake == 0.0 && r.lz + r.qlz == lz + perc
  {
  }

  /** With a rate in [0, 1] and a non-negative filled store the outflow is
      a non-negative part of it; the store is not kept non-negative,
      because the lake evaporation is taken whatever is left. */
  lemma OutflowBounded(lz: real, p: real, perc: real, cp: CatchmentParameters, mp: Params)
    requires 0.0 <= mp.klz <= 1.0
    requires lz + LakePrecipitation(p, cp) + perc >= 0.0
    ensures var r := LowerStep(lz, p, perc, cp, mp);
      0.0 <= r.qlz <= lz + LakePrecipitation(p, cp) + perc
  {
    var lzIn := lz + LakePrecipitation(p, cp) + perc;
    assert LowerStep(lz, p, perc, cp, mp).qlz == mp.klz * lzIn;
    assert lzIn - mp.klz * lzIn == (1.0 - mp.klz) * lzIn;
  }

  /** The worked examples: 2 % lakes, KLZ = 0.15, epot = 4 mm. An empty
      store with no input ends at -0.08 mm; 1.5 mm of percolation drains
      0.225 mm; 0.5 mm onto 1.5 mm drains 0.3 mm; 5 mm of rain puts 0.1 mm
      into the store. */
  lemma LowerStepExamples(cp: CatchmentParameters)
    requires cp.lakePercentage == 2.0
    ensures var mp := DefaultParams.(klz := 0.15);
      LowerStep(0.0, 0.0, 0.0, cp, mp) == LowerOutput(-0.08, 0.0, 0.08) &&
      LowerStep(0.0, 0.0, 1.5, cp, mp) == LowerOutput(1.195, 0.225, 0.08) &&
      LowerStep(1.5, 0.0, 0.5, cp, mp) == LowerOutput(1.62, 0.3, 0.08) &&
      LowerStep(0.0, 5.0, 0.0, cp, mp) == LowerOutput(0.005, 0.015, 0.08)
  {
  }

  /** `LowerZoneTank`: the lower store, updated in place each step. */
  class LowerZoneTank {
    const cp: CatchmentParameters
    const mp: ModelParameters
    var lz: real

    constructor (cp: CatchmentParameters, mp: ModelParameters)
      ensures this.cp == cp && this.mp == mp && lz == 0.0
    {
      this.cp := cp;
      this.mp := mp;
      lz := 0.0;
    }

    /** `resetState`: an empty lower zone. */
    method ResetState()
      modifies this`lz
      ensures lz == 0.0
    {
      lz := 0.0;
    }

    /** `simulateTimestepAndGetOutput(p:perc:)`: moves the store one step
        and returns its outflow and the lake evaporation. */
    method SimulateTimestepAndGetOutput(p: real, perc: real) returns (qlz: real, evapLake: real)
      modifies this`lz
      ensures var r := LowerStep(old(lz), p, perc, cp, mp.Values());
        lz == r.lz && qlz == r.qlz && evapLake == r.evapLake
    {
      var pLake := p * cp.lakePercentage / 100.0;
      evapLake := LakeFraction(cp) * mp.epot;
      lz := lz + pLake + perc;
      qlz := mp.klz * lz;
      lz := lz - qlz - evapLake;
    }
  }
}
