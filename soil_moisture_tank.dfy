/** The soil moisture routine (Sources/SwiftHBV/models/2-SoilMoistureTank.swift):
    soil moisture SM takes the snow routine's release, passes a share to
    the upper zone and loses evaporation. `pow` with a fractional exponent
    is the caller-supplied `pow`. */
module SoilMoisture {
  import opened MathFunctions
  import opened Catchment
  import opened Parameters

  /** The new state and the two outputs of one time step. */
  datatype SoilOutput = SoilOutput(sm: real, dUZ: real, evapSoil: real)

  /** The share of the input passed on: `(SM/FC)^beta` of it, at most the
      moisture there is. */
  function Recharge(sm: real, insoil: real, mp: Params, pow: (real, real) -> real): (r: real)
    requires mp.fc != 0.0
    ensures r <= sm && r <= pow(sm / mp.fc, mp.beta) * insoil
    ensures r < sm ==> r == pow(sm / mp.fc, mp.beta) * insoil
  {
    Min(pow(sm / mp.fc, mp.beta) * insoil, sm)
  }

  /** Evaporation: the potential scaled down below ET, at most what is left
      after the recharge. */
  function Evaporation(sm: real, dUZ: real, mp: Params): (e: real)
    requires mp.et != 0.0
    ensures e <= sm - dUZ
    ensures mp.epot >= 0.0 ==> e <= mp.epot
    ensures mp.et > 0.0 && mp.epot >= 0.0 && sm >= mp.et ==> e == Min(mp.epot, sm - dUZ)
  {
    Min(Min(sm / mp.et, 1.0) * mp.epot, sm - dUZ)
  }

  /** One step: add the input, then take the recharge and the evaporation
      from the moisture after the input. */
  function SoilStep(sm: real, insoil: real, mp: Params, pow: (real, real) -> real): (r: SoilOutput)
    requires mp.fc != 0.0 && mp.et != 0.0
    ensures r.sm + r.dUZ + r.evapSoil == sm + insoil
    ensures r.dUZ <= sm + insoil && r.sm >= 0.0
  {
    var smIn := sm + insoil;
    var dUZ := Recharge(smIn, insoil, mp, pow);
    var evapSoil := Evaporation(smIn, dUZ, mp);
    SoilOutput(smIn - dUZ - evapSoil, dUZ, evapSoil)
  }

  /** Water is conserved, and the moisture never goes negative because
      the evaporation is capped by what the recharge leaves. */
  lemma SoilStepBalance(sm: real, insoil: real, mp: Params, pow: (real, real) -> real)
    requires mp.fc != 0.0 && mp.et != 0.0
    ensures var r := SoilStep(sm, insoil, mp, pow);
      r.sm + r.dUZ + r.evapSoil == sm + insoil &&
      r.dUZ <= sm + insoil &&
      r.sm >= 0.0
  {
  }

  /** With a non-negative moisture after the input, a non-negative input
      and a non-negative `pow`, the recharge is non-negative. */
  lemma RechargeNonNegative(sm: real, insoil: real, mp: Params, pow: (real, real) -> real)
    requires mp.fc != 0.0
    requires sm >= 0.0 && insoil >= 0.0 && pow(sm / mp.fc, mp.beta) >= 0.0
    ensures 0.0 <= Recharge(sm, insoil, mp, pow) <= sm
  {
    var f := pow(sm / mp.fc, mp.beta);
    assert f * insoil >= 0.0;
  }

  /** With a non-negative moisture after the input, a positive ET and a
      non-negative potential, the evaporation lies between zero and the
      potential. */
  lemma EvaporationBounded(sm: real, dUZ: real, mp: Params)
    requires mp.et > 0.0 && mp.epot >= 0.0
    requires dUZ <= sm
    ensures Evaporation(sm, dUZ, mp) <= mp.epot
    ensures sm >= 0.0 ==> Evaporation(sm, dUZ, mp) >= 0.0
  {
    var ratio := Min(sm / mp.et, 1.0);
    assert Evaporation(sm, dUZ, mp) == Min(ratio * mp.epot, sm - dUZ);
    assert ratio * mp.epot <= 1.0 * mp.epot;
    if sm >= 0.0 {
      assert sm / mp.et >= 0.0;
      assert ratio * mp.epot >= 0.0;
    }
  }

  /** An empty tank with no input passes nothing on and evaporates
      nothing, whatever `pow` is. */
  lemma EmptyTankIsQuiet(mp: Params, pow: (real, real) -> real)
    requires mp.fc != 0.0 && mp.et != 0.0
    ensures SoilStep(0.0, 0.0, mp, pow) == SoilOutput(0.0, 0.0, 0.0)
  {
  }

  /** The parameters of the soil routine's worked examples: ET = 20 mm,
      the other values at their defaults (FC = 40, beta = 1.5, epot = 4). */
  const TestParams: Params := DefaultParams.(et := 20.0)

  /** Without input, 30 mm of moisture evaporates the full 4 mm potential
      and 10 mm evaporates half of it. */
  lemma EvaporationExamples(pow: (real, real) -> real)
    ensures SoilStep(30.0, 0.0, TestParams, pow) == SoilOutput(26.0, 0.0, 4.0)
    ensures SoilStep(10.0, 0.0, TestParams, pow) == SoilOutput(8.0, 0.0, 2.0)
  {
  }

  /** 10 mm into 30 mm fills the tank to field capacity, so all 10 mm pass
      on; 10 mm into an empty tank pass on a quarter to the power 1.5. */
  lemma RechargeExamples(pow: (real, real) -> real)
    requires pow(1.0, 1.5) == 1.0 && pow(0.25, 1.5) == 0.125
    ensures SoilStep(30.0, 10.0, TestParams, pow) == SoilOutput(26.0, 10.0, 4.0)
    ensures SoilStep(0.0, 10.0, TestParams, pow) == SoilOutput(6.75, 1.25, 2.0)
  {
    assert 40.0 / TestParams.fc == 1.0;
    assert 10.0 / TestParams.fc == 0.25;
  }

  /** `SoilMoistureTank`: the soil store, updated in place each step. */
  class SoilMoistureTank {
    const cp: CatchmentParameters
    const mp: ModelParameters
    var sm: real

    constructor (cp: CatchmentParameters, mp: ModelParameters)
      ensures this.cp == cp && this.mp == mp && sm == 0.0
    {
      this.cp := cp;
      this.mp := mp;
      sm := 0.0;
    }

    /** `resetState`: a dry soil. */
    method ResetState()
      modifies this`sm
      ensures sm == 0.0
    {
      sm := 0.0;
    }

    /** `simulateTimestepAndGetOutput(insoil:)`: moves the store one step
        with the current parameter values; returns the recharge of the
        upper zone and the soil evaporation. */
    method SimulateTimestepAndGetOutput(insoil: real, pow: (real, real) -> real)
      returns (dUZ: real, evapSoil: real)
      requires mp.fc != 0.0 && mp.et != 0.0
      modifies this`sm
      ensures var r := SoilStep(old(sm), insoil, mp.Values(), pow);
        sm == r.sm && dUZ == r.dUZ && evapSoil == r.evapSoil
    {
      var v := mp.Values();
      sm := sm + insoil;
      dUZ := Recharge(sm, insoil, v, pow);
      evapSoil := Evaporation(sm, dUZ, v);
      sm := sm - dUZ - evapSoil;
    }
  }
}
