/** The snow routine of one elevation band (Sources/SwiftHBV/models/1-SnowTank.swift):
    snow depth SN and free water in the snow SW, fed by precipitation
    and temperature moved to the band's elevation, releasing `insoil` to
    the soil. */
module Snow {
  import opened MathFunctions
  import opened Catchment
  import opened Parameters

  /** The band's height above the observation site, in metres. */
  function HeightAboveObservation(cp: CatchmentParameters, hElev: int): real
  {
    (hElev - cp.hObs) as real
  }

  /** Temperature at the band: the wet gradient when it rains, the dry one
      otherwise, per 100 m. */
  function BandTemperature(pObs: real, tObs: real, hElev: int, cp: CatchmentParameters): (t: real)
    ensures hElev == cp.hObs ==> t == tObs
    ensures cp.tWetGrad <= 0.0 && cp.tDryGrad <= 0.0 && hElev >= cp.hObs ==> t <= tObs
    ensures cp.tWetGrad <= 0.0 && cp.tDryGrad <= 0.0 && hElev <= cp.hObs ==> t >= tObs
  {
    if pObs > 0.0 then tObs + cp.tWetGrad * HeightAboveObservation(cp, hElev) / 100.0
    else tObs + cp.tDryGrad * HeightAboveObservation(cp, hElev) / 100.0
  }

  /** Precipitation at the band: the observed amount raised by the
      precipitation gradient per 100 m. */
  function BandPrecipitation(pObs: real, hElev: int, cp: CatchmentParameters): (p: real)
    ensures hElev == cp.hObs ==> p == pObs
    ensures pObs == 0.0 ==> p == 0.0
    ensures pObs >= 0.0 && cp.pGrad >= 0.0 && hElev >= cp.hObs ==> p >= pObs
  {
    pObs + pObs * cp.pGrad * HeightAboveObservation(cp, hElev) / 100.0
  }

  /** The new state and the fluxes of one time step. */
  datatype SnowOutput = SnowOutput(sn: real, sw: real, insoil: real, melt: real, refreeze: real)

  /** The state after adding the precipitation: to the snow when the band
      is colder than Tx, to the free water otherwise. */
  function AfterInput(sn: real, sw: real, p: real, t: real, mp: Params): (r: (real, real))
    ensures r.0 + r.1 == sn + sw + p
    ensures t < mp.tx ==> r.1 == sw
    ensures t >= mp.tx ==> r.0 == sn
  {
    if t < mp.tx then (sn + p, sw) else (sn, sw + p)
  }

  /** What goes to the soil: the free water beyond what the snow can hold
      (Cpro times the snow depth), or nothing. */
  function Release(sn: real, sw: real, mp: Params): (r: real)
    ensures r >= 0.0 && sw - r <= Capacity(sn, mp)
    ensures r > 0.0 ==> sw - r == Capacity(sn, mp)
    ensures r > 0.0 <==> sw > Capacity(sn, mp)
  {
    Max(0.0, sw - Capacity(sn, mp))
  }

  /** The free water the snow can hold: Cpro times the snow depth. */
  function Capacity(sn: real, mp: Params): real
  {
    mp.cpro * sn
  }

  /** The degree-day melt: Cx times the degrees above Ts. */
  function PotentialMelt(t: real, mp: Params): (d: real)
    ensures mp.cx >= 0.0 && t <= mp.ts ==> d <= 0.0
  {
    NonNegativeTimesNonPositive(mp.cx, t - mp.ts);
    mp.cx * (t - mp.ts)
  }

  /** The degree-day refreeze: Cfr times the degrees below Ts. */
  function PotentialRefreeze(t: real, mp: Params): (d: real)
    ensures mp.cfr >= 0.0 && t >= mp.ts ==> d <= 0.0
  {
    NonNegativeTimesNonPositive(mp.cfr, mp.ts - t);
    mp.cfr * (mp.ts - t)
  }

  /** Degree-day melt above Ts, at most the snow there is. */
  function Melt(sn: real, t: real, mp: Params): (m: real)
    ensures m <= sn
    ensures sn >= 0.0 ==> m >= 0.0
    ensures mp.cx >= 0.0 && m > 0.0 ==> t > mp.ts
  {
    CappedAmount(sn, PotentialMelt(t, mp));
    Min(sn, Max(0.0, PotentialMelt(t, mp)))
  }

  /** Degree-day refreeze below Ts, at most the free water there is. */
  function Refreeze(sw: real, t: real, mp: Params): (f: real)
    ensures f <= sw
    ensures sw >= 0.0 ==> f >= 0.0
    ensures mp.cfr >= 0.0 && f > 0.0 ==> t < mp.ts
  {
    CappedAmount(sw, PotentialRefreeze(t, mp));
    Min(sw, Max(0.0, PotentialRefreeze(t, mp)))
  }

  /** One step of the snow routine: input, then release, melt and
      refreeze from the state after the input. */
  function SnowStep(sn: real, sw: real, pObs: real, tObs: real, hElev: int,
                    cp: CatchmentParameters, mp: Params): (r: SnowOutput)
    ensures r.insoil >= 0.0
    ensures r.sn + r.sw + r.insoil == sn + sw + BandPrecipitation(pObs, hElev, cp)
  {
    var t := BandTemperature(pObs, tObs, hElev, cp);
    var input := AfterInput(sn, sw, BandPrecipitation(pObs, hElev, cp), t, mp);
    var snIn, swIn := input.0, input.1;
    var insoil := Release(snIn, swIn, mp);
    var melt := Melt(snIn, t, mp);
    var refreeze := Refreeze(swIn, t, mp);
    SnowOutput(snIn - melt + refreeze, swIn - insoil + melt - refreeze, insoil, melt, refreeze)
  }

  /** In one step of the snow routine water is conserved: what the state
      gains is the band's precipitation less what goes to the soil. The
      soil receives the free water the snow cannot hold (never a negative
      amount), melt never exceeds the snow and refreeze never exceeds the
      free water. */
  lemma SnowStepBalance(sn: real, sw: real, pObs: real, tObs: real, hElev: int,
                        cp: CatchmentParameters, mp: Params)
    ensures var r := SnowStep(sn, sw, pObs, tObs, hElev, cp, mp);
      r.insoil >= 0.0 &&
      r.sn + r.sw + r.insoil == sn + sw + BandPrecipitation(pObs, hElev, cp)
    ensures var r := SnowStep(sn, sw, pObs, tObs, hElev, cp, mp);
      var a := AfterInput(sn, sw, BandPrecipitation(pObs, hElev, cp),
                          BandTemperature(pObs, tObs, hElev, cp), mp);
      r.melt <= a.0 && (a.0 >= 0.0 ==> r.melt >= 0.0) &&
      r.refreeze <= a.1 && (a.1 >= 0.0 ==> r.refreeze >= 0.0) &&
      (r.insoil > 0.0 <==> a.1 > Capacity(a.0, mp))
  {
    SnowStepFluxes(sn, sw, pObs, tObs, hElev, cp, mp);
    SnowStepRelease(sn, sw, pObs, tObs, hElev, cp, mp);
  }

  /** Melt and refreeze are bounded by the state after the input. */
  lemma SnowStepFluxes(sn: real, sw: real, pObs: real, tObs: real, hElev: int,
                       cp: CatchmentParameters, mp: Params)
    ensures var r := SnowStep(sn, sw, pObs, tObs, hElev, cp, mp);
      var a := AfterInput(sn, sw, BandPrecipitation(pObs, hElev, cp),
                          BandTemperature(pObs, tObs, hElev, cp), mp);
      r.melt <= a.0 && (a.0 >= 0.0 ==> r.melt >= 0.0) &&
      r.refreeze <= a.1 && (a.1 >= 0.0 ==> r.refreeze >= 0.0)
  {
    var t := BandTemperature(pObs, tObs, hElev, cp);
    var a := AfterInput(sn, sw, BandPrecipitation(pObs, hElev, cp), t, mp);
    var r := SnowStep(sn, sw, pObs, tObs, hElev, cp, mp);
    assert r.melt == Melt(a.0, t, mp);
    assert r.refreeze == Refreeze(a.1, t, mp);
  }

  /** The soil receives water exactly when the free water after the input
      exceeds what the snow can hold. */
  lemma SnowStepRelease(sn: real, sw: real, pObs: real, tObs: real, hElev: int,
                        cp: CatchmentParameters, mp: Params)
    ensures var r := SnowStep(sn, sw, pObs, tObs, hElev, cp, mp);
      var a := AfterInput(sn, sw, BandPrecipitation(pObs, hElev, cp),
                          BandTemperature(pObs, tObs, hElev, cp), mp);
      r.insoil > 0.0 <==> a.1 > Capacity(a.0, mp)
  {
    var t := BandTemperature(pObs, tObs, hElev, cp);
    var a := AfterInput(sn, sw, BandPrecipitation(pObs, hElev, cp), t, mp);
    var r := SnowStep(sn, sw, pObs, tObs, hElev, cp, mp);
    assert r.insoil == Release(a.0, a.1, mp);
  }

  /** Melt never exceeds the degree-day amount Cx(T - Ts) and refreeze
      never exceeds Cfr(Ts - T), when these are positive. */
  lemma DegreeDayCaps(sn: real, sw: real, t: real, mp: Params)
    ensures Melt(sn, t, mp) <= Max(0.0, PotentialMelt(t, mp))
    ensures Refreeze(sw, t, mp) <= Max(0.0, PotentialRefreeze(t, mp))
  {
    CappedAmount(sn, PotentialMelt(t, mp));
    CappedAmount(sw, PotentialRefreeze(t, mp));
  }

  /** With non-negative melt and refreeze constants the band either melts
      or refreezes in a step, never both. */
  lemma MeltRefreezeExclusive(sn: real, sw: real, pObs: real, tObs: real, hElev: int,
                              cp: CatchmentParameters, mp: Params)
    requires mp.cx >= 0.0 && mp.cfr >= 0.0
    ensures var r := SnowStep(sn, sw, pObs, tObs, hElev, cp, mp);
      !(r.melt > 0.0 && r.refreeze > 0.0)
  {
    var t := BandTemperature(pObs, tObs, hElev, cp);
    var a := AfterInput(sn, sw, BandPrecipitation(pObs, hElev, cp), t, mp);
    var r := SnowStep(sn, sw, pObs, tObs, hElev, cp, mp);
    assert r.melt == Melt(a.0, t, mp) && r.refreeze == Refreeze(a.1, t, mp);
  }

  /** A positive amount `x`, capped by what there is: at most the cap and
      at most `x`, not negative when the cap is not, and positive only when
      `x` is. */
  lemma CappedAmount(cap: real, x: real)
    ensures Min(cap, Max(0.0, x)) <= cap
    ensures Min(cap, Max(0.0, x)) <= Max(0.0, x)
    ensures cap >= 0.0 ==> Min(cap, Max(0.0, x)) >= 0.0
    ensures Min(cap, Max(0.0, x)) > 0.0 ==> x > 0.0
  {
  }

  /** A degree-day rate times a temperature difference of the wrong sign
      gives no flux. */
  lemma NonNegativeTimesNonPositive(k: real, d: real)
    ensures k >= 0.0 && d <= 0.0 ==> k * d <= 0.0
  {
  }

  /** The snow depth stays non-negative whenever the free water after the
      input is non-negative, whatever the snow depth before. */
  lemma SnowDepthNonNegative(sn: real, sw: real, pObs: real, tObs: real, hElev: int,
                             cp: CatchmentParameters, mp: Params)
    requires AfterInput(sn, sw, BandPrecipitation(pObs, hElev, cp),
                        BandTemperature(pObs, tObs, hElev, cp), mp).1 >= 0.0
    ensures SnowStep(sn, sw, pObs, tObs, hElev, cp, mp).sn >= 0.0
  {
  }

  /** The catchment of the snow routine's worked examples: observations
      at sea level and the example gradients. */
  predicate TestCatchment(cp: CatchmentParameters)
  {
    cp.hObs == 0 && cp.pGrad == 0.05 && cp.tDryGrad == -1.0 && cp.tWetGrad == -0.6
  }

  /** The routine does not keep the free water non-negative: refreeze is
      bounded by the free water before the release to the soil, so a cold
      step can drive SW below zero; and a warm step from such a state can
      then drive SN below zero although SN and the precipitation were not
      negative. Default parameters, a band at the observation height. */
  lemma NegativeStorageIsReachable(cp: CatchmentParameters)
    requires TestCatchment(cp)
    ensures var first := SnowStep(100.0, 10.0, 0.0, -10.0, 0, cp, DefaultParams);
      var second := SnowStep(first.sn, first.sw, 0.0, 30.5, 0, cp, DefaultParams);
      first.sn == 110.0 && first.sw == -6.0 && first.insoil == 6.0 &&
      second.sn == -6.0 && second.sw == 110.0 && second.insoil == 0.0
  {
    ObservationHeightUnchanged(0.0, -10.0, cp);
    ObservationHeightUnchanged(0.0, 30.5, cp);
  }

  /** The band gets colder with height when both temperature gradients
      are non-positive, and wetter when the precipitation gradient and
      the observed precipitation are non-negative. */
  lemma HigherBandsColderAndWetter(pObs: real, tObs: real, h1: int, h2: int, cp: CatchmentParameters)
    requires h1 <= h2
    ensures cp.tWetGrad <= 0.0 && cp.tDryGrad <= 0.0 ==>
      BandTemperature(pObs, tObs, h2, cp) <= BandTemperature(pObs, tObs, h1, cp)
    ensures cp.pGrad >= 0.0 && pObs >= 0.0 ==>
      BandPrecipitation(pObs, h1, cp) <= BandPrecipitation(pObs, h2, cp)
  {
    var d1 := HeightAboveObservation(cp, h1);
    var d2 := HeightAboveObservation(cp, h2);
    assert d1 <= d2;
    if cp.tWetGrad <= 0.0 && cp.tDryGrad <= 0.0 {
      assert cp.tWetGrad * d2 - cp.tWetGrad * d1 == cp.tWetGrad * (d2 - d1) <= 0.0;
      assert cp.tDryGrad * d2 - cp.tDryGrad * d1 == cp.tDryGrad * (d2 - d1) <= 0.0;
    }
    if cp.pGrad >= 0.0 && pObs >= 0.0 {
      var g := pObs * cp.pGrad;
      assert g >= 0.0;
      assert g * d2 - g * d1 == g * (d2 - d1) >= 0.0;
    }
  }

  /** The band at the observation height sees the observed weather. */
  lemma ObservationHeightUnchanged(pObs: real, tObs: real, cp: CatchmentParameters)
    ensures BandTemperature(pObs, tObs, cp.hObs, cp) == tObs
    ensures BandPrecipitation(pObs, cp.hObs, cp) == pObs
  {
  }

  /** Rain on snow at the observation height releases 16 mm to the soil
      and melts 20 mm. */
  lemma RainOnSnowExample(cp: CatchmentParameters)
    requires TestCatchment(cp)
    ensures SnowStep(100.0, 0.0, 20.0, 4.5, 0, cp, DefaultParams) == SnowOutput(80.0, 24.0, 16.0, 20.0, 0.0)
  {
    ObservationHeightUnchanged(20.0, 4.5, cp);
  }

  /** A step at -0.5 °C refreezes 3 of the 4 mm of free water. */
  lemma RefreezeExample(cp: CatchmentParameters)
    requires TestCatchment(cp)
    ensures SnowStep(100.0, 4.0, 0.0, -0.5, 0, cp, DefaultParams) == SnowOutput(103.0, 1.0, 0.0, 0.0, 3.0)
  {
    ObservationHeightUnchanged(0.0, -0.5, cp);
    assert PotentialMelt(-0.5, DefaultParams) == -5.0;
    assert PotentialRefreeze(-0.5, DefaultParams) == 3.0;
  }

  /** At -9.5 °C the refreeze is limited to the 4 mm of free water there
      are. */
  lemma RefreezeLimitedExample(cp: CatchmentParameters)
    requires TestCatchment(cp)
    ensures SnowStep(100.0, 4.0, 0.0, -9.5, 0, cp, DefaultParams) == SnowOutput(104.0, 0.0, 0.0, 0.0, 4.0)
  {
    ObservationHeightUnchanged(0.0, -9.5, cp);
    assert PotentialMelt(-9.5, DefaultParams) == -50.0;
    assert PotentialRefreeze(-9.5, DefaultParams) == 30.0;
  }

  /** 1000 m above the observations, 7 mm at 4 °C fall as snow (6 °C
      colder there) and grow by the gradient to 10.5 mm. */
  lemma SnowAtElevationExample(cp: CatchmentParameters)
    requires TestCatchment(cp)
    ensures SnowStep(0.0, 0.0, 7.0, 4.0, 1000, cp, DefaultParams) == SnowOutput(10.5, 0.0, 0.0, 0.0, 0.0)
  {
    assert HeightAboveObservation(cp, 1000) == 1000.0;
    assert BandTemperature(7.0, 4.0, 1000, cp) == 4.0 + -0.6 * 1000.0 / 100.0 == -2.0;
    assert BandPrecipitation(7.0, 1000, cp) == 7.0 + 7.0 * 0.05 * 1000.0 / 100.0 == 10.5;
    assert AfterInput(0.0, 0.0, 10.5, -2.0, DefaultParams) == (10.5, 0.0);
  }

  /** `SnowTank`: one band's snow store, updated in place each step. */
  class SnowTank {
    const cp: CatchmentParameters
    const mp: ModelParameters
    const hElev: int
    var sn: real
    var sw: real

    constructor (cp: CatchmentParameters, mp: ModelParameters, hElev: int)
      ensures this.cp == cp && this.mp == mp && this.hElev == hElev
      ensures sn == 0.0 && sw == 0.0
    {
      this.cp := cp;
      this.mp := mp;
      this.hElev := hElev;
      sn, sw := 0.0, 0.0;
    }

    /** `resetState`: an empty snow store. */
    method ResetState()
      modifies this`sn, this`sw
      ensures sn == 0.0 && sw == 0.0
    {
      sn, sw := 0.0, 0.0;
    }

    /** `simulateTimestepAndGetOutput(p_obs:T_obs:)`: moves the store one
        step with the current parameter values and returns what goes to
        the soil. */
    method SimulateTimestepAndGetOutput(pObs: real, tObs: real) returns (insoil: real)
      modifies this`sn, this`sw
      ensures var r := SnowStep(old(sn), old(sw), pObs, tObs, hElev, cp, mp.Values());
        sn == r.sn && sw == r.sw && insoil == r.insoil
    {
      var v := mp.Values();
      var t: real;
      if pObs > 0.0 {
        t := tObs + cp.tWetGrad * HeightAboveObservation(cp, hElev) / 100.0;
      } else {
        t := tObs + cp.tDryGrad * HeightAboveObservation(cp, hElev) / 100.0;
      }
      assert t == BandTemperature(pObs, tObs, hElev, cp);
      var p := pObs + pObs * cp.pGrad * HeightAboveObservation(cp, hElev) / 100.0;
      assert p == BandPrecipitation(pObs, hElev, cp);
      if t < mp.tx {
        sn := sn + p;
      } else {
        sw := sw + p;
      }
      assert (sn, sw) == AfterInput(old(sn), old(sw), p, t, v);
      var snIn, swIn := sn, sw;
      insoil := Release(snIn, swIn, v);
      var melt := Melt(snIn, t, v);
      var refreeze := Refreeze(swIn, t, v);
      sn, sw := snIn - melt + refreeze, swIn - insoil + melt - refreeze;
    }
  }
}
