/** The sixteen calibrated HBV parameters (Sources/SwiftHBV/models/ModelParameters.swift):
    a mutable object shared by every tank, and its fixed-order vector form
    used by the optimizer. */
module Parameters {

  /** A snapshot of the sixteen parameter fields. */
  datatype Params = Params(
    pCorr: real,  // precipitation correction, rain
    sCorr: real,  // precipitation correction, snow
    cx: real,     // melt constant (mm/°C)
    cfr: real,    // refreeze constant (mm/°C)
    cpro: real,   // maximal ratio of free water to snow
    tx: real,     // snow/rain threshold (°C)
    ts: real,     // melt/refreeze threshold (°C)
    fc: real,     // field capacity (mm)
    et: real,     // full evaporation threshold (mm)
    beta: real,   // infiltration coefficient
    epot: real,   // evaporation potential (mm)
    kuz1: real,   // quick discharge rate
    kuz0: real,   // slow discharge rate
    uz1: real,    // quick discharge level (mm)
    perc: real,   // percolation (mm per time step)
    klz: real)    // lower zone discharge rate

  /** The field initialisers. */
  const DefaultParams: Params :=
    Params(1.05, 1.15, 5.0, 3.0, 0.04, 0.5, 0.5, 40.0, 2.0, 1.5, 4.0, 1.0, 0.1, 10.0, 1.5, 1.0)

  /** The vector order: P_corr, S_corr, Cx, Cfr, Cpro, Tx, Ts, FC, ET,
      beta, epot, KUZ1, KUZ0, UZ1, perc, KLZ. */
  function ToVector(p: Params): (v: seq<real>)
    ensures |v| == 16
    ensures v[0] == p.pCorr && v[1] == p.sCorr && v[2] == p.cx && v[3] == p.cfr
    ensures v[4] == p.cpro && v[5] == p.tx && v[6] == p.ts && v[7] == p.fc
    ensures v[8] == p.et && v[9] == p.beta && v[10] == p.epot && v[11] == p.kuz1
    ensures v[12] == p.kuz0 && v[13] == p.uz1 && v[14] == p.perc && v[15] == p.klz
  {
    [p.pCorr, p.sCorr, p.cx, p.cfr, p.cpro, p.tx, p.ts, p.fc, p.et,
     p.beta, p.epot, p.kuz1, p.kuz0, p.uz1, p.perc, p.klz]
  }

  /** The parameters a 16-element vector assigns, in the same order. */
  function FromVector(v: seq<real>): (p: Params)
    requires |v| == 16
    ensures ToVector(p) == v
  {
    Params(v[0], v[1], v[2], v[3], v[4], v[5], v[6], v[7], v[8],
           v[9], v[10], v[11], v[12], v[13], v[14], v[15])
  }

  /** Reading a parameter set back from its vector gives it unchanged. */
  lemma FromToVector(p: Params)
    ensures FromVector(ToVector(p)) == p
  {
  }

  /** The default vector, as the optimizer's starting point sees it. */
  lemma DefaultVector()
    ensures ToVector(DefaultParams) ==
      [1.05, 1.15, 5.0, 3.0, 0.04, 0.5, 0.5, 40.0, 2.0, 1.5, 4.0, 1.0, 0.1, 10.0, 1.5, 1.0]
    ensures forall i :: 0 <= i < 16 ==> ToVector(DefaultParams)[i] > 0.0
  {
  }

  /** `ModelParameters`: sixteen fields written in place. */
  class ModelParameters {
    var pCorr: real
    var sCorr: real
    var cx: real
    var cfr: real
    var cpro: real
    var tx: real
    var ts: real
    var fc: real
    var et: real
    var beta: real
    var epot: real
    var kuz1: real
    var kuz0: real
    var uz1: real
    var perc: real
    var klz: real

    /** The current field values. */
    function Values(): Params
      reads this
    {
      Params(pCorr, sCorr, cx, cfr, cpro, tx, ts, fc, et, beta, epot, kuz1, kuz0, uz1, perc, klz)
    }

    /** A fresh object holds the default values. */
    constructor ()
      ensures Values() == DefaultParams
    {
      pCorr, sCorr := 1.05, 1.15;
      cx, cfr, cpro, tx, ts := 5.0, 3.0, 0.04, 0.5, 0.5;
      fc, et, beta, epot := 40.0, 2.0, 1.5, 4.0;
      kuz1, kuz0, uz1, perc := 1.0, 0.1, 10.0, 1.5;
      klz := 1.0;
    }

    /** `asVector`: the sixteen fields in vector order; reading it back gives
        the current values. */
    function AsVector(): (v: seq<real>)
      reads this
      ensures v == ToVector(Values())
      ensures |v| == 16 && FromVector(v) == Values()
    {
      [pCorr, sCorr, cx, cfr, cpro, tx, ts, fc, et, beta, epot, kuz1, kuz0, uz1, perc, klz]
    }

    /** `setAsVector(vector:)`: fatal unless the vector has 16 elements;
        overwrites every field, so nothing of the earlier values survives,
        and `asVector` afterwards returns the same vector. */
    method SetAsVector(vector: seq<real>)
      requires |vector| == 16
      modifies this
      ensures Values() == FromVector(vector)
      ensures AsVector() == vector
      ensures vector == old(AsVector()) ==> Values() == old(Values())
    {
      SetValues(FromVector(vector));
    }

    /** Overwrites every field with the given values. */
    method SetValues(p: Params)
      modifies this
      ensures Values() == p
    {
      SetFirstEight(p);
      SetLastEight(p);
    }

    /** Overwrites the fields from `pCorr` to `fc`. */
    method SetFirstEight(p: Params)
      modifies this`pCorr, this`sCorr, this`cx, this`cfr, this`cpro, this`tx, this`ts, this`fc
      ensures pCorr == p.pCorr && sCorr == p.sCorr && cx == p.cx && cfr == p.cfr
      ensures cpro == p.cpro && tx == p.tx && ts == p.ts && fc == p.fc
    {
      pCorr := p.pCorr;
      sCorr := p.sCorr;
      cx := p.cx;
      cfr := p.cfr;
      cpro := p.cpro;
      tx := p.tx;
      ts := p.ts;
      fc := p.fc;
    }

    /** Overwrites the fields from `et` to `klz`. */
    method SetLastEight(p: Params)
      modifies this`et, this`beta, this`epot, this`kuz1, this`kuz0, this`uz1, this`perc, this`klz
      ensures et == p.et && beta == p.beta && epot == p.epot && kuz1 == p.kuz1
      ensures kuz0 == p.kuz0 && uz1 == p.uz1 && perc == p.perc && klz == p.klz
    {
      et := p.et;
      beta := p.beta;
      epot := p.epot;
      kuz1 := p.kuz1;
      kuz0 := p.kuz0;
      uz1 := p.uz1;
      perc := p.perc;
      klz := p.klz;
    }
  }

  /** `ModelParameters2`: a second class with the same fields, defaults and
      vector mapping. */
  class ModelParameters2 {
    var pCorr: real
    var sCorr: real
    var cx: real
    var cfr: real
    var cpro: real
    var tx: real
    var ts: real
    var fc: real
    var et: real
    var beta: real
    var epot: real
    var kuz1: real
    var kuz0: real
    var uz1: real
    var perc: real
    var klz: real

    function Values(): Params
      reads this
    {
      Params(pCorr, sCorr, cx, cfr, cpro, tx, ts, fc, et, beta, epot, kuz1, kuz0, uz1, perc, klz)
    }

    constructor ()
      ensures Values() == DefaultParams
    {
      pCorr, sCorr := 1.05, 1.15;
      cx, cfr, cpro, tx, ts := 5.0, 3.0, 0.04, 0.5, 0.5;
      fc, et, beta, epot := 40.0, 2.0, 1.5, 4.0;
      kuz1, kuz0, uz1, perc := 1.0, 0.1, 10.0, 1.5;
      klz := 1.0;
    }

    /** The same sixteen values in the same order as `ModelParameters`. */
    function AsVector(): (v: seq<real>)
      reads this
      ensures |v| == 16 && FromVector(v) == Values()
      ensures v == ToVector(Values())
    {
      [pCorr, sCorr, cx, cfr, cpro, tx, ts, fc, et, beta, epot, kuz1, kuz0, uz1, perc, klz]
    }

    method SetAsVector(vector: seq<real>)
      requires |vector| == 16
      modifies this
      ensures Values() == FromVector(vector)
      ensures AsVector() == vector
    {
      SetValues(FromVector(vector));
    }

    /** Overwrites every field with the given values. */
    method SetValues(p: Params)
      modifies this
      ensures Values() == p
    {
      SetFirstEight(p);
      SetLastEight(p);
    }

    /** Overwrites the fields from `pCorr` to `fc`. */
    method SetFirstEight(p: Params)
      modifies this`pCorr, this`sCorr, this`cx, this`cfr, this`cpro, this`tx, this`ts, this`fc
      ensures pCorr == p.pCorr && sCorr == p.sCorr && cx == p.cx && cfr == p.cfr
      ensures cpro == p.cpro && tx == p.tx && ts == p.ts && fc == p.fc
    {
      pCorr := p.pCorr;
      sCorr := p.sCorr;
      cx := p.cx;
      cfr := p.cfr;
      cpro := p.cpro;
      tx := p.tx;
      ts := p.ts;
      fc := p.fc;
    }

    /** Overwrites the fields from `et` to `klz`. */
    method SetLastEight(p: Params)
      modifies this`et, this`beta, this`epot, this`kuz1, this`kuz0, this`uz1, this`perc, this`klz
      ensures et == p.et && beta == p.beta && epot == p.epot && kuz1 == p.kuz1
      ensures kuz0 == p.kuz0 && uz1 == p.uz1 && perc == p.perc && klz == p.klz
    {
      et := p.et;
      beta := p.beta;
      epot := p.epot;
      kuz1 := p.kuz1;
      kuz0 := p.kuz0;
      uz1 := p.uz1;
      perc := p.perc;
      klz := p.klz;
    }
  }
}
