/** The instrument presets of the spectrum generator, the rule by which `set_instrument` resolves
    its argument, and the rule by which the constructor picks an instrument when none is named. */
module Instruments {
  import opened Wrappers

  /** An instrument as the constructor of `Instrument` receives it: a wavelength range in
      angstroms, a bin count or bin width, an optional line-spread-function kernel file and a
      name. How `Instrument` derives the bin count from the bin width is not part of this model. */
  datatype Instrument = Instrument(
    lambdaMin: Option<real>,
    lambdaMax: Option<real>,
    nLambda: Option<int>,
    dlambda: Option<real>,
    lsfKernel: Option<string>,
    name: string)

  /** A preset covering `[lo, hi]` angstroms with 0.01 angstrom bins. */
  function Preset(lo: real, hi: real, kernel: Option<string>, name: string): Instrument {
    Instrument(Some(lo), Some(hi), None, Some(0.01), kernel, name)
  }

  /** The registry of valid instruments, keyed by name. */
  const ValidInstruments: map<string, Instrument> := map[
    "COS" := Preset(1150.0, 1450.0, Some("avg_COS.txt"), "COS"),
    "HIRES" := Preset(1200.0, 1400.0, None, "HIRES"),
    "UVES" := Preset(1200.0, 1400.0, None, "UVES"),
    "MODS" := Preset(1200.0, 1400.0, None, "MODS"),
    "SDSS" := Preset(1200.0, 1400.0, None, "SDSS")]

  /** What may be handed to `set_instrument`: a string, an `Instrument` object, or a value of any
      other type. */
  datatype InstrumentArg = ByName(key: string) | Given(instrument: Instrument) | OtherValue

  /** `set_instrument`: a preset name selects the registry entry, an `Instrument` is taken as it
      is, and an unknown name or any other value is a RuntimeError. */
  function ResolveInstrument(arg: InstrumentArg): (r: Result<Instrument>)
    ensures r.Ok? <==> arg.Given? || (arg.ByName? && arg.key in ValidInstruments)
    ensures arg.Given? ==> r == Ok(arg.instrument)
    ensures arg.ByName? && r.Ok? ==> r.value.name == arg.key && r.value.dlambda == Some(0.01)
    ensures r.Err? ==> r.error.RuntimeError?
  {
    match arg
    case ByName(key) =>
      if key in ValidInstruments then Ok(ValidInstruments[key])
      else Err(RuntimeError("set_instrument accepts only Instrument objects or the names of valid instruments"))
    case Given(instrument) => Ok(instrument)
    case OtherValue =>
      Err(RuntimeError("set_instrument accepts only Instrument objects or the names of valid instruments"))
  }

  /** The presets: COS spans 1150-1450 angstroms and is the only one with a kernel; the other
      four span 1200-1400 angstroms. */
  lemma PresetRanges(key: string)
    requires key in ValidInstruments
    ensures var inst := ResolveInstrument(ByName(key)).value;
            (key == "COS" ==> inst.lambdaMin == Some(1150.0) && inst.lambdaMax == Some(1450.0)) &&
            (key != "COS" ==> inst.lambdaMin == Some(1200.0) && inst.lambdaMax == Some(1400.0)) &&
            (inst.lsfKernel.Some? <==> key == "COS") &&
            (inst.lsfKernel.Some? ==> inst.lsfKernel.value == "avg_COS.txt")
  {
    assert key in {"COS", "HIRES", "UVES", "MODS", "SDSS"};
  }

  /** The constructor's choice of instrument: with neither an instrument nor a minimum wavelength
      it is COS; with only explicit parameters it is a custom instrument named "Custom" built from
      them; otherwise the caller's argument stands. */
  function DefaultInstrumentArg(
    instrument: Option<InstrumentArg>, lambdaMin: Option<real>, lambdaMax: Option<real>,
    nLambda: Option<int>, dlambda: Option<real>, lsfKernel: Option<string>): InstrumentArg
  {
    if instrument.None? && lambdaMin.None? then ByName("COS")
    else if instrument.None? then
      Given(Instrument(lambdaMin, lambdaMax, nLambda, dlambda, lsfKernel, "Custom"))
    else instrument.value
  }

  /** The instrument a new generator ends up with, or the error the instrument choice raises. */
  function InitialInstrument(
    instrument: Option<InstrumentArg>, lambdaMin: Option<real>, lambdaMax: Option<real>,
    nLambda: Option<int>, dlambda: Option<real>, lsfKernel: Option<string>): (r: Result<Instrument>)
    ensures instrument.Some? ==> r == ResolveInstrument(instrument.value)
    ensures instrument.None? ==> r.Ok?
  {
    ResolveInstrument(DefaultInstrumentArg(instrument, lambdaMin, lambdaMax, nLambda, dlambda, lsfKernel))
  }

  /** Without an instrument or a minimum wavelength the generator is a COS generator, whatever
      else is passed: the other range parameters are ignored. */
  lemma DefaultIsCos(lambdaMax: Option<real>, nLambda: Option<int>, dlambda: Option<real>, lsfKernel: Option<string>)
    ensures InitialInstrument(None, None, lambdaMax, nLambda, dlambda, lsfKernel) == Ok(ValidInstruments["COS"])
    ensures ValidInstruments["COS"].lsfKernel == Some("avg_COS.txt")
  {
  }

  /** With a minimum wavelength and no instrument, the custom instrument carries exactly the
      caller's parameters. */
  lemma CustomKeepsParameters(lo: real, lambdaMax: Option<real>, nLambda: Option<int>, dlambda: Option<real>, lsfKernel: Option<string>)
    ensures var r := InitialInstrument(None, Some(lo), lambdaMax, nLambda, dlambda, lsfKernel);
            r.Ok? && r.value.name == "Custom" && r.value.lambdaMin == Some(lo) &&
            r.value.lambdaMax == lambdaMax && r.value.nLambda == nLambda &&
            r.value.dlambda == dlambda && r.value.lsfKernel == lsfKernel
  {
  }
}
