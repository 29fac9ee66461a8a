/** The spectrum generator: an instrument, a wavelength grid `lambdaBins` and a flux array
    `fluxField`, and the post-processing stages that act on them in place: multiplying by the
    Milky-Way foreground or a quasar continuum, adding Gaussian noise, smoothing with the line
    spread function, flattening, and loading and saving. */
module Generator {
  import opened Wrappers
  import opened Instruments
  import opened Templates
  import opened Convolution
  import opened SpectrumIO

  /** What a stage reports: it ran, or the exception it raised. */
  datatype Outcome = Pass | Fail(error: Error)

  /** numpy's rule for updating an array of length `n` in place with an operand of length `m`:
      the operand must have the same length or a single entry. */
  predicate Broadcastable(n: nat, m: nat) {
    m == n || m == 1
  }

  /** The operand entry that meets position `i`, a single entry meeting every position. */
  function Factor(ys: seq<real>, i: int): real
    requires 0 <= i && (|ys| == 1 || i < |ys|)
  {
    if |ys| == 1 then ys[0] else ys[i]
  }

  /** `xs * ys` with broadcasting. */
  function Product(xs: seq<real>, ys: seq<real>): (r: seq<real>)
    requires Broadcastable(|xs|, |ys|)
    ensures |r| == |xs|
  {
    seq(|xs|, i requires 0 <= i < |xs| => xs[i] * Factor(ys, i))
  }

  /** `xs + ys` with broadcasting. */
  function Plus(xs: seq<real>, ys: seq<real>): (r: seq<real>)
    requires Broadcastable(|xs|, |ys|)
    ensures |r| == |xs|
  {
    seq(|xs|, i requires 0 <= i < |xs| => xs[i] + Factor(ys, i))
  }

  /** `np.ones(n)`. */
  function Ones(n: nat): (r: seq<real>)
    ensures |r| == n && forall i :: 0 <= i < n ==> r[i] == 1.0
  {
    seq(n, _ => 1.0)
  }

  /** `np.random.normal(loc=0.0, scale=1/snr, size=n)`, given the generator's standard-normal
      draws `draw(0), draw(1), ...`. */
  function Noise(snr: real, draw: nat -> real, n: nat): (r: seq<real>)
    requires snr != 0.0
    ensures |r| == n
    ensures forall i :: 0 <= i < n ==> r[i] * snr == draw(i)
  {
    seq(n, i requires 0 <= i < n => 0.0 + (1.0 / snr) * draw(i))
  }

  /** Multiplying a flat spectrum by a template yields the template. */
  lemma FlatTimesTemplate(ys: seq<real>)
    ensures Product(Ones(|ys|), ys) == ys
  {
  }

  /** The multiplicative stages commute: foreground then quasar equals quasar then foreground. */
  lemma ForegroundStagesCommute(xs: seq<real>, a: seq<real>, b: seq<real>)
    requires |a| == |xs| && |b| == |xs|
    ensures Product(Product(xs, a), b) == Product(Product(xs, b), a)
  {
    forall i | 0 <= i < |xs|
      ensures Product(Product(xs, a), b)[i] == Product(Product(xs, b), a)[i]
    {
      assert Product(Product(xs, a), b)[i] == xs[i] * a[i] * b[i];
      assert Product(Product(xs, b), a)[i] == xs[i] * b[i] * a[i];
    }
  }

  /** The Milky-Way foreground leaves every bin redder than its cutoff as it was. */
  lemma MilkyWayKeepsRedBins(xs: seq<real>, t: Template, grid: seq<real>)
    requires WellFormed(t) && |xs| == |grid|
    ensures var r := Product(xs, MilkyWayForeground(t, grid));
            forall i :: 0 <= i < |grid| && grid[i] > MilkyWayCutoff ==> r[i] == xs[i]
  {
  }

  /** The noise added to a bin can be read back from the result: it is the bin's draw divided by
      the signal-to-noise ratio. */
  lemma NoiseRecoverable(xs: seq<real>, snr: real, draw: nat -> real, n: nat)
    requires snr != 0.0 && Broadcastable(|xs|, n)
    ensures var r := Plus(xs, Noise(snr, draw, n));
            forall i :: 0 <= i < |xs| ==> (r[i] - xs[i]) * snr == draw(if n == 1 then 0 else i)
  {
  }

  /** `a *= factors`, one entry at a time. */
  method MultiplyInPlace(a: array<real>, factors: seq<real>)
    requires Broadcastable(a.Length, |factors|)
    modifies a
    ensures a[..] == Product(old(a[..]), factors)
  {
    var i := 0;
    while i < a.Length
      invariant 0 <= i <= a.Length
      invariant forall k :: 0 <= k < i ==> a[k] == old(a[k]) * Factor(factors, k)
      invariant forall k :: i <= k < a.Length ==> a[k] == old(a[k])
    {
      a[i] := a[i] * Factor(factors, i);
      i := i + 1;
    }
    assert forall k :: 0 <= k < a.Length ==> a[..][k] == Product(old(a[..]), factors)[k];
  }

  /** `np.add(a, terms, out=a)`, one entry at a time. */
  method AddInPlace(a: array<real>, terms: seq<real>)
    requires Broadcastable(a.Length, |terms|)
    modifies a
    ensures a[..] == Plus(old(a[..]), terms)
  {
    var i := 0;
    while i < a.Length
      invariant 0 <= i <= a.Length
      invariant forall k :: 0 <= k < i ==> a[k] == old(a[k]) + Factor(terms, k)
      invariant forall k :: i <= k < a.Length ==> a[k] == old(a[k])
    {
      a[i] := a[i] + Factor(terms, i);
      i := i + 1;
    }
    assert forall k :: 0 <= k < a.Length ==> a[..][k] == Plus(old(a[..]), terms)[k];
  }

  /** A fresh array holding `s`. */
  method FromSeq(s: seq<real>) returns (a: array<real>)
    ensures fresh(a) && a[..] == s
  {
    a := new real[|s|](i requires 0 <= i < |s| => s[i]);
  }

  /** How `apply_lsf` asks for a kernel: a functional form, a width and a kernel file. */
  datatype LsfSpec = LsfSpec(shape: Option<string>, width: Option<int>, filename: Option<string>)

  /** `apply_lsf`'s choice of kernel: with no argument the instrument's kernel file, or a
      RuntimeError when the instrument has none; with any argument the caller's request. */
  function KernelChoice(shape: Option<string>, width: Option<int>, filename: Option<string>, inst: Instrument): (r: Result<LsfSpec>)
    ensures r.Err? <==> shape.None? && width.None? && filename.None? && inst.lsfKernel.None?
    ensures r.Err? ==> r.error.RuntimeError?
    ensures r.Ok? && (shape.Some? || width.Some? || filename.Some?) ==> r.value == LsfSpec(shape, width, filename)
    ensures r.Ok? && shape.None? && width.None? && filename.None? ==> r.value == LsfSpec(None, None, inst.lsfKernel)
  {
    if shape.None? && width.None? && filename.None? then
      if inst.lsfKernel.None? then
        Err(RuntimeError("To apply a line spread function, you must specify one or use an instrument where one is defined."))
      else Ok(LsfSpec(None, None, inst.lsfKernel))
    else Ok(LsfSpec(shape, width, filename))
  }

  /** Called without arguments, `apply_lsf` succeeds on a preset exactly when it is COS, whose
      kernel is read from "avg_COS.txt". */
  lemma DefaultLsfOnlyForCos(key: string)
    requires key in ValidInstruments
    ensures var choice := KernelChoice(None, None, None, ValidInstruments[key]);
            (choice.Ok? <==> key == "COS") &&
            (choice.Ok? ==> choice.value == LsfSpec(None, None, Some("avg_COS.txt")))
  {
    PresetRanges(key);
  }

  /** The smoothed flux `apply_lsf` stores, or the error it raises. `build` stands for the kernel
      construction, which yields no kernel when the request cannot be met. */
  function Smoothed(shape: Option<string>, width: Option<int>, filename: Option<string>, inst: Instrument,
                    build: LsfSpec -> Option<seq<real>>, flux: seq<real>): (r: Result<seq<real>>)
    ensures r.Err? && r.error.RuntimeError? <==> KernelChoice(shape, width, filename, inst).Err?
    ensures r == Err(KernelError) <==>
              KernelChoice(shape, width, filename, inst).Ok? && build(KernelChoice(shape, width, filename, inst).value).None?
    ensures r.Ok? ==> |r.value| >= |flux|
  {
    match KernelChoice(shape, width, filename, inst)
    case Err(e) => Err(e)
    case Ok(spec) =>
      match build(spec)
      case None => Err(KernelError)
      case Some(kernel) => Convolve(kernel, flux)
  }

  /** A successful smoothing has the length of the longer of kernel and spectrum, so a kernel no
      longer than the spectrum keeps its length; an empty spectrum or kernel is a ValueError. */
  lemma SmoothedLength(shape: Option<string>, width: Option<int>, filename: Option<string>, inst: Instrument,
                       build: LsfSpec -> Option<seq<real>>, flux: seq<real>)
    requires KernelChoice(shape, width, filename, inst).Ok?
    requires build(KernelChoice(shape, width, filename, inst).value).Some?
    ensures var kernel := build(KernelChoice(shape, width, filename, inst).value).value;
            var r := Smoothed(shape, width, filename, inst, build, flux);
            (r.Ok? <==> kernel != [] && flux != []) &&
            (r.Ok? ==> |r.value| == if |flux| > |kernel| then |flux| else |kernel|) &&
            (r.Ok? && |kernel| <= |flux| ==> |r.value| == |flux|) &&
            (r.Err? ==> r.error.ValueError?)
  {
  }

  /** The default file name of `save_spectrum`. */
  const DefaultSaveName: string := "spectrum.h5"

  /** A spectrum saved under the default name is written as HDF5 and can be loaded back. */
  lemma DefaultSaveIsReloadable()
    ensures SaveFormat(DefaultSaveName, None) == SaveChoice(HDF5, false)
    ensures LoadCheck(Some(DefaultSaveName)).None?
  {
    assert DefaultSaveName[|DefaultSaveName| - 3..] == ".h5";
  }

  /** The contents of a saved spectrum file: its wavelength and flux datasets. */
  datatype StoredSpectrum = StoredSpectrum(wavelength: seq<real>, flux: seq<real>)

  class SpectrumGenerator {
    var instrument: Instrument
    var lambdaBins: array<real>
    var fluxField: array<real>
    /** The name of the ionization table in the table directory. */
    var ionizationTable: string

    /** A generator for a resolved instrument and ionization table, holding the wavelength grid
        and flux that the parent absorption-spectrum class has produced for it. */
    constructor (inst: Instrument, table: string, grid: seq<real>, flux: seq<real>)
      ensures instrument == inst && ionizationTable == table
      ensures lambdaBins[..] == grid && fluxField[..] == flux
      ensures fresh(lambdaBins) && fresh(fluxField)
    {
      var bins := FromSeq(grid);
      var values := FromSeq(flux);
      instrument, ionizationTable, lambdaBins, fluxField := inst, table, bins, values;
    }

    /** `SpectrumGenerator(instrument=..., lambda_min=..., ...)` without an ionization table:
        picks the instrument by the constructor's default rule and fails as `set_instrument` does,
        then picks the table from the listing of the table directory and fails with IndexError
        when the listing holds no `.h5` file. */
    static method Create(
      instrumentArg: Option<InstrumentArg>, lambdaMin: Option<real>, lambdaMax: Option<real>,
      nLambda: Option<int>, dlambda: Option<real>, lsfKernel: Option<string>,
      tableListing: seq<string>, grid: seq<real>, flux: seq<real>) returns (r: Result<SpectrumGenerator>)
      ensures var inst := InitialInstrument(instrumentArg, lambdaMin, lambdaMax, nLambda, dlambda, lsfKernel);
              var table := ChooseIonizationTable(tableListing);
              (r.Ok? <==> inst.Ok? && table.Ok?) &&
              (inst.Err? ==> r.Err? && r.error == inst.error) &&
              (inst.Ok? && table.Err? ==> r.Err? && r.error == IndexError) &&
              (r.Ok? ==> fresh(r.value) && r.value.instrument == inst.value &&
                         r.value.ionizationTable == table.value &&
                         r.value.lambdaBins[..] == grid && r.value.fluxField[..] == flux)
    {
      var inst := InitialInstrument(instrumentArg, lambdaMin, lambdaMax, nLambda, dlambda, lsfKernel);
      if inst.Err? {
        return Err(inst.error);
      }
      var table := ChooseIonizationTable(tableListing);
      if table.Err? {
        return Err(table.error);
      }
      var g := new SpectrumGenerator(inst.value, table.value, grid, flux);
      r := Ok(g);
    }

    /** The array a stage acts on: the one passed in, or the generator's own flux. */
    function Target(target: Option<array<real>>): array<real>
      reads this
    {
      if target.Some? then target.value else fluxField
    }

    /** `set_instrument`: on success the instrument becomes the resolved one; on failure nothing
        changes. */
    method SetInstrument(arg: InstrumentArg) returns (r: Outcome)
      modifies this`instrument
      ensures var resolved := ResolveInstrument(arg);
              (r.Pass? <==> resolved.Ok?) &&
              (r.Pass? ==> instrument == resolved.value) &&
              (r.Fail? ==> instrument == old(instrument) && r.error == resolved.error)
    {
      var resolved := ResolveInstrument(arg);
      if resolved.Err? {
        return Fail(resolved.error);
      }
      instrument := resolved.value;
      r := Pass;
    }

    /** `add_milky_way_foreground`: multiplies the target in place by the foreground resampled on
        the wavelength grid; a target the foreground cannot broadcast onto is a ValueError and
        is left untouched. */
    method AddMilkyWayForeground(target: Option<array<real>>, table: Template) returns (r: Outcome)
      requires WellFormed(table)
      modifies Target(target)
      ensures var a := Target(target);
              var mw := MilkyWayForeground(table, old(lambdaBins[..]));
              (r.Pass? <==> Broadcastable(a.Length, |mw|)) &&
              (r.Pass? ==> a[..] == Product(old(a[..]), mw)) &&
              (r.Fail? ==> a[..] == old(a[..]) && r.error.ValueError?)
    {
      var mw := MilkyWayForeground(table, lambdaBins[..]);
      var a := Target(target);
      if !Broadcastable(a.Length, |mw|) {
        return Fail(ValueError("operands could not be broadcast together"));
      }
      MultiplyInPlace(a, mw);
      r := Pass;
    }

    /** `add_qso_spectrum`: as the foreground, with the quasar continuum at redshift `z`. */
    method AddQsoSpectrum(target: Option<array<real>>, table: Template, z: real) returns (r: Outcome)
      requires WellFormed(table) && z > -1.0
      modifies Target(target)
      ensures var a := Target(target);
              var qso := QsoSpectrum(table, old(lambdaBins[..]), z);
              (r.Pass? <==> Broadcastable(a.Length, |qso|)) &&
              (r.Pass? ==> a[..] == Product(old(a[..]), qso)) &&
              (r.Fail? ==> a[..] == old(a[..]) && r.error.ValueError?)
    {
      var qso := QsoSpectrum(table, lambdaBins[..], z);
      var a := Target(target);
      if !Broadcastable(a.Length, |qso|) {
        return Fail(ValueError("operands could not be broadcast together"));
      }
      MultiplyInPlace(a, qso);
      r := Pass;
    }

    /** `add_gaussian_noise`: adds `n_bins` draws of width `1/snr` (by default one per wavelength
        bin) to the target in place and returns the target itself. A zero ratio divides by zero;
        a negative ratio or bin count, or a bin count the target cannot take, is a ValueError. */
    method AddGaussianNoise(snr: real, draw: nat -> real, nBins: Option<int>, out: Option<array<real>>)
      returns (r: Result<array<real>>)
      modifies Target(out)
      ensures var a := Target(out);
              var n := if nBins.Some? then nBins.value else lambdaBins.Length;
              (snr == 0.0 ==> r == Err(ZeroDivisionError)) &&
              (snr != 0.0 && r.Err? ==> r.error.ValueError?) &&
              (r.Ok? <==> snr > 0.0 && n >= 0 && Broadcastable(a.Length, n)) &&
              (r.Ok? ==> r.value == a && a[..] == Plus(old(a[..]), Noise(snr, draw, n))) &&
              (r.Err? ==> a[..] == old(a[..]))
    {
      var n := if nBins.Some? then nBins.value else lambdaBins.Length;
      var a := Target(out);
      if snr == 0.0 {
        return Err(ZeroDivisionError);
      }
      if snr < 0.0 {
        return Err(ValueError("scale < 0"));
      }
      if n < 0 {
        return Err(ValueError("negative dimensions are not allowed"));
      }
      var noise := Noise(snr, draw, n);
      if !Broadcastable(a.Length, n) {
        return Err(ValueError("operands could not be broadcast together"));
      }
      AddInPlace(a, noise);
      r := Ok(a);
    }

    /** `apply_lsf`: replaces the flux with its convolution with the chosen kernel; on any error
        the flux is left as it was. */
    method ApplyLsf(shape: Option<string>, width: Option<int>, filename: Option<string>,
                    build: LsfSpec -> Option<seq<real>>) returns (r: Outcome)
      modifies this`fluxField
      ensures var s := Smoothed(shape, width, filename, instrument, build, old(fluxField[..]));
              (r.Pass? <==> s.Ok?) &&
              (r.Pass? ==> fresh(fluxField) && fluxField[..] == s.value) &&
              (r.Fail? ==> fluxField == old(fluxField) && r.error == s.error)
    {
      var s := Smoothed(shape, width, filename, instrument, build, fluxField[..]);
      if s.Err? {
        return Fail(s.error);
      }
      fluxField := FromSeq(s.value);
      r := Pass;
    }

    /** `make_flat_spectrum`: a fresh flux of ones, one per wavelength bin. */
    method MakeFlatSpectrum() returns (bins: array<real>, flux: array<real>)
      modifies this`fluxField
      ensures fresh(fluxField) && fluxField[..] == Ones(lambdaBins.Length)
      ensures bins == lambdaBins && flux == fluxField
    {
      fluxField := FromSeq(Ones(lambdaBins.Length));
      bins, flux := lambdaBins, fluxField;
    }

    /** `load_spectrum`: replaces grid and flux with the stored datasets of an HDF5 file; any
        other name is refused and nothing changes. */
    method LoadSpectrum(filename: Option<string>, stored: StoredSpectrum) returns (r: Outcome)
      modifies this`lambdaBins, this`fluxField
      ensures var check := LoadCheck(filename);
              (r.Pass? <==> check.None?) &&
              (r.Pass? ==> fresh(lambdaBins) && fresh(fluxField) &&
                           lambdaBins[..] == stored.wavelength && fluxField[..] == stored.flux) &&
              (r.Fail? ==> r.error == check.value && lambdaBins == old(lambdaBins) && fluxField == old(fluxField))
    {
      var check := LoadCheck(filename);
      if check.Some? {
        return Fail(check.value);
      }
      lambdaBins := FromSeq(stored.wavelength);
      fluxField := FromSeq(stored.flux);
      r := Pass;
    }

    /** `save_spectrum`: the writer chosen and the datasets it writes. */
    method SaveSpectrum(filename: string, format: Option<string>) returns (choice: SaveChoice, written: StoredSpectrum)
      ensures choice == SaveFormat(filename, format)
      ensures written.wavelength == lambdaBins[..] && written.flux == fluxField[..]
    {
      choice := SaveFormat(filename, format);
      written := StoredSpectrum(lambdaBins[..], fluxField[..]);
    }

    /** Saving to an HDF5 name and loading that file back restores the grid and the flux. */
    method SaveAndReload(filename: string) returns (r: Outcome)
      requires Strings.EndsWith(filename, ".h5")
      modifies this`lambdaBins, this`fluxField
      ensures r.Pass?
      ensures lambdaBins[..] == old(lambdaBins[..]) && fluxField[..] == old(fluxField[..])
    {
      var choice, written := SaveSpectrum(filename, None);
      assert choice.format == HDF5;
      r := LoadSpectrum(Some(filename), written);
    }
  }
}
