# Trident spectrum generator, modelled in Dafny

This project models the post-processing core of Trident's `SpectrumGenerator`
(`trident/spectrum_generator.py`). Once an absorption spectrum exists, the
generator holds three things: an instrument, a wavelength grid (`lambda_bins`)
and a flux array (`flux_field`). The model covers:

- **Instrument presets.** `set_instrument` resolves its argument against the
  registry, and the constructor's rule picks a default instrument
  (`instruments.dfy`, module `Instruments`).
- **Template interpolation.** `_get_qso_spectrum` and
  `_get_milky_way_foreground` use `np.digitize`, clamp the index to `[1, n-1]`
  and inter- or extrapolate linearly. The quasar table is first stretched by
  `(1 + z)`, and the Milky-Way foreground is forced to 1.0 beyond its coverage
  (`templates.dfy`, module `Templates`).
- **The LSF convolution.** numpy's `'same'`-mode convolution, which
  `apply_lsf` applies, is written out (`convolution.dfy`, module
  `Convolution`).
- **The generator class.** The in-place stages are `add_milky_way_foreground`,
  `add_qso_spectrum`, `add_gaussian_noise`, `apply_lsf`, `make_flat_spectrum`,
  `load_spectrum`, `save_spectrum` and `set_instrument`. They act on a class
  whose `lambdaBins` and `fluxField` are arrays, and they use numpy's
  broadcasting rule for in-place updates (`spectrum_generator.dfy`, module
  `Generator`).
- **Format rules.** The writer `save_spectrum` selects, the names
  `load_spectrum` accepts, and the constructor's preferred ionization table
  (`spectrum_io.dfy`, module `SpectrumIO`).
- **Field resolution in `make_spectrum`.** Ion number-density field names such
  as `Mg_p1_number_density` are parsed into an element and an ionization level.
  The loop that requests the missing fields from the ion-balance collaborator
  is modelled too (`ion_fields.dfy`, module `IonFields`). It relies on small
  models of Python's `str.find`, `str.split` and `int()` (`strings.dfy`,
  module `Strings`).

Python exceptions become `Err` values of `Wrappers.Result`, or `Fail` values of
`Generator.Outcome`, naming the exception class. Wavelengths and fluxes are
`real`.

The model follows the code in three places where its behaviour is easy to
misread:

- The Milky-Way foreground is forced to 1.0 only for wavelengths **strictly
  greater than** 1799.9444 Å (`>` at line 253). A bin exactly at the cutoff
  keeps its interpolated value (`Templates.MilkyWayAtCutoffKeepsTemplate`).
- The LSF output has the length of the longer of kernel and flux, as
  `np.convolve(..., 'same')` gives. It is not always the flux's length.
- The generator does not check `n_bins` against the target. numpy accepts a
  one-entry noise vector (broadcast over the whole target) and rejects every
  other mismatch.

## Model

| member | source | states |
|---|---|---|
| Instruments.ResolveInstrument | trident/spectrum_generator.py:408-419 | a preset name selects its registry entry (whose name is that key, with 0.01 Å bins); an Instrument value is kept as is; an unknown name or any other value is a RuntimeError, and these are the only failures |
| Instruments.PresetRanges | trident/spectrum_generator.py:39-49 | COS spans 1150-1450 Å with kernel `avg_COS.txt`; HIRES, UVES, MODS and SDSS span 1200-1400 Å; only COS has a kernel |
| Instruments.InitialInstrument | trident/spectrum_generator.py:90-99 | with an instrument given, the instrument choice succeeds or fails exactly as `set_instrument` on it; without one, the instrument choice never fails, with the `Instrument` constructor taken as total |
| Instruments.DefaultIsCos | trident/spectrum_generator.py:90-92 | with neither an instrument nor `lambda_min`, the instrument is the COS preset whatever the other range parameters are |
| Instruments.CustomKeepsParameters | trident/spectrum_generator.py:93-98 | with `lambda_min` and no instrument, the instrument is named "Custom" and carries exactly the caller's range, bin count, bin width and kernel |
| Templates.Digitize | trident/spectrum_generator.py:225 | `np.digitize` on increasing bins: the index `i <= n` such that every bin below `i` is at most `x` and bin `i`, if any, exceeds `x` |
| Templates.SegmentIndexBrackets | trident/spectrum_generator.py:225-226 | after clipping, the segment index lies in `[1, n-1]`: 1 below the table, `n-1` at or above its last row, and bracketing `x` inside it |
| Templates.Interpolate | trident/spectrum_generator.py:225-229 | one interpolated value per target wavelength |
| Templates.InterpolateAtRow | trident/spectrum_generator.py:225-229 | at a tabulated wavelength, including the first and the last row, the result is that row's flux exactly |
| Templates.OnLineBetween | trident/spectrum_generator.py:227-229 | the interpolating line between two rows stays between their fluxes |
| Templates.InterpolateWithinTableBounds | trident/spectrum_generator.py:247-251 | inside the table's wavelength range, a table whose fluxes lie in `[lo, hi]` interpolates into `[lo, hi]` |
| Templates.Redshifted | trident/spectrum_generator.py:221-223 | for `z > -1` the stretched table is still strictly increasing, keeps its fluxes, and each wavelength becomes `lambda * (1 + z)` |
| Templates.DigitizeRedshift | trident/spectrum_generator.py:222-225 | digitizing `x` against the stretched wavelengths equals digitizing `x / (1 + z)` against the original ones |
| Templates.InterpolateRedshift | trident/spectrum_generator.py:222-229 | interpolating the stretched table at `x` equals interpolating the original table at `x / (1 + z)` |
| Templates.QsoSpectrum | trident/spectrum_generator.py:209-230 | one value per bin, each the original table interpolated at the bin's rest-frame wavelength `x / (1 + z)` |
| Templates.QsoSpectrumAtStretchedRow | trident/spectrum_generator.py:209-230 | at redshift `z` the quasar spectrum reproduces each tabulated flux at the stretched wavelength `lambda * (1 + z)` |
| Templates.MilkyWayForeground | trident/spectrum_generator.py:247-254 | one value per bin; exactly 1.0 in every bin strictly above 1799.9444 Å; the interpolated template value in every other bin |
| Templates.MilkyWayAtCutoffKeepsTemplate | trident/spectrum_generator.py:253 | the cutoff comparison is strict: a bin exactly at 1799.9444 Å keeps the template's flux |
| Convolution.Convolve | trident/spectrum_generator.py:365 | an empty operand is a ValueError and nothing else fails; the output has the longer operand's length; the longer operand is the signal and the kernel wins a tie |
| Convolution.TapOnConstant | trident/spectrum_generator.py:365 | on a constant signal, each output entry whose taps stay inside the signal is the constant times the kernel's sum |
| Convolution.ConvolveKeepsConstantInterior | trident/spectrum_generator.py:365 | a unit-sum kernel leaves a flat spectrum flat wherever it lies wholly inside the spectrum |
| Convolution.TapOfImpulse | trident/spectrum_generator.py:365 | the taps of a centred impulse pick up exactly the sample under the centre |
| Convolution.ConvolveImpulse | trident/spectrum_generator.py:365 | convolving with a centred impulse of weight `w` scales the spectrum by `w` without shifting it, so `w = 1` is the identity |
| Generator.KernelChoice | trident/spectrum_generator.py:352-364 | with no argument, the instrument's kernel file is used, or a RuntimeError is raised when there is none; with any argument, the caller's function, width and file are used |
| Generator.DefaultLsfOnlyForCos | trident/spectrum_generator.py:39-49 | called without arguments on a preset, `apply_lsf` finds a kernel exactly for COS, the file `avg_COS.txt` |
| Generator.Smoothed | trident/spectrum_generator.py:352-365 | a RuntimeError exactly when no kernel can be chosen; a kernel error exactly when the chosen kernel cannot be built; a smoothed flux is never shorter than the flux |
| Generator.SmoothedLength | trident/spectrum_generator.py:352-365 | once a kernel is built, smoothing fails only on an empty spectrum or kernel (ValueError); the smoothed flux has the longer length, so a kernel no longer than the flux keeps the flux's length |
| Generator.FlatTimesTemplate | trident/spectrum_generator.py:385-390 | multiplying a flat spectrum by a template yields the template |
| Generator.ForegroundStagesCommute | trident/spectrum_generator.py:271-298 | applying the foreground and the quasar continuum in either order gives the same flux |
| Generator.MilkyWayKeepsRedBins | trident/spectrum_generator.py:253-274 | the Milky-Way stage leaves every bin above the cutoff unchanged |
| Generator.Noise | trident/spectrum_generator.py:327 | one term per requested bin, each the bin's standard-normal draw divided by `snr` |
| Generator.NoiseRecoverable | trident/spectrum_generator.py:322-329 | the noise added to each bin is its standard-normal draw divided by `snr` (one draw for all bins when one draw is made) |
| Generator.MultiplyInPlace | trident/spectrum_generator.py:274 | `a *= factors`: each entry becomes its old value times its broadcast factor, and the length is unchanged |
| Generator.AddInPlace | trident/spectrum_generator.py:327-328 | `np.add(a, terms, out=a)`: each entry becomes its old value plus its broadcast term |
| Generator.DefaultSaveIsReloadable | trident/spectrum_generator.py:456 | the default file name `spectrum.h5` is written as HDF5 and can be loaded back |
| Generator.SpectrumGenerator.constructor | trident/spectrum_generator.py:87-104 | a generator holds the resolved instrument and ionization table together with fresh copies of the grid and flux that the parent class produced |
| Generator.SpectrumGenerator.Create | trident/spectrum_generator.py:87-130 | construction without a user-supplied table succeeds exactly when the default-instrument rule resolves and the table listing holds a `.h5` file; an instrument error comes first, otherwise a listing without `.h5` files is an IndexError; on success the generator holds that instrument and the chosen table |
| Generator.SpectrumGenerator.SetInstrument | trident/spectrum_generator.py:392-419 | on success the instrument becomes the resolved one; on failure it is unchanged and the RuntimeError is reported |
| Generator.SpectrumGenerator.AddMilkyWayForeground | trident/spectrum_generator.py:256-274 | the target (default: the generator's flux) becomes its old value times the foreground on the old grid, when the two broadcast; otherwise a ValueError and the target is untouched |
| Generator.SpectrumGenerator.AddQsoSpectrum | trident/spectrum_generator.py:276-298 | as the foreground stage, with the quasar continuum at redshift `z` |
| Generator.SpectrumGenerator.AddGaussianNoise | trident/spectrum_generator.py:300-329 | `n_bins` defaults to the grid size and the target to the flux; `snr == 0` divides by zero; a negative `snr`, a negative bin count or a count that does not broadcast is a ValueError with the target untouched; otherwise the target gains the scaled draws in place and is itself returned |
| Generator.SpectrumGenerator.ApplyLsf | trident/spectrum_generator.py:331-365 | on success the flux becomes a fresh array holding the convolution with the chosen kernel; on any error the flux is unchanged and the error is that of the kernel choice, the kernel construction or the convolution |
| Generator.SpectrumGenerator.MakeFlatSpectrum | trident/spectrum_generator.py:385-390 | the flux becomes a fresh array of ones, one per wavelength bin, and the grid and the new flux are returned |
| Generator.SpectrumGenerator.LoadSpectrum | trident/spectrum_generator.py:367-383 | a name ending in `.h5` replaces grid and flux with the stored datasets; any other name, or none, is refused with nothing changed |
| Generator.SpectrumGenerator.SaveSpectrum | trident/spectrum_generator.py:456-478 | the writer is chosen by the format rules and writes the current grid and flux |
| Generator.SpectrumGenerator.SaveAndReload | trident/spectrum_generator.py:367-383 | saving under an `.h5` name and loading that file back succeeds and restores the grid and the flux |
| SpectrumIO.FormatOfName | trident/spectrum_generator.py:463-469 | a name ending in `.h5` selects HDF5, one ending in `.fits` (and not `.h5`) FITS, anything else ASCII |
| SpectrumIO.SaveFormat | trident/spectrum_generator.py:463-478 | without a format the file name decides; the warning is logged exactly for an explicit format other than HDF5, FITS or ASCII, which then falls back to ASCII |
| SpectrumIO.ExplicitFormatWins | trident/spectrum_generator.py:470-475 | an explicitly named format is chosen whatever the file name, with no warning |
| SpectrumIO.LoadCheck | trident/spectrum_generator.py:378-379 | loading is allowed exactly for a name ending in `.h5`; a missing name is an AttributeError (`None.endswith`) and any other name a RuntimeError |
| SpectrumIO.LoadAcceptsWhatSaveWritesAsHdf5 | trident/spectrum_generator.py:378-379 | a file can be loaded exactly when saving under its name without a format writes HDF5 |
| SpectrumIO.FitsNotReloadable | trident/spectrum_generator.py:466-467 | a `.fits` name is saved as FITS and refused by `load_spectrum` |
| SpectrumIO.FirstH5Index | trident/spectrum_generator.py:125-130 | the position of the first `.h5` file in the listing: no earlier entry ends in `.h5`, and the entry there does (the listing's length when there is none) |
| SpectrumIO.H5Files | trident/spectrum_generator.py:125 | the listing's `.h5` files, and only those; non-empty exactly when the listing holds one, and then starting with the listing's first `.h5` file |
| SpectrumIO.ChooseIonizationTable | trident/spectrum_generator.py:122-130 | the chosen table is a listed `.h5` file and is `hm2012_hr.h5` when present; without either HM2012 table it is the first `.h5` file in listing order; an IndexError exactly when no `.h5` file is listed |
| SpectrumIO.LowResolutionTableOnlyWithoutHigh | trident/spectrum_generator.py:126-127 | `hm2012_lr.h5` is chosen only when `hm2012_hr.h5` is absent |
| Strings.Split | trident/spectrum_generator.py:188 | `str.split` on one character gives at least one piece, and no piece holds the separator |
| Strings.ParseInt | trident/spectrum_generator.py:190 | `int()` succeeds exactly on an optional sign followed by at least one decimal digit; the value is the digits' decimal value, negated after `-` |
| Strings.Find | trident/spectrum_generator.py:187 | `str.find`: -1 exactly when the pattern never occurs, otherwise its first occurrence |
| Strings.JoinSplit | trident/spectrum_generator.py:188 | `str.split` loses nothing: joining the pieces with the separator gives back the string |
| Strings.ParseIntOfNatToString | trident/spectrum_generator.py:190 | `int()` reads back a printed natural number |
| IonFields.ParseIonPrefix | trident/spectrum_generator.py:188-192 | a parsed element is the first `_`-piece and holds no `_`; an IndexError exactly when there is no second `_`-piece; with a non-empty second piece, a ValueError exactly when the state after its first character is not an integer, and otherwise level that integer plus one; with an empty second piece, level 1 |
| IonFields.ParseIonField | trident/spectrum_generator.py:186-192 | the corrected parse succeeds only on names containing `number_density`, and on those it agrees with the code as written |
| IonFields.ParseIonFieldAsWritten | trident/spectrum_generator.py:186-192 | as written, a parsed element holds no `_`, and a name without `number_density` is parsed with its last character dropped |
| IonFields.ParseIonFieldName | trident/spectrum_generator.py:186-190 | `E_pN_number_density` parses to element `E` at level `N + 1` |
| IonFields.ParseNeutralFieldName | trident/spectrum_generator.py:186-192 | `E_number_density`, with an empty state piece, parses to element `E` at level 1 |
| IonFields.ParseAcceptsNonDensityAsWritten | trident/spectrum_generator.py:186-187 | as written, `Si_p2_mass`, which holds no `number_density`, is cut to `Si_p2_mas` and read as silicon at level 3; the corrected parse rejects it |
| IonFields.IonRequests | trident/spectrum_generator.py:181-195 | the corrected resolution requests at most one ion per line, treats a requested field as resolvable for later lines, and a leading field that needs deriving and does not parse aborts it with that field's error |
| IonFields.IonRequestsAsWritten | trident/spectrum_generator.py:181-195 | as written, at most one request per line; a leading derived field with no earlier parsed field fails with an unbound local, and with one it re-requests that earlier ion first |
| IonFields.IonRequestsCorrect | trident/spectrum_generator.py:181-193 | the corrected resolution succeeds exactly when every field that needs deriving parses, and then requests exactly those fields' ions |
| IonFields.IonRequestsOncePerField | trident/spectrum_generator.py:179-195 | no field is requested twice: the number of requests equals the number of distinct fields that need deriving, however many lines share a field |
| IonFields.SharedFieldRequestedOnce | trident/spectrum_generator.py:179-195 | two lines sharing `Mg_p1_number_density`, as the magnesium II doublet does, send one request for magnesium II |
| IonFields.ResolveIonFields | trident/spectrum_generator.py:181-195 | the loop, which marks each requested field resolvable, returns the requests of the corrected resolution, in order, or the first parse error |
| IonFields.UnboundIonRequestAsWritten | trident/spectrum_generator.py:183-195 | as written, a derived field met before any parsed field fails with an unbound local; corrected, it requests nothing |
| IonFields.StaleIonRequestAsWritten | trident/spectrum_generator.py:183-195 | as written, a derived field after `Mg_p1_number_density` requests magnesium II a second time; corrected, it is requested once |

## Left out

- File and library I/O is not modelled. This covers `np.loadtxt` of the templates (tables are inputs), the HDF5, FITS and ASCII writers, the h5py reads in `load_spectrum` (the stored datasets are an input), and the `os.listdir` and `isfile` calls of the ionization-table search (the directory listing is an input to `Create`).
- The ionization-table branch for a user-supplied table (lines 111-121) is not modelled. It refers to an undefined name `filename`, and the search it performs is file-system I/O.
- Everything delegated to yt is not modelled. This covers `load`, the parent `AbsorptionSpectrum` constructor that builds the wavelength grid from the instrument, `AbsorptionSpectrum.make_spectrum`, `add_line`, `add_ion_number_density_field` (the model returns the requests it would receive, and takes each requested field to be resolvable afterwards), `atomic_mass`, and the `njobs` parallelism.
- Generator.SpectrumGenerator.constructor: takes the grid and flux that the parent class produces as inputs, because that class is not part of this model.
- Generator.SpectrumGenerator.Create: stores the chosen table's name, not the path the code joins from the package directory, and omits the user-supplied table branch (below). The construction of the `LineDatabase` between the two steps is not modelled either.
- `LineDatabase`, `add_line_to_database`, the `LSF` kernel construction and `Instrument`'s own derivation of the bin count are not part of this model. Kernel construction is a parameter `build` that returns a kernel or none (`KernelError`).
- The random number generator (`np.random.seed`, `np.random.normal`) is not modelled. The standard-normal draws are a parameter, so seeded reproducibility is not stated.
- Floating point is not modelled: fluxes and wavelengths are `real`, and nothing is claimed about IEEE rounding.
- `plot_spectrum` is rendering and is not modelled.
- Generator.SpectrumGenerator.AddQsoSpectrum: requires `z > -1`. The code does not check the redshift, but for `z <= -1` the stretched table is no longer increasing (or divides by zero), and numpy's behaviour there is not modelled.
- Templates.Redshifted: requires `z > -1` for the same reason.
- Templates.QsoSpectrum: requires `z > -1` for the same reason.
- Convolution.Convolve: the lemmas about impulse and normalised kernels assume a kernel strictly shorter than the flux. With equal lengths numpy treats the flux as the kernel; that case is modelled but no lemma covers it.
- Strings.ParseInt: `int()` also accepts surrounding whitespace and underscores between digits; the model accepts only an optional sign followed by decimal digits. Ion-state pieces never contain those characters.
- Instruments.InitialInstrument: the `Instrument` class is not part of this model, and its constructor is taken to accept any range, so a custom instrument never fails here. Any validation of an incomplete range that `Instrument(...)` performs is not captured.
- Instruments.CustomKeepsParameters: rests on the same assumption that `Instrument(...)` accepts the caller's parameters.
- Generator.SpectrumGenerator.Create: a custom instrument never fails, under the same assumption.
- IonFields.IonRequests: the collaborator's effect on the dataset is modelled only as making the requested field resolvable for later lines.
- IonFields.IonRequestsAsWritten: a misparsed name such as `Si_p2_mass` is also taken to become resolvable once requested, although the field the collaborator adds is named after the parsed ion (`Si_p2_number_density`).
- In Python, `valid_instruments[name]` hands out a shared `Instrument` object. The model's instruments are values, so aliasing between generators is not captured.

## Findings

| source | as written | input that shows it | evidently intended | confidence | as-written member | corrected member |
|---|---|---|---|---|---|---|
| trident/spectrum_generator.py:186-187 | `field[:field.find("number_density")]`; when the substring is absent `find` returns -1 and the slice silently drops the last character | `Si_p2_mass` is read as silicon at level 3 | a field without `number_density` is rejected rather than parsed | high; not executed | IonFields.ParseAcceptsNonDensityAsWritten | IonFields.ParseIonField |
| trident/spectrum_generator.py:185-195 | the `add_ion_number_density_field` call sits outside the `if line.field not in input_ds.derived_field_list` block, so it runs with `on_ion` and `my_lev` left from an earlier field, or unbound | fields `[Mg_p1_number_density, O_p5_number_density]` with the second already derived request magnesium II twice; `[O_p5_number_density]` alone raises UnboundLocalError | request a derivation only for fields that are not already derived | high; not executed | IonFields.StaleIonRequestAsWritten | IonFields.ResolveIonFields |
