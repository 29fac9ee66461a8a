/** The file-format rules of the spectrum generator: which writer `save_spectrum` picks, which
    names `load_spectrum` accepts, and which ionization table the constructor prefers when none
    is given. The readers and writers themselves are not part of this model. */
module SpectrumIO {
  import opened Wrappers
  import opened Strings

  datatype Format = HDF5 | FITS | ASCII

  /** The writer chosen and whether the "Invalid format" warning is logged. */
  datatype SaveChoice = SaveChoice(format: Format, warned: bool)

  /** The name by which a format is requested explicitly. */
  function FormatName(f: Format): string {
    match f
    case HDF5 => "HDF5"
    case FITS => "FITS"
    case ASCII => "ASCII"
  }

  /** The format implied by a file name: ".h5" is HDF5, ".fits" is FITS, anything else ASCII. */
  function FormatOfName(filename: string): (f: Format)
    ensures f == HDF5 <==> EndsWith(filename, ".h5")
    ensures f == FITS <==> EndsWith(filename, ".fits") && !EndsWith(filename, ".h5")
  {
    if EndsWith(filename, ".h5") then HDF5
    else if EndsWith(filename, ".fits") then FITS
    else ASCII
  }

  /** `save_spectrum`'s choice of writer. */
  function SaveFormat(filename: string, format: Option<string>): (c: SaveChoice)
    ensures format.None? ==> c == SaveChoice(FormatOfName(filename), false)
    ensures c.warned <==> format.Some? && format.value !in {"HDF5", "FITS", "ASCII"}
    ensures c.warned ==> c.format == ASCII
  {
    match format
    case None => SaveChoice(FormatOfName(filename), false)
    case Some(name) =>
      if name == "HDF5" then SaveChoice(HDF5, false)
      else if name == "FITS" then SaveChoice(FITS, false)
      else if name == "ASCII" then SaveChoice(ASCII, false)
      else SaveChoice(ASCII, true)
  }

  /** An explicitly named format wins over the file name's extension. */
  lemma ExplicitFormatWins(filename: string, f: Format)
    ensures SaveFormat(filename, Some(FormatName(f))) == SaveChoice(f, false)
  {
    match f
    case HDF5 =>
    case FITS =>
      assert FormatName(f) != "HDF5" by { assert FormatName(f)[0] == 'F'; }
    case ASCII =>
      assert FormatName(f) != "HDF5" && FormatName(f) != "FITS" by { assert FormatName(f)[0] == 'A'; }
  }

  /** `load_spectrum`'s check: only HDF5 files can be read back. A missing name fails on
      `None.endswith`. */
  function LoadCheck(filename: Option<string>): (r: Option<Error>)
    ensures r.None? <==> filename.Some? && EndsWith(filename.value, ".h5")
    ensures filename.None? ==> r == Some(AttributeError)
    ensures filename.Some? && !EndsWith(filename.value, ".h5") ==> r.Some? && r.value.RuntimeError?
  {
    match filename
    case None => Some(AttributeError)
    case Some(name) =>
      if EndsWith(name, ".h5") then None
      else Some(RuntimeError("Only hdf5 format supported for loading spectra."))
  }

  /** A file can be loaded exactly when saving under its name without a format writes HDF5. */
  lemma LoadAcceptsWhatSaveWritesAsHdf5(filename: string)
    ensures LoadCheck(Some(filename)).None? <==> SaveFormat(filename, None).format == HDF5
  {
  }

  /** A ".fits" name is saved as FITS and refused by `load_spectrum`. */
  lemma FitsNotReloadable(stem: string)
    ensures SaveFormat(stem + ".fits", None).format == FITS
    ensures LoadCheck(Some(stem + ".fits")).Some?
  {
    var name := stem + ".fits";
    assert name[|name| - 5..] == ".fits";
    assert name[|name| - 3..] == "its";
  }

  /** The position of the first `.h5` file in a listing, or the listing's length if there is none. */
  function FirstH5Index(files: seq<string>): (k: nat)
    ensures k <= |files|
    ensures forall j :: 0 <= j < k ==> !EndsWith(files[j], ".h5")
    ensures k < |files| ==> EndsWith(files[k], ".h5")
  {
    if files == [] then 0
    else if EndsWith(files[0], ".h5") then 0
    else FirstH5Index(files[1..]) + 1
  }

  /** The `.h5` files of a directory listing, in listing order: the first of them is the
      listing's first `.h5` file. */
  function H5Files(files: seq<string>): (r: seq<string>)
    ensures forall f :: f in r <==> f in files && EndsWith(f, ".h5")
    ensures |r| <= |files|
    ensures r != [] <==> FirstH5Index(files) < |files|
    ensures r != [] ==> r[0] == files[FirstH5Index(files)]
  {
    if files == [] then []
    else (if EndsWith(files[0], ".h5") then [files[0]] else []) + H5Files(files[1..])
  }

  /** The constructor's default ionization table: "hm2012_hr.h5" if present, else "hm2012_lr.h5",
      else the first `.h5` file listed; an IndexError when there is none. */
  function ChooseIonizationTable(files: seq<string>): (r: Result<string>)
    ensures r.Err? <==> forall f :: f in files ==> !EndsWith(f, ".h5")
    ensures r.Err? ==> r.error == IndexError
    ensures r.Ok? ==> r.value in files && EndsWith(r.value, ".h5")
    ensures "hm2012_hr.h5" in files ==> r == Ok("hm2012_hr.h5")
    ensures r.Ok? && "hm2012_hr.h5" !in files && "hm2012_lr.h5" !in files ==>
              r.value == files[FirstH5Index(files)]
    ensures r.Ok? && "hm2012_hr.h5" !in files && "hm2012_lr.h5" !in files ==>
              exists k :: 0 <= k < |files| && files[k] == r.value &&
                          forall j :: 0 <= j < k ==> !EndsWith(files[j], ".h5")
  {
    var ionFiles := H5Files(files);
    if "hm2012_hr.h5" in ionFiles then Ok("hm2012_hr.h5")
    else if "hm2012_lr.h5" in ionFiles then Ok("hm2012_lr.h5")
    else if ionFiles == [] then Err(IndexError)
    else
      assert ionFiles[0] in ionFiles;
      var k := FirstH5Index(files);
      assert files[k] == ionFiles[0];
      Ok(ionFiles[0])
  }

  /** The low-resolution table is taken only when the high-resolution one is absent. */
  lemma LowResolutionTableOnlyWithoutHigh(files: seq<string>)
    requires "hm2012_lr.h5" in files
    ensures ChooseIonizationTable(files) ==
            if "hm2012_hr.h5" in files then Ok("hm2012_hr.h5") else Ok("hm2012_lr.h5")
  {
    assert EndsWith("hm2012_lr.h5", ".h5");
    assert EndsWith("hm2012_hr.h5", ".h5");
  }
}
