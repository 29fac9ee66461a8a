/** Resampling of a tabulated reference spectrum (the QSO composite or the Milky-Way foreground)
    onto the generator's wavelength grid: `np.digitize` finds the bracketing row, the index is
    clipped to `[1, n-1]`, and the flux is read off the straight line through the two rows of that
    segment, which interpolates inside the table and extrapolates along the edge segments outside
    it. */
module Templates {

  /** A two-column template file: wavelength (angstrom) and flux, row by row. */
  datatype Template = Template(wavelengths: seq<real>, fluxes: seq<real>)

  predicate StrictlyIncreasing(s: seq<real>) {
    forall i, j :: 0 <= i < j < |s| ==> s[i] < s[j]
  }

  /** A table the interpolation can use: at least two rows (one segment) and strictly increasing
      wavelengths, so that no segment has zero width. */
  predicate WellFormed(t: Template) {
    |t.wavelengths| == |t.fluxes| && |t.wavelengths| >= 2 && StrictlyIncreasing(t.wavelengths)
  }

  // Facts of real arithmetic the interpolation proofs use.

  lemma ScaleStrictlyMonotone(a: real, b: real, s: real)
    requires a < b && s > 0.0
    ensures a * s < b * s
  {
  }

  lemma ScaleMonotone(a: real, b: real, s: real)
    requires a <= b && s >= 0.0
    ensures a * s <= b * s
  {
  }

  lemma UnscaleScaled(a: real, s: real)
    requires s > 0.0
    ensures a * s / s == a
  {
  }

  lemma UnitFraction(p: real, q: real)
    requires 0.0 <= p <= q && q > 0.0
    ensures 0.0 <= p / q <= 1.0
  {
  }

  /** `np.digitize(x, bins)` for increasing bins: the number of leading bins at or below `x`. */
  function Digitize(x: real, bins: seq<real>): (i: nat)
    ensures i <= |bins|
    ensures forall j :: 0 <= j < i ==> bins[j] <= x
    ensures i < |bins| ==> x < bins[i]
  {
    if bins == [] || x < bins[0] then 0 else 1 + Digitize(x, bins[1..])
  }

  /** `np.clip(i, lo, hi)`. */
  function Clip(i: int, lo: int, hi: int): int
    requires lo <= hi
  {
    if i < lo then lo else if i > hi then hi else i
  }

  /** The index of the right-hand row of the segment used for `x`. */
  function SegmentIndex(x: real, wavelengths: seq<real>): int
    requires |wavelengths| >= 2
  {
    Clip(Digitize(x, wavelengths), 1, |wavelengths| - 1)
  }

  /** The flux at `x` on the straight line through rows `k - 1` and `k`. */
  function OnSegment(t: Template, k: int, x: real): real
    requires WellFormed(t) && 1 <= k < |t.wavelengths|
  {
    var w, f := t.wavelengths, t.fluxes;
    var slope := (f[k] - f[k - 1]) / (w[k] - w[k - 1]);
    slope * (x - w[k]) + f[k]
  }

  /** The template's flux at wavelength `x`. */
  function InterpolateAt(t: Template, x: real): real
    requires WellFormed(t)
  {
    OnSegment(t, SegmentIndex(x, t.wavelengths), x)
  }

  /** The template resampled onto a wavelength grid, one value per grid point. */
  function Interpolate(t: Template, grid: seq<real>): (r: seq<real>)
    requires WellFormed(t)
    ensures |r| == |grid|
    ensures forall i :: 0 <= i < |grid| ==> r[i] == InterpolateAt(t, grid[i])
  {
    seq(|grid|, i requires 0 <= i < |grid| => InterpolateAt(t, grid[i]))
  }

  /** The segment used for `x` is always a real segment of the table; below the table it is the
      first one, above it the last one, and inside it the one whose rows bracket `x`. */
  lemma SegmentIndexBrackets(w: seq<real>, x: real)
    requires |w| >= 2 && StrictlyIncreasing(w)
    ensures 1 <= SegmentIndex(x, w) <= |w| - 1
    ensures x < w[0] ==> SegmentIndex(x, w) == 1
    ensures x >= w[|w| - 1] ==> SegmentIndex(x, w) == |w| - 1
    ensures w[0] <= x < w[|w| - 1] ==>
              w[SegmentIndex(x, w) - 1] <= x < w[SegmentIndex(x, w)]
  {
  }

  /** At a tabulated wavelength the interpolation returns that row's flux exactly, at both ends of
      the table as well. */
  lemma InterpolateAtRow(t: Template, j: int)
    requires WellFormed(t) && 0 <= j < |t.wavelengths|
    ensures InterpolateAt(t, t.wavelengths[j]) == t.fluxes[j]
  {
    var w, f := t.wavelengths, t.fluxes;
    var i := Digitize(w[j], w);
    assert j + 1 < |w| ==> w[j] < w[j + 1];
    assert i < |w| ==> w[j] < w[i];
    assert i == j + 1;
    var k := SegmentIndex(w[j], w);
    if j + 1 <= |w| - 1 {
      assert k == j + 1;
      var slope := (f[k] - f[k - 1]) / (w[k] - w[k - 1]);
      assert slope * (w[j] - w[k]) == -(f[k] - f[k - 1]) by {
        assert w[k] - w[k - 1] != 0.0;
        assert w[j] - w[k] == -(w[k] - w[k - 1]);
      }
    } else {
      assert k == j;
    }
  }

  /** A value on the line through `(a, fa)` and `(b, fb)` at `a <= x <= b` lies between `fa`
      and `fb`. */
  lemma OnLineBetween(a: real, b: real, fa: real, fb: real, x: real)
    requires a < b && a <= x <= b
    ensures var v := (fb - fa) / (b - a) * (x - b) + fb;
            (fa <= v || fb <= v) && (v <= fa || v <= fb)
  {
    var t := (b - x) / (b - a);
    UnitFraction(b - x, b - a);
    assert (fb - fa) / (b - a) * (x - b) == -(fb - fa) * t;
    var v := (fb - fa) / (b - a) * (x - b) + fb;
    assert v == (1.0 - t) * fb + t * fa;
    if fa <= fb {
      ScaleMonotone(fa, fb, t);
      ScaleMonotone(fa, fb, 1.0 - t);
    } else {
      ScaleMonotone(fb, fa, t);
      ScaleMonotone(fb, fa, 1.0 - t);
    }
  }

  /** Between its two rows a segment stays between their fluxes. */
  lemma OnSegmentBetween(t: Template, k: int, x: real)
    requires WellFormed(t) && 1 <= k < |t.wavelengths|
    requires t.wavelengths[k - 1] <= x <= t.wavelengths[k]
    ensures var v := OnSegment(t, k, x);
            (t.fluxes[k - 1] <= v || t.fluxes[k] <= v) && (v <= t.fluxes[k - 1] || v <= t.fluxes[k])
  {
    var a, b, fa, fb := t.wavelengths[k - 1], t.wavelengths[k], t.fluxes[k - 1], t.fluxes[k];
    assert a < b;
    assert OnSegment(t, k, x) == (fb - fa) / (b - a) * (x - b) + fb;
    OnLineBetween(a, b, fa, fb, x);
  }

  /** Inside the table the interpolation never leaves the range of the tabulated fluxes: a
      foreground tabulated within `[lo, hi]` is resampled within `[lo, hi]`. */
  lemma InterpolateWithinTableBounds(t: Template, x: real, lo: real, hi: real)
    requires WellFormed(t)
    requires forall j :: 0 <= j < |t.fluxes| ==> lo <= t.fluxes[j] <= hi
    requires t.wavelengths[0] <= x <= t.wavelengths[|t.wavelengths| - 1]
    ensures lo <= InterpolateAt(t, x) <= hi
  {
    var w, f := t.wavelengths, t.fluxes;
    var k := SegmentIndex(x, w);
    SegmentIndexBrackets(w, x);
    assert w[k - 1] <= x <= w[k];
    OnSegmentBetween(t, k, x);
    assert lo <= f[k - 1] <= hi && lo <= f[k] <= hi;
  }

  /** `qso_lambda += qso_lambda * redshift`: every tabulated wavelength stretched by `1 + z`. */
  function Redshift(w: seq<real>, z: real): (r: seq<real>)
    ensures |r| == |w|
    ensures forall i :: 0 <= i < |w| ==> r[i] == w[i] * (1.0 + z)
  {
    seq(|w|, i requires 0 <= i < |w| => w[i] + w[i] * z)
  }

  /** The template placed at redshift `z > -1`; stretching by `1 + z > 0` keeps it usable. */
  function Redshifted(t: Template, z: real): (r: Template)
    requires WellFormed(t) && z > -1.0
    ensures WellFormed(r) && r.fluxes == t.fluxes
    ensures forall i :: 0 <= i < |r.wavelengths| ==> r.wavelengths[i] == t.wavelengths[i] * (1.0 + z)
  {
    var r := Template(Redshift(t.wavelengths, z), t.fluxes);
    forall i, j | 0 <= i < j < |r.wavelengths| ensures r.wavelengths[i] < r.wavelengths[j] {
      ScaleStrictlyMonotone(t.wavelengths[i], t.wavelengths[j], 1.0 + z);
    }
    r
  }

  /** The QSO composite placed at redshift `z` and resampled onto `grid`: at each observed
      wavelength, the rest-frame template read at that wavelength divided by `1 + z`. */
  function QsoSpectrum(t: Template, grid: seq<real>, z: real): (r: seq<real>)
    requires WellFormed(t) && z > -1.0
    ensures |r| == |grid|
    ensures forall i :: 0 <= i < |grid| ==> r[i] == InterpolateAt(t, grid[i] / (1.0 + z))
  {
    InterpolateRedshiftOnGrid(t, grid, z);
    Interpolate(Redshifted(t, z), grid)
  }

  lemma InterpolateRedshiftOnGrid(t: Template, grid: seq<real>, z: real)
    requires WellFormed(t) && z > -1.0
    ensures forall i :: 0 <= i < |grid| ==>
              InterpolateAt(Redshifted(t, z), grid[i]) == InterpolateAt(t, grid[i] / (1.0 + z))
  {
    forall i | 0 <= i < |grid|
      ensures InterpolateAt(Redshifted(t, z), grid[i]) == InterpolateAt(t, grid[i] / (1.0 + z))
    {
      InterpolateRedshift(t, grid[i], z);
    }
  }

  lemma CompareScaled(x: real, a: real, s: real)
    requires s > 0.0
    ensures x < a * s <==> x / s < a
  {
    assert x == (x / s) * s;
    if x / s < a {
      ScaleStrictlyMonotone(x / s, a, s);
    } else {
      ScaleMonotone(a, x / s, s);
    }
  }

  lemma RedshiftTail(w: seq<real>, z: real)
    requires |w| >= 1
    ensures Redshift(w, z)[1..] == Redshift(w[1..], z)
  {
    var r, tail := Redshift(w, z), Redshift(w[1..], z);
    forall i | 0 <= i < |tail| ensures r[1..][i] == tail[i] {
      assert r[1..][i] == r[i + 1];
    }
  }

  /** Locating `x` in the stretched table is locating `x / (1 + z)` in the original one. */
  lemma {:induction false} DigitizeRedshift(x: real, w: seq<real>, z: real)
    requires z > -1.0
    ensures Digitize(x, Redshift(w, z)) == Digitize(x / (1.0 + z), w)
    decreases |w|
  {
    if w != [] {
      var r, y := Redshift(w, z), x / (1.0 + z);
      assert r[0] == w[0] * (1.0 + z);
      CompareScaled(x, w[0], 1.0 + z);
      assert x < r[0] <==> y < w[0];
      RedshiftTail(w, z);
      DigitizeRedshift(x, w[1..], z);
      assert Digitize(x, r[1..]) == Digitize(y, w[1..]);
    }
  }

  /** The same segment line, evaluated in the stretched table at `x` and in the original table at
      `x / s`. */
  lemma StretchedLine(a: real, b: real, fa: real, fb: real, x: real, s: real)
    requires a < b && s > 0.0
    ensures (fb - fa) / (b * s - a * s) * (x - b * s) + fb == (fb - fa) / (b - a) * (x / s - b) + fb
  {
    assert b * s - a * s == (b - a) * s;
    assert x - b * s == (x / s - b) * s;
    var m := (fb - fa) / (b - a);
    assert (fb - fa) / ((b - a) * s) == m / s;
    assert m / s * ((x / s - b) * s) == m * (x / s - b);
  }

  /** Segment `k` of the stretched table at `x` is segment `k` of the original one at
      `x / (1 + z)`. */
  lemma OnSegmentRedshift(t: Template, z: real, k: int, x: real)
    requires WellFormed(t) && z > -1.0 && 1 <= k < |t.wavelengths|
    ensures OnSegment(Redshifted(t, z), k, x) == OnSegment(t, k, x / (1.0 + z))
  {
    var s := 1.0 + z;
    var a, b := t.wavelengths[k - 1], t.wavelengths[k];
    var fa, fb := t.fluxes[k - 1], t.fluxes[k];
    var shifted := Redshifted(t, z);
    assert shifted.wavelengths[k - 1] == a * s && shifted.wavelengths[k] == b * s;
    assert OnSegment(shifted, k, x) == (fb - fa) / (b * s - a * s) * (x - b * s) + fb;
    assert OnSegment(t, k, x / s) == (fb - fa) / (b - a) * (x / s - b) + fb;
    StretchedLine(a, b, fa, fb, x, s);
  }

  /** Redshifting the template by `z` and reading it at `x` equals reading the unshifted template
      at `x / (1 + z)`. */
  lemma InterpolateRedshift(t: Template, x: real, z: real)
    requires WellFormed(t) && z > -1.0
    ensures InterpolateAt(Redshifted(t, z), x) == InterpolateAt(t, x / (1.0 + z))
  {
    var w := t.wavelengths;
    var s := 1.0 + z;
    DigitizeRedshift(x, w, z);
    assert Redshifted(t, z).wavelengths == Redshift(w, z);
    var k := SegmentIndex(x / s, w);
    assert SegmentIndex(x, Redshifted(t, z).wavelengths) == k;
    OnSegmentRedshift(t, z, k, x);
  }

  /** The QSO template at redshift `z` reproduces each tabulated flux at the stretched
      wavelength `lambda * (1 + z)`. */
  lemma QsoSpectrumAtStretchedRow(t: Template, z: real, j: int)
    requires WellFormed(t) && z > -1.0 && 0 <= j < |t.wavelengths|
    ensures QsoSpectrum(t, [t.wavelengths[j] * (1.0 + z)], z) == [t.fluxes[j]]
  {
    var x := t.wavelengths[j] * (1.0 + z);
    var shifted := Redshifted(t, z);
    var y := x / (1.0 + z);
    UnscaleScaled(t.wavelengths[j], 1.0 + z);
    assert y == t.wavelengths[j];
    InterpolateRedshift(t, x, z);
    assert InterpolateAt(shifted, x) == InterpolateAt(t, y);
    InterpolateAtRow(t, j);
    assert InterpolateAt(shifted, x) == t.fluxes[j];
    var r := Interpolate(shifted, [x]);
    assert |r| == 1 && r[0] == t.fluxes[j];
    assert QsoSpectrum(t, [x], z) == r;
  }

  /** The wavelength (angstrom) above which the Milky-Way foreground template has no data. */
  const MilkyWayCutoff: real := 1799.9444

  /** The Milky-Way foreground resampled onto `grid`, forced to 1.0 wherever the grid lies
      strictly beyond the cutoff. */
  function MilkyWayForeground(t: Template, grid: seq<real>): (r: seq<real>)
    requires WellFormed(t)
    ensures |r| == |grid|
    ensures forall i :: 0 <= i < |grid| && grid[i] > MilkyWayCutoff ==> r[i] == 1.0
    ensures forall i :: 0 <= i < |grid| && grid[i] <= MilkyWayCutoff ==>
                          r[i] == InterpolateAt(t, grid[i])
  {
    var flux := Interpolate(t, grid);
    seq(|grid|, i requires 0 <= i < |grid| => if grid[i] > MilkyWayCutoff then 1.0 else flux[i])
  }

  /** The cutoff comparison is strict: a grid point exactly at the cutoff keeps the template's
      value, which for a table whose last row is at the cutoff with flux `f` is `f`, not 1.0. */
  lemma MilkyWayAtCutoffKeepsTemplate(t: Template)
    requires WellFormed(t) && t.wavelengths[|t.wavelengths| - 1] == MilkyWayCutoff
    ensures MilkyWayForeground(t, [MilkyWayCutoff]) == [t.fluxes[|t.fluxes| - 1]]
  {
    InterpolateAtRow(t, |t.wavelengths| - 1);
  }
}
