/** numpy's `np.convolve(a, v, 'same')`, which `apply_lsf` uses to smooth the flux with the line
    spread function kernel. The longer operand is the signal and the shorter one the kernel
    (numpy swaps them when `v` is longer). The output has the longer operand's length. Entry `i`
    is the full linear convolution at `i + (m - 1) / 2`, where `m` is the shorter length and
    samples outside the signal count as zero. */
module Convolution {
  import opened Wrappers

  /** `s[i]`, or 0.0 outside `s`: the zero padding of a linear convolution. */
  function At(s: seq<real>, i: int): real {
    if 0 <= i < |s| then s[i] else 0.0
  }

  /** How far the 'same' window is shifted into the full convolution for a kernel of length `m`. */
  function Offset(m: nat): int {
    (m - 1) / 2
  }

  /** The first `j` terms of output entry `i`: the sum over `k < j` of `short[k] * long[i + Offset - k]`. */
  function Tap(long: seq<real>, short: seq<real>, i: int, j: nat): real
    requires j <= |short|
  {
    if j == 0 then 0.0
    else Tap(long, short, i, j - 1) + short[j - 1] * At(long, i + Offset(|short|) - (j - 1))
  }

  /** 'same' mode with the operands already ordered, one output entry per signal sample. */
  function Same(long: seq<real>, short: seq<real>): (r: seq<real>)
    ensures |r| == |long|
    ensures forall i :: 0 <= i < |long| ==> r[i] == Tap(long, short, i, |short|)
  {
    seq(|long|, i requires 0 <= i < |long| => Tap(long, short, i, |short|))
  }

  /** `np.convolve(kernel, flux, 'same')`. An empty operand is a ValueError; whichever operand is
      longer is the signal, the kernel when the two are of equal length. */
  function Convolve(kernel: seq<real>, flux: seq<real>): (r: Result<seq<real>>)
    ensures r.Err? <==> (kernel == [] || flux == [])
    ensures r.Ok? ==> |r.value| == if |flux| > |kernel| then |flux| else |kernel|
    ensures r.Ok? && |kernel| < |flux| ==> r.value == Same(flux, kernel)
    ensures r.Ok? && |flux| <= |kernel| ==> r.value == Same(kernel, flux)
  {
    var (long, short) := if |flux| > |kernel| then (flux, kernel) else (kernel, flux);
    if |long| == 0 then Err(ValueError("a cannot be empty"))
    else if |short| == 0 then Err(ValueError("v cannot be empty"))
    else Ok(Same(long, short))
  }

  /** Sum of the first `j` entries of `s`. */
  function Sum(s: seq<real>, j: nat): real
    requires j <= |s|
  {
    if j == 0 then 0.0 else Sum(s, j - 1) + s[j - 1]
  }

  /** Output entry `i` only reads signal samples inside the signal. */
  predicate Interior(long: seq<real>, m: nat, i: int) {
    0 <= i + Offset(m) - (m - 1) && i + Offset(m) < |long|
  }

  /** On a constant stretch of signal, the first `j` terms add up to the constant times the
      kernel's partial sum. */
  lemma {:induction false} TapOnConstant(long: seq<real>, short: seq<real>, i: int, j: nat, c: real)
    requires j <= |short|
    requires Interior(long, |short|, i)
    requires forall k :: 0 <= k < |long| ==> long[k] == c
    ensures Tap(long, short, i, j) == c * Sum(short, j)
  {
    if j > 0 {
      TapOnConstant(long, short, i, j - 1, c);
      assert At(long, i + Offset(|short|) - (j - 1)) == c;
    }
  }

  /** A kernel normalised to unit sum leaves a constant continuum unchanged wherever the kernel
      lies wholly inside the spectrum: smoothing a flat spectrum keeps it flat. */
  lemma ConvolveKeepsConstantInterior(kernel: seq<real>, flux: seq<real>, c: real, i: int)
    requires 1 <= |kernel| < |flux|
    requires Sum(kernel, |kernel|) == 1.0
    requires forall k :: 0 <= k < |flux| ==> flux[k] == c
    requires Interior(flux, |kernel|, i)
    ensures Convolve(kernel, flux).Ok?
    ensures Convolve(kernel, flux).value[i] == c
  {
    TapOnConstant(flux, kernel, i, |kernel|, c);
  }

  /** A kernel of odd length `m` whose only non-zero entry `w` sits in the middle. */
  function Impulse(m: nat, w: real): (k: seq<real>)
    requires m % 2 == 1
    ensures |k| == m
    ensures k[Offset(m)] == w
    ensures forall j :: 0 <= j < m && j != Offset(m) ==> k[j] == 0.0
  {
    seq(m, j requires 0 <= j < m => if j == Offset(m) then w else 0.0)
  }

  /** The first `j` terms of a centred impulse pick up the sample under the centre once the
      centre has been passed, and nothing before. */
  lemma {:induction false} TapOfImpulse(long: seq<real>, m: nat, w: real, i: int, j: nat)
    requires m % 2 == 1 && j <= m
    ensures Tap(long, Impulse(m, w), i, j) == if j > Offset(m) then w * At(long, i) else 0.0
  {
    if j > 0 {
      TapOfImpulse(long, m, w, i, j - 1);
    }
  }

  /** Convolving with a centred impulse of weight `w` scales the spectrum by `w` and does not shift
      it; with `w == 1` it is the identity. */
  lemma ConvolveImpulse(flux: seq<real>, m: nat, w: real)
    requires m % 2 == 1 && m < |flux|
    ensures Convolve(Impulse(m, w), flux).Ok?
    ensures var r := Convolve(Impulse(m, w), flux).value;
            |r| == |flux| && forall i :: 0 <= i < |flux| ==> r[i] == w * flux[i]
  {
    var r := Convolve(Impulse(m, w), flux).value;
    forall i | 0 <= i < |flux|
      ensures r[i] == w * flux[i]
    {
      TapOfImpulse(flux, m, w, i, m);
    }
  }
}
