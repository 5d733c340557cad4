/** Sampled signals: direct convolution over a whole history, the one-pole high
    pass, and the circular delay line that the fast filters keep instead of the
    history (src/dsp.c, src/tx_dsp.c). Floats are exact reals. */
module Signal {

  const FIR_TAPS: nat := 129

  datatype Complex = Complex(i: real, q: real)

  /** A signal is `zero` before it starts and after its last sample. */
  function At<T>(xs: seq<T>, index: int, zero: T): T {
    if 0 <= index < |xs| then xs[index] else zero
  }

  /** The first `n` terms of the convolution at sample `k`. */
  function Convolve(h: seq<real>, xs: seq<real>, k: int, n: nat): real
    requires n <= |h|
  {
    if n == 0 then 0.0 else Convolve(h, xs, k, n - 1) + h[n - 1] * At(xs, k - (n - 1), 0.0)
  }

  /** The filter run along the signal: each output from the samples so far. */
  function Filtered(h: seq<real>, xs: seq<real>): (r: seq<real>)
    ensures |r| == |xs|
  {
    if xs == [] then []
    else
      var n := |xs| - 1;
      Filtered(h, xs[..n]) + [Convolve(h, xs, n, |h|)]
  }

  lemma FilteredNext(h: seq<real>, xs: seq<real>, x: real)
    ensures Filtered(h, xs + [x]) == Filtered(h, xs) + [Convolve(h, xs + [x], |xs|, |h|)]
  {
    assert (xs + [x])[..|xs|] == xs;
  }

  lemma {:induction false} ConvolveIsCausal(h: seq<real>, xs: seq<real>, later: seq<real>, k: int, n: nat)
    requires n <= |h| && k < |xs|
    ensures Convolve(h, xs + later, k, n) == Convolve(h, xs, k, n)
  {
    if n > 0 {
      ConvolveIsCausal(h, xs, later, k, n - 1);
    }
  }

  /** Every output is the convolution of the whole signal there. */
  lemma {:induction false} FilteredAt(h: seq<real>, xs: seq<real>, k: nat)
    requires k < |xs|
    ensures Filtered(h, xs)[k] == Convolve(h, xs, k, |h|)
  {
    var n := |xs| - 1;
    if k < n {
      FilteredAt(h, xs[..n], k);
      ConvolveIsCausal(h, xs[..n], xs[n..], k, |h|);
      assert xs[..n] + xs[n..] == xs;
    }
  }

  /** One sample of height one at `j`, silence elsewhere. */
  ghost predicate IsImpulse(xs: seq<real>, j: int) {
    forall k: int :: At(xs, k, 0.0) == if k == j then 1.0 else 0.0
  }

  /** The filter answers an impulse with its own coefficients, in order, from the
      impulse on. */
  lemma {:induction false} ImpulseResponse(h: seq<real>, xs: seq<real>, j: int, k: int, n: nat)
    requires IsImpulse(xs, j) && n <= |h|
    ensures Convolve(h, xs, k, n) == if 0 <= k - j < n then h[k - j] else 0.0
  {
    if n > 0 {
      ImpulseResponse(h, xs, j, k, n - 1);
      assert At(xs, k - (n - 1), 0.0) == if k - (n - 1) == j then 1.0 else 0.0;
    }
  }

  /** One step of the high pass: the difference to the last input, and a leak. */
  function Leak(inputs: seq<real>, outputs: seq<real>, x: real): real {
    x - At(inputs, |inputs| - 1, 0.0) + 0.995 * At(outputs, |outputs| - 1, 0.0)
  }

  /** The high pass over the whole signal. */
  function HighPass(xs: seq<real>): (r: seq<real>)
    ensures |r| == |xs|
  {
    if xs == [] then []
    else
      var n := |xs| - 1;
      var before := HighPass(xs[..n]);
      before + [Leak(xs[..n], before, xs[n])]
  }

  lemma HighPassNext(xs: seq<real>, x: real)
    ensures HighPass(xs + [x]) == HighPass(xs) + [Leak(xs, HighPass(xs), x)]
  {
    hide Leak;
    assert (xs + [x])[..|xs|] == xs;
  }

  function Power(base: real, n: nat): real {
    if n == 0 then 1.0 else base * Power(base, n - 1)
  }

  /** What the high pass is for: a constant dies away, by half a percent a sample. */
  lemma {:induction false} ConstantDies(xs: seq<real>, level: real)
    requires xs != [] && forall x <- xs :: x == level
    ensures HighPass(xs)[|xs| - 1] == level * Power(0.995, |xs| - 1)
  {
    var n := |xs| - 1;
    assert xs[n] in xs;
    if n > 0 {
      assert forall x <- xs[..n] :: x in xs;
      ConstantDies(xs[..n], level);
      assert xs[..n][n - 1] in xs;
    }
  }

  /** And steps pass: a jump comes through in full. */
  lemma StepPasses(xs: seq<real>, x: real)
    ensures var before := HighPass(xs);
            HighPass(xs + [x])[|xs|] - 0.995 * At(before, |xs| - 1, 0.0) == x - At(xs, |xs| - 1, 0.0)
  {
    HighPassNext(xs, x);
  }

  // ---- the circular delay line ----

  function Back(index: nat, t: nat): (r: nat)
    requires index < FIR_TAPS && t <= FIR_TAPS
    ensures r < FIR_TAPS
  {
    if t <= index then index - t else index + FIR_TAPS - t
  }

  /** The line holds the last 129 samples of a signal, counting back from `newest`. */
  ghost predicate Remembers<T>(line: seq<T>, newest: nat, xs: seq<T>, zero: T) {
    && |line| == FIR_TAPS && newest < FIR_TAPS
    && forall t :: 0 <= t < FIR_TAPS ==> line[Back(newest, t)] == At(xs, |xs| - 1 - t, zero)
  }

  /** An empty line remembers a signal that has not started. */
  lemma RememberNothing<T>(line: seq<T>, newest: nat, zero: T)
    requires |line| == FIR_TAPS && newest < FIR_TAPS
    requires forall k :: 0 <= k < FIR_TAPS ==> line[k] == zero
    ensures Remembers(line, newest, [], zero)
  {
  }

  lemma RememberNext<T>(line: seq<T>, index: nat, xs: seq<T>, x: T, zero: T)
    requires index < FIR_TAPS && Remembers(line, Back(index, 1), xs, zero)
    ensures |line| == FIR_TAPS && Remembers(line[index := x], index, xs + [x], zero)
  {
    var longer := line[index := x];
    forall t | 0 <= t < FIR_TAPS
      ensures longer[Back(index, t)] == At(xs + [x], |xs| - t, zero)
    {
      if t > 0 {
        assert Back(index, t) == Back(Back(index, 1), t - 1) != index;
      }
    }
  }

  lemma NextIndex(index: nat)
    requires index < FIR_TAPS
    ensures (index + 1) % FIR_TAPS < FIR_TAPS && Back((index + 1) % FIR_TAPS, 1) == index
  {
  }

  /** The filter loop over the line computes the convolution over the history. */
  method Fir(coefficients: seq<real>, line: array<real>, newest: nat, ghost xs: seq<real>)
    returns (output: real)
    requires |coefficients| == FIR_TAPS && Remembers(line[..], newest, xs, 0.0)
    ensures output == Convolve(coefficients, xs, |xs| - 1, FIR_TAPS)
  {
    output := 0.0;
    var position := newest;
    for tap := 0 to FIR_TAPS
      invariant position == Back(newest, tap)
      invariant output == Convolve(coefficients, xs, |xs| - 1, tap)
    {
      assert line[..][Back(newest, tap)] == At(xs, |xs| - 1 - tap, 0.0);
      output := output + coefficients[tap] * line[position];
      position := if position == 0 then FIR_TAPS - 1 else position - 1;
    }
  }
}
