/** The receive signal path (src/dsp.c): oscillator, complex filter over a
    circular buffer, detector, high pass and gain control, one sample at a time.
    It computes the stages applied one after the other to the whole input. */
module Demodulator {
  import opened Common
  import opened Signal

  datatype Mode = Am | Fm | Usb | Lsb

  /** The configuration, the designed filter and the C library's functions. */
  datatype Design = Design(
    mode: Mode, sampleRate: real, tuningOffset: real, agc: bool, filterI: seq<real>, filterQ: seq<real>,
    cos: real -> real, sin: real -> real, hypot: (real, real) -> real, atan2: (real, real) -> real, pi: real)
  {
    /** What initialisation checks, and that the oscillator's functions repeat every turn. */
    ghost predicate Valid() {
      && |filterI| == |filterQ| == FIR_TAPS && pi > 0.0 && sampleRate > 0.0
      && -sampleRate < 2.0 * tuningOffset < sampleRate
      && forall a :: Repeats(a)
    }

    ghost predicate Repeats(a: real) {
      cos(a + 2.0 * pi) == cos(a) && sin(a + 2.0 * pi) == sin(a)
    }

    function Step(): real
      requires sampleRate > 0.0
    {
      -2.0 * pi * tuningOffset / sampleRate
    }
  }

  /** The oscillator's phase at sample `k` if it never wrapped. */
  function Unwrapped(d: Design, k: int): real
    requires d.sampleRate > 0.0
  {
    k as real * d.Step()
  }

  function Rotate(d: Design, x: Complex, phase: real): Complex {
    Complex(x.i * d.cos(phase) - x.q * d.sin(phase), x.i * d.sin(phase) + x.q * d.cos(phase))
  }

  /** What tuning is for: a tone at the tuning offset comes to rest. */
  lemma OffsetComesToRest(d: Design, k: nat, a: real)
    requires d.sampleRate > 0.0 && a == 2.0 * d.pi * d.tuningOffset * k as real / d.sampleRate
    requires d.cos(-a) == d.cos(a) && d.sin(-a) == -d.sin(a)
    requires d.cos(a) * d.cos(a) + d.sin(a) * d.sin(a) == 1.0
    ensures Rotate(d, Complex(d.cos(a), d.sin(a)), Unwrapped(d, k)) == Complex(1.0, 0.0)
  {
    assert Unwrapped(d, k) == -a;
  }

  /** The input moved down by the tuning offset: sample `k` turned by `k` steps,
      with no wrapping of the phase. */
  function Shifted(d: Design, xs: seq<Complex>): (r: seq<Complex>)
    requires d.sampleRate > 0.0
    ensures |r| == |xs|
  {
    if xs == [] then []
    else
      var n := |xs| - 1;
      Shifted(d, xs[..n]) + [Rotate(d, xs[n], Unwrapped(d, n))]
  }

  function PartI(xs: seq<Complex>): (r: seq<real>)
    ensures |r| == |xs|
  {
    seq(|xs|, k requires 0 <= k < |xs| => xs[k].i)
  }

  function PartQ(xs: seq<Complex>): (r: seq<real>)
    ensures |r| == |xs|
  {
    seq(|xs|, k requires 0 <= k < |xs| => xs[k].q)
  }

  /** The complex filter at sample `k`: two real convolutions for each part. */
  function FilterAt(d: Design, xs: seq<Complex>, k: int, n: nat): Complex
    requires n <= |d.filterI| && n <= |d.filterQ|
  {
    Complex(
      Convolve(d.filterI, PartI(xs), k, n) - Convolve(d.filterQ, PartQ(xs), k, n),
      Convolve(d.filterQ, PartI(xs), k, n) + Convolve(d.filterI, PartQ(xs), k, n))
  }

  /** The filter answers an impulse with its coefficients, and one a quarter turn
      ahead with its coefficients a quarter turn ahead. */
  lemma ComplexImpulse(d: Design, xs: seq<Complex>, j: int, k: int)
    requires |d.filterI| == |d.filterQ| == FIR_TAPS && 0 <= k - j < FIR_TAPS
    ensures IsImpulse(PartI(xs), j) && Silent(PartQ(xs)) ==>
              FilterAt(d, xs, k, FIR_TAPS) == Complex(d.filterI[k - j], d.filterQ[k - j])
    ensures IsImpulse(PartQ(xs), j) && Silent(PartI(xs)) ==>
              FilterAt(d, xs, k, FIR_TAPS) == Complex(-d.filterQ[k - j], d.filterI[k - j])
  {
    hide Convolve;
    if IsImpulse(PartI(xs), j) && Silent(PartQ(xs)) {
      ImpulseResponse(d.filterI, PartI(xs), j, k, FIR_TAPS);
      ImpulseResponse(d.filterQ, PartI(xs), j, k, FIR_TAPS);
      SilentResponse(d.filterI, PartQ(xs), k, FIR_TAPS);
      SilentResponse(d.filterQ, PartQ(xs), k, FIR_TAPS);
    }
    if IsImpulse(PartQ(xs), j) && Silent(PartI(xs)) {
      ImpulseResponse(d.filterI, PartQ(xs), j, k, FIR_TAPS);
      ImpulseResponse(d.filterQ, PartQ(xs), j, k, FIR_TAPS);
      SilentResponse(d.filterI, PartI(xs), k, FIR_TAPS);
      SilentResponse(d.filterQ, PartI(xs), k, FIR_TAPS);
    }
  }

  ghost predicate Silent(xs: seq<real>) {
    forall x <- xs :: x == 0.0
  }

  lemma {:induction false} SilentResponse(h: seq<real>, xs: seq<real>, k: int, n: nat)
    requires Silent(xs) && n <= |h|
    ensures Convolve(h, xs, k, n) == 0.0
  {
    if n > 0 {
      SilentResponse(h, xs, k, n - 1);
      assert 0 <= k - (n - 1) < |xs| ==> xs[k - (n - 1)] in xs;
    }
  }

  /** Adds a complex product, as the filter loop does. */
  function Accumulate(sum: Complex, x: Complex, hi: real, hq: real): Complex {
    Complex(sum.i + (x.i * hi - x.q * hq), sum.q + (x.i * hq + x.q * hi))
  }

  lemma FilterStart(d: Design, xs: seq<Complex>, k: int)
    ensures FilterAt(d, xs, k, 0) == Complex(0.0, 0.0)
  {
  }

  lemma FilterNext(d: Design, xs: seq<Complex>, k: int, n: nat)
    requires n < |d.filterI| == |d.filterQ|
    ensures var x := At(xs, k - n, Complex(0.0, 0.0));
            FilterAt(d, xs, k, n + 1) == Accumulate(FilterAt(d, xs, k, n), x, d.filterI[n], d.filterQ[n])
  {
    hide Convolve, Accumulate;
    var x := At(xs, k - n, Complex(0.0, 0.0));
    var hi, hq := d.filterI[n], d.filterQ[n];
    var ii, iq, qi, qq := x.i * hi, x.i * hq, x.q * hi, x.q * hq;
    assert At(PartI(xs), k - n, 0.0) == x.i && At(PartQ(xs), k - n, 0.0) == x.q;
    ConvolveNext(d.filterI, PartI(xs), k, n, ii);
    ConvolveNext(d.filterQ, PartI(xs), k, n, iq);
    ConvolveNext(d.filterI, PartQ(xs), k, n, qi);
    ConvolveNext(d.filterQ, PartQ(xs), k, n, qq);
    AccumulateIs(FilterAt(d, xs, k, n), x, hi, hq, ii, iq, qi, qq);
  }

  lemma AccumulateIs(sum: Complex, x: Complex, hi: real, hq: real, ii: real, iq: real, qi: real, qq: real)
    requires ii == x.i * hi && iq == x.i * hq && qi == x.q * hi && qq == x.q * hq
    ensures Accumulate(sum, x, hi, hq) == Complex(sum.i + (ii - qq), sum.q + (iq + qi))
  {
  }

  lemma ConvolveNext(h: seq<real>, xs: seq<real>, k: int, n: nat, term: real)
    requires n < |h| && term == At(xs, k - n, 0.0) * h[n]
    ensures Convolve(h, xs, k, n + 1) == Convolve(h, xs, k, n) + term
  {
  }

  /** The channel at sample `k` of the whole input. */
  function Channel(d: Design, xs: seq<Complex>, k: int): Complex
    requires d.Valid()
  {
    FilterAt(d, Shifted(d, xs), k, FIR_TAPS)
  }

  function Cross(before: Complex, now: Complex): real {
    before.i * now.q - before.q * now.i
  }

  function Dot(before: Complex, now: Complex): real {
    before.i * now.i + before.q * now.q
  }

  /** What the detector makes of one channel sample and the one before. */
  function Detect(d: Design, now: Complex, before: Complex, first: bool): real
    requires d.pi > 0.0
  {
    match d.mode
    case Am => d.hypot(now.i, now.q)
    case Fm =>
      if first then 0.0
      else
        d.atan2(Cross(before, now), Dot(before, now)) / d.pi
    case _ => now.i
  }

  /** AM detection is the channel's length. */
  lemma AmMeasuresLength(d: Design, now: Complex, before: Complex, first: bool)
    requires d.pi > 0.0 && d.mode == Mode.Am
    requires d.hypot(now.i, now.q) >= 0.0
    requires d.hypot(now.i, now.q) * d.hypot(now.i, now.q) == now.i * now.i + now.q * now.q
    ensures var r := Detect(d, now, before, first); r >= 0.0 && r * r == now.i * now.i + now.q * now.q
  {
  }

  /** FM detection is how far the channel turned since the last sample, in half
      turns, whatever its strength: forward is positive. Only the first sample
      has nothing to compare with. */
  lemma FmMeasuresTurn(d: Design, strength: real, a: real, b: real)
    requires d.pi > 0.0 && d.mode == Fm && strength > 0.0 && -d.pi < b - a < d.pi
    requires d.sin(b - a) == d.sin(b) * d.cos(a) - d.cos(b) * d.sin(a)
    requires d.cos(b - a) == d.cos(b) * d.cos(a) + d.sin(b) * d.sin(a)
    requires d.atan2(strength * d.sin(b - a), strength * d.cos(b - a)) == b - a
    ensures var (before, now) := (Complex(d.cos(a), d.sin(a)), Complex(strength * d.cos(b), strength * d.sin(b)));
            && Detect(d, now, before, false) == (b - a) / d.pi
            && Detect(d, now, before, true) == 0.0
  {
    hide Cross, Dot;
    CrossAndDot(d.cos(a), d.sin(a), d.cos(b), d.sin(b), strength, d.sin(b - a), d.cos(b - a));
  }

  lemma CrossAndDot(ca: real, sa: real, cb: real, sb: real, strength: real, sine: real, cosine: real)
    requires sine == sb * ca - cb * sa && cosine == cb * ca + sb * sa
    ensures Cross(Complex(ca, sa), Complex(strength * cb, strength * sb)) == strength * sine
    ensures Dot(Complex(ca, sa), Complex(strength * cb, strength * sb)) == strength * cosine
  {
    assert ca * (strength * sb) == strength * (sb * ca) && sa * (strength * cb) == strength * (cb * sa);
    assert ca * (strength * cb) == strength * (cb * ca) && sa * (strength * sb) == strength * (sb * sa);
  }

  /** Either sideband is the channel's real part; the filter has chosen the side. */
  lemma SsbIsInPhase(d: Design, now: Complex, before: Complex, first: bool, quadrature: real)
    requires d.pi > 0.0 && (d.mode == Mode.Usb || d.mode == Mode.Lsb)
    ensures Detect(d, Complex(now.i, quadrature), before, first) == now.i
  {
  }

  /** The detected signal of the whole input. */
  function Detected(d: Design, xs: seq<Complex>): (r: seq<real>)
    requires d.Valid()
    ensures |r| == |xs|
  {
    if xs == [] then []
    else
      var n := |xs| - 1;
      Detected(d, xs[..n]) + [Detect(d, Channel(d, xs, n), Channel(d, xs, n - 1), n == 0)]
  }

  function Magnitude(x: real): (r: real)
    ensures r >= 0.0
  {
    if x < 0.0 then -x else x
  }

  /** The gain control's envelope: quick to rise, slow to fall. */
  function Follow(envelope: real, y: real): (r: real)
    ensures envelope >= 0.0 ==> r >= 0.0
  {
    var magnitude := Magnitude(y);
    envelope + (if magnitude > envelope then 0.01 else 0.0001) * (magnitude - envelope)
  }

  function Envelope(ys: seq<real>): (r: real)
    ensures r >= 0.0
  {
    if ys == [] then 1.0 else Follow(Envelope(ys[..|ys| - 1]), ys[|ys| - 1])
  }

  function Amplify(y: real, envelope: real): real {
    y * Gain(envelope)
  }

  function Gain(envelope: real): real {
    0.7 / if envelope < 0.000001 then 0.000001 else envelope
  }

  /** The gain control closes one percent of the distance to a louder sample, and
      a hundredth of a percent to a softer one; it never overshoots. */
  lemma GainFollows(envelope: real, y: real)
    requires envelope >= 0.0
    ensures var (target, r) := (Magnitude(y), Follow(envelope, y));
            && (target > envelope ==> target - r == 0.99 * (target - envelope) && envelope <= r <= target)
            && (target <= envelope ==> r - target == 0.9999 * (envelope - target) && target <= r <= envelope)
  {
  }

  /** A signal whose size the envelope has reached comes out at seven tenths of
      full scale; silence is never amplified more than 700000 times. */
  lemma SettledLevel(y: real, envelope: real)
    ensures envelope == Magnitude(y) >= 0.000001 ==> Magnitude(Amplify(y, envelope)) == 0.7
    ensures envelope >= 0.0 ==> Magnitude(Amplify(y, envelope)) <= 700_000.0 * Magnitude(y)
    ensures y >= 0.0 ==> Amplify(y, envelope) >= 0.0
  {
    GainIs(envelope);
    Amplified(y, envelope);
  }

  lemma GainIs(envelope: real)
    ensures 0.0 < Gain(envelope) <= 700_000.0
    ensures envelope >= 0.000001 ==> envelope * Gain(envelope) == 0.7
  {
    var divisor := if envelope < 0.000001 then 0.000001 else envelope;
    var gain := Gain(envelope);
    assert gain * divisor == 0.7;
    assert (700_000.0 - gain) * divisor == 700_000.0 * divisor - 0.7;
    SameSign(700_000.0 - gain, divisor);
    SameSign(gain, divisor);
  }

  lemma SameSign(x: real, divisor: real)
    requires divisor > 0.0 && x * divisor >= 0.0
    ensures x >= 0.0 && (x * divisor > 0.0 ==> x > 0.0)
  {
  }

  lemma Amplified(y: real, envelope: real)
    ensures Magnitude(Amplify(y, envelope)) == Magnitude(y) * Gain(envelope)
    ensures Magnitude(Amplify(y, envelope)) <= 700_000.0 * Magnitude(y)
    ensures y >= 0.0 ==> Amplify(y, envelope) >= 0.0
  {
    hide Gain;
    GainIs(envelope);
    Louder(y, Magnitude(y), Gain(envelope));
  }

  lemma Louder(y: real, size: real, gain: real)
    requires 0.0 < gain <= 700_000.0 && size >= 0.0 && (y == size || y == -size)
    ensures size * gain >= 0.0 && 700_000.0 * size - size * gain >= 0.0
    ensures y * gain == if y == size then size * gain else -(size * gain)
  {
    assert size * (700_000.0 - gain) >= 0.0;
  }

  /** The last sample of a signal at the level the gain control gives it. */
  function Levelled(d: Design, ys: seq<real>): real
    requires ys != []
  {
    var y := ys[|ys| - 1];
    if d.agc then Amplify(y, Envelope(ys)) else y
  }

  /** The audio of the whole input. */
  function Audio(d: Design, xs: seq<Complex>): (r: seq<real>)
    requires d.Valid()
    ensures |r| == |xs|
  {
    if xs == [] then []
    else Audio(d, xs[..|xs| - 1]) + [Levelled(d, HighPass(Detected(d, xs)))]
  }

  /** Audio already produced is not affected by more input: chunks do not matter. */
  lemma {:induction false} AudioIsCausal(d: Design, xs: seq<Complex>, later: seq<Complex>)
    requires d.Valid()
    ensures Audio(d, xs) <= Audio(d, xs + later)
  {
    hide Design.Valid, Levelled, Detected, HighPass;
    if later == [] {
      assert xs + later == xs;
    } else {
      var m := |later| - 1;
      AudioIsCausal(d, xs, later[..m]);
      assert (xs + later)[..|xs| + m] == xs + later[..m];
    }
  }

  /** Without gain control the audio is the high pass of the detected signal; with
      it each sample is besides amplified by what the envelope has become. */
  lemma {:induction false} AudioAt(d: Design, xs: seq<Complex>, k: nat)
    requires d.Valid() && k < |xs|
    ensures var ys := HighPass(Detected(d, xs[..k + 1]));
            Audio(d, xs)[k] == if d.agc then ys[k] * Gain(Envelope(ys)) else ys[k]
  {
    hide Design.Valid, Detected, HighPass, Envelope, Gain;
    var n := |xs| - 1;
    if k < n {
      AudioAt(d, xs[..n], k);
      assert xs[..n][..k + 1] == xs[..k + 1];
    } else {
      assert xs[..k + 1] == xs;
    }
  }

  /** Each detected sample comes from the channel there and just before. */
  lemma {:induction false} DetectedAt(d: Design, xs: seq<Complex>, k: nat)
    requires d.Valid() && k < |xs|
    ensures Detected(d, xs)[k] == Detect(d, Channel(d, xs, k), Channel(d, xs, k - 1), k == 0)
  {
    hide Design.Valid, Detect, Channel;
    var n := |xs| - 1;
    if k < n {
      DetectedAt(d, xs[..n], k);
      assert xs == xs[..n] + [xs[n]];
      ChannelIsCausal(d, xs[..n], xs[n], k);
      ChannelIsCausal(d, xs[..n], xs[n], k - 1);
    }
  }

  lemma ShiftedNext(d: Design, xs: seq<Complex>, x: Complex)
    requires d.sampleRate > 0.0
    ensures Shifted(d, xs + [x]) == Shifted(d, xs) + [Rotate(d, x, Unwrapped(d, |xs|))]
  {
    hide Rotate, Unwrapped;
    assert (xs + [x])[..|xs|] == xs;
  }

  /** The channel is causal too. */
  lemma ChannelIsCausal(d: Design, xs: seq<Complex>, x: Complex, k: int)
    requires d.Valid() && k < |xs|
    ensures Channel(d, xs + [x], k) == Channel(d, xs, k)
  {
    hide Convolve;
    ShiftedNext(d, xs, x);
    var (shorter, longer) := (Shifted(d, xs), Shifted(d, xs + [x]));
    var y := longer[|xs|];
    assert PartI(longer) == PartI(shorter) + [y.i] && PartQ(longer) == PartQ(shorter) + [y.q];
    ConvolveIsCausal(d.filterI, PartI(shorter), [y.i], k, FIR_TAPS);
    ConvolveIsCausal(d.filterQ, PartI(shorter), [y.i], k, FIR_TAPS);
    ConvolveIsCausal(d.filterI, PartQ(shorter), [y.q], k, FIR_TAPS);
    ConvolveIsCausal(d.filterQ, PartQ(shorter), [y.q], k, FIR_TAPS);
  }

  lemma DetectedNext(d: Design, xs: seq<Complex>, x: Complex)
    requires d.Valid()
    ensures Detected(d, xs + [x]) ==
            Detected(d, xs) + [Detect(d, Channel(d, xs + [x], |xs|), Channel(d, xs, |xs| - 1), xs == [])]
  {
    hide Channel, Detect;
    assert (xs + [x])[..|xs|] == xs;
    ChannelIsCausal(d, xs, x, |xs| - 1);
  }

  // ---- the oscillator ----

  /** Two phases a whole number of turns apart. */
  ghost predicate SamePhase(d: Design, a: real, b: real) {
    exists turns: int :: TurnsApart(d, a, b, turns)
  }

  ghost predicate TurnsApart(d: Design, a: real, b: real, turns: int) {
    a == b + turns as real * (2.0 * d.pi)
  }

  lemma {:induction false} WholeTurns(d: Design, a: real, b: real, turns: nat)
    requires d.Valid() && TurnsApart(d, a, b, turns)
    ensures d.cos(a) == d.cos(b) && d.sin(a) == d.sin(b)
    decreases turns
  {
    if turns > 0 {
      var c := a - 2.0 * d.pi;
      assert turns as real == (turns - 1) as real + 1.0;
      assert TurnsApart(d, c, b, turns - 1);
      WholeTurns(d, c, b, turns - 1);
      assert d.Repeats(c) && c + 2.0 * d.pi == a;
    }
  }

  lemma SamePhaseRotates(d: Design, x: Complex, a: real, b: real)
    requires d.Valid() && SamePhase(d, a, b)
    ensures Rotate(d, x, a) == Rotate(d, x, b)
  {
    var turns: int :| TurnsApart(d, a, b, turns);
    if turns >= 0 {
      WholeTurns(d, a, b, turns);
    } else {
      assert TurnsApart(d, b, a, -turns);
      WholeTurns(d, b, a, -turns);
    }
  }

  /** Stepping and wrapping keeps the phase, and keeps it within half a turn. */
  function WrapPhase(d: Design, phase: real): real {
    var p := if phase > d.pi then phase - 2.0 * d.pi else phase;
    if p < -d.pi then p + 2.0 * d.pi else p
  }

  lemma PhaseNext(d: Design, phase: real, k: nat)
    requires d.Valid() && -d.pi <= phase <= d.pi && SamePhase(d, phase, Unwrapped(d, k))
    ensures var p := WrapPhase(d, phase + d.Step());
            -d.pi <= p <= d.pi && SamePhase(d, p, Unwrapped(d, k + 1))
  {
    StepIsSmall(d);
    var turns: int :| TurnsApart(d, phase, Unwrapped(d, k), turns);
    assert (k + 1) as real * d.Step() == k as real * d.Step() + d.Step();
    var p := WrapPhase(d, phase + d.Step());
    var more := if phase + d.Step() > d.pi then -1 else if phase + d.Step() < -d.pi then 1 else 0;
    assert (turns + more) as real * (2.0 * d.pi) == turns as real * (2.0 * d.pi) + more as real * (2.0 * d.pi);
    assert TurnsApart(d, p, Unwrapped(d, k + 1), turns + more);
  }

  lemma StepIsSmall(d: Design)
    requires d.Valid()
    ensures -d.pi < d.Step() < d.pi
  {
    SmallPart(d.pi, -2.0 * d.tuningOffset, d.sampleRate);
    assert d.Step() == d.pi * (-2.0 * d.tuningOffset) / d.sampleRate;
  }

  lemma SmallPart(whole: real, x: real, y: real)
    requires whole > 0.0 && -y < x < y
    ensures -whole < whole * x / y < whole
  {
    var part := whole * x / y;
    assert part * y == whole * x;
    assert whole * (y - x) > 0.0 && whole * (y + x) > 0.0;
    assert (whole - part) * y == whole * (y - x) && (whole + part) * y == whole * (y + x);
  }

  // ---- the demodulator ----

  class Demodulator {
    const design: Design
    const history: array<Complex>
    var historyIndex: nat
    var ncoPhase: real
    var previousFm: Option<Complex>
    var previousInput: real
    var previousOutput: real
    var agcEnvelope: real
    /** Everything received since initialisation. */
    ghost var input: seq<Complex>

    ghost predicate Valid()
      reads this, history
    {
      && design.Valid() && historyIndex < FIR_TAPS && -design.pi <= ncoPhase <= design.pi
      && SamePhase(design, ncoPhase, Unwrapped(design, |input|))
      && Remembers(history[..], Back(historyIndex, 1), Shifted(design, input), Complex(0.0, 0.0))
      && (design.mode == Fm ==>
            previousFm == if input == [] then None else Some(Channel(design, input, |input| - 1)))
      && previousInput == At(Detected(design, input), |input| - 1, 0.0)
      && previousOutput == At(HighPass(Detected(design, input)), |input| - 1, 0.0)
      && (design.agc ==> agcEnvelope == Envelope(HighPass(Detected(design, input))))
    }

    constructor (design: Design)
      requires design.Valid()
      ensures Valid() && this.design == design && input == [] && fresh(history)
    {
      this.design := design;
      history := new Complex[FIR_TAPS](_ => Complex(0.0, 0.0));
      historyIndex, ncoPhase, previousFm := 0, 0.0, None;
      previousInput, previousOutput, agcEnvelope, input := 0.0, 0.0, 1.0, [];
      new;
      assert TurnsApart(design, 0.0, Unwrapped(design, 0), 0);
    }

    /** The oscillator and the filter. */
    method Tune(sample: Complex) returns (filtered: Complex)
      requires Valid()
      modifies this`historyIndex, this`ncoPhase, history
      ensures historyIndex < FIR_TAPS && -design.pi <= ncoPhase <= design.pi
      ensures SamePhase(design, ncoPhase, Unwrapped(design, |input| + 1))
      ensures Remembers(history[..], Back(historyIndex, 1), Shifted(design, input + [sample]), Complex(0.0, 0.0))
      ensures filtered == Channel(design, input + [sample], |input|)
    {
      hide Unwrapped, SamePhase, Remembers, Rotate, Detected, HighPass, Envelope;
      ghost var shifted := Shifted(design, input + [sample]);
      SamePhaseRotates(design, sample, ncoPhase, Unwrapped(design, |input|));
      PhaseNext(design, ncoPhase, |input|);
      ShiftedNext(design, input, sample);
      var x := Rotate(design, sample, ncoPhase);
      ncoPhase := WrapPhase(design, ncoPhase + design.Step());
      RememberNext(history[..], historyIndex, Shifted(design, input), x, Complex(0.0, 0.0));
      history[historyIndex] := x;
      assert history[..] == old(history[..])[historyIndex := x];
      filtered := FilterSample(shifted);
      NextIndex(historyIndex);
      historyIndex := (historyIndex + 1) % FIR_TAPS;
    }

    /** The filter loop: both parts accumulated together. */
    method FilterSample(ghost xs: seq<Complex>) returns (output: Complex)
      requires |design.filterI| == |design.filterQ| == FIR_TAPS
      requires Remembers(history[..], historyIndex, xs, Complex(0.0, 0.0))
      ensures output == FilterAt(design, xs, |xs| - 1, FIR_TAPS)
    {
      hide FilterAt, Accumulate;
      FilterStart(design, xs, |xs| - 1);
      output := Complex(0.0, 0.0);
      var position := historyIndex;
      for tap := 0 to FIR_TAPS
        invariant position == Back(historyIndex, tap)
        invariant output == FilterAt(design, xs, |xs| - 1, tap)
      {
        assert history[..][Back(historyIndex, tap)] == At(xs, |xs| - 1 - tap, Complex(0.0, 0.0));
        FilterNext(design, xs, |xs| - 1, tap);
        var x := history[position];
        assert x == At(xs, |xs| - 1 - tap, Complex(0.0, 0.0));
        output := Accumulate(output, x, design.filterI[tap], design.filterQ[tap]);
        position := if position == 0 then FIR_TAPS - 1 else position - 1;
      }
    }

    /** One sample of input, one of audio. */
    method Demodulate(sample: Complex) returns (audio: real)
      requires Valid()
      modifies this, history
      ensures Valid() && design.Valid() && input == old(input) + [sample]
      ensures audio == Levelled(design, HighPass(Detected(design, input)))
    {
      hide SamePhase, Unwrapped, Remembers, Shifted, Channel, HighPass, Detected, Detect, Levelled;
      ghost var heard := input + [sample];
      DetectedNext(design, input, sample);
      var filtered := Tune(sample);
      var before := if previousFm.Some? then previousFm.value else Complex(0.0, 0.0);
      var raw := Detect(design, filtered, before, previousFm.None?);
      DetectIgnoresPast(design, filtered, before, Channel(design, input, |input| - 1), input == []);
      if design.mode == Fm {
        previousFm := Some(filtered);
      }
      HighPassNext(Detected(design, input), raw);
      var highpass := raw - previousInput + 0.995 * previousOutput;
      previousInput, previousOutput := raw, highpass;
      audio := Level(highpass, HighPass(Detected(design, heard)));
      input := heard;
    }

    /** The gain control. */
    method Level(highpass: real, ghost ys: seq<real>) returns (audio: real)
      requires ys != [] && ys[|ys| - 1] == highpass
      requires design.agc ==> agcEnvelope == Envelope(ys[..|ys| - 1])
      modifies this`agcEnvelope
      ensures audio == Levelled(design, ys)
      ensures design.agc ==> agcEnvelope == Envelope(ys)
    {
      hide Follow, Amplify;
      if design.agc {
        agcEnvelope := Follow(agcEnvelope, highpass);
        audio := Amplify(highpass, agcEnvelope);
      } else {
        audio := highpass;
      }
    }

    /** A chunk, cut to the room there is: the next stretch of the audio of the
        whole input, wherever the chunks were cut. */
    method Process(chunk: seq<Complex>, capacity: nat) returns (audio: seq<real>)
      requires Valid() && design.Valid()
      modifies this, history
      ensures Valid()
      ensures |audio| == if |chunk| < capacity then |chunk| else capacity
      ensures input == old(input) + chunk[..|audio|]
      ensures Audio(design, input) == Audio(design, old(input)) + audio
    {
      hide Levelled, HighPass, Detected, Demodulator.Valid;
      var count := if |chunk| > capacity then capacity else |chunk|;
      audio := [];
      for index := 0 to count
        invariant Valid() && |audio| == index
        invariant input == old(input) + chunk[..index]
        invariant Audio(design, input) == Audio(design, old(input)) + audio
      {
        ghost var before := input;
        var value := Demodulate(chunk[index]);
        assert input[..|input| - 1] == before;
        audio := audio + [value];
      }
    }
  }

  /** Only FM looks at the channel sample before. */
  lemma DetectIgnoresPast(d: Design, now: Complex, a: Complex, b: Complex, first: bool)
    requires d.pi > 0.0 && (d.mode == Fm && !first ==> a == b)
    ensures Detect(d, now, a, first) == Detect(d, now, b, first)
    ensures d.mode != Fm ==> Detect(d, now, a, !first) == Detect(d, now, b, first)
  {
  }
}
