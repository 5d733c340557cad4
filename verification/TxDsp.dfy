/** The transmit signal path (src/tx_dsp.c): sample by sample over circular
    buffers, it computes the single-sideband or AM signal of the whole input. */
module TxDsp {
  import opened Common
  import opened Signal

  const DELAY: nat := (FIR_TAPS - 1) / 2
  const SAMPLE_RATE: nat := 48_000
  const AM_MODULATION_INDEX: real := 0.8

  /** The designed filters and the trigonometric functions. */
  datatype Design = Design(bandpass: seq<real>, hilbert: seq<real>, cos: real -> real, sin: real -> real, pi: real)
  {
    ghost predicate Valid() {
      |bandpass| == |hilbert| == FIR_TAPS && pi > 0.0
    }
  }

  /** The audio after high pass and band pass. */
  function Audio(d: Design, xs: seq<real>): (r: seq<real>)
    ensures |r| == |xs|
  {
    Filtered(d.bandpass, HighPass(xs))
  }

  /** The AM carrier's phase at sample `k`: exactly its frequency, modulo a turn. */
  function CarrierPhase(d: Design, k: nat): real {
    2.0 * d.pi / SAMPLE_RATE as real * (k * AM_IF_HZ % SAMPLE_RATE) as real
  }

  function Envelope(inPhase: real): (r: real)
    ensures 0.0 < r <= 1.0
  {
    var bounded := if inPhase > 1.0 then 1.0 else if inPhase < -1.0 then -1.0 else inPhase;
    1.0 / (1.0 + AM_MODULATION_INDEX) * (1.0 + AM_MODULATION_INDEX * bounded)
  }

  /** Output sample `k` of the whole input: the audio delayed by half the filter
      and its Hilbert transform with the same delay, or the AM carrier. */
  function Modulated(d: Design, mode: TxMode, xs: seq<real>, k: nat): Complex
    requires d.Valid()
  {
    var audio := Audio(d, xs);
    var inPhase := At(audio, k - DELAY, 0.0);
    var quadrature := Convolve(d.hilbert, audio, k, FIR_TAPS);
    match mode
    case Lsb => Complex(inPhase, quadrature)
    case Usb => Complex(inPhase, -quadrature)
    case Am =>
      var envelope := Envelope(inPhase);
      Complex(envelope * d.cos(CarrierPhase(d, k)), -envelope * d.sin(CarrierPhase(d, k)))
  }

  /** The audio is the band-passed high pass of the input, each sample a convolution
      of everything heard before it. */
  lemma AudioAt(d: Design, xs: seq<real>, k: nat)
    requires d.Valid() && k < |xs|
    ensures Audio(d, xs)[k] == Convolve(d.bandpass, HighPass(xs), k, 129)
  {
    FilteredAt(d.bandpass, HighPass(xs), k);
  }

  /** What the sidebands are: where the delayed audio is cos(a) and its Hilbert
      transform sin(a), LSB sends a vector turning with a and USB one turning
      against it, the way the AM carrier turns. */
  lemma SidebandsTurn(d: Design, xs: seq<real>, k: nat, a: real)
    requires d.Valid()
    requires At(Audio(d, xs), k - 64, 0.0) == d.cos(a)
    requires Convolve(d.hilbert, Audio(d, xs), k, 129) == d.sin(a)
    ensures Modulated(d, Usb, xs, k) == Complex(d.cos(a), -d.sin(a))
    ensures Modulated(d, Lsb, xs, k) == Complex(d.cos(a), d.sin(a))
    ensures Modulated(d, Am, xs, k).i * d.sin(CarrierPhase(d, k)) ==
            -Modulated(d, Am, xs, k).q * d.cos(CarrierPhase(d, k))
    ensures d.cos(CarrierPhase(d, k)) > 0.0 ==> Modulated(d, Am, xs, k).i > 0.0
  {
    var e := Envelope(At(Audio(d, xs), k - DELAY, 0.0));
    var (c, s) := (d.cos(CarrierPhase(d, k)), d.sin(CarrierPhase(d, k)));
    assert (e * c) * s == (e * s) * c && (c > 0.0 ==> e * c > 0.0);
  }

  /** The AM envelope swings four fifths either side of the carrier, which is
      five ninths of full scale; louder audio does not swing it further. */
  lemma EnvelopeDepth(audio: real)
    ensures -1.0 <= audio <= 1.0 ==> Envelope(audio) * 9.0 == 5.0 + 4.0 * audio
    ensures audio > 1.0 ==> Envelope(audio) == 1.0
    ensures audio < -1.0 ==> Envelope(audio) * 9.0 == 1.0
  {
  }

  /** An AM signal never leaves the unit circle, whatever the input. */
  lemma AmStaysInside(d: Design, xs: seq<real>, k: nat)
    requires d.Valid()
    requires forall a :: d.cos(a) * d.cos(a) + d.sin(a) * d.sin(a) == 1.0
    ensures var s := Modulated(d, Am, xs, k); 0.0 < s.i * s.i + s.q * s.q <= 1.0
  {
    var e := Envelope(At(Audio(d, xs), k - DELAY, 0.0));
    var (c, s) := (d.cos(CarrierPhase(d, k)), d.sin(CarrierPhase(d, k)));
    assert (e * c) * (e * c) + (-e * s) * (-e * s) == e * e * (c * c + s * s);
    assert 0.0 < e * e <= 1.0;
  }

  lemma AudioNext(d: Design, xs: seq<real>, x: real)
    requires d.Valid()
    ensures var h := HighPass(xs + [x]);
            Audio(d, xs + [x]) == Audio(d, xs) + [Convolve(d.bandpass, h, |h| - 1, FIR_TAPS)]
  {
    HighPassNext(xs, x);
    var h := HighPass(xs + [x]);
    FilteredNext(d.bandpass, HighPass(xs), h[|xs|]);
  }

  /** Adding one step and taking off a full turn follows the exact phase. */
  lemma CarrierNext(d: Design, k: nat)
    requires d.Valid()
    ensures 0.0 <= CarrierPhase(d, k) < 2.0 * d.pi
    ensures var phase := CarrierPhase(d, k) + 2.0 * d.pi * AM_IF_HZ as real / SAMPLE_RATE as real;
            CarrierPhase(d, k + 1) == if phase >= 2.0 * d.pi then phase - 2.0 * d.pi else phase
  {
    NextTurn(k * AM_IF_HZ);
    TurnStep(2.0 * d.pi, k * AM_IF_HZ % SAMPLE_RATE);
  }

  /** How far the carrier turns from one sample to the next. */
  function Advance(d: Design, k: nat): real {
    var step := CarrierPhase(d, k + 1) - CarrierPhase(d, k);
    if step < 0.0 then step + 2.0 * d.pi else step
  }

  function Turned(d: Design, n: nat): real {
    if n == 0 then 0.0 else Turned(d, n - 1) + Advance(d, n - 1)
  }

  /** The carrier makes 11025 turns in the 48000 samples of a second. */
  lemma {:induction false} CarrierTurns(d: Design, n: nat)
    requires d.Valid()
    ensures Turned(d, n) * 48_000.0 == 2.0 * d.pi * 11_025.0 * n as real
  {
    hide CarrierPhase;
    if n > 0 {
      CarrierTurns(d, n - 1);
      CarrierNext(d, n - 1);
      StepIs(2.0 * d.pi, CarrierPhase(d, n - 1), CarrierPhase(d, n));
      OneMore(2.0 * d.pi * 11_025.0, Turned(d, n - 1), Advance(d, n - 1), n - 1);
    }
  }

  lemma OneMore(unit: real, sum: real, step: real, n: nat)
    requires sum * 48_000.0 == unit * n as real && step * 48_000.0 == unit
    ensures (sum + step) * 48_000.0 == unit * (n + 1) as real
  {
  }

  lemma StepIs(turn: real, before: real, after: real)
    requires turn > 0.0 && 0.0 <= before < turn && 0.0 <= after < turn
    requires var phase := before + turn * AM_IF_HZ as real / SAMPLE_RATE as real;
             after == if phase >= turn then phase - turn else phase
    ensures var step := after - before;
            (if step < 0.0 then step + turn else step) * 48_000.0 == turn * 11_025.0
  {
  }

  lemma TurnStep(turn: real, a: nat)
    requires turn > 0.0 && a < SAMPLE_RATE
    ensures var unit := turn / SAMPLE_RATE as real;
            && 0.0 <= unit * a as real < turn
            && var phase := unit * a as real + turn * AM_IF_HZ as real / SAMPLE_RATE as real;
               && (phase >= turn <==> a + AM_IF_HZ >= SAMPLE_RATE)
               && phase == unit * (a + AM_IF_HZ) as real
               && phase - turn == unit * (a + AM_IF_HZ - SAMPLE_RATE) as real
  {
    var unit := turn / SAMPLE_RATE as real;
    BelowTurn(turn, a);
    BelowTurn(turn, a + AM_IF_HZ);
    assert turn * AM_IF_HZ as real / SAMPLE_RATE as real == unit * AM_IF_HZ as real;
    assert unit * (a as real + AM_IF_HZ as real) == unit * a as real + unit * AM_IF_HZ as real;
    assert unit * (a as real + AM_IF_HZ as real - SAMPLE_RATE as real) ==
           unit * (a as real + AM_IF_HZ as real) - unit * SAMPLE_RATE as real;
  }

  lemma BelowTurn(turn: real, a: nat)
    requires turn > 0.0
    ensures var unit := turn / SAMPLE_RATE as real;
            && 0.0 <= unit * a as real && unit * SAMPLE_RATE as real == turn
            && (a < SAMPLE_RATE <==> unit * a as real < turn)
  {
    Scaled(turn / SAMPLE_RATE as real, a as real, SAMPLE_RATE as real, turn);
  }

  lemma NextTurn(a: nat)
    ensures var r := a % SAMPLE_RATE + AM_IF_HZ;
            (a + AM_IF_HZ) % SAMPLE_RATE == if r >= SAMPLE_RATE then r - SAMPLE_RATE else r
  {
  }

  lemma Scaled(unit: real, x: real, y: real, limit: real)
    requires unit > 0.0 && unit * y == limit
    ensures x < y <==> unit * x < limit
  {
    assert unit * (y - x) == limit - unit * x;
  }

  class Modulator {
    const design: Design
    const audioHistory: array<real>
    const filteredHistory: array<real>
    var mode: TxMode
    var audioIndex: nat
    var filteredIndex: nat
    var previousInput: real
    var previousHighpass: real
    var carrierPhase: real
    /** Everything processed since initialisation, and how much of it in AM. */
    ghost var input: seq<real>

    ghost predicate Valid()
      reads this, audioHistory, filteredHistory
    {
      && design.Valid() && audioHistory != filteredHistory
      && audioHistory.Length == filteredHistory.Length == FIR_TAPS
      && audioIndex < FIR_TAPS && filteredIndex < FIR_TAPS
      && Remembers(audioHistory[..], Back(audioIndex, 1), HighPass(input), 0.0)
      && Remembers(filteredHistory[..], Back(filteredIndex, 1), Audio(design, input), 0.0)
      && previousInput == At(input, |input| - 1, 0.0)
      && previousHighpass == At(HighPass(input), |input| - 1, 0.0)
      && (mode == Am ==> carrierPhase == CarrierPhase(design, |input|))
    }

    constructor (design: Design, mode: TxMode)
      requires design.Valid()
      ensures Valid() && this.design == design && this.mode == mode && input == []
      ensures fresh(audioHistory) && fresh(filteredHistory)
    {
      this.design, this.mode := design, mode;
      audioHistory := new real[FIR_TAPS](_ => 0.0);
      filteredHistory := new real[FIR_TAPS](_ => 0.0);
      audioIndex, filteredIndex, input := 0, 0, [];
      previousInput, previousHighpass, carrierPhase := 0.0, 0.0, 0.0;
    }

    /** Starts over. */
    method Init(mode: TxMode)
      requires Valid()
      modifies this, audioHistory, filteredHistory
      ensures Valid() && this.mode == mode && input == []
    {
      hide Remembers;
      forall k | 0 <= k < FIR_TAPS {
        audioHistory[k] := 0.0;
      }
      forall k | 0 <= k < FIR_TAPS {
        filteredHistory[k] := 0.0;
      }
      RememberNothing(audioHistory[..], Back(0, 1), 0.0);
      RememberNothing(filteredHistory[..], Back(0, 1), 0.0);
      this.mode, audioIndex, filteredIndex, input := mode, 0, 0, [];
      previousInput, previousHighpass, carrierPhase := 0.0, 0.0, 0.0;
    }

    /** The newest audio sample, put into its delay line. */
    method Listen(sample: real) returns (filtered: real)
      requires design.Valid() && audioIndex < FIR_TAPS
      requires Remembers(audioHistory[..], Back(audioIndex, 1), HighPass(input), 0.0)
      requires previousInput == At(input, |input| - 1, 0.0)
      requires previousHighpass == At(HighPass(input), |input| - 1, 0.0)
      modifies this`audioIndex, this`previousInput, this`previousHighpass, audioHistory
      ensures audioIndex < FIR_TAPS
      ensures Remembers(audioHistory[..], Back(audioIndex, 1), HighPass(input + [sample]), 0.0)
      ensures previousInput == At(input + [sample], |input|, 0.0)
      ensures previousHighpass == At(HighPass(input + [sample]), |input|, 0.0)
      ensures Audio(design, input + [sample]) == Audio(design, input) + [filtered]
    {
      hide HighPass, Convolve, Filtered, Audio, Remembers;
      ghost var longer := input + [sample];
      HighPassNext(input, sample);
      AudioNext(design, input, sample);
      var highpass := sample - previousInput + 0.995 * previousHighpass;
      previousInput, previousHighpass := sample, highpass;
      RememberNext(audioHistory[..], audioIndex, HighPass(input), highpass, 0.0);
      audioHistory[audioIndex] := highpass;
      assert audioHistory[..] == old(audioHistory[..])[audioIndex := highpass];
      filtered := Fir(design.bandpass, audioHistory, audioIndex, HighPass(longer));
      NextIndex(audioIndex);
      audioIndex := (audioIndex + 1) % FIR_TAPS;
    }

    /** The transmit sample from the filtered audio in its delay line. */
    method Modulate(inPhase: real, ghost heard: seq<real>) returns (output: Complex)
      requires design.Valid() && heard != []
      requires Remembers(filteredHistory[..], filteredIndex, Audio(design, heard), 0.0)
      requires inPhase == At(Audio(design, heard), |heard| - 1 - DELAY, 0.0)
      requires mode == Am ==> carrierPhase == CarrierPhase(design, |heard| - 1)
      modifies this`carrierPhase
      ensures output == Modulated(design, mode, heard, |heard| - 1)
      ensures mode == Am ==> carrierPhase == CarrierPhase(design, |heard|)
    {
      hide Convolve, Audio, Remembers, Envelope, CarrierPhase, At;
      if mode == Am {
        var envelope := Envelope(inPhase);
        output := Complex(envelope * design.cos(carrierPhase), -envelope * design.sin(carrierPhase));
        CarrierNext(design, |heard| - 1);
        carrierPhase := carrierPhase + 2.0 * design.pi * AM_IF_HZ as real / SAMPLE_RATE as real;
        if carrierPhase >= 2.0 * design.pi {
          carrierPhase := carrierPhase - 2.0 * design.pi;
        }
      } else {
        var quadrature := Fir(design.hilbert, filteredHistory, filteredIndex, Audio(design, heard));
        output := Complex(inPhase, if mode == Usb then -quadrature else quadrature);
      }
    }

    /** One microphone sample in, one transmit sample out: the whole-history
        formula at the latest sample. */
    method Process(sample: real) returns (output: Complex)
      requires Valid()
      modifies this`audioIndex, this`filteredIndex, this`previousInput, this`previousHighpass
      modifies this`carrierPhase, this`input, audioHistory, filteredHistory
      ensures Valid() && input == old(input) + [sample]
      ensures output == Modulated(design, mode, input, |input| - 1)
      ensures var audio := Audio(design, input);
              var delayed, turned := At(audio, |input| - 65, 0.0), Convolve(design.hilbert, audio, |input| - 1, 129);
              && (mode == Usb ==> output == Complex(delayed, -turned))
              && (mode == Lsb ==> output == Complex(delayed, turned))
    {
      hide HighPass, Convolve, Audio, Remembers, CarrierPhase;
      ghost var heard := input + [sample];
      var filtered := Listen(sample);
      RememberNext(filteredHistory[..], filteredIndex, Audio(design, input), filtered, 0.0);
      filteredHistory[filteredIndex] := filtered;
      assert filteredHistory[..] == old(filteredHistory[..])[filteredIndex := filtered];
      var delayed := (filteredIndex + FIR_TAPS - DELAY) % FIR_TAPS;
      RememberedAt(filteredHistory[..], filteredIndex, Audio(design, heard), DELAY);
      output := Modulate(filteredHistory[delayed], heard);
      NextIndex(filteredIndex);
      filteredIndex := (filteredIndex + 1) % FIR_TAPS;
      input := heard;
    }
  }

  /** Where the delayed sample sits in the line. */
  lemma RememberedAt(line: seq<real>, newest: nat, xs: seq<real>, t: nat)
    requires Remembers(line, newest, xs, 0.0) && t < FIR_TAPS
    ensures var slot := (newest + FIR_TAPS - t) % FIR_TAPS; line[slot] == At(xs, |xs| - 1 - t, 0.0)
  {
    assert (newest + FIR_TAPS - t) % FIR_TAPS == Back(newest, t);
  }
}
