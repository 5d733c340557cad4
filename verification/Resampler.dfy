/** The rational resampler behind the rtl_tcp listener (src/rtl_tcp.c): fed one
    frame at a time with a 64-sample history, it computes the same bytes as one
    pass of a windowed interpolator over the whole input. */
module Resampler {
  import opened Frame
  import opened Quantiser
  import opened Signal

  const RADIUS: nat := 8
  const PHASES: nat := 1_024
  const TAPS: nat := 17
  const INPUT_RATE: nat := 48_000
  const HISTORY: nat := 64
  const MAX_BLOCK: nat := 256
  /** Room for one block at the highest rate, as the daemon provides it. */
  const DAEMON_CAPACITY: nat := MAX_BLOCK * 2 * 64
  const MAX_RATE: nat := 3_072_000

  /** The precomputed window weights, and the number a float's bit pattern stands for. */
  datatype Kernel = Kernel(weight: (nat, nat) -> real, number: Word -> real)

  /** The nearest tabulated position: a sample index and a phase. */
  function Nearest(position: real): (r: (int, nat))
    ensures r.1 < PHASES
    ensures position.Floor <= r.0 <= position.Floor + 1
  {
    var f := position.Floor;
    var phase := Round((position - f as real) * PHASES as real);
    if phase == PHASES then (f + 1, 0) else (f, phase)
  }

  /** No tabulated position is nearer. */
  lemma NearestIs(position: real)
    ensures var (center, phase) := Nearest(position);
            -1.0 / 2048.0 <= position - (center as real + phase as real / 1024.0) <= 1.0 / 2048.0
  {
  }

  /** Output `k` is interpolated, to within half a table step, where the input
      sample number k * 48000 / R lies, nine samples late. */
  lemma OutputPosition(k: nat, rate: nat)
    requires rate > 0
    ensures var (center, phase) := Nearest(Position(k, rate));
            var exact := (k * 48_000) as real / rate as real - 9.0;
            -1.0 / 2048.0 <= exact - (center as real + phase as real / 1024.0) <= 1.0 / 2048.0
  {
    NearestIs(Position(k, rate));
  }

  /** The first `n` terms of the weighted window around `center`. */
  function Window(kernel: Kernel, xs: seq<real>, center: int, phase: nat, n: nat): real {
    if n == 0 then 0.0
    else
      Window(kernel, xs, center, phase, n - 1) +
      kernel.weight(phase, n - 1) * At(xs, center + (n - 1) - RADIUS, 0.0)
  }

  /** Where in the input output number `k` lies, delayed by the filter radius plus one. */
  function Position(k: nat, rate: nat): real
    requires rate > 0
  {
    (k * INPUT_RATE) as real / rate as real - (RADIUS + 1) as real
  }

  /** The value of output number `k` on the whole input. */
  function Ideal(kernel: Kernel, xs: seq<real>, rate: nat, k: nat): real
    requires rate > 0
  {
    var (center, phase) := Nearest(Position(k, rate));
    Window(kernel, xs, center, phase, TAPS)
  }

  function Ideals(kernel: Kernel, xs: seq<real>, rate: nat, n: nat): (r: seq<real>)
    requires rate > 0
    ensures |r| == n
  {
    seq(n, k requires k >= 0 => Ideal(kernel, xs, rate, k))
  }

  function Interleave(a: seq<Byte>, b: seq<Byte>): (r: seq<Byte>)
    requires |a| == |b|
    ensures |r| == 2 * |a|
  {
    if a == [] then []
    else
      var n := |a| - 1;
      Interleave(a[..n], b[..n]) + [a[n], b[n]]
  }

  /** I comes first in every pair. */
  lemma {:induction false} InterleaveAt(a: seq<Byte>, b: seq<Byte>, k: nat)
    requires |a| == |b| && k < |a|
    ensures Interleave(a, b)[2 * k] == a[k] && Interleave(a, b)[2 * k + 1] == b[k]
  {
    var n := |a| - 1;
    if k < n {
      InterleaveAt(a[..n], b[..n], k);
    }
  }

  /** A complex input stream. */
  datatype Stream = Stream(i: seq<real>, q: seq<real>)

  /** Bytes emitted so far, with the quantisation errors carried along. */
  datatype Emission = Emission(bytes: seq<Byte>, errorI: real, errorQ: real)

  /** The first `n` output pairs of one pass over the whole input. */
  function WholeStream(kernel: Kernel, x: Stream, rate: nat, n: nat): Emission
    requires rate > 0
  {
    var (i, errorI) := EncodeAll(Ideals(kernel, x.i, rate, n), 0.0);
    var (q, errorQ) := EncodeAll(Ideals(kernel, x.q, rate, n), 0.0);
    Emission(Interleave(i, q), errorI, errorQ)
  }

  lemma NextOutput(kernel: Kernel, x: Stream, rate: nat, n: nat)
    requires rate > 0
    ensures var e := WholeStream(kernel, x, rate, n);
            && SmallError(e.errorI) && SmallError(e.errorQ)
            && var i := Encode(Ideal(kernel, x.i, rate, n), e.errorI);
               var q := Encode(Ideal(kernel, x.q, rate, n), e.errorQ);
               WholeStream(kernel, x, rate, n + 1) == Emission(e.bytes + [i.byte, q.byte], i.error, q.error)
  {
    hide Ideal, Encode;
    var (a, b) := (Ideals(kernel, x.i, rate, n + 1), Ideals(kernel, x.q, rate, n + 1));
    assert a[..n] == Ideals(kernel, x.i, rate, n) && b[..n] == Ideals(kernel, x.q, rate, n);
    var (i, _) := EncodeAll(a, 0.0);
    var (q, _) := EncodeAll(b, 0.0);
    assert i[..n] == EncodeAll(a[..n], 0.0).0 && q[..n] == EncodeAll(b[..n], 0.0).0;
  }

  /** How many outputs `count` input samples produce: the rate ratio, rounded up. */
  function OutputsFor(count: nat, rate: nat): nat {
    (count * rate + (INPUT_RATE - 1)) / INPUT_RATE
  }

  /** A second of input makes exactly a second of output, and so does any number. */
  lemma SecondsMatch(seconds: nat, rate: nat)
    ensures OutputsFor(48_000 * seconds, rate) == seconds * rate
  {
    assert 48_000 * seconds * rate == 48_000 * (seconds * rate);
  }

  lemma PhaseInBlock(k: nat, rate: nat, start: nat, count: nat, phase: nat)
    requires k * INPUT_RATE == start * rate + phase && phase < count * rate
    ensures InBlock(k, rate, start, count)
    ensures OutputsFor(start + count, rate) > k
  {
    assert (start + count) * rate == start * rate + count * rate;
  }

  lemma CeilingIs(count: nat, rate: nat, n: nat)
    requires count * rate <= n * INPUT_RATE < count * rate + INPUT_RATE
    ensures OutputsFor(count, rate) == n
  {
  }

  // ---- reading the input ----

  /** One input sample as the block code finds it. */
  function SourceSample(current: seq<real>, history: seq<real>, blockStart: nat, index: int): real {
    if index >= blockStart then
      if index - blockStart < |current| then current[index - blockStart] else 0.0
    else if index < 0 || blockStart - index > |history| then 0.0
    else history[|history| - (blockStart - index)]
  }

  /** The last samples of the stream, as many as the history keeps. */
  function Recent(xs: seq<real>): (r: seq<real>)
    ensures |r| <= HISTORY && |r| <= |xs|
  {
    if |xs| <= HISTORY then xs else xs[|xs| - HISTORY..]
  }

  /** Within the history's reach the block code reads the stream itself. */
  lemma SourceIsStream(before: seq<real>, current: seq<real>, index: int)
    requires |before| - HISTORY <= index
    ensures SourceSample(current, Recent(before), |before|, index) == At(before + current, index, 0.0)
  {
  }

  // ---- where an output reads ----

  /** Output `k` lies in the block from `start` with `count` samples. */
  ghost predicate InBlock(k: nat, rate: nat, start: nat, count: nat) {
    start * rate <= k * INPUT_RATE < (start + count) * rate
  }

  lemma RealRatio(a: nat, b: nat, rate: nat)
    requires rate > 0
    ensures a * rate <= b ==> a as real <= b as real / rate as real
    ensures b < a * rate ==> b as real / rate as real < a as real
  {
    assert (b as real / rate as real) * rate as real == b as real;
    assert (a * rate) as real == a as real * rate as real;
  }

  /** Every tap reads at most 17 samples before the block, and never past it. */
  lemma ReadsInReach(k: nat, rate: nat, start: nat, count: nat)
    requires rate > 0 && InBlock(k, rate, start, count)
    ensures var (center, _) := Nearest(Position(k, rate));
            start - 17 <= center - RADIUS && center + RADIUS < start + count
  {
    RealRatio(start, k * INPUT_RATE, rate);
    RealRatio(start + count, k * INPUT_RATE, rate);
    var position := Position(k, rate);
    assert (start - 9) as real <= position < (start + count - 9) as real;
  }

  /** So the value does not depend on anything received later. */
  lemma {:induction false} WindowIgnoresLater(
    kernel: Kernel, xs: seq<real>, later: seq<real>, center: int, phase: nat, n: nat)
    requires n <= TAPS && center + RADIUS < |xs|
    ensures Window(kernel, xs + later, center, phase, n) == Window(kernel, xs, center, phase, n)
  {
    if n > 0 {
      WindowIgnoresLater(kernel, xs, later, center, phase, n - 1);
    }
  }

  lemma IdealsIgnoreLater(kernel: Kernel, xs: seq<real>, later: seq<real>, rate: nat, n: nat)
    requires rate > 0 && (n > 0 ==> (n - 1) * INPUT_RATE < |xs| * rate)
    ensures Ideals(kernel, xs + later, rate, n) == Ideals(kernel, xs, rate, n)
  {
    forall k | 0 <= k < n
      ensures Ideals(kernel, xs + later, rate, n)[k] == Ideals(kernel, xs, rate, n)[k]
    {
      ReadsInReach(k, rate, 0, |xs|);
      var (center, phase) := Nearest(Position(k, rate));
      WindowIgnoresLater(kernel, xs, later, center, phase, TAPS);
    }
  }

  /** The weight an input sample has in an output around `center`. */
  function Share(kernel: Kernel, center: int, phase: nat, j: int): real {
    if center - 8 <= j <= center + 8 then kernel.weight(phase, j - center + 8) else 0.0
  }

  /** Every input sample's contribution to an output. */
  function Shares(kernel: Kernel, xs: seq<real>, center: int, phase: nat): real {
    if xs == [] then 0.0
    else
      var n := |xs| - 1;
      Shares(kernel, xs[..n], center, phase) + Share(kernel, center, phase, n) * xs[n]
  }

  /** Seen from the input: an output is the sum of all samples, each weighted by
      its distance from the output's centre. */
  lemma {:induction false} WindowIsShares(kernel: Kernel, xs: seq<real>, center: int, phase: nat)
    ensures Window(kernel, xs, center, phase, TAPS) == Shares(kernel, xs, center, phase)
  {
    if xs == [] {
      WindowOfNothing(kernel, center, phase, TAPS);
    } else {
      var n := |xs| - 1;
      WindowIsShares(kernel, xs[..n], center, phase);
      WindowGrows(kernel, xs[..n], xs[n], center, phase, TAPS);
      assert xs == xs[..n] + [xs[n]];
    }
  }

  lemma {:induction false} WindowOfNothing(kernel: Kernel, center: int, phase: nat, n: nat)
    ensures Window(kernel, [], center, phase, n) == 0.0
  {
    if n > 0 {
      WindowOfNothing(kernel, center, phase, n - 1);
    }
  }

  lemma {:induction false} WindowGrows(kernel: Kernel, xs: seq<real>, x: real, center: int, phase: nat, n: nat)
    requires n <= TAPS
    ensures Window(kernel, xs + [x], center, phase, n) ==
            Window(kernel, xs, center, phase, n) +
            (if center - 8 <= |xs| < center - 8 + n then kernel.weight(phase, |xs| - center + 8) * x else 0.0)
  {
    if n > 0 {
      WindowGrows(kernel, xs, x, center, phase, n - 1);
      var j := center + (n - 1) - RADIUS;
      assert At(xs + [x], j, 0.0) == if j == |xs| then x else At(xs, j, 0.0);
      assert j == |xs| ==> At(xs, j, 0.0) == 0.0;
    }
  }

  // ---- one output ----

  /** The interpolator as the block code runs it. */
  method Interpolate(
    kernel: Kernel, current: seq<real>, history: seq<real>, blockStart: nat, position: real)
    returns (total: real)
    ensures var (center, phase) := Nearest(position);
            total == WindowOf(kernel, current, history, blockStart, center, phase, TAPS)
  {
    var (center, phase) := Nearest(position);
    total := 0.0;
    for tap := 0 to TAPS
      invariant total == WindowOf(kernel, current, history, blockStart, center, phase, tap)
    {
      var index := center + tap - RADIUS;
      total := total + kernel.weight(phase, tap) * SourceSample(current, history, blockStart, index);
    }
  }

  /** `Window` with every sample found through the history and the current block. */
  function WindowOf(
    kernel: Kernel, current: seq<real>, history: seq<real>, blockStart: nat,
    center: int, phase: nat, n: nat): real
  {
    if n == 0 then 0.0
    else
      WindowOf(kernel, current, history, blockStart, center, phase, n - 1) +
      kernel.weight(phase, n - 1) *
      SourceSample(current, history, blockStart, center + (n - 1) - RADIUS)
  }

  lemma {:induction false} WindowOfIsWindow(
    kernel: Kernel, before: seq<real>, current: seq<real>, center: int, phase: nat, n: nat)
    requires n <= TAPS && |before| - 17 <= center - RADIUS
    ensures WindowOf(kernel, current, Recent(before), |before|, center, phase, n) ==
            Window(kernel, before + current, center, phase, n)
  {
    hide SourceSample, Recent;
    if n > 0 {
      WindowOfIsWindow(kernel, before, current, center, phase, n - 1);
      SourceIsStream(before, current, center + (n - 1) - RADIUS);
    }
  }

  /** An output of a block is the value of the whole stream at its position. */
  lemma OutputIsIdeal(kernel: Kernel, before: seq<real>, current: seq<real>, rate: nat, k: nat)
    requires rate > 0 && InBlock(k, rate, |before|, |current|)
    ensures var (center, phase) := Nearest(Position(k, rate));
            WindowOf(kernel, current, Recent(before), |before|, center, phase, TAPS) ==
            Ideal(kernel, before + current, rate, k)
  {
    ReadsInReach(k, rate, |before|, |current|);
    var (center, phase) := Nearest(Position(k, rate));
    WindowOfIsWindow(kernel, before, current, center, phase, TAPS);
  }

  /** The position computed from the phase accumulator. */
  function NominalPosition(blockStart: nat, phase: nat, rate: nat): real
    requires rate > 0
  {
    blockStart as real + phase as real / rate as real - (RADIUS + 1) as real
  }

  lemma NominalIsPosition(blockStart: nat, phase: nat, rate: nat, k: nat)
    requires rate > 0 && k * INPUT_RATE == blockStart * rate + phase
    ensures NominalPosition(blockStart, phase, rate) == Position(k, rate)
  {
    assert (blockStart * rate) as real == blockStart as real * rate as real;
    assert (blockStart * rate + phase) as real / rate as real ==
           blockStart as real + phase as real / rate as real;
  }

  // ---- the history ----

  /** Appends a block to the history, keeping the last 64 samples. */
  method Remember(history: array<real>, length: nat, current: seq<real>) returns (newLength: nat)
    requires history.Length == HISTORY && length <= HISTORY
    modifies history
    ensures newLength <= HISTORY
    ensures history[..newLength] == Recent(old(history[..length]) + current)
  {
    hide Recent;
    var count := |current|;
    var keep := if count < HISTORY then count else HISTORY;
    ghost var earlier := history[..length];
    var oldKeep := 0;
    if keep < HISTORY {
      oldKeep := HISTORY - keep;
      if oldKeep > length {
        oldKeep := length;
      }
      Shift(history, length, oldKeep);
    }
    assert history[..oldKeep] == earlier[length - oldKeep..];
    Append(history, oldKeep, current[count - keep..]);
    newLength := oldKeep + keep;
    RecentParts(earlier, current, oldKeep, keep);
  }

  /** Moves the last `keep` of `length` samples to the front. */
  method Shift(history: array<real>, length: nat, keep: nat)
    requires keep <= length <= history.Length
    modifies history
    ensures history[..keep] == old(history[length - keep..length])
  {
    forall k | 0 <= k < keep {
      history[k] := history[length - keep + k];
    }
  }

  method Append(history: array<real>, at: nat, tail: seq<real>)
    requires at + |tail| <= history.Length
    modifies history
    ensures history[..at + |tail|] == old(history[..at]) + tail
  {
    forall k | 0 <= k < |tail| {
      history[at + k] := tail[k];
    }
  }

  lemma RecentParts(before: seq<real>, current: seq<real>, oldKeep: nat, keep: nat)
    requires |before| <= HISTORY
    requires keep == if |current| < HISTORY then |current| else HISTORY
    requires oldKeep == if HISTORY - keep < |before| then HISTORY - keep else |before|
    ensures before[|before| - oldKeep..] + current[|current| - keep..] == Recent(before + current)
  {
  }

  lemma RecentLength(a: seq<real>, b: seq<real>)
    requires |a| == |b|
    ensures |Recent(a)| == |Recent(b)|
  {
  }

  lemma RecentOfRecent(before: seq<real>, current: seq<real>)
    ensures Recent(Recent(before) + current) == Recent(before + current)
  {
  }

  // ---- the resampler ----

  /** The samples of a frame as the resampler reads them: Q changes sign. */
  function ReadI(kernel: Kernel, samples: seq<Sample>): (r: seq<real>)
    ensures |r| == |samples|
  {
    seq(|samples|, k requires 0 <= k < |samples| => kernel.number(samples[k].i))
  }

  function ReadQ(kernel: Kernel, samples: seq<Sample>): (r: seq<real>)
    ensures |r| == |samples|
  {
    seq(|samples|, k requires 0 <= k < |samples| => -kernel.number(samples[k].q))
  }

  function Extend(kernel: Kernel, x: Stream, samples: seq<Sample>): Stream {
    Stream(x.i + ReadI(kernel, samples), x.q + ReadQ(kernel, samples))
  }

  /** The stream a client sees is the conjugate of the radio's: what turned one
      way turns the other. */
  lemma ReadIsConjugate(kernel: Kernel, samples: seq<Sample>, k: nat)
    requires k < |samples|
    ensures var x := Extend(kernel, Stream([], []), samples);
            |x.i| == |x.q| == |samples| &&
            x.i[k] - kernel.number(samples[k].i) == 0.0 && x.q[k] + kernel.number(samples[k].q) == 0.0
  {
  }

  /** A frame the resampler accepts: exact length, at most 256 samples. */
  predicate Acceptable(frame: seq<Byte>) {
    && HEADER_SIZE <= |frame| && frame[..6] == Magic()[..6]
    && |frame| == HEADER_SIZE + 8 * LoadBe32(frame[16..20])
    && LoadBe32(frame[16..20]) <= MAX_BLOCK
  }

  function SamplesOf(frame: seq<Byte>): (r: seq<Sample>)
    requires Acceptable(frame)
    ensures |r| <= MAX_BLOCK
  {
    LoadSamples(frame[HEADER_SIZE..], LoadBe32(frame[16..20]))
  }

  /** The daemon's own frames are accepted up to 256 samples, and read as sent. */
  lemma FramesAreAccepted(sequence: Word, samples: seq<Sample>)
    requires |samples| < 0x1_0000_0000
    ensures Acceptable(FrameBytes(sequence, samples)) <==> |samples| <= 256
    ensures |samples| <= 256 ==> SamplesOf(FrameBytes(sequence, samples)) == samples
  {
    hide Payload, LoadSamples, LoadBe32, Header;
    var (header, payload) := (Header(sequence, |samples|), Payload(samples));
    var b := FrameBytes(sequence, samples);
    HeaderFields(sequence, |samples|, payload);
    PayloadRoundTrip(samples, []);
    assert b == header + payload && b[HEADER_SIZE..] == payload == payload + [];
    assert b[..6] == b[..8][..6];
  }

  /** Anything of another length than its count says is refused. */
  lemma WrongLengthIsRefused(sequence: Word, count: Word, rest: seq<Byte>)
    requires |rest| != 8 * count
    ensures !Acceptable(Header(sequence, count) + rest)
  {
    hide LoadBe32, Header;
    HeaderFields(sequence, count, rest);
  }

  class RtlResampler {
    const kernel: Kernel
    const historyI: array<real>
    const historyQ: array<real>
    var outputRate: nat
    var phaseNumerator: nat
    var inputSamples: nat
    var historyLength: nat
    var errorI: real
    var errorQ: real

    /** All input since the last reset, and the number of pairs produced from it. */
    ghost var input: Stream
    ghost var produced: nat

    ghost predicate Shape()
      reads this
    {
      historyI != historyQ && historyI.Length == historyQ.Length == HISTORY
    }

    /** The state is that of one pass over the whole input so far: as many
        outputs as the rate ratio gives, the recent samples, the carried errors. */
    ghost predicate Tracks()
      reads this, historyI, historyQ
    {
      && Shape() && outputRate >= INPUT_RATE
      && inputSamples == |input.i| == |input.q|
      && historyLength <= HISTORY
      && historyI[..historyLength] == Recent(input.i)
      && historyQ[..historyLength] == Recent(input.q)
      && produced * INPUT_RATE == inputSamples * outputRate + phaseNumerator
      && phaseNumerator < INPUT_RATE
      && errorI == Emitted().errorI && errorQ == Emitted().errorQ
    }

    /** A resampler set to a rate below the input rate produces nothing. */
    ghost predicate Valid()
      reads this, historyI, historyQ
    {
      Shape() && (outputRate < INPUT_RATE || Tracks())
    }

    ghost function Emitted(): Emission
      requires outputRate > 0
      reads this
    {
      WholeStream(kernel, input, outputRate, produced)
    }

    constructor (kernel: Kernel, rate: nat)
      ensures Valid() && this.kernel == kernel && outputRate == rate
      ensures rate >= INPUT_RATE ==> Tracks()
      ensures input == Stream([], []) && produced == 0
      ensures fresh(historyI) && fresh(historyQ)
    {
      this.kernel := kernel;
      historyI, historyQ := new real[HISTORY](_ => 0.0), new real[HISTORY](_ => 0.0);
      outputRate, phaseNumerator, inputSamples, historyLength := rate, 0, 0, 0;
      errorI, errorQ := 0.0, 0.0;
      input, produced := Stream([], []), 0;
      new;
      assert rate > 0 ==> Ideals(kernel, [], rate, 0) == [];
    }

    /** The count of outputs is the rate ratio times the input, rounded up. */
    lemma ProducedIsRatio()
      requires Tracks()
      ensures inputSamples == |input.i| && outputRate >= INPUT_RATE
      ensures produced == OutputsFor(inputSamples, outputRate)
    {
    }

    /** One output pair. */
    method Produce(i: seq<real>, q: seq<real>, ghost x: Stream, ghost k: nat) returns (bytes: seq<Byte>)
      requires Shape() && outputRate >= INPUT_RATE && historyLength <= HISTORY
      requires |input.i| == |input.q| == inputSamples && |i| == |q|
      requires historyI[..historyLength] == Recent(input.i) && historyQ[..historyLength] == Recent(input.q)
      requires x == Stream(input.i + i, input.q + q)
      requires InBlock(k, outputRate, inputSamples, |i|)
      requires k * INPUT_RATE == inputSamples * outputRate + phaseNumerator
      requires var e := WholeStream(kernel, x, outputRate, k); errorI == e.errorI && errorQ == e.errorQ
      modifies this`errorI, this`errorQ
      ensures var before := WholeStream(kernel, x, outputRate, k);
              WholeStream(kernel, x, outputRate, k + 1) == Emission(before.bytes + bytes, errorI, errorQ)
      ensures |bytes| == 2
    {
      hide Ideal, Nearest, Encode, WindowOf, Window, Recent, EncodeAll, Interleave;
      var position := NominalPosition(inputSamples, phaseNumerator, outputRate);
      NominalIsPosition(inputSamples, phaseNumerator, outputRate, k);
      var valueI := Interpolate(kernel, i, historyI[..historyLength], inputSamples, position);
      var valueQ := Interpolate(kernel, q, historyQ[..historyLength], inputSamples, position);
      OutputIsIdeal(kernel, input.i, i, outputRate, k);
      OutputIsIdeal(kernel, input.q, q, outputRate, k);
      NextOutput(kernel, x, outputRate, k);
      var first, second := Encode(valueI, errorI), Encode(valueQ, errorQ);
      errorI, errorQ := first.error, second.error;
      return [first.byte, second.byte];
    }

    /** All outputs of one block, or as many as fit: `full` says whether the
        buffer ran out first. */
    method ProduceBlock(i: seq<real>, q: seq<real>, capacity: nat, ghost x: Stream)
      returns (output: seq<Byte>, full: bool)
      requires Shape() && Tracks() && |i| == |q|
      requires x == Stream(input.i + i, input.q + q)
      modifies this`errorI, this`errorQ, this`phaseNumerator, this`produced
      ensures full <==> capacity < 2 * (OutputsFor(inputSamples + |i|, outputRate) - old(produced))
      ensures !full ==>
                && produced == OutputsFor(inputSamples + |i|, outputRate)
                && produced * INPUT_RATE == inputSamples * outputRate + phaseNumerator
                && |i| * outputRate <= phaseNumerator < |i| * outputRate + INPUT_RATE
                && WholeStream(kernel, x, outputRate, produced) ==
                     Emission(old(Emitted().bytes) + output, errorI, errorQ)
    {
      hide WholeStream, Recent, OutputsFor, InBlock;
      var blockSpan := |i| * outputRate;
      ghost var start, before := inputSamples * outputRate, Emitted().bytes;
      EmissionStands(kernel, input, i, q, outputRate, produced);
      output := [];
      while phaseNumerator < blockSpan
        invariant produced * INPUT_RATE == start + phaseNumerator
        invariant phaseNumerator < blockSpan + INPUT_RATE
        invariant produced >= old(produced) && |output| == 2 * (produced - old(produced))
        invariant |output| <= capacity
        invariant WholeStream(kernel, x, outputRate, produced) ==
                  Emission(before + output, errorI, errorQ)
        decreases blockSpan - phaseNumerator
      {
        PhaseInBlock(produced, outputRate, inputSamples, |i|, phaseNumerator);
        if |output| + 2 > capacity {
          return output, true;
        }
        var pair := Produce(i, q, x, produced);
        assert before + output + pair == before + (output + pair);
        output := output + pair;
        phaseNumerator := phaseNumerator + INPUT_RATE;
        produced := produced + 1;
      }
      assert (inputSamples + |i|) * outputRate == start + blockSpan;
      CeilingIs(inputSamples + |i|, outputRate, produced);
      full := false;
    }

    /** One frame. Anything that is not a frame of at most 256 samples, and any
        rate below the input rate, is refused without effect. When the buffer
        is too small nothing is returned and the state no longer tracks a
        stream: the caller drops the client. */
    method ResampleIq(frame: seq<Byte>, capacity: nat) returns (output: seq<Byte>, bailed: bool)
      requires Valid()
      modifies this, historyI, historyQ
      ensures Shape() && outputRate == old(outputRate)
      ensures !Acceptable(frame) || outputRate < INPUT_RATE ==>
                && !bailed && output == [] && Valid()
                && input == old(input) && produced == old(produced)
      ensures Acceptable(frame) && outputRate >= INPUT_RATE ==>
                var samples := SamplesOf(frame);
                && (bailed <==> capacity < 2 * (OutputsFor(old(inputSamples) + |samples|, outputRate) - old(produced)))
                && (bailed ==> output == [])
                && (!bailed ==>
                      && Tracks() && input == Extend(kernel, old(input), samples)
                      && Emitted().bytes == old(Emitted().bytes) + output)
    {
      if outputRate < INPUT_RATE || !Acceptable(frame) {
        return [], false;
      }
      var samples := SamplesOf(frame);
      var i, q := ReadI(kernel, samples), ReadQ(kernel, samples);
      ghost var x := Extend(kernel, input, samples);
      var full;
      output, full := ProduceBlock(i, q, capacity, x);
      if full {
        return [], true;
      }
      Advance(i, q, x);
      bailed := false;
    }

    /** Moves past a block whose outputs have been produced. */
    method Advance(i: seq<real>, q: seq<real>, ghost x: Stream)
      requires Shape() && outputRate >= INPUT_RATE && historyLength <= HISTORY
      requires |input.i| == |input.q| == inputSamples && |i| == |q|
      requires historyI[..historyLength] == Recent(input.i) && historyQ[..historyLength] == Recent(input.q)
      requires x == Stream(input.i + i, input.q + q)
      requires produced * INPUT_RATE == inputSamples * outputRate + phaseNumerator
      requires |i| * outputRate <= phaseNumerator < |i| * outputRate + INPUT_RATE
      requires var e := WholeStream(kernel, x, outputRate, produced); errorI == e.errorI && errorQ == e.errorQ
      modifies this`phaseNumerator, this`historyLength, this`inputSamples, this`input, historyI, historyQ
      ensures Tracks() && input == x
    {
      hide WholeStream, Recent;
      RememberBlock(i, q);
      assert (inputSamples + |i|) * outputRate == inputSamples * outputRate + |i| * outputRate;
      phaseNumerator := phaseNumerator - |i| * outputRate;
      inputSamples := inputSamples + |i|;
      input := x;
    }

    method RememberBlock(i: seq<real>, q: seq<real>)
      requires Shape() && historyLength <= HISTORY && |i| == |q| && |input.i| == |input.q|
      requires historyI[..historyLength] == Recent(input.i) && historyQ[..historyLength] == Recent(input.q)
      modifies this`historyLength, historyI, historyQ
      ensures historyLength <= HISTORY
      ensures historyI[..historyLength] == Recent(input.i + i) && historyQ[..historyLength] == Recent(input.q + q)
    {
      hide Recent;
      RecentOfRecent(input.i, i);
      RecentOfRecent(input.q, q);
      RecentLength(input.i + i, input.q + q);
      var lengthQ := Remember(historyQ, historyLength, q);
      historyLength := Remember(historyI, historyLength, i);
      assert lengthQ == |historyQ[..lengthQ]| && historyLength == |historyI[..historyLength]|;
    }
  }

  /** What has been emitted is not affected by more input. */
  lemma EmissionStands(kernel: Kernel, x: Stream, i: seq<real>, q: seq<real>, rate: nat, n: nat)
    requires rate > 0 && |x.i| == |x.q|
    requires n > 0 ==> (n - 1) * INPUT_RATE < |x.i| * rate
    ensures WholeStream(kernel, Stream(x.i + i, x.q + q), rate, n) == WholeStream(kernel, x, rate, n)
  {
    IdealsIgnoreLater(kernel, x.i, i, rate, n);
    IdealsIgnoreLater(kernel, x.q, q, rate, n);
  }

  // ---- whole runs ----

  /** No block, wherever it starts, needs more room than the daemon's buffer. */
  ghost predicate EveryBlockFits(rate: nat) {
    forall start: nat, count: nat :: count <= MAX_BLOCK ==> BlockFits(start, count, rate)
  }

  ghost predicate BlockFits(start: nat, count: nat, rate: nat) {
    2 * (OutputsFor(start + count, rate) - OutputsFor(start, rate)) <= DAEMON_CAPACITY
  }

  /** The highest rate the daemon accepts is exactly the highest its buffer can hold. */
  lemma BufferIsExact(rate: nat)
    ensures EveryBlockFits(rate) <==> rate <= MAX_RATE
  {
    hide BlockFits;
    if rate <= MAX_RATE {
      forall start: nat, count: nat | count <= MAX_BLOCK
        ensures BlockFits(start, count, rate)
      {
        BlockGrowth(start, count, rate);
      }
    } else {
      FirstBlockOverflows(rate);
    }
  }

  lemma BlockGrowth(start: nat, count: nat, rate: nat)
    requires count <= MAX_BLOCK && rate <= MAX_RATE
    ensures BlockFits(start, count, rate)
  {
    Multiply(count, MAX_BLOCK, rate, MAX_RATE);
    assert (start + count) * rate == start * rate + count * rate;
    CeilingGrowth(start * rate, count * rate);
  }

  lemma Multiply(a: nat, b: nat, c: nat, d: nat)
    requires a <= b && c <= d
    ensures a * c <= b * d
  {
    assert a * c <= b * c <= b * d;
  }

  lemma FirstBlockOverflows(rate: nat)
    requires rate > MAX_RATE
    ensures !BlockFits(0, MAX_BLOCK, rate)
  {
    assert OutputsFor(0, rate) == 0;
    assert OutputsFor(MAX_BLOCK, rate) == (256 * rate + (INPUT_RATE - 1)) / INPUT_RATE;
  }

  lemma CeilingGrowth(a: nat, more: nat)
    requires more <= 16_384 * INPUT_RATE
    ensures (a + more + (INPUT_RATE - 1)) / INPUT_RATE - (a + (INPUT_RATE - 1)) / INPUT_RATE <= 16_384
  {
  }

  /** All samples of a run of frames, however they were cut into frames. */
  function AllSamples(frames: seq<seq<Byte>>): seq<Sample>
    requires forall f <- frames :: Acceptable(f)
  {
    if frames == [] then []
    else AllSamples(frames[..|frames| - 1]) + SamplesOf(frames[|frames| - 1])
  }

  lemma ExtendTwice(kernel: Kernel, a: seq<Sample>, b: seq<Sample>)
    ensures Extend(kernel, Extend(kernel, Stream([], []), a), b) == Extend(kernel, Stream([], []), a + b)
  {
    assert ReadI(kernel, a + b) == ReadI(kernel, a) + ReadI(kernel, b);
    assert ReadQ(kernel, a + b) == ReadQ(kernel, a) + ReadQ(kernel, b);
  }

  lemma NothingYet(kernel: Kernel, rate: nat)
    requires rate > 0
    ensures Extend(kernel, Stream([], []), []) == Stream([], [])
    ensures WholeStream(kernel, Stream([], []), rate, 0).bytes == []
  {
    assert Ideals(kernel, [], rate, 0) == [];
  }

  /** One frame through the daemon's buffer: never refused, never cut short. */
  method Feed(r: RtlResampler, frame: seq<Byte>, ghost seen: seq<Sample>) returns (output: seq<Byte>)
    requires r.Tracks() && r.outputRate <= MAX_RATE && Acceptable(frame)
    requires r.input == Extend(r.kernel, Stream([], []), seen)
    modifies r, r.historyI, r.historyQ
    ensures r.Tracks() && r.outputRate == old(r.outputRate)
    ensures r.input == Extend(r.kernel, Stream([], []), seen + SamplesOf(frame))
    ensures r.Emitted().bytes == old(r.Emitted().bytes) + output
  {
    hide WholeStream, Acceptable, Extend, OutputsFor, Recent, SamplesOf;
    r.ProducedIsRatio();
    BufferIsExact(r.outputRate);
    assert BlockFits(r.inputSamples, |SamplesOf(frame)|, r.outputRate);
    ExtendTwice(r.kernel, seen, SamplesOf(frame));
    var bailed;
    output, bailed := r.ResampleIq(frame, DAEMON_CAPACITY);
  }

  /** Any run of frames through the daemon's buffer: the bytes are those of one
      pass over all the samples, whatever the frame boundaries, and nothing is
      ever dropped. */
  method ResampleAll(kernel: Kernel, rate: nat, frames: seq<seq<Byte>>) returns (output: seq<Byte>)
    requires INPUT_RATE <= rate <= MAX_RATE
    requires forall f <- frames :: Acceptable(f)
    ensures var samples := AllSamples(frames);
            output == WholeStream(
              kernel, Extend(kernel, Stream([], []), samples), rate, OutputsFor(|samples|, rate)).bytes
  {
    hide WholeStream, Acceptable, Extend, OutputsFor, Recent, SamplesOf, RtlResampler.Tracks;
    NothingYet(kernel, rate);
    var r := new RtlResampler(kernel, rate);
    ghost var seen: seq<Sample> := [];
    output := [];
    for n := 0 to |frames|
      invariant r.Tracks() && r.kernel == kernel && r.outputRate == rate
      invariant fresh(r) && fresh(r.historyI) && fresh(r.historyQ)
      invariant seen == AllSamples(frames[..n])
      invariant r.input == Extend(kernel, Stream([], []), seen)
      invariant r.Emitted().bytes == output
    {
      assert frames[..n + 1][..n] == frames[..n];
      var bytes := Feed(r, frames[n], seen);
      output := output + bytes;
      seen := seen + SamplesOf(frames[n]);
    }
    ExtendedLength(kernel, seen);
    r.ProducedIsRatio();
    assert frames[..|frames|] == frames;
  }

  lemma ExtendedLength(kernel: Kernel, samples: seq<Sample>)
    ensures |Extend(kernel, Stream([], []), samples).i| == |samples|
  {
  }
}
