/** The transmit audio queue and renderer (src/tx_audio_stream.c): a bounded
    FIFO in a ring, the key-up envelope, the drive limiter and the fade that
    ends a graceful stop. */
module TxAudioStream {
  import opened Common
  import opened Frame
  import opened IqRing
  import opened Quantiser
  import opened Signal
  import opened TxDsp

  const CAPACITY: nat := 65_536
  const FULL_DRIVE_PEAK: nat := 24_890
  const ENVELOPE_FRAMES: nat := 480
  const MIN_DRIVE: nat := 1
  const MAX_DRIVE: nat := 100

  // ---- sixteen-bit samples ----

  predicate IsI16(v: int) {
    -32_768 <= v <= 32_767
  }

  function I16(low: Byte, high: Byte): (r: int)
    ensures IsI16(r)
  {
    var u := low as int + 256 * high as int;
    if u >= 32_768 then u - 65_536 else u
  }

  function StoreI16(v: int): (r: seq<Byte>)
    requires IsI16(v)
    ensures |r| == 2 && I16(r[0], r[1]) == v
  {
    var u := if v < 0 then v + 65_536 else v;
    [u % 256, u / 256]
  }

  function Normalised(low: Byte, high: Byte): real {
    I16(low, high) as real / 32_768.0
  }

  /** The low byte comes first. */
  lemma LowByteFirst(v: int)
    requires IsI16(v)
    ensures 0 <= v < 256 ==> StoreI16(v) == [v, 0]
    ensures I16(1, 0) == 1 && I16(0, 1) == 256 && I16(255, 255) == -1
  {
  }

  /** The samples in a run of bytes, two or four bytes each, a partial one ignored. */
  function PcmFrames(input: seq<Byte>): (r: seq<Complex>)
    ensures |r| == |input| / 2 && forall x <- r :: x.q == 0.0
  {
    seq(|input| / 2, f requires 0 <= f < |input| / 2 =>
      Complex(Normalised(input[2 * f], input[2 * f + 1]), 0.0))
  }

  function IqFrames(input: seq<Byte>, raw: bool): (r: seq<Complex>)
    ensures |r| == |input| / 4 && (!raw ==> forall x <- r :: x.q == 0.0)
  {
    seq(|input| / 4, f requires 0 <= f < |input| / 4 =>
      Complex(Normalised(input[4 * f], input[4 * f + 1]),
              if raw then Normalised(input[4 * f + 2], input[4 * f + 3]) else 0.0))
  }

  /** Sixteen-bit samples one after the other. */
  function Bytes16(vs: seq<int>): (r: seq<Byte>)
    requires forall v <- vs :: IsI16(v)
    ensures |r| == 2 * |vs|
  {
    if vs == [] then [] else Bytes16(vs[..|vs| - 1]) + StoreI16(vs[|vs| - 1])
  }

  lemma {:induction false} Bytes16At(vs: seq<int>, k: nat)
    requires (forall v <- vs :: IsI16(v)) && k < |vs|
    ensures I16(Bytes16(vs)[2 * k], Bytes16(vs)[2 * k + 1]) == vs[k]
  {
    hide I16, StoreI16;
    var n := |vs| - 1;
    assert vs[n] in vs;
    if k < n {
      Bytes16At(vs[..n], k);
    }
  }

  /** Network audio is read back sample for sample, full scale being one. */
  lemma PcmReadsBack(vs: seq<int>, k: nat)
    requires (forall v <- vs :: IsI16(v)) && k < |vs|
    ensures |PcmFrames(Bytes16(vs))| == |vs|
    ensures PcmFrames(Bytes16(vs))[k].i * 32_768.0 == vs[k] as real
  {
    hide I16, Bytes16;
    Bytes16At(vs, k);
  }

  /** And so are raw frames, I before Q; a microphone frame leaves its Q out. */
  lemma IqReadsBack(vs: seq<int>, raw: bool, k: nat)
    requires (forall v <- vs :: IsI16(v)) && 2 * k + 1 < |vs|
    ensures k < |IqFrames(Bytes16(vs), raw)|
    ensures var x := IqFrames(Bytes16(vs), raw)[k];
            x.i * 32_768.0 == vs[2 * k] as real && x.q * 32_768.0 == if raw then vs[2 * k + 1] as real else 0.0
  {
    hide I16, Bytes16;
    Bytes16At(vs, 2 * k);
    Bytes16At(vs, 2 * k + 1);
    assert 2 * (2 * k) == 4 * k && 2 * (2 * k + 1) == 4 * k + 2;
  }

  // ---- shaping and limiting ----

  /** The C library's `hypotf` and `powf`. */
  datatype Maths = Maths(hypot: (real, real) -> real, pow: (real, real) -> real)

  ghost predicate IsHypot(h: (real, real) -> real) {
    forall x, y :: IsLength(h(x, y), x, y)
  }

  ghost predicate IsLength(m: real, x: real, y: real) {
    m >= 0.0 && m * m == x * x + y * y
  }

  function Angle(d: Design, position: real): real {
    d.pi * position
  }

  function RaisedCosine(d: Design, position: real): (r: real)
    ensures position <= 0.0 ==> r == 0.0
    ensures position >= 1.0 ==> r == 1.0
  {
    if position <= 0.0 then 0.0
    else if position >= 1.0 then 1.0
    else 0.5 - 0.5 * d.cos(Angle(d, position))
  }

  /** Full on once past the envelope; in a graceful stop also following the
      queue down to nothing. */
  function Fade(d: Design, position: nat, stopping: bool, queued: nat): (r: real)
    ensures stopping && queued == 0 ==> r == 0.0
    ensures position == 0 ==> r == 0.0
    ensures position >= ENVELOPE_FRAMES && (!stopping || queued >= ENVELOPE_FRAMES) ==> r == 1.0
  {
    var rise := if position < ENVELOPE_FRAMES then RaisedCosine(d, position as real / ENVELOPE_FRAMES as real) else 1.0;
    if stopping && queued < ENVELOPE_FRAMES then
      rise * RaisedCosine(d, queued as real / ENVELOPE_FRAMES as real)
    else rise
  }

  /** Given a cosine that falls over half a turn from one to minus one, the
      envelope rises with the position and never leaves zero to one. */
  lemma EnvelopeRises(d: Design, p: real, q: real)
    requires d.pi > 0.0 && p <= q
    requires forall a, b :: 0.0 <= a < b <= d.pi ==> d.cos(a) > d.cos(b)
    requires d.cos(0.0) == 1.0 && d.cos(d.pi) == -1.0
    ensures 0.0 <= RaisedCosine(d, p) <= RaisedCosine(d, q) <= 1.0
    ensures 0.0 < p < q < 1.0 ==> RaisedCosine(d, p) < RaisedCosine(d, q)
  {
    hide Angle;
    HalfTurn(d, p);
    HalfTurn(d, q);
    if 0.0 < p < q < 1.0 {
      AngleGrows(d, p, q);
    }
  }

  lemma AngleGrows(d: Design, p: real, q: real)
    requires d.pi > 0.0 && p < q
    ensures Angle(d, p) < Angle(d, q) && Angle(d, 0.0) == 0.0 && Angle(d, 1.0) == d.pi
  {
    assert d.pi * (q - p) > 0.0;
  }

  lemma HalfTurn(d: Design, p: real)
    requires d.pi > 0.0
    requires forall a, b :: 0.0 <= a < b <= d.pi ==> d.cos(a) > d.cos(b)
    requires d.cos(0.0) == 1.0 && d.cos(d.pi) == -1.0
    ensures 0.0 < p < 1.0 ==> 0.0 < Angle(d, p) < d.pi
    ensures 0.0 <= RaisedCosine(d, p) <= 1.0
  {
    hide Angle;
    if 0.0 < p < 1.0 {
      AngleGrows(d, 0.0, p);
      AngleGrows(d, p, 1.0);
      assert d.cos(0.0) > d.cos(Angle(d, p)) > d.cos(d.pi);
    }
  }

  /** Key-up and graceful stop both fade: louder further into the transmission,
      softer nearer the end of the queue. */
  lemma FadeFollows(d: Design, early: nat, late: nat, stopping: bool, few: nat, many: nat)
    requires d.pi > 0.0 && early <= late && few <= many
    requires forall a, b :: 0.0 <= a < b <= d.pi ==> d.cos(a) > d.cos(b)
    requires d.cos(0.0) == 1.0 && d.cos(d.pi) == -1.0
    ensures 0.0 <= Fade(d, early, stopping, few) <= Fade(d, late, stopping, few) <= 1.0
    ensures Fade(d, early, stopping, few) <= Fade(d, early, stopping, many)
    ensures stopping && few < 480 && early >= 480 ==> Fade(d, early, stopping, few) == RaisedCosine(d, few as real / 480.0)
    ensures !stopping && early < 480 ==> Fade(d, early, stopping, few) == RaisedCosine(d, early as real / 480.0)
  {
    hide RaisedCosine, Fade, Rise, Times;
    FadeIs(d, early, stopping, few);
    FadeIs(d, late, stopping, few);
    FadeIs(d, early, stopping, many);
    RiseRises(d, early, late);
    EnvelopeRises(d, few as real / 480.0, many as real / 480.0);
    var (a, b) := (Rise(d, early), Rise(d, late));
    var (c, e) := (RaisedCosine(d, few as real / 480.0), RaisedCosine(d, many as real / 480.0));
    Product(a, b, c);
    Product(c, e, a);
  }

  lemma FadeIs(d: Design, position: nat, stopping: bool, queued: nat)
    ensures Fade(d, position, stopping, queued) ==
            if stopping && queued < 480 then Times(Rise(d, position), RaisedCosine(d, queued as real / 480.0))
            else Rise(d, position)
    ensures Rise(d, position) == if position < 480 then RaisedCosine(d, position as real / 480.0) else 1.0
  {
  }

  lemma RiseRises(d: Design, early: nat, late: nat)
    requires d.pi > 0.0 && early <= late
    requires forall a, b :: 0.0 <= a < b <= d.pi ==> d.cos(a) > d.cos(b)
    requires d.cos(0.0) == 1.0 && d.cos(d.pi) == -1.0
    ensures 0.0 <= Rise(d, early) <= Rise(d, late) <= 1.0
  {
    hide RaisedCosine;
    EnvelopeRises(d, early as real / 480.0, late as real / 480.0);
  }

  function Rise(d: Design, position: nat): real {
    if position < ENVELOPE_FRAMES then RaisedCosine(d, position as real / ENVELOPE_FRAMES as real) else 1.0
  }

  function Times(a: real, b: real): real {
    a * b
  }

  lemma Product(a: real, b: real, c: real)
    requires 0.0 <= a <= b <= 1.0 && 0.0 <= c <= 1.0
    ensures 0.0 <= Times(a, c) <= Times(b, c) <= c
    ensures Times(c, a) == Times(a, c) && Times(c, b) == Times(b, c) && Times(1.0, c) == c
  {
    NotNegative(b - a, c);
    NotNegative(1.0 - b, c);
    NotNegative(a, c);
  }

  lemma NotNegative(x: real, y: real)
    requires x >= 0.0 && y >= 0.0
    ensures x * y >= 0.0
  {
  }

  function DriveLimit(percent: nat): (r: real)
    ensures percent <= MAX_DRIVE ==> 0.0 <= r <= FULL_DRIVE_PEAK as real
  {
    FULL_DRIVE_PEAK as real * percent as real / 100.0
  }

  function Shaped(x: Complex, drive: nat, fade: real): Complex {
    Scale(x, DriveLimit(drive) * fade)
  }

  function Scale(x: Complex, gain: real): Complex {
    Complex(x.i * gain, x.q * gain)
  }

  /** What the drive means: a sample of unit length at full fade leaves with
      248.9 steps for every percent, and the limiter lets it pass. */
  lemma FullScaleIsDrive(m: Maths, x: Complex, drive: nat)
    requires IsHypot(m.hypot) && x.i * x.i + x.q * x.q == 1.0
    ensures var (y, reach) := (Limited(m, Shaped(x, drive, 1.0), DriveLimit(drive)), 248.9 * drive as real);
            y == Complex(x.i * reach, x.q * reach) && y.i * y.i + y.q * y.q == reach * reach
  {
    hide Limited;
    var limit := DriveLimit(drive);
    assert limit == 248.9 * drive as real && limit * 1.0 == limit;
    LengthScales(x, limit);
    LimitedIsWithin(m, Scale(x, limit), limit);
  }

  lemma LengthScales(x: Complex, gain: real)
    ensures var y := Scale(x, gain);
            y.i * y.i + y.q * y.q == (gain * gain) * (x.i * x.i + x.q * x.q)
  {
  }

  /** Half the signal, or half the fade, is half as long until the limit acts. */
  lemma ShapedScales(x: Complex, drive: nat, fade: real, gain: real)
    ensures Shaped(Scale(x, gain), drive, fade) == Scale(Shaped(x, drive, fade), gain)
    ensures Shaped(x, drive, fade * gain) == Scale(Shaped(x, drive, fade), gain)
  {
    var limit := DriveLimit(drive);
    assert (x.i * gain) * (limit * fade) == (x.i * (limit * fade)) * gain;
    assert (x.q * gain) * (limit * fade) == (x.q * (limit * fade)) * gain;
    assert x.i * (limit * (fade * gain)) == (x.i * (limit * fade)) * gain;
    assert x.q * (limit * (fade * gain)) == (x.q * (limit * fade)) * gain;
  }

  predicate TooLong(m: Maths, x: Complex, limit: real) {
    var magnitude := m.hypot(x.i, x.q);
    magnitude > limit && magnitude > 0.0
  }

  /** Brings a sample back to the limit's circle when it is outside. */
  function Limited(m: Maths, x: Complex, limit: real): Complex {
    if TooLong(m, x, limit) then Scale(x, limit / m.hypot(x.i, x.q)) else x
  }

  /** Whatever comes in, what goes out is within the limit, and samples already
      within it are not touched. */
  lemma LimitedIsWithin(m: Maths, x: Complex, limit: real)
    requires IsHypot(m.hypot) && limit >= 0.0
    ensures var y := Limited(m, x, limit); y.i * y.i + y.q * y.q <= limit * limit
    ensures x.i * x.i + x.q * x.q <= limit * limit ==> Limited(m, x, limit) == x
  {
    var magnitude := m.hypot(x.i, x.q);
    assert IsLength(magnitude, x.i, x.q);
    if TooLong(m, x, limit) {
      ScaledLength(x, magnitude, limit);
    } else {
      Squares(magnitude, limit);
    }
  }

  lemma ScaledLength(x: Complex, magnitude: real, limit: real)
    requires magnitude > limit >= 0.0 && IsLength(magnitude, x.i, x.q)
    ensures var y := Scale(x, limit / magnitude); y.i * y.i + y.q * y.q == limit * limit
    ensures x.i * x.i + x.q * x.q > limit * limit
  {
    var gain := limit / magnitude;
    assert gain * magnitude == limit;
    assert (x.i * gain) * (x.i * gain) + (x.q * gain) * (x.q * gain) == gain * gain * (x.i * x.i + x.q * x.q);
    assert gain * gain * (magnitude * magnitude) == (gain * magnitude) * (gain * magnitude);
    Squares(limit, magnitude);
  }

  lemma Squares(a: real, b: real)
    requires 0.0 <= a <= b
    ensures a * a <= b * b && (a < b ==> a * a < b * b)
  {
    assert b * b - a * a == (b - a) * (b + a);
    if a < b {
      var d, e := b - a, b + a;
      assert d * e > 0.0;
    }
  }

  function ClampI16(x: real): (r: (int, bool))
    ensures IsI16(r.0) && (r.1 <==> x > 32_767.0 || x < -32_768.0)
    ensures x == 0.0 ==> r.0 == 0
    ensures !r.1 ==> -0.5 <= x - r.0 as real <= 0.5
  {
    if x > 32_767.0 then (32_767, true)
    else if x < -32_768.0 then (-32_768, true)
    else (Round(x), false)
  }

  /** So the clamp to sixteen bits never acts. */
  lemma NeverClips(x: Complex, limit: real)
    requires 0.0 <= limit <= FULL_DRIVE_PEAK as real && x.i * x.i + x.q * x.q <= limit * limit
    ensures !ClampI16(x.i).1 && !ClampI16(x.q).1
    ensures -24_890 <= ClampI16(x.i).0 <= 24_890 && -24_890 <= ClampI16(x.q).0 <= 24_890
  {
    WithinLimit(x.i, x.q, limit);
    WithinLimit(x.q, x.i, limit);
  }

  lemma WithinLimit(a: real, b: real, limit: real)
    requires limit >= 0.0 && a * a + b * b <= limit * limit
    ensures -limit <= a <= limit
  {
    if a > limit {
      Squares(limit, a);
    } else if a < -limit {
      Squares(limit, -a);
    }
  }

  // ---- the stream ----

  /** The frame counters. */
  datatype Books = Books(
    microphone: nat, output: nat, dropped: nat, underruns: nat, clipped: nat, limited: nat, peakQueued: nat)

  const COMPRESSOR_THRESHOLD: real := 0.25
  const COMPRESSOR_RATIO: real := 3.0

  datatype Settings = Settings(drive: nat, gain: real, compressor: bool, raw: bool, translate: bool)

  /** Microphone gain, and compression above the threshold. */
  function Processed(m: Maths, s: Settings, x: real): real {
    if s.compressor then Compressed(m, Amplified(s, x)) else Amplified(s, x)
  }

  function Amplified(s: Settings, x: real): real {
    x * s.gain
  }

  function Compressed(m: Maths, y: real): real {
    var absolute := if y < 0.0 then -y else y;
    if absolute > COMPRESSOR_THRESHOLD then
      var compressed := COMPRESSOR_THRESHOLD * m.pow(absolute / COMPRESSOR_THRESHOLD, 1.0 / COMPRESSOR_RATIO);
      var size := if compressed < 0.0 then -compressed else compressed;
      if y < 0.0 then -size else size
    else y
  }

  /** The third power by which the compressor's root is known. */
  ghost predicate IsCubeRoot(pow: (real, real) -> real) {
    forall b :: HasRoot(pow, b)
  }

  ghost predicate HasRoot(pow: (real, real) -> real, b: real) {
    b >= 1.0 ==> CubesTo(pow(b, 1.0 / COMPRESSOR_RATIO), b)
  }

  ghost predicate CubesTo(root: real, b: real) {
    root >= 1.0 && root * root * root == b
  }

  /** What the compressor does: nothing up to a quarter of full scale, and above
      it three times the level in decibels becomes one: four times the output,
      cubed, is four times the input. The sign stays, and it never gets louder. */
  lemma CompressorIsThreeToOne(m: Maths, s: Settings, x: real)
    requires IsCubeRoot(m.pow)
    ensures ThreeToOne(Amplified(s, x), Processed(m, s, x), s.compressor) && Amplified(s, x) == x * s.gain
  {
    hide ThreeToOne;
    CompressedIs(m, Amplified(s, x));
    Uncompressed(Amplified(s, x));
  }

  lemma Uncompressed(y: real)
    ensures ThreeToOne(y, y, false)
  {
  }

  ghost predicate ThreeToOne(y: real, z: real, compressed: bool) {
    if !compressed || -0.25 <= y <= 0.25 then z == y
    else
      && (if y > 0.0 then 0.25 <= z <= y else y <= z <= -0.25)
      && (4.0 * z) * (4.0 * z) * (4.0 * z) == 4.0 * y
  }

  lemma CompressedIs(m: Maths, y: real)
    requires IsCubeRoot(m.pow)
    ensures ThreeToOne(y, Compressed(m, y), true)
  {
    hide CubesTo;
    var absolute := if y < 0.0 then -y else y;
    if absolute > 0.25 {
      var b := absolute / COMPRESSOR_THRESHOLD;
      var root := m.pow(b, 1.0 / COMPRESSOR_RATIO);
      assert b == 4.0 * absolute && HasRoot(m.pow, b);
      RootIsLess(root, b);
      var z := Compressed(m, y);
      assert z == if y < 0.0 then -0.25 * root else 0.25 * root;
      Cubed(root, 4.0 * z);
    }
  }

  lemma RootIsLess(root: real, b: real)
    requires CubesTo(root, b)
    ensures 1.0 <= root <= b && root * root * root == b
  {
    assert root * root >= 1.0;
    assert root * root * root - root == root * (root * root - 1.0);
  }

  lemma Cubed(a: real, b: real)
    requires b == a || b == -a
    ensures b * b * b == if b == a then a * a * a else -(a * a * a)
  {
  }

  /** A raw sample moved down by the intermediate frequency. */
  function Translated(d: Design, x: Complex, phase: real): Complex {
    Complex(x.i * d.cos(phase) + x.q * d.sin(phase), x.q * d.cos(phase) - x.i * d.sin(phase))
  }

  /** Translation turns a raw carrier exactly as the AM carrier turns, so both end
      at the same offset; it changes no sample's length, and a sample a quarter
      turn ahead stays a quarter turn ahead. */
  lemma TranslationIsTheCarrier(d: Design, x: Complex, phase: real)
    requires d.cos(phase) * d.cos(phase) + d.sin(phase) * d.sin(phase) == 1.0
    ensures Translated(d, Complex(1.0, 0.0), phase) == Complex(d.cos(phase), -d.sin(phase))
    ensures var y := Translated(d, x, phase);
            && y.i * y.i + y.q * y.q == x.i * x.i + x.q * x.q
            && Translated(d, Complex(-x.q, x.i), phase) == Complex(-y.q, y.i)
  {
    var (c, s) := (d.cos(phase), d.sin(phase));
    var y := Translated(d, x, phase);
    assert y.i * y.i + y.q * y.q == (x.i * x.i + x.q * x.q) * (c * c + s * s);
  }

  lemma AmIsTranslatedCarrier(d: Design, xs: seq<real>, k: nat)
    requires d.Valid()
    requires d.cos(CarrierPhase(d, k)) * d.cos(CarrierPhase(d, k)) +
             d.sin(CarrierPhase(d, k)) * d.sin(CarrierPhase(d, k)) == 1.0
    ensures Modulated(d, TxMode.Am, xs, k) ==
            Scale(Translated(d, Complex(1.0, 0.0), CarrierPhase(d, k)), Envelope(At(Audio(d, xs), k - DELAY, 0.0)))
  {
    hide CarrierPhase, Envelope, Audio;
    TranslationIsTheCarrier(d, Complex(0.0, 0.0), CarrierPhase(d, k));
  }

  /** What is sent for a sample: enveloped, limited, rounded. */
  function Sent(d: Design, m: Maths, drive: nat, x: Complex, fade: real): (r: (int, int))
    ensures IsI16(r.0) && IsI16(r.1)
  {
    var y := Limited(m, Shaped(x, drive, fade), DriveLimit(drive));
    (ClampI16(y.i).0, ClampI16(y.q).0)
  }

  lemma SentWithin(d: Design, m: Maths, drive: nat, x: Complex, fade: real)
    requires IsHypot(m.hypot) && drive <= MAX_DRIVE
    ensures var y := Limited(m, Shaped(x, drive, fade), DriveLimit(drive));
            !ClampI16(y.i).1 && !ClampI16(y.q).1
  {
    hide *;
    var z := Shaped(x, drive, fade);
    LimitedIsWithin(m, z, DriveLimit(drive));
    NeverClips(Limited(m, z, DriveLimit(drive)), DriveLimit(drive));
  }

  /** A faded-out sample is exactly zero. */
  lemma FadedOutIsZero(d: Design, m: Maths, drive: nat, x: Complex)
    requires IsHypot(m.hypot) && drive <= MAX_DRIVE
    ensures Sent(d, m, drive, x, 0.0) == (0, 0)
  {
    hide Limited, ClampI16, DriveLimit;
    var limit := DriveLimit(drive);
    assert limit * 0.0 == 0.0 && limit * limit >= 0.0;
    LimitedIsWithin(m, Complex(0.0, 0.0), limit);
  }

  function FrameBytes16(v: (int, int)): (r: seq<Byte>)
    requires IsI16(v.0) && IsI16(v.1)
    ensures |r| == 4
  {
    StoreI16(v.0) + StoreI16(v.1)
  }

  /** And reads back as it was sent. */
  lemma SentReadsBack(v: (int, int))
    requires IsI16(v.0) && IsI16(v.1)
    ensures IqFrames(FrameBytes16(v), true) == [Complex(v.0 as real / 32_768.0, v.1 as real / 32_768.0)]
  {
    hide I16;
  }

  /** What goes out, in numbers: a sample inside the unit circle leaves within half
      a step of itself times 248.9 for every percent of drive, times the fade. */
  lemma SentIsScaled(d: Design, m: Maths, drive: nat, x: Complex, fade: real)
    requires IsHypot(m.hypot) && drive <= MAX_DRIVE && 0.0 <= fade <= 1.0
    requires x.i * x.i + x.q * x.q <= 1.0
    ensures var (r, y) := (Sent(d, m, drive, x, fade), Scale(x, DriveLimit(drive) * fade));
            && DriveLimit(drive) == 248.9 * drive as real
            && -0.5 <= y.i - r.0 as real <= 0.5 && -0.5 <= y.q - r.1 as real <= 0.5
  {
    hide Shaped, Scale, Limited, ClampI16, DriveLimit, IsHypot;
    DriveIs(drive);
    ShapedInside(x, drive, fade);
    UntouchedInside(m, Shaped(x, drive, fade), DriveLimit(drive));
  }

  lemma ShapedInside(x: Complex, drive: nat, fade: real)
    requires drive <= MAX_DRIVE && 0.0 <= fade <= 1.0 && x.i * x.i + x.q * x.q <= 1.0
    ensures var y := Shaped(x, drive, fade);
            && y == Scale(x, DriveLimit(drive) * fade)
            && y.i * y.i + y.q * y.q <= DriveLimit(drive) * DriveLimit(drive)
  {
    hide DriveLimit;
    var gain := DriveLimit(drive) * fade;
    LengthScales(x, gain);
    NotNegativeSquare(x.i);
    NotNegativeSquare(x.q);
    Inside(DriveLimit(drive), fade, gain, x.i * x.i + x.q * x.q);
  }

  lemma NotNegativeSquare(x: real)
    ensures x * x >= 0.0
  {
  }

  lemma UntouchedInside(m: Maths, y: Complex, limit: real)
    requires IsHypot(m.hypot) && 0.0 <= limit <= FULL_DRIVE_PEAK as real && y.i * y.i + y.q * y.q <= limit * limit
    ensures Limited(m, y, limit) == y
    ensures -0.5 <= y.i - ClampI16(y.i).0 as real <= 0.5 && -0.5 <= y.q - ClampI16(y.q).0 as real <= 0.5
  {
    hide Limited, ClampI16, IsHypot;
    LimitedIsWithin(m, y, limit);
    NeverClips(y, limit);
    Rounded(y.i);
    Rounded(y.q);
  }

  lemma DriveIs(drive: nat)
    ensures DriveLimit(drive) == 248.9 * drive as real
  {
  }

  lemma Rounded(x: real)
    ensures !ClampI16(x).1 ==> -0.5 <= x - ClampI16(x).0 as real <= 0.5
  {
  }

  lemma Inside(limit: real, fade: real, gain: real, power: real)
    requires limit >= 0.0 && 0.0 <= fade <= 1.0 && gain == limit * fade && 0.0 <= power <= 1.0
    ensures (gain * gain) * power <= limit * limit
  {
    NotNegative(limit, fade);
    NotNegative(limit, 1.0 - fade);
    assert gain <= limit;
    Squares(gain, limit);
    NotNegative(gain * gain, 1.0 - power);
    assert (gain * gain) * (1.0 - power) == gain * gain - (gain * gain) * power;
  }

  /** A push onto a bounded queue: in order, as much as fits, the rest dropped. */
  ghost predicate Received(
    before: seq<Complex>, booksBefore: Books, frames: seq<Complex>,
    after: seq<Complex>, booksAfter: Books, accepted: nat)
  {
    && |before| <= CAPACITY
    && accepted == (if |frames| <= CAPACITY - |before| then |frames| else CAPACITY - |before|)
    && after == before + frames[..accepted]
    && booksAfter == booksBefore.(
         microphone := booksBefore.microphone + |frames|,
         dropped := booksBefore.dropped + |frames| - accepted,
         peakQueued := booksAfter.peakQueued)
  }

  lemma WrapNext(start: nat, count: nat)
    requires start < CAPACITY && count < CAPACITY
    ensures Wrap(start + (count + 1), CAPACITY) == Wrap(Wrap(start + count, CAPACITY) + 1, CAPACITY)
  {
  }

  lemma PhaseStart(d: Design)
    ensures CarrierPhase(d, 0) == 0.0
  {
    assert 0 * AM_IF_HZ % TxDsp.SAMPLE_RATE == 0;
  }

  // ---- the rendered signal, without the ring ----

  /** Everything fixed while rendering. */
  datatype Setup = Setup(design: Design, maths: Maths, mode: TxMode, settings: Settings, stopping: bool)

  /** What is left to send, all the signal path has heard, the raw frames
      translated so far and the position in the key-up envelope. */
  datatype Tape = Tape(queue: seq<Complex>, heard: seq<real>, translated: nat, position: nat)

  /** One frame on: the oldest sample goes through the signal path (a raw one
      past it), or silence does when none is left. */
  function NextTape(u: Setup, t: Tape): Tape {
    var position := if t.position < ENVELOPE_FRAMES then t.position + 1 else t.position;
    if t.queue == [] then Tape([], t.heard + [0.0], t.translated, position)
    else if u.settings.raw then
      Tape(t.queue[1..], t.heard, t.translated + (if u.settings.translate then 1 else 0), position)
    else Tape(t.queue[1..], t.heard + [Processed(u.maths, u.settings, t.queue[0].i)], t.translated, position)
  }

  /** The signal of the next frame. */
  function FrameSignal(u: Setup, t: Tape): Complex
    requires u.design.Valid()
  {
    if t.queue != [] && u.settings.raw then
      if u.settings.translate then Translated(u.design, t.queue[0], CarrierPhase(u.design, t.translated))
      else t.queue[0]
    else
      var heard := NextTape(u, t).heard;
      Modulated(u.design, u.mode, heard, |heard| - 1)
  }

  /** The next frame as sent. */
  function FrameSent(u: Setup, t: Tape): (r: (int, int))
    requires u.design.Valid()
    ensures IsI16(r.0) && IsI16(r.1)
  {
    var fade := Fade(u.design, t.position, u.stopping, |NextTape(u, t).queue|);
    Sent(u.design, u.maths, u.settings.drive, FrameSignal(u, t), fade)
  }

  /** Whether the limiter acts on the next frame. */
  predicate IsLimited(u: Setup, t: Tape)
    requires u.design.Valid()
  {
    var fade := Fade(u.design, t.position, u.stopping, |NextTape(u, t).queue|);
    var x := Shaped(FrameSignal(u, t), u.settings.drive, fade);
    TooLong(u.maths, x, DriveLimit(u.settings.drive))
  }

  /** How many of the next `n` frames it acts on. */
  function LimitedIn(u: Setup, t: Tape, n: nat): nat
    requires u.design.Valid()
  {
    if n == 0 then 0 else LimitedIn(u, t, n - 1) + if IsLimited(u, TapeAfter(u, t, n - 1)) then 1 else 0
  }

  function TapeAfter(u: Setup, t: Tape, n: nat): Tape {
    if n == 0 then t else NextTape(u, TapeAfter(u, t, n - 1))
  }

  /** The bytes of the next `n` frames. */
  function Rendered(u: Setup, t: Tape, n: nat): (r: seq<Byte>)
    requires u.design.Valid()
    ensures |r| == 4 * n
  {
    if n == 0 then [] else Rendered(u, t, n - 1) + FrameBytes16(FrameSent(u, TapeAfter(u, t, n - 1)))
  }

  /** All that has happened to the tape after `n` frames: the queued audio and then
      silence has gone through the signal path, a raw frame has been translated
      for each one taken, and the envelope has moved on to its end. */
  lemma {:induction false} TapeIs(u: Setup, t: Tape, n: nat, k: nat)
    requires k < n && t.position <= 480
    ensures var end := TapeAfter(u, t, n);
            && end.position == (if t.position + n <= 480 then t.position + n else 480)
            && (!u.settings.raw ==>
                  && |end.heard| == |t.heard| + n && t.heard <= end.heard
                  && end.heard[|t.heard| + k] ==
                       if k < |t.queue| then Processed(u.maths, u.settings, t.queue[k].i) else 0.0)
            && (u.settings.raw && n <= |t.queue| ==>
                  && end.heard == t.heard
                  && end.translated == t.translated + if u.settings.translate then n else 0)
  {
    hide Processed;
    TapeQueue(u, t, n - 1);
    if n > 1 {
      TapeIs(u, t, n - 1, if k < n - 1 then k else 0);
    } else {
      assert TapeAfter(u, t, 0) == t;
    }
  }

  /** Frame `k` of a rendering is the sent frame of the tape as it is then. */
  lemma {:induction false} RenderedAt(u: Setup, t: Tape, n: nat, k: nat)
    requires u.design.Valid() && k < n
    ensures Rendered(u, t, n)[4 * k..4 * k + 4] == FrameBytes16(FrameSent(u, TapeAfter(u, t, k)))
  {
    hide FrameBytes16, FrameSent, TapeAfter;
    if k < n - 1 {
      RenderedAt(u, t, n - 1, k);
      assert Rendered(u, t, n)[4 * k..4 * k + 4] == Rendered(u, t, n - 1)[4 * k..4 * k + 4];
    }
  }

  /** The queue is taken oldest first, one sample a frame. */
  lemma {:induction false} TapeQueue(u: Setup, t: Tape, n: nat)
    ensures TapeAfter(u, t, n).queue == if n < |t.queue| then t.queue[n..] else []
    ensures n > 0 && t.position == 0 ==> TapeAfter(u, t, n).position > 0
  {
    if n > 0 {
      TapeQueue(u, t, n - 1);
    }
  }

  /** Rendering in pieces is rendering in one go. */
  lemma {:induction false} RenderedInPieces(u: Setup, t: Tape, a: nat, b: nat)
    requires u.design.Valid()
    ensures TapeAfter(u, t, a + b) == TapeAfter(u, TapeAfter(u, t, a), b)
    ensures Rendered(u, t, a + b) == Rendered(u, t, a) + Rendered(u, TapeAfter(u, t, a), b)
  {
    hide NextTape, FrameSent, FrameBytes16;
    if b > 0 {
      RenderedInPieces(u, t, a, b - 1);
    }
  }

  /** In a graceful stop every frame from the one that empties the queue on is
      exactly zero, whatever the input, mode, gain and drive; so is the first
      frame after a start. */
  lemma {:induction false} SilentTail(u: Setup, t: Tape, n: nat)
    requires u.design.Valid() && IsHypot(u.maths.hypot) && u.settings.drive <= MAX_DRIVE
    ensures u.stopping ==> SilentFrom(Rendered(u, t, n), |t.queue| - 1, n)
    ensures t.position == 0 && n > 0 ==> IsSilent(Rendered(u, t, n), 0)
  {
    hide NextTape, FrameBytes16, Sent, IsSilent, FrameSignal, Fade, IsHypot;
    if n > 0 {
      SilentTail(u, t, n - 1);
      var before := TapeAfter(u, t, n - 1);
      TapeQueue(u, t, n);
      TapeQueue(u, t, n - 1);
      FadedOutIsZero(u.design, u.maths, u.settings.drive, FrameSignal(u, before));
      SilenceAppended(Rendered(u, t, n - 1), n - 1, FrameSent(u, before));
    }
  }

  /** The real microphone samples as the slots of the shared ring. */
  ghost function Lift(xs: seq<real>): (r: seq<Complex>)
    ensures |r| == |xs|
  {
    seq(|xs|, k requires 0 <= k < |xs| => Complex(xs[k], 0.0))
  }

  class AudioStream {
    const maths: Maths
    const dsp: Modulator
    const microphone: array<real>
    const networkIq: array<Complex>
    var settings: Settings
    var readIndex: nat
    var writeIndex: nat
    var count: nat
    var fadePosition: nat
    var stopping: bool
    var rawPhase: real
    var books: Books
    /** Frames thrown away by resets, and raw frames translated. */
    ghost var forgotten: nat
    ghost var translated: nat

    ghost predicate Shape()
      reads this`readIndex, this`writeIndex, this`count
    {
      && microphone.Length == networkIq.Length == CAPACITY
      && microphone != dsp.audioHistory && microphone != dsp.filteredHistory
      && readIndex < CAPACITY && count <= CAPACITY && writeIndex == Wrap(readIndex + count, CAPACITY)
    }

    /** Every microphone frame was dropped, sent, is queued or was reset away;
        nothing has ever been clipped. */
    ghost predicate Accounted()
      reads this
    {
      && books.underruns <= books.output
      && books.microphone == books.dropped + (books.output - books.underruns) + count + forgotten
      && books.clipped == 0
      && count <= books.peakQueued + forgotten
    }

    ghost predicate Valid()
      reads this, dsp, dsp.audioHistory, dsp.filteredHistory
    {
      Core() && Accounted()
    }

    ghost predicate Core()
      reads this, dsp, dsp.audioHistory, dsp.filteredHistory
    {
      && Shape() && dsp.Valid() && dsp.design.Valid() && IsHypot(maths.hypot)
      && settings.drive <= MAX_DRIVE
      && rawPhase == CarrierPhase(dsp.design, translated)
    }

    /** The queue, oldest first. */
    ghost function Queue(): (r: seq<Complex>)
      requires Shape()
      reads this`readIndex, this`writeIndex, this`count, this`settings, microphone, networkIq
      ensures |r| == count
    {
      Stored(Slots(), readIndex, count)
    }

    ghost function Slots(): (r: seq<Complex>)
      requires microphone.Length == networkIq.Length
      reads this`settings, microphone, networkIq
      ensures |r| == microphone.Length
    {
      if settings.raw then networkIq[..] else Lift(microphone[..])
    }

    constructor (design: Design, maths: Maths)
      requires design.Valid() && IsHypot(maths.hypot)
      ensures Valid() && Queue() == [] && this.maths == maths && dsp.design == design
      ensures fresh(dsp) && fresh(dsp.audioHistory) && fresh(dsp.filteredHistory)
      ensures fresh(microphone) && fresh(networkIq)
    {
      this.maths := maths;
      dsp := new Modulator(design, TxMode.Usb);
      microphone := new real[CAPACITY](_ => 0.0);
      networkIq := new Complex[CAPACITY](_ => Complex(0.0, 0.0));
      settings := Settings(0, 0.0, false, false, false);
      readIndex, writeIndex, count, fadePosition, stopping, rawPhase := 0, 0, 0, 0, false, 0.0;
      books := Books(0, 0, 0, 0, 0, 0, 0);
      forgotten, translated := 0, 0;
    }

    /** Sets up for a transmission, or refuses bad settings and changes nothing. */
    method Init(mode: TxMode, drive: nat, gain: real) returns (ok: bool)
      requires Valid()
      modifies this, microphone, networkIq, dsp, dsp.audioHistory, dsp.filteredHistory
      ensures Valid()
      ensures ok <==> MIN_DRIVE <= drive <= MAX_DRIVE && gain > 0.0
      ensures ok ==>
                && settings == Settings(drive, gain, false, false, false) && dsp.mode == mode && dsp.input == []
                && Queue() == [] && books == Books(0, 0, 0, 0, 0, 0, 0)
                && forgotten == 0 && fadePosition == 0 && !stopping
      ensures !ok ==> unchanged(this) && unchanged(microphone) && unchanged(networkIq) && unchanged(dsp)
    {
      hide AudioStream.Valid, AudioStream.Queue;
      if drive < MIN_DRIVE || drive > MAX_DRIVE || gain <= 0.0 {
        return false;
      }
      Start(mode, Settings(drive, gain, false, false, false));
      ok := true;
    }

    method Start(mode: TxMode, s: Settings)
      requires Valid() && s.drive <= MAX_DRIVE
      modifies this, microphone, networkIq, dsp, dsp.audioHistory, dsp.filteredHistory
      ensures Valid() && settings == s && dsp.mode == mode && dsp.input == []
      ensures Queue() == [] && books == Books(0, 0, 0, 0, 0, 0, 0)
      ensures forgotten == 0 && fadePosition == 0 && !stopping
    {
      hide AudioStream.Valid, AudioStream.Queue;
      InitPath(mode);
      Wipe();
      Restart(s);
    }

    method InitPath(mode: TxMode)
      requires Valid()
      modifies dsp, dsp.audioHistory, dsp.filteredHistory
      ensures Valid() && dsp.mode == mode && dsp.input == []
    {
      hide Modulator.Valid, Design.Valid, CarrierPhase, IsHypot, Wrap;
      dsp.Init(mode);
    }

    method Restart(s: Settings)
      requires Valid() && s.drive <= MAX_DRIVE
      modifies this
      ensures Valid() && settings == s && Queue() == [] && books == Books(0, 0, 0, 0, 0, 0, 0)
      ensures forgotten == 0 && fadePosition == 0 && !stopping
    {
      hide AudioStream.Valid, AudioStream.Queue;
      EmptyQueue();
      RestartPhase(s);
    }

    method EmptyQueue()
      requires Valid()
      modifies this`readIndex, this`writeIndex, this`count, this`books, this`forgotten
      ensures Valid() && count == 0 && books == Books(0, 0, 0, 0, 0, 0, 0) && forgotten == 0
    {
      hide Modulator.Valid, Design.Valid, CarrierPhase, IsHypot;
      readIndex, writeIndex, count := 0, 0, 0;
      books := Books(0, 0, 0, 0, 0, 0, 0);
      forgotten := 0;
    }

    method RestartPhase(s: Settings)
      requires Valid() && s.drive <= MAX_DRIVE && count == 0
      modifies this`settings, this`fadePosition, this`stopping, this`rawPhase, this`translated
      ensures Valid() && settings == s && Queue() == []
      ensures fadePosition == 0 && !stopping && translated == 0
    {
      hide Modulator.Valid, Design.Valid, CarrierPhase, IsHypot, Wrap, Stored, AudioStream.Slots;
      settings := s;
      fadePosition, stopping, rawPhase, translated := 0, false, 0.0, 0;
      PhaseStart(dsp.design);
    }

    method Wipe()
      requires Valid()
      modifies microphone, networkIq
      ensures Valid()
      ensures forall k :: 0 <= k < CAPACITY ==> microphone[k] == 0.0 && networkIq[k] == Complex(0.0, 0.0)
    {
      forall k | 0 <= k < CAPACITY {
        microphone[k] := 0.0;
      }
      forall k | 0 <= k < CAPACITY {
        networkIq[k] := Complex(0.0, 0.0);
      }
    }

    /** Empties the queue and starts the signal path over; the counters stay. */
    method Reset(mode: TxMode)
      requires Valid()
      modifies this`readIndex, this`writeIndex, this`count, this`fadePosition, this`stopping, this`forgotten
      modifies dsp, dsp.audioHistory, dsp.filteredHistory
      ensures Valid() && Queue() == [] && dsp.mode == mode && dsp.input == []
      ensures forgotten == old(forgotten) + old(count) && fadePosition == 0 && !stopping
    {
      hide Modulator.Valid, CarrierPhase, Stored, Lift;
      forgotten := forgotten + count;
      readIndex, writeIndex, count, fadePosition, stopping := 0, 0, 0, 0, false;
      dsp.Init(mode);
    }

    method SetCompressor(enabled: bool)
      requires Valid()
      modifies this`settings
      ensures Valid() && settings == old(settings).(compressor := enabled) && Queue() == old(Queue())
    {
      settings := settings.(compressor := enabled);
    }

    /** Chooses between microphone audio and raw samples, before anything is queued. */
    method SetRaw(enabled: bool)
      requires Valid()
      modifies this`settings
      ensures Valid() && settings == old(settings).(raw := enabled)
      ensures count == 0 ==> Queue() == []
    {
      settings := settings.(raw := enabled);
    }

    method SetTranslation(enabled: bool)
      requires Valid()
      modifies this`settings, this`rawPhase, this`translated
      ensures Valid() && settings == old(settings).(translate := enabled) && translated == 0
      ensures Queue() == old(Queue())
    {
      hide Modulator.Valid, CarrierPhase, Stored, Lift, IsHypot;
      PhaseStart(dsp.design);
      settings, rawPhase, translated := settings.(translate := enabled), 0.0, 0;
    }

    /** Queues one sample, or counts it as dropped. */
    method Enqueue(sample: real, q: real) returns (queued: bool)
      requires Shape() && books.underruns <= books.output && books.clipped == 0
      modifies this`writeIndex, this`count, this`books, microphone, networkIq
      ensures Shape()
      ensures queued <==> old(count) < CAPACITY
      ensures Queue() == old(Queue()) + if queued then [Complex(sample, if settings.raw then q else 0.0)] else []
      ensures var dropped := if queued then 0 else 1;
              && books == old(books).(dropped := old(books).dropped + dropped, peakQueued := books.peakQueued)
              && books.peakQueued == if queued && count > old(books).peakQueued then count else old(books).peakQueued
    {
      hide Stored, Wrap;
      if count == CAPACITY {
        books := books.(dropped := books.dropped + 1);
        return false;
      }
      var value := Complex(sample, if settings.raw then q else 0.0);
      StoreNext(Slots(), readIndex, count, value);
      if settings.raw {
        networkIq[writeIndex] := value;
      } else {
        microphone[writeIndex] := sample;
      }
      assert Slots() == old(Slots())[writeIndex := value];
      WrapNext(readIndex, count);
      writeIndex, count := Wrap(writeIndex + 1, CAPACITY), count + 1;
      if count > books.peakQueued {
        books := books.(peakQueued := count);
      }
      queued := true;
    }

    /** Network audio: what fits is queued in order, the rest counted as dropped. */
    method PushPcm16(input: seq<Byte>) returns (accepted: nat)
      requires Valid()
      modifies this`writeIndex, this`count, this`books, microphone, networkIq
      ensures Valid()
      ensures settings.raw || stopping ==>
                accepted == 0 && Queue() == old(Queue()) && books == old(books)
      ensures !settings.raw && !stopping ==>
                Received(old(Queue()), old(books), PcmFrames(input), Queue(), books, accepted)
    {
      hide PcmFrames;
      if settings.raw || stopping {
        return 0;
      }
      accepted := EnqueueAll(PcmFrames(input));
    }

    /** Microphone samples from the radio, or raw samples from the network. */
    method PushIq16(input: seq<Byte>) returns (accepted: nat)
      requires Valid()
      modifies this`writeIndex, this`count, this`books, microphone, networkIq
      ensures Valid()
      ensures stopping ==> accepted == 0 && Queue() == old(Queue()) && books == old(books)
      ensures !stopping ==>
                Received(old(Queue()), old(books), IqFrames(input, settings.raw), Queue(), books, accepted)
    {
      hide IqFrames;
      if stopping {
        return 0;
      }
      accepted := EnqueueAll(IqFrames(input, settings.raw));
    }

    /** The loop both pushes share. */
    method EnqueueAll(frames: seq<Complex>) returns (accepted: nat)
      requires Valid() && (settings.raw || forall f <- frames :: f.q == 0.0)
      modifies this`writeIndex, this`count, this`books, microphone, networkIq
      ensures Valid()
      ensures Received(old(Queue()), old(books), frames, Queue(), books, accepted)
    {
      hide Stored, Lift, Wrap, AudioStream.Slots, Modulator.Valid, Design.Valid, CarrierPhase, IsHypot;
      accepted := 0;
      for f := 0 to |frames|
        invariant Shape() && books.underruns <= books.output && books.clipped == 0
        invariant accepted == if f <= CAPACITY - old(count) then f else CAPACITY - old(count)
        invariant Queue() == old(Queue()) + frames[..accepted]
        invariant books == old(books).(dropped := old(books).dropped + f - accepted, peakQueued := books.peakQueued)
        invariant count <= books.peakQueued + forgotten
      {
        var queued := Enqueue(frames[f].i, frames[f].q);
        if queued {
          assert frames[..accepted + 1] == frames[..accepted] + [frames[f]];
          accepted := accepted + 1;
        }
      }
      books := books.(microphone := books.microphone + |frames|);
    }

    /** Sets up a transmission with its prebuffered samples. It is ready exactly
        when the settings are good and a prebuffer, if there is one, holds a frame. */
    method Prepare(
      mode: TxMode, drive: nat, gain: real, compressor: bool, raw: bool, translate: bool, prebuffer: seq<Byte>)
      returns (ready: bool)
      requires Valid()
      modifies this, microphone, networkIq, dsp, dsp.audioHistory, dsp.filteredHistory
      ensures Valid()
      ensures var frames := if raw then IqFrames(prebuffer, true) else PcmFrames(prebuffer);
              && (ready <==>
                    MIN_DRIVE <= drive <= MAX_DRIVE && gain > 0.0 && (prebuffer == [] || frames != []))
              && (ready ==>
                    && settings == Settings(drive, gain, compressor, raw, translate) && dsp.mode == mode
                    && dsp.input == [] && fadePosition == 0 && !stopping && translated == 0
                    && Queue() == frames[..if |frames| <= CAPACITY then |frames| else CAPACITY])
    {
      hide AudioStream.Valid, AudioStream.Queue, PcmFrames, IqFrames;
      ready := Init(mode, drive, gain);
      if !ready {
        return;
      }
      SetCompressor(compressor);
      SetRaw(raw);
      SetTranslation(translate);
      if prebuffer != [] {
        var accepted;
        if raw {
          accepted := PushIq16(prebuffer);
        } else {
          accepted := PushPcm16(prebuffer);
        }
        ready := accepted != 0;
      }
    }

    /** Only audio drains gracefully; raw samples are cut off. */
    method BeginGracefulStop()
      requires Valid()
      modifies this`stopping
      ensures Valid() && stopping == (old(stopping) || !settings.raw)
    {
      if !settings.raw {
        stopping := true;
      }
    }

    ghost function Conditions(): Setup
      reads this, dsp
    {
      Setup(dsp.design, maths, dsp.mode, settings, stopping)
    }

    ghost function Remaining(): Tape
      requires Shape()
      reads this, dsp, microphone, networkIq
    {
      Tape(Queue(), dsp.input, translated, fadePosition)
    }

    /** The signal of one frame, taken off the queue and put through the signal path. */
    method NextSample() returns (iq: Complex)
      requires Core()
      modifies this`readIndex, this`count, this`rawPhase, this`translated, this`books
      modifies dsp, dsp.audioHistory, dsp.filteredHistory
      ensures Core() && Conditions() == old(Conditions())
      ensures Remaining() == NextTape(Conditions(), old(Remaining())).(position := fadePosition)
      ensures iq == FrameSignal(Conditions(), old(Remaining()))
      ensures books == old(books).(underruns := old(books).underruns + if old(count) == 0 then 1 else 0)
    {
      hide Modulator.Valid, Design.Valid, CarrierPhase, Stored, Processed, Modulated, IsHypot, Translated;
      hide Fade, Wrap, AudioStream.Slots, Convolve, TxDsp.Audio;
      if count == 0 {
        books := books.(underruns := books.underruns + 1);
        iq := dsp.Process(0.0);
        assert Queue() == old(Queue()) == [];
        return;
      }
      var frame := TakeFrame();
      if settings.raw {
        iq := frame;
        if settings.translate {
          iq := Translate(iq);
        }
      } else {
        iq := dsp.Process(Processed(maths, settings, frame.i));
      }
    }

    /** Takes the oldest frame off the queue; an audio frame has no imaginary part. */
    method TakeFrame() returns (frame: Complex)
      requires Shape() && count > 0
      modifies this`readIndex, this`count
      ensures Shape() && count == old(count) - 1
      ensures frame == old(Queue())[0] && Queue() == old(Queue())[1..]
    {
      hide Stored, Wrap;
      OldestSlot(Slots(), readIndex, count);
      frame := if settings.raw then networkIq[readIndex] else Complex(microphone[readIndex], 0.0);
      readIndex, count := Wrap(readIndex + 1, CAPACITY), count - 1;
    }

    method Translate(x: Complex) returns (iq: Complex)
      requires dsp.design.Valid() && rawPhase == CarrierPhase(dsp.design, translated)
      modifies this`rawPhase, this`translated
      ensures rawPhase == CarrierPhase(dsp.design, translated) && translated == old(translated) + 1
      ensures iq == Translated(dsp.design, x, CarrierPhase(dsp.design, old(translated)))
    {
      hide CarrierPhase;
      iq := Translated(dsp.design, x, rawPhase);
      CarrierNext(dsp.design, translated);
      var turn := 2.0 * dsp.design.pi;
      rawPhase := rawPhase + turn * AM_IF_HZ as real / TxDsp.SAMPLE_RATE as real;
      if rawPhase >= turn {
        rawPhase := rawPhase - turn;
      }
      translated := translated + 1;
    }

    /** One frame's signal enveloped, limited and rounded; never clipped. */
    method Finish(sample: Complex, fade: real) returns (i: int, q: int)
      requires IsHypot(maths.hypot) && settings.drive <= MAX_DRIVE
      modifies this`books
      ensures (i, q) == Sent(dsp.design, maths, settings.drive, sample, fade)
      ensures fade == 0.0 ==> i == q == 0
      ensures books == old(books).(limited := old(books).limited +
                if TooLong(maths, Shaped(sample, settings.drive, fade), DriveLimit(settings.drive)) then 1 else 0)
    {
      hide Limited, ClampI16, TooLong, DriveLimit, IsHypot, Shaped;
      var limit := DriveLimit(settings.drive);
      var scaled := Shaped(sample, settings.drive, fade);
      if TooLong(maths, scaled, limit) {
        books := books.(limited := books.limited + 1);
      }
      var output := Limited(maths, scaled, limit);
      var (sampleI, clippedI) := ClampI16(output.i);
      var (sampleQ, clippedQ) := ClampI16(output.q);
      books := books.(clipped := books.clipped + if clippedI || clippedQ then 1 else 0);
      i, q := sampleI, sampleQ;
      SentWithin(dsp.design, maths, settings.drive, sample, fade);
      FadedOutIsZero(dsp.design, maths, settings.drive, sample);
    }

    /** One output frame: what the tape says, never clipped. */
    method RenderFrame() returns (i: int, q: int)
      requires Core()
      modifies this`readIndex, this`count, this`rawPhase, this`translated, this`books, this`fadePosition
      modifies dsp, dsp.audioHistory, dsp.filteredHistory
      ensures Core() && Conditions() == old(Conditions())
      ensures Remaining() == NextTape(Conditions(), old(Remaining()))
      ensures (i, q) == FrameSent(Conditions(), old(Remaining()))
      ensures books == old(books).(
                underruns := old(books).underruns + (if old(count) == 0 then 1 else 0),
                limited := old(books).limited + if IsLimited(Conditions(), old(Remaining())) then 1 else 0)
    {
      hide Fade, Sent, IsHypot, CarrierPhase, Modulator.Valid, Stored, Lift, TooLong, FrameSignal;
      var sample := NextSample();
      var fade := Fade(dsp.design, fadePosition, stopping, count);
      if fadePosition < ENVELOPE_FRAMES {
        fadePosition := fadePosition + 1;
      }
      i, q := Finish(sample, fade);
    }

    /** A run of frames: the bytes of the tape, which moves on with them; every
        frame is counted, and counted as an underrun when the queue was empty. */
    method Render(frames: nat) returns (output: seq<Byte>)
      requires Valid()
      modifies this`readIndex, this`count, this`rawPhase, this`translated, this`books, this`fadePosition
      modifies dsp, dsp.audioHistory, dsp.filteredHistory
      ensures Valid() && Conditions() == old(Conditions())
      ensures output == Rendered(Conditions(), old(Remaining()), frames)
      ensures Remaining() == TapeAfter(Conditions(), old(Remaining()), frames)
      ensures books == old(books).(
                output := old(books).output + frames, underruns := books.underruns,
                limited := old(books).limited + LimitedIn(Conditions(), old(Remaining()), frames))
      ensures count == if frames < old(count) then old(count) - frames else 0
      ensures books.underruns == old(books).underruns + if frames < old(count) then 0 else frames - old(count)
      ensures stopping ==> SilentFrom(output, old(count) - 1, frames)
    {
      hide FrameSent, NextTape, IsLimited, Stored, Lift, IsHypot, CarrierPhase, Modulator.Valid, FrameBytes16, IsSilent;
      output := [];
      ghost var start := Remaining();
      for f := 0 to frames
        invariant Core() && Conditions() == old(Conditions())
        invariant output == Rendered(Conditions(), start, f) && Remaining() == TapeAfter(Conditions(), start, f)
        invariant books == old(books).(
                    underruns := books.underruns,
                    limited := old(books).limited + LimitedIn(Conditions(), start, f))
        invariant books.underruns == old(books).underruns + if f < old(count) then 0 else f - old(count)
      {
        TapeQueue(Conditions(), start, f);
        var i, q := RenderFrame();
        output := output + FrameBytes16((i, q));
      }
      TapeQueue(Conditions(), start, frames);
      SilentTail(Conditions(), start, frames);
      books := books.(output := books.output + frames);
    }
  }

  /** Every frame from `from` to the end of `count` frames is silent. */
  ghost predicate SilentFrom(output: seq<Byte>, from: int, count: nat) {
    forall g :: 0 <= g < count && from <= g ==> IsSilent(output, g)
  }

  lemma SilenceAppended(output: seq<Byte>, f: nat, v: (int, int))
    requires |output| == 4 * f && IsI16(v.0) && IsI16(v.1)
    ensures var longer := output + FrameBytes16(v);
            && (forall g: nat :: IsSilent(output, g) ==> IsSilent(longer, g))
            && (v == (0, 0) ==> IsSilent(longer, f))
  {
    var longer := output + FrameBytes16(v);
    assert longer[4 * f..4 * f + 4] == FrameBytes16(v);
    forall g: nat | IsSilent(output, g)
      ensures IsSilent(longer, g)
    {
      assert longer[4 * g..4 * g + 4] == output[4 * g..4 * g + 4];
    }
  }

  /** Frame `f` of a buffer is four zero bytes. */
  ghost predicate IsSilent(output: seq<Byte>, f: nat) {
    4 * f + 4 <= |output| && output[4 * f..4 * f + 4] == [0, 0, 0, 0]
  }

  lemma OldestSlot(slots: seq<Complex>, start: nat, count: nat)
    requires |slots| == CAPACITY && start < CAPACITY && 0 < count <= CAPACITY
    ensures Stored(slots, start, count)[0] == slots[start]
    ensures Stored(slots, Wrap(start + 1, CAPACITY), count - 1) == Stored(slots, start, count)[1..]
    ensures Wrap(Wrap(start + 1, CAPACITY) + (count - 1), CAPACITY) == Wrap(start + count, CAPACITY)
  {
    assert Wrap(start + 0, CAPACITY) == start;
    TakeFirst(slots, start, count, 1);
  }
}
