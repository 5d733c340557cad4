/** The client's F15I decoder over an arbitrarily chunked byte stream
    (client/src/iq_stream.cpp). */
module IqStream {
  import opened Frame

  const MAX_SAMPLES: nat := 65_536

  datatype Failure = Disconnected | InvalidFrame | Oversized | LostFrame

  datatype Outcome =
    | Failed(why: Failure)
    | Received(samples: seq<Sample>, sequence: Word, rest: seq<Byte>)

  /** What the caller of the decoder sees: the thrown error or the samples. */
  datatype Read = Thrown(why: Failure) | Samples(samples: seq<Sample>)

  function Reported(o: Outcome): Read {
    match o
    case Failed(why) => Thrown(why)
    case Received(samples, _, _) => Samples(samples)
  }

  /** What reading one frame yields when the connection still has exactly
      `bytes` to give: the first frame, or why there is none. */
  function Decode(bytes: seq<Byte>, expected: int): Outcome {
    if |bytes| < HEADER_SIZE then Failed(Disconnected)
    else if bytes[..8] != Magic() || LoadBe32(bytes[12..16]) != SAMPLE_RATE then Failed(InvalidFrame)
    else
      var sequence := LoadBe32(bytes[8..12]);
      var count := LoadBe32(bytes[16..20]);
      var length := HEADER_SIZE + 8 * count;
      if count > MAX_SAMPLES then Failed(Oversized)
      else if |bytes| < length then Failed(Disconnected)
      else if 0 <= expected && sequence != expected then Failed(LostFrame)
      else Received(LoadSamples(bytes[HEADER_SIZE..], count), sequence, bytes[length..])
  }

  /** Every frame that can be read before the first failure, and that failure. */
  function DecodeAll(bytes: seq<Byte>, expected: int): (seq<seq<Sample>>, Outcome)
    decreases |bytes|
  {
    var o := Decode(bytes, expected);
    if !o.Received? then ([], o)
    else
      var (more, end) := DecodeAll(o.rest, (o.sequence + 1) % 0x1_0000_0000);
      ([o.samples] + more, end)
  }

  function Flatten(chunks: seq<seq<Byte>>): seq<Byte> {
    if chunks == [] then [] else chunks[0] + Flatten(chunks[1..])
  }

  /** Frame number `n` of a publisher, counted from its first; the wire carries it modulo 2^32. */
  function Sequence(n: nat): Word {
    n % 0x1_0000_0000
  }

  /** The whole frames numbered from `from` up to but not including `to`. */
  function StreamBytes(frames: seq<seq<Sample>>, from: nat, to: nat): seq<Byte>
    requires from <= to <= |frames|
    requires forall f | f in frames :: |f| <= MAX_SAMPLES
  {
    if from == to then []
    else StreamBytes(frames, from, to - 1) + FrameBytes(Sequence(to - 1), frames[to - 1])
  }

  lemma {:induction false} StreamFromFront(frames: seq<seq<Sample>>, from: nat, to: nat)
    requires from < to <= |frames|
    requires forall f | f in frames :: |f| <= MAX_SAMPLES
    ensures StreamBytes(frames, from, to) ==
            FrameBytes(Sequence(from), frames[from]) + StreamBytes(frames, from + 1, to)
  {
    hide StreamBytes, FrameBytes, Sequence;
    StreamToBack(frames, from, to);
    if from + 1 < to {
      StreamFromFront(frames, from, to - 1);
      StreamToBack(frames, from + 1, to);
      Associates(FrameBytes(Sequence(from), frames[from]), StreamBytes(frames, from + 1, to - 1),
                 FrameBytes(Sequence(to - 1), frames[to - 1]));
    } else {
      StreamOfNone(frames, from);
      StreamOfNone(frames, to);
      assert [] + FrameBytes(Sequence(from), frames[from]) == FrameBytes(Sequence(from), frames[from]) + [];
    }
  }

  lemma StreamToBack(frames: seq<seq<Sample>>, from: nat, to: nat)
    requires from < to <= |frames|
    requires forall f | f in frames :: |f| <= MAX_SAMPLES
    ensures StreamBytes(frames, from, to) ==
            StreamBytes(frames, from, to - 1) + FrameBytes(Sequence(to - 1), frames[to - 1])
  {
  }

  lemma StreamOfNone(frames: seq<seq<Sample>>, at: nat)
    requires at <= |frames|
    requires forall f | f in frames :: |f| <= MAX_SAMPLES
    ensures StreamBytes(frames, at, at) == []
  {
  }

  lemma Associates(a: seq<Byte>, b: seq<Byte>, c: seq<Byte>)
    ensures a + b + c == a + (b + c)
  {
  }

  /** A frame at the front of the bytes is read back sample for sample. */
  lemma DecodeFrame(sequence: Word, samples: seq<Sample>, rest: seq<Byte>, expected: int)
    requires |samples| <= MAX_SAMPLES && (expected < 0 || expected == sequence)
    ensures Decode(FrameBytes(sequence, samples) + rest, expected) == Received(samples, sequence, rest)
  {
    hide Header, Payload, LoadSamples, LoadBe32;
    var bytes := FrameBytes(sequence, samples) + rest;
    var tail := Payload(samples) + rest;
    assert bytes == Header(sequence, |samples|) + tail;
    HeaderFields(sequence, |samples|, tail);
    assert bytes[HEADER_SIZE..] == tail;
    PayloadRoundTrip(samples, rest);
    assert bytes[HEADER_SIZE + 8 * |samples|..] == rest;
  }

  /** Why a whole header is refused: an oversized count whatever follows, a payload
      cut short, or another number than the one expected; anything else is read. */
  lemma DecodeVerdict(sequence: Word, count: Word, rest: seq<Byte>, expected: int)
    ensures var o := Decode(Header(sequence, count) + rest, expected);
            && (o == Failed(Oversized) <==> count > 65_536)
            && (o == Failed(Disconnected) <==> count <= 65_536 && |rest| < 8 * count)
            && (o == Failed(LostFrame) <==>
                  count <= 65_536 && |rest| >= 8 * count && expected >= 0 && sequence != expected)
            && (o.Received? ==> o.sequence == sequence && |o.samples| == count && o.rest == rest[8 * count..])
            && o != Failed(InvalidFrame)
  {
    hide Header, LoadSamples, LoadBe32;
    var bytes := Header(sequence, count) + rest;
    HeaderFields(sequence, count, rest);
    assert bytes[HEADER_SIZE..] == rest;
    assert |rest| >= 8 * count ==> bytes[HEADER_SIZE + 8 * count..] == rest[8 * count..];
  }

  /** Twenty bytes that do not start a frame of this kind are refused whatever they claim. */
  lemma ForeignIsInvalid(bytes: seq<Byte>, expected: int)
    requires |bytes| >= 20
    ensures bytes[..8] != [0x46, 0x31, 0x35, 0x49, 1, 1, 0, 20] || bytes[12..16] != Be32(48_000) <==>
              Decode(bytes, expected) == Failed(InvalidFrame)
  {
    hide LoadSamples;
    MagicIs();
    LoadStore(48_000);
  }

  /** A frame cut short is not read at all. */
  lemma DecodeCutFrame(sequence: Word, samples: seq<Sample>, cut: nat, expected: int)
    requires |samples| <= MAX_SAMPLES
    requires cut < HEADER_SIZE + 8 * |samples|
    ensures Decode(FrameBytes(sequence, samples)[..cut], expected) == Failed(Disconnected)
  {
    hide Payload, LoadSamples, LoadBe32, Header;
    var bytes := FrameBytes(sequence, samples)[..cut];
    if cut >= HEADER_SIZE {
      var tail := Payload(samples)[..cut - HEADER_SIZE];
      assert bytes == Header(sequence, |samples|) + tail;
      HeaderFields(sequence, |samples|, tail);
    }
  }

  /** The end of a stream: nothing, or a frame cut short. */
  ghost predicate CutFrame(frames: seq<seq<Sample>>, at: nat, tail: seq<Byte>)
    requires forall f | f in frames :: |f| <= MAX_SAMPLES
  {
    tail == [] || (at < |frames| && |tail| < HEADER_SIZE + 8 * |frames[at]| &&
                   tail == FrameBytes(Sequence(at), frames[at])[..|tail|])
  }

  lemma EndReadsBack(frames: seq<seq<Sample>>, at: nat, tail: seq<Byte>, expected: int)
    requires (forall f | f in frames :: |f| <= MAX_SAMPLES) && CutFrame(frames, at, tail)
    ensures DecodeAll(tail, expected) == ([], Failed(Disconnected))
  {
    hide Decode, FrameBytes, Sequence;
    if tail == [] {
      EmptyIsDisconnected(expected);
    } else {
      DecodeCutFrame(Sequence(at), frames[at], |tail|, expected);
    }
  }

  /** A whole frame in front adds its samples and moves the number on. */
  lemma FrameReadsBack(n: nat, samples: seq<Sample>, rest: seq<Byte>, expected: int)
    requires |samples| <= MAX_SAMPLES && (expected < 0 || expected == Sequence(n))
    ensures var (more, end) := DecodeAll(rest, Sequence(n + 1));
            DecodeAll(FrameBytes(Sequence(n), samples) + rest, expected) == ([samples] + more, end)
  {
    hide Decode, FrameBytes;
    DecodeFrame(Sequence(n), samples, rest, expected);
    assert (Sequence(n) as int + 1) % 0x1_0000_0000 == Sequence(n + 1);
  }

  /** Whole frames with consecutive numbers, then part of the next one: the
      decoder returns exactly those frames and then reports the end. */
  lemma {:induction false} StreamReadsBack(
    frames: seq<seq<Sample>>, from: nat, to: nat, tail: seq<Byte>, expected: int)
    requires from <= to <= |frames|
    requires forall f | f in frames :: |f| <= MAX_SAMPLES
    requires expected < 0 || expected == Sequence(from)
    requires CutFrame(frames, to, tail)
    ensures DecodeAll(StreamBytes(frames, from, to) + tail, expected) == (frames[from..to], Failed(Disconnected))
    decreases |frames| - from
  {
    hide DecodeAll, FrameBytes, Sequence, StreamBytes, CutFrame;
    if from == to {
      StreamOfNone(frames, from);
      assert [] + tail == tail;
      EndReadsBack(frames, to, tail, expected);
    } else {
      var (first, rest) := (FrameBytes(Sequence(from), frames[from]), StreamBytes(frames, from + 1, to));
      StreamFromFront(frames, from, to);
      Associates(first, rest, tail);
      FrameReadsBack(from, frames[from], rest + tail, expected);
      StreamReadsBack(frames, from + 1, to, tail, Sequence(from + 1));
      assert [frames[from]] + frames[from + 1..to] == frames[from..to];
    }
  }

  lemma EmptyIsDisconnected(expected: int)
    ensures Decode([], expected) == Failed(Disconnected)
  {
  }

  /** The decoder object. `incoming` is what the connection has yet to deliver,
      in the chunks it will deliver it in. */
  class Decoder {
    var pending: seq<Byte>
    var haveSequence: bool
    var expectedSequence: Word
    var incoming: seq<seq<Byte>>

    constructor (pending: seq<Byte>, incoming: seq<seq<Byte>>)
      ensures this.pending == pending && this.incoming == incoming && !haveSequence
    {
      this.pending, this.incoming := pending, incoming;
      haveSequence, expectedSequence := false, 0;
    }

    ghost function Undecoded(): seq<Byte>
      reads this
    {
      pending + Flatten(incoming)
    }

    function Expected(): int
      reads this
    {
      if haveSequence then expectedSequence else -1
    }

    /** Receives chunks until `bytes` are pending; fails if the connection ends first. */
    method ReceiveUntil(bytes: nat) returns (ok: bool)
      modifies this`pending, this`incoming
      ensures Undecoded() == old(Undecoded())
      ensures ok == (bytes <= |old(Undecoded())|)
      ensures ok ==> bytes <= |pending|
    {
      while |pending| < bytes
        invariant Undecoded() == old(Undecoded())
        decreases |incoming|
      {
        if incoming == [] {
          return false;
        }
        pending, incoming := pending + incoming[0], incoming[1..];
      }
      return true;
    }

    /** Reads one frame. The outcome depends on the bytes only, not on how they
        were chunked; only a received frame is consumed. */
    method ReadFrame() returns (r: Read)
      modifies this
      ensures var o := Decode(old(Undecoded()), old(Expected()));
              && r == Reported(o)
              && Undecoded() == (if o.Received? then o.rest else old(Undecoded()))
              && Expected() == (if o.Received? then (o.sequence + 1) % 0x1_0000_0000 else old(Expected()))
    {
      hide LoadBe32, Magic, LoadSamples;
      ghost var all := Undecoded();
      var ok := ReceiveUntil(HEADER_SIZE);
      if !ok {
        return Thrown(Disconnected);
      }
      SliceAgree(pending, all, HEADER_SIZE);
      if pending[..8] != Magic() || LoadBe32(pending[12..16]) != SAMPLE_RATE {
        return Thrown(InvalidFrame);
      }
      var sequence := LoadBe32(pending[8..12]);
      var count := LoadBe32(pending[16..20]);
      if count > MAX_SAMPLES {
        return Thrown(Oversized);
      }
      var bytes := HEADER_SIZE + 8 * count;
      ok := ReceiveUntil(bytes);
      if !ok {
        return Thrown(Disconnected);
      }
      if haveSequence && sequence != expectedSequence {
        return Thrown(LostFrame);
      }
      expectedSequence, haveSequence := (sequence as int + 1) % 0x1_0000_0000, true;
      var samples := LoadSamples(pending[HEADER_SIZE..], count);
      LoadAgree(pending[HEADER_SIZE..], all[HEADER_SIZE..], count);
      pending := pending[bytes..];
      assert Undecoded() == all[bytes..];
      return Samples(samples);
    }

    /** Reads frames until the first failure. */
    method ReadAll() returns (frames: seq<seq<Sample>>, why: Failure)
      modifies this
      ensures DecodeAll(old(Undecoded()), old(Expected())) == (frames, Failed(why))
    {
      hide Decode, DecodeAll;
      frames := [];
      ghost var (all, end) := DecodeAll(Undecoded(), Expected());
      while true
        invariant var (rest, last) := DecodeAll(Undecoded(), Expected());
                  all == frames + rest && end == last
        decreases |Undecoded()|
      {
        DecodeNext(Undecoded(), Expected(), frames);
        var r := ReadFrame();
        if r.Thrown? {
          return frames, r.why;
        }
        frames := frames + [r.samples];
      }
    }
  }

  lemma RestIsShorter(bytes: seq<Byte>, expected: int)
    ensures var o := Decode(bytes, expected); o.Received? ==> |o.rest| < |bytes|
  {
  }

  /** What is left after one frame is shorter, and decodes on from there. */
  lemma DecodeNext(bytes: seq<Byte>, expected: int, frames: seq<seq<Sample>>)
    ensures var (o, all) := (Decode(bytes, expected), DecodeAll(bytes, expected));
            if o.Failed? then frames + all.0 == frames && all.1 == o
            else
              && |o.rest| < |bytes|
              && var more := DecodeAll(o.rest, (o.sequence + 1) % 0x1_0000_0000);
                 frames + all.0 == frames + [o.samples] + more.0 && all.1 == more.1
  {
    hide Decode;
    RestIsShorter(bytes, expected);
    var o := Decode(bytes, expected);
    if o.Received? {
      var (more, _) := DecodeAll(o.rest, (o.sequence + 1) % 0x1_0000_0000);
      assert frames + ([o.samples] + more) == frames + [o.samples] + more;
    }
  }

  lemma SliceAgree(short: seq<Byte>, long: seq<Byte>, n: nat)
    requires n == HEADER_SIZE && n <= |short| && short <= long
    ensures short[..8] == long[..8] && short[8..12] == long[8..12]
    ensures short[12..16] == long[12..16] && short[16..20] == long[16..20]
  {
  }

  lemma LoadAgree(short: seq<Byte>, long: seq<Byte>, count: nat)
    requires 8 * count <= |short| && short <= long
    ensures LoadSamples(short, count) == LoadSamples(long, count)
  {
    forall k | 0 <= k < count
      ensures LoadSamples(short, count)[k] == LoadSamples(long, count)[k]
    {
      assert short[8 * k..8 * k + 8] == long[8 * k..8 * k + 8];
    }
  }
}
