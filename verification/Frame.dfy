/** The F15I sample frame: a 20-byte header and eight bytes per complex sample
    (src/network.c, client/src/iq_stream.cpp).

    A sample is the pair of 32-bit patterns of its two floats, so that equality
    here is bit-for-bit equality. */
module Frame {
  type Byte = b: int | 0 <= b < 0x100
  type Word = w: int | 0 <= w < 0x1_0000_0000

  datatype Sample = Sample(i: Word, q: Word)

  const HEADER_SIZE: nat := 20
  const SAMPLE_RATE: Word := 48_000

  function Be16(v: int): (r: seq<Byte>)
    requires 0 <= v < 0x1_0000
    ensures |r| == 2
  {
    [v / 0x100, v % 0x100]
  }

  function Be32(v: Word): (r: seq<Byte>)
    ensures |r| == 4
  {
    [v / 0x100_0000, v / 0x1_0000 % 0x100, v / 0x100 % 0x100, v % 0x100]
  }

  function Le32(v: Word): (r: seq<Byte>)
    ensures |r| == 4
  {
    [v % 0x100, v / 0x100 % 0x100, v / 0x1_0000 % 0x100, v / 0x100_0000]
  }

  function LoadBe32(b: seq<Byte>): Word
    requires |b| == 4
  {
    b[0] as int * 0x100_0000 + b[1] as int * 0x1_0000 + b[2] as int * 0x100 + b[3] as int
  }

  function LoadLe32(b: seq<Byte>): Word
    requires |b| == 4
  {
    b[0] as int + b[1] as int * 0x100 + b[2] as int * 0x1_0000 + b[3] as int * 0x100_0000
  }

  lemma LoadStore(v: Word)
    ensures LoadBe32(Be32(v)) == v && LoadLe32(Le32(v)) == v
  {
    assert v / 0x1_0000 == v / 0x100 / 0x100;
    assert v / 0x100_0000 == v / 0x1_0000 / 0x100;
  }

  /** The number a run of bytes stands for, the first byte counting least. */
  function Digits(b: seq<Byte>): nat {
    if b == [] then 0 else b[0] + 256 * Digits(b[1..])
  }

  function Reversed(b: seq<Byte>): seq<Byte> {
    if b == [] then [] else Reversed(b[1..]) + [b[0]]
  }

  /** Little-endian is least significant first, big-endian the same in reverse. */
  lemma BytesOrder(v: Word)
    ensures Digits(Le32(v)) == v && Reversed(Be32(v)) == Le32(v)
  {
    LoadStore(v);
    var b := Le32(v);
    FourBytes(b[0], b[1], b[2], b[3]);
    FourBytes(b[3], b[2], b[1], b[0]);
    assert Be32(v) == [b[3], b[2], b[1], b[0]];
  }

  lemma FourBytes(a: Byte, b: Byte, c: Byte, d: Byte)
    ensures Digits([a, b, c, d]) == a + 0x100 * b + 0x1_0000 * c + 0x100_0000 * d
    ensures Reversed([a, b, c, d]) == [d, c, b, a]
  {
    assert [a, b, c, d][1..] == [b, c, d] && [b, c, d][1..] == [c, d] && [c, d][1..] == [d] && [d][1..] == [];
    assert Digits([d]) == d && Digits([c, d]) == c + 0x100 * d;
    assert Reversed([d]) == [d] && Reversed([c, d]) == [d, c] && Reversed([b, c, d]) == [d, c, b];
  }

  function Magic(): seq<Byte> {
    [0x46, 0x31, 0x35, 0x49] + [1, 1] + Be16(HEADER_SIZE)
  }

  function Header(sequence: Word, count: Word): (r: seq<Byte>)
    ensures |r| == HEADER_SIZE
  {
    Magic() + Be32(sequence) + Be32(SAMPLE_RATE) + Be32(count)
  }

  function SampleBytes(s: Sample): (r: seq<Byte>)
    ensures |r| == 8
  {
    Le32(s.i) + Le32(s.q)
  }

  function LoadSample(b: seq<Byte>): Sample
    requires |b| == 8
  {
    Sample(LoadLe32(b[..4]), LoadLe32(b[4..]))
  }

  function Payload(samples: seq<Sample>): (r: seq<Byte>)
    ensures |r| == 8 * |samples|
  {
    if samples == [] then []
    else Payload(samples[..|samples| - 1]) + SampleBytes(samples[|samples| - 1])
  }

  function FrameBytes(sequence: Word, samples: seq<Sample>): (r: seq<Byte>)
    requires |samples| < 0x1_0000_0000
    ensures |r| == HEADER_SIZE + 8 * |samples|
  {
    Header(sequence, |samples|) + Payload(samples)
  }

  lemma {:induction false} PayloadAt(samples: seq<Sample>, k: nat)
    requires k < |samples|
    ensures Payload(samples)[8 * k..8 * k + 8] == SampleBytes(samples[k])
  {
    var n := |samples| - 1;
    if k < n {
      PayloadAt(samples[..n], k);
      assert Payload(samples)[8 * k..8 * k + 8] == Payload(samples[..n])[8 * k..8 * k + 8];
    }
  }

  lemma LoadSampleBytes(s: Sample)
    ensures LoadSample(SampleBytes(s)) == s
  {
    assert SampleBytes(s)[..4] == Le32(s.i) && SampleBytes(s)[4..] == Le32(s.q);
    LoadStore(s.i);
    LoadStore(s.q);
  }

  /** The first `count` samples of a payload. */
  function LoadSamples(b: seq<Byte>, count: nat): (r: seq<Sample>)
    requires |b| >= 8 * count
    ensures |r| == count
  {
    seq(count, k requires 0 <= k < count => LoadSample(b[8 * k..8 * k + 8]))
  }

  /** The layout of a frame: eight bytes a sample after the header, I then Q. */
  lemma FrameLayout(sequence: Word, samples: seq<Sample>, k: nat)
    requires |samples| < 0x1_0000_0000 && k < |samples|
    ensures var b := FrameBytes(sequence, samples);
            b[20 + 8 * k..24 + 8 * k] == Le32(samples[k].i) && b[24 + 8 * k..28 + 8 * k] == Le32(samples[k].q)
    ensures FrameBytes(sequence, samples)[..8] == [0x46, 0x31, 0x35, 0x49, 1, 1, 0, 20]
    ensures FrameBytes(sequence, samples)[8..20] == Be32(sequence) + Be32(48_000) + Be32(|samples|)
  {
    hide Payload, Le32, Be32;
    PayloadAt(samples, k);
    var b := FrameBytes(sequence, samples);
    assert b[20 + 8 * k..28 + 8 * k] == Payload(samples)[8 * k..8 * k + 8];
    assert b[20 + 8 * k..24 + 8 * k] == b[20 + 8 * k..28 + 8 * k][..4];
    assert b[24 + 8 * k..28 + 8 * k] == b[20 + 8 * k..28 + 8 * k][4..];
    MagicIs();
  }

  lemma MagicIs()
    ensures Magic() == [0x46, 0x31, 0x35, 0x49, 1, 1, 0, 20]
  {
  }

  lemma PayloadSampleAt(samples: seq<Sample>, rest: seq<Byte>, k: nat)
    requires k < |samples|
    ensures 8 * k + 8 <= |Payload(samples) + rest|
    ensures LoadSample((Payload(samples) + rest)[8 * k..8 * k + 8]) == samples[k]
  {
    hide Payload, SampleBytes, LoadSample;
    PayloadAt(samples, k);
    LoadSampleBytes(samples[k]);
    assert (Payload(samples) + rest)[8 * k..8 * k + 8] == Payload(samples)[8 * k..8 * k + 8];
  }

  lemma PayloadRoundTrip(samples: seq<Sample>, rest: seq<Byte>)
    ensures LoadSamples(Payload(samples) + rest, |samples|) == samples
  {
    hide Payload, LoadSample;
    var loaded := LoadSamples(Payload(samples) + rest, |samples|);
    forall k | 0 <= k < |samples|
      ensures loaded[k] == samples[k]
    {
      PayloadSampleAt(samples, rest, k);
    }
  }

  /** The fields of a header where the decoders look for them. */
  lemma HeaderFields(sequence: Word, count: Word, rest: seq<Byte>)
    ensures var b := Header(sequence, count) + rest;
            && b[..8] == Magic()
            && LoadBe32(b[8..12]) == sequence
            && LoadBe32(b[12..16]) == SAMPLE_RATE
            && LoadBe32(b[16..20]) == count
  {
    var b := Header(sequence, count) + rest;
    assert b[8..12] == Be32(sequence);
    assert b[12..16] == Be32(SAMPLE_RATE);
    assert b[16..20] == Be32(count);
    LoadStore(sequence);
    LoadStore(SAMPLE_RATE);
    LoadStore(count);
  }

  lemma PayloadNext(samples: seq<Sample>, k: nat)
    requires k < |samples|
    ensures Payload(samples[..k + 1]) == Payload(samples[..k]) + SampleBytes(samples[k])
  {
    assert samples[..k + 1][..k] == samples[..k];
  }

  lemma NoPayload()
    ensures Payload([]) == []
  {
  }

  method StoreBytes(output: array<Byte>, at: nat, bytes: seq<Byte>)
    requires at + |bytes| <= output.Length
    modifies output
    ensures output[..at] == old(output[..at])
    ensures output[at..at + |bytes|] == bytes
    ensures output[at + |bytes|..] == old(output[at + |bytes|..])
  {
    for k := 0 to |bytes|
      invariant output[..at] == old(output[..at])
      invariant forall j :: 0 <= j < k ==> output[at + j] == bytes[j]
      invariant output[at + k..] == old(output[at + k..])
    {
      output[at + k] := bytes[k];
      assert output[at + k + 1..] == output[at + k..][1..];
    }
  }

  /** Writes a frame into a buffer, or nothing if it does not fit. */
  method EncodeIqFrame(sequence: Word, samples: seq<Sample>, output: array<Byte>) returns (length: nat)
    requires |samples| < 0x1_0000_0000
    modifies output
    ensures var needed := HEADER_SIZE + 8 * |samples|;
            if needed > output.Length then length == 0 && output[..] == old(output[..])
            else
              && length == needed && output[..length] == FrameBytes(sequence, samples)
              && output[length..] == old(output[length..])
  {
    hide Header, SampleBytes, Payload;
    var required := HEADER_SIZE + 8 * |samples|;
    if required > output.Length {
      return 0;
    }
    StoreBytes(output, 0, Header(sequence, |samples|));
    ghost var header := Header(sequence, |samples|);
    NoPayload();
    assert output[..HEADER_SIZE] == header + Payload(samples[..0]);
    for index := 0 to |samples|
      invariant output[..HEADER_SIZE + 8 * index] == header + Payload(samples[..index])
      invariant output[HEADER_SIZE + 8 * index..] == old(output[HEADER_SIZE + 8 * index..])
    {
      var at := HEADER_SIZE + 8 * index;
      ghost var tail := output[at..];
      StoreBytes(output, at, SampleBytes(samples[index]));
      PayloadNext(samples, index);
      assert output[..at + 8] == output[..at] + output[at..at + 8];
      assert output[at + 8..] == tail[8..];
    }
    assert samples[..|samples|] == samples;
    return required;
  }
}
