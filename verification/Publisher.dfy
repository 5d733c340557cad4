/** The frame publisher and its fan-out to HTTP clients (src/publisher.c,
    src/flex1500d.c). The socket of a client is the bytes it has accepted. */
module Publisher {
  import opened Fates
  import opened Frame
  import opened IqRing
  import opened IqStream

  const MAX_CLIENTS: nat := 4
  const FRAME_SAMPLES: nat := 256
  const BUFFER_SIZE: nat := HEADER_SIZE + FRAME_SAMPLES * 8

  datatype PublishResult = PublishOk | PublishEmpty | WouldBlock | ClientsGone | PublishError

  /** A client slot: how much of the current frame its socket has accepted, what
      it has accepted since it connected, and which frame it started with. */
  datatype Slot = Slot(connected: bool, offset: nat, received: seq<Byte>, since: nat)

  const FREE_SLOT := Slot(false, 0, [], 0)

  ghost predicate Encodable(frames: seq<seq<Sample>>) {
    forall f | f in frames :: 0 < |f| <= FRAME_SAMPLES
  }

  lemma NextSequence(n: nat)
    ensures Sequence(n + 1) == (Sequence(n) as int + 1) % 0x1_0000_0000
  {
  }

  lemma EncodableNext(frames: seq<seq<Sample>>, f: seq<Sample>)
    requires Encodable(frames) && 0 < |f| <= FRAME_SAMPLES
    ensures Encodable(frames + [f])
  {
  }

  /** A connected client has every whole frame since it joined and then the
      first `offset` bytes of the current one, nothing else. */
  ghost predicate Follows(s: Slot, frames: seq<seq<Sample>>, whole: nat, current: seq<Byte>)
    requires Encodable(frames) && whole <= |frames|
  {
    s.connected ==>
      && s.since <= whole && s.offset <= |current|
      && s.received == StreamBytes(frames, s.since, whole) + current[..s.offset]
  }

  lemma {:induction false} StreamIgnoresLater(frames: seq<seq<Sample>>, f: seq<Sample>, from: nat, to: nat)
    requires Encodable(frames) && 0 < |f| <= FRAME_SAMPLES && from <= to <= |frames|
    ensures Encodable(frames + [f])
    ensures StreamBytes(frames + [f], from, to) == StreamBytes(frames, from, to)
  {
    hide FrameBytes;
    if from < to {
      StreamIgnoresLater(frames, f, from, to - 1);
    }
  }

  /** The samples of a run of frames. */
  function Concat(frames: seq<seq<Sample>>): seq<Sample> {
    if frames == [] then [] else Concat(frames[..|frames| - 1]) + frames[|frames| - 1]
  }

  lemma ConcatNext(frames: seq<seq<Sample>>, f: seq<Sample>)
    ensures Concat(frames + [f]) == Concat(frames) + f
  {
    assert (frames + [f])[..|frames|] == frames;
  }

  lemma {:induction false} ConcatSplit(a: seq<seq<Sample>>, b: seq<seq<Sample>>)
    ensures Concat(a + b) == Concat(a) + Concat(b)
  {
    if b == [] {
      assert a + b == a;
    } else {
      var n := |b| - 1;
      hide Concat;
      ConcatSplit(a, b[..n]);
      ConcatNext(a + b[..n], b[n]);
      ConcatNext(b[..n], b[n]);
      Regroup(a, b[..n], [b[n]]);
      Regroup(Concat(a), Concat(b[..n]), b[n]);
      assert b == b[..n] + [b[n]];
    }
  }

  lemma Regroup<T>(a: seq<T>, b: seq<T>, c: seq<T>)
    ensures a + b + c == a + (b + c)
  {
  }

  /** A run of frames is one stretch of all the samples. */
  lemma ConcatStretch(frames: seq<seq<Sample>>, i: nat, j: nat)
    requires i <= j <= |frames|
    ensures var start := |Concat(frames[..i])|;
            var end := start + |Concat(frames[i..j])|;
            end <= |Concat(frames)| && Concat(frames[i..j]) == Concat(frames)[start..end]
  {
    ConcatSplit(frames[..i], frames[i..j]);
    ConcatSplit(frames[..j], frames[j..]);
    assert frames[..i] + frames[i..j] == frames[..j] && frames[..j] + frames[j..] == frames;
  }

  /** What was encoded since, and what is still queued, is what was queued before. */
  lemma Uncovered(
    encoded: seq<Sample>, later: seq<Sample>, queue: seq<Sample>, accepted: seq<Sample>, from: nat)
    requires from <= |accepted| && encoded + later + queue == encoded + accepted[from..]
    ensures from + |later| <= |accepted|
    ensures later == accepted[from..from + |later|] && queue == accepted[from + |later|..]
  {
    var (whole, rest) := (encoded + later + queue, accepted[from..]);
    assert whole[|encoded|..] == later + queue && whole[|encoded|..] == rest;
    assert later == rest[..|later|] && queue == rest[|later|..];
  }

  class IqClients {
    var slots: seq<Slot>

    constructor ()
      ensures |slots| == MAX_CLIENTS && forall s | s in slots :: !s.connected
    {
      slots := [FREE_SLOT, FREE_SLOT, FREE_SLOT, FREE_SLOT];
    }

    predicate AnyConnected()
      reads this
    {
      exists i :: 0 <= i < |slots| && slots[i].connected
    }

    /** Some client does not have the whole current frame yet. */
    ghost predicate Lags(length: nat)
      reads this
    {
      exists j :: 0 <= j < |slots| && slots[j].connected && slots[j].offset < length
    }

    ghost predicate AllFollow(frames: seq<seq<Sample>>, whole: nat, current: seq<Byte>)
      requires Encodable(frames) && whole <= |frames|
      reads this
    {
      |slots| == MAX_CLIENTS &&
      forall i :: 0 <= i < |slots| ==> Follows(slots[i], frames, whole, current)
    }

    /** Connections only end here; what a client has received only grows. */
    twostate predicate OnlyGrew()
      reads this
    {
      |slots| == |old(slots)| &&
      forall i :: 0 <= i < |slots| && slots[i].connected ==>
        && old(slots)[i].connected && slots[i].since == old(slots)[i].since
        && old(slots)[i].received <= slots[i].received
    }

    lemma NoneFollow(frames: seq<seq<Sample>>, whole: nat, current: seq<Byte>)
      requires Encodable(frames) && whole <= |frames| && |slots| == MAX_CLIENTS && !AnyConnected()
      ensures AllFollow(frames, whole, current)
    {
    }

    /** Offers each client the rest of the frame; sockets take what they like. */
    method SendToSlot(i: nat, bytes: seq<Byte>, ghost frames: seq<seq<Sample>>, ghost whole: nat)
      returns (any: bool, incomplete: bool)
      requires Encodable(frames) && whole <= |frames| && AllFollow(frames, whole, bytes)
      requires i < |slots| && slots[i].connected && slots[i].offset < |bytes|
      modifies this
      ensures AllFollow(frames, whole, bytes) && OnlyGrew()
      ensures slots == old(slots)[i := slots[i]]
      ensures any == slots[i].connected
      ensures incomplete == (any && slots[i].offset < |bytes|)
    {
      hide StreamBytes;
      var slot := slots[i];
      var remaining := |bytes| - slot.offset;
      var sent: int := *;
      var again: bool := *;
      if sent > 0 {
        if sent > remaining {
          sent := remaining;
        }
        var upTo := slot.offset + sent;
        assert bytes[..upTo] == bytes[..slot.offset] + bytes[slot.offset..upTo];
        slots := slots[i := slot.(offset := upTo, received := slot.received + bytes[slot.offset..upTo])];
        return true, upTo < |bytes|;
      }
      if again {
        return true, true;
      }
      slots := slots[i := slot.(connected := false, offset := 0)];
      return false, false;
    }

    /** Offers the frame to every client that does not have all of it yet. */
    method SendRound(bytes: seq<Byte>, ghost frames: seq<seq<Sample>>, ghost whole: nat)
      returns (any: bool, incomplete: bool)
      requires bytes != [] && Encodable(frames) && whole <= |frames| && AllFollow(frames, whole, bytes)
      modifies this
      ensures AllFollow(frames, whole, bytes) && OnlyGrew()
      ensures any == AnyConnected()
      ensures incomplete <==> Lags(|bytes|)
    {
      hide Follows, StreamBytes;
      any, incomplete := false, false;
      for i := 0 to MAX_CLIENTS
        invariant AllFollow(frames, whole, bytes) && OnlyGrew()
        invariant any <==> exists j :: 0 <= j < i && slots[j].connected
        invariant incomplete <==> exists j :: 0 <= j < i && slots[j].connected && slots[j].offset < |bytes|
      {
        ghost var before := slots;
        if slots[i].connected {
          if slots[i].offset >= |bytes| {
            any := true;
          } else {
            var alive, partial := SendToSlot(i, bytes, frames, whole);
            any, incomplete := any || alive, incomplete || partial;
          }
        }
        assert forall j :: 0 <= j < i ==> slots[j] == before[j];
      }
    }

    /** Moves every client, all of which have the whole frame, to the next one. */
    method NextFrame(bytes: seq<Byte>, ghost frames: seq<seq<Sample>>, ghost whole: nat)
      requires Encodable(frames) && whole < |frames|
      requires bytes == FrameBytes(Sequence(whole), frames[whole])
      requires AllFollow(frames, whole, bytes)
      requires forall j :: 0 <= j < |slots| && slots[j].connected ==> slots[j].offset >= |bytes|
      modifies this
      ensures OnlyGrew() && AllFollow(frames, whole + 1, [])
    {
      hide FrameBytes;
      slots := seq(|slots|, k requires 0 <= k < |slots| reads this => slots[k].(offset := 0));
      forall k | 0 <= k < |slots|
        ensures Follows(slots[k], frames, whole + 1, [])
      {
        assert slots[k] == old(slots)[k].(offset := 0);
        assert bytes[..|bytes|] == bytes;
      }
    }

    /** The publisher's writer: done when every client has the whole frame. */
    method WriteIqClients(bytes: seq<Byte>, ghost frames: seq<seq<Sample>>, ghost whole: nat)
      returns (result: PublishResult, written: nat)
      requires bytes != [] && Encodable(frames) && whole < |frames|
      requires bytes == FrameBytes(Sequence(whole), frames[whole])
      requires AllFollow(frames, whole, bytes)
      modifies this
      ensures OnlyGrew()
      ensures result == PublishOk || result == WouldBlock || result == ClientsGone
      ensures written == if result == PublishOk then |bytes| else 0
      ensures result == PublishOk ==> AllFollow(frames, whole + 1, [])
      ensures result == WouldBlock ==> AllFollow(frames, whole, bytes) && Lags(|bytes|)
      ensures result == ClientsGone ==> !AnyConnected() && |slots| == MAX_CLIENTS
    {
      hide FrameBytes, Follows;
      var any, incomplete := SendRound(bytes, frames, whole);
      if !any {
        return ClientsGone, 0;
      }
      if incomplete {
        return WouldBlock, 0;
      }
      NextFrame(bytes, frames, whole);
      return PublishOk, |bytes|;
    }

    /** The first free slot, if there is one. */
    method FirstFree() returns (i: nat)
      requires |slots| == MAX_CLIENTS
      ensures i <= MAX_CLIENTS && forall k :: 0 <= k < i ==> slots[k].connected
      ensures i < MAX_CLIENTS ==> !slots[i].connected
    {
      i := 0;
      while i < MAX_CLIENTS && slots[i].connected
        invariant i <= MAX_CLIENTS
        invariant forall k :: 0 <= k < i ==> slots[k].connected
      {
        i := i + 1;
      }
    }

    /** A new client in a free slot, starting with the current frame. */
    method Place(i: nat, ghost frames: seq<seq<Sample>>, whole: nat, ghost current: seq<Byte>)
      requires Encodable(frames) && whole <= |frames| && AllFollow(frames, whole, current) && i < MAX_CLIENTS
      modifies this
      ensures AllFollow(frames, whole, current)
      ensures slots == old(slots)[i := Slot(true, 0, [], whole)]
    {
      slots := slots[i := Slot(true, 0, [], whole)];
    }

    /** Closes every connection. */
    method CloseAll()
      modifies this
      ensures |slots| == |old(slots)| && !AnyConnected() && OnlyGrew()
    {
      slots := seq(|slots|, k requires 0 <= k < |slots| reads this => slots[k].(connected := false));
    }
  }

  datatype Stats = Stats(
    framesEncoded: nat, framesSent: nat, samplesSent: nat,
    wouldBlockEvents: nat, disconnects: nat, writeErrors: nat)

  /** The counters tell every outcome once, and a sent frame's samples. */
  predicate Booked(before: Stats, after: Stats, result: PublishResult, samples: nat) {
    var counted := before.(framesEncoded := after.framesEncoded);
    match result
    case PublishOk =>
      after == counted.(framesSent := before.framesSent + 1, samplesSent := before.samplesSent + samples)
    case WouldBlock => after == counted.(wouldBlockEvents := before.wouldBlockEvents + 1)
    case ClientsGone => after == counted.(disconnects := before.disconnects + 1)
    case _ => after == counted
  }

  class IqPublisher {
    const source: Ring<Sample>
    const samplesPerFrame: nat
    const pending: array<Byte>
    var nextSequence: Word
    var pendingLength: nat
    var pendingOffset: nat
    var pendingSamples: nat
    var stats: Stats

    /** Every frame ever encoded, in order. */
    ghost var frames: seq<seq<Sample>>

    constructor (source: Ring<Sample>, samplesPerFrame: nat)
      requires source.Valid() && 0 < samplesPerFrame <= FRAME_SAMPLES
      ensures Valid() && fresh(pending) && this.source == source
      ensures frames == [] && Current() == []
    {
      this.source, this.samplesPerFrame := source, samplesPerFrame;
      pending := new Byte[BUFFER_SIZE](_ => 0);
      nextSequence, pendingLength, pendingOffset, pendingSamples := 0, 0, 0, 0;
      stats := Stats(0, 0, 0, 0, 0, 0);
      frames := [];
    }

    /** The number of frames that have left the pending buffer. */
    ghost function Whole(): nat
      reads this
    {
      if pendingLength > 0 && frames != [] then |frames| - 1 else |frames|
    }

    /** The bytes of the frame being sent, if there is one. */
    ghost function Current(): seq<Byte>
      requires pendingLength <= pending.Length
      reads this, pending
    {
      pending[..pendingLength]
    }

    /** Every sample taken off the queue so far, then the queue itself. */
    ghost function Samples(): seq<Sample>
      requires source.Valid()
      reads this, source, source.samples
    {
      Concat(frames) + source.Contents()
    }

    ghost predicate Valid()
      reads this, pending, source
    {
      && source.Valid() && 0 < samplesPerFrame <= FRAME_SAMPLES
      && pending.Length == BUFFER_SIZE && pendingLength <= pending.Length && pendingOffset == 0
      && Encodable(frames) && nextSequence == Sequence(|frames|)
      && stats.framesEncoded == |frames|
      && (pendingLength > 0 ==>
            && frames != [] && pendingSamples == |frames[|frames| - 1]|
            && Current() == FrameBytes(Sequence(|frames| - 1), frames[|frames| - 1]))
    }

    /** Makes sure there is a frame to send, encoding one from the queue if needed. */
    method PrepareFrame() returns (ready: bool)
      requires Valid()
      modifies this, pending, source`readIndex, source`size
      ensures Valid() && ready == (pendingLength > 0)
      ensures old(pendingLength) > 0 ==>
                ready && frames == old(frames) && Current() == old(Current()) &&
                source.Contents() == old(source.Contents()) && source.size == old(source.size)
      ensures old(pendingLength) == 0 ==>
                var n := if samplesPerFrame < old(source.size) then samplesPerFrame else old(source.size);
                && ready == (n > 0)
                && frames == old(frames) + (if n > 0 then [old(source.Contents())[..n]] else [])
                && source.Contents() == old(source.Contents())[n..]
      ensures Samples() == old(Samples()) && stats == old(stats).(framesEncoded := stats.framesEncoded)
    {
      hide FrameBytes, Stored, Concat, Sequence;
      if pendingOffset < pendingLength {
        return true;
      }
      if source.size == 0 {
        return false;
      }
      var count := samplesPerFrame;
      if count > source.size {
        count := source.size;
      }
      var samples := source.Pop(count);
      ConcatNext(frames, samples);
      Regroup(Concat(frames), samples, source.Contents());
      assert samples + source.Contents() == old(source.Contents());
      Encode(samples);
      return true;
    }

    method Encode(samples: seq<Sample>)
      requires Valid() && pendingLength == 0 && 0 < |samples| <= FRAME_SAMPLES
      modifies this, pending
      ensures Valid() && pendingLength > 0 && frames == old(frames) + [samples]
      ensures stats == old(stats).(framesEncoded := stats.framesEncoded)
    {
      hide FrameBytes, Ring.Valid, Ring.Contents, Concat, Encodable, Sequence;
      EncodableNext(frames, samples);
      NextSequence(|frames|);
      ghost var earlier := frames;
      pendingLength := EncodeIqFrame(nextSequence, samples, pending);
      pendingOffset, pendingSamples := 0, |samples|;
      nextSequence := (nextSequence as int + 1) % 0x1_0000_0000;
      stats := stats.(framesEncoded := stats.framesEncoded + 1);
      frames := frames + [samples];
      assert frames[|frames| - 1] == samples && |frames| == |earlier| + 1;
    }

    /** Drops the frame being sent; the queue is untouched. */
    method Disconnect()
      requires Valid()
      modifies this`pendingLength, this`pendingOffset, this`pendingSamples
      ensures Valid() && Current() == []
    {
      pendingLength, pendingOffset, pendingSamples := 0, 0, 0;
    }

    method PrepareFor(clients: IqClients) returns (ready: bool)
      requires Valid() && clients.AllFollow(frames, Whole(), Current())
      modifies this, pending, source`readIndex, source`size
      ensures Valid() && ready == (pendingLength > 0)
      ensures clients.AllFollow(frames, Whole(), Current())
      ensures old(frames) <= frames && Samples() == old(Samples())
      ensures source.size <= old(source.size) && (!ready ==> source.size == 0)
      ensures stats == old(stats).(framesEncoded := stats.framesEncoded)
      ensures old(pendingLength) == 0 && ready ==> source.size < old(source.size)
    {
      hide FrameBytes, Follows, Stored, Sequence;
      ghost var earlier := frames;
      ready := PrepareFrame();
      KeepsFollowing(clients, earlier);
    }

    /** One publishing step: sends the current frame, or the next one, to the clients. */
    method Pump(clients: IqClients) returns (result: PublishResult)
      requires Valid() && clients.AllFollow(frames, Whole(), Current())
      modifies this, pending, source`readIndex, source`size, clients
      ensures Valid() && clients.OnlyGrew()
      ensures clients.AllFollow(frames, Whole(), Current())
      ensures result == ClientsGone ==> !clients.AnyConnected() && |clients.slots| == MAX_CLIENTS
      ensures old(frames) <= frames && Samples() == old(Samples())
      ensures result == PublishEmpty ==> source.size == 0 && pendingLength == 0
      ensures result == PublishOk ==> pendingLength == 0
      ensures result == WouldBlock ==> clients.Lags(pendingLength)
      ensures Booked(old(stats), stats, result, if frames == [] then 0 else |frames[|frames| - 1]|)
      ensures result == PublishEmpty || result == PublishOk || result == WouldBlock || result == ClientsGone
      ensures source.size <= old(source.size)
      ensures old(pendingLength) == 0 && result != PublishEmpty ==> source.size < old(source.size)
    {
      hide FrameBytes, Follows, Stored, Sequence, IqPublisher.Valid, IqClients.AllFollow, IqClients.Lags;
      var ready := PrepareFor(clients);
      if !ready {
        return PublishEmpty;
      }
      result := Offer(clients);
    }

    /** Offers the pending frame to the clients. */
    method Offer(clients: IqClients) returns (result: PublishResult)
      requires Valid() && clients.AllFollow(frames, Whole(), Current()) && pendingLength > 0
      modifies this`pendingLength, this`pendingOffset, this`pendingSamples, this`stats, clients
      ensures Valid() && clients.OnlyGrew()
      ensures clients.AllFollow(frames, Whole(), Current())
      ensures result == PublishOk || result == WouldBlock || result == ClientsGone
      ensures result == ClientsGone ==> !clients.AnyConnected() && |clients.slots| == MAX_CLIENTS
      ensures result == PublishOk ==> pendingLength == 0
      ensures result == WouldBlock ==> clients.Lags(pendingLength)
      ensures frames != [] && Booked(old(stats), stats, result, |frames[|frames| - 1]|)
    {
      hide FrameBytes, Follows, Stored, Sequence;
      var written;
      ghost var whole := |frames| - 1;
      result, written := clients.WriteIqClients(pending[pendingOffset..pendingLength], frames, whole);
      if result == WouldBlock {
        stats := stats.(wouldBlockEvents := stats.wouldBlockEvents + 1);
        return;
      }
      if result == ClientsGone {
        stats := stats.(disconnects := stats.disconnects + 1);
        Disconnect();
        clients.NoneFollow(frames, Whole(), Current());
        return;
      }
      Written(written);
      assert Current() == [];
    }

    /** Books what the clients took; the whole frame here, as they take it all or nothing. */
    method Written(count: nat)
      requires Valid() && 0 < count == pendingLength
      modifies this`pendingLength, this`pendingOffset, this`pendingSamples, this`stats
      ensures Valid() && pendingLength == 0
      ensures Booked(old(stats), stats, PublishOk, |frames[|frames| - 1]|)
    {
      hide FrameBytes, Sequence, Ring.Valid;
      pendingOffset := pendingOffset + count;
      if pendingOffset == pendingLength {
        stats := stats.(framesSent := stats.framesSent + 1,
                        samplesSent := stats.samplesSent + pendingSamples);
        pendingLength, pendingOffset, pendingSamples := 0, 0, 0;
      }
    }

    /** Encoding another frame does not disturb what the clients have. */
    lemma KeepsFollowing(clients: IqClients, earlier: seq<seq<Sample>>)
      requires Valid() && Encodable(earlier)
      requires frames == earlier || (pendingLength > 0 && frames == earlier + [frames[|frames| - 1]])
      requires clients.AllFollow(earlier, if frames == earlier then Whole() else |earlier|,
                                 if frames == earlier then Current() else [])
      ensures clients.AllFollow(frames, Whole(), Current())
    {
      if frames != earlier {
        forall i | 0 <= i < |clients.slots| && clients.slots[i].connected
          ensures Follows(clients.slots[i], frames, Whole(), Current())
        {
          StreamIgnoresLater(earlier, frames[|frames| - 1], clients.slots[i].since, |earlier|);
          assert clients.slots[i].received == StreamBytes(earlier, clients.slots[i].since, |earlier|) + [];
          assert Current()[..0] == [];
        }
      }
    }
  }

  /** The receive side of the daemon as its stream clients see it. */
  class IqServer {
    const ring: Ring<Sample>
    const publisher: IqPublisher
    const clients: IqClients

    /** Every sample the queue accepted, and what became of those that left it:
        put into a frame, or discarded. */
    ghost var accepted: seq<Sample>
    ghost var fates: seq<Fate>

    ghost predicate Serving()
      reads this, ring, publisher, publisher.pending, clients
    {
      && publisher.source == ring && publisher.Valid()
      && clients.AllFollow(publisher.frames, publisher.Whole(), publisher.Current())
    }

    /** The frames hold exactly the accepted samples that were not discarded, in
        order; the rest of the accepted samples is in the queue. */
    ghost predicate Accounted()
      requires ring.Valid()
      reads this, ring, ring.samples, publisher
    {
      && |fates| <= |accepted|
      && Concat(publisher.frames) == Kept(accepted[..|fates|], fates)
      && ring.Contents() == accepted[|fates|..]
    }

    ghost predicate Inv()
      reads this, ring, ring.samples, publisher, publisher.pending, clients
    {
      Serving() && Accounted()
    }

    constructor (capacity: nat, samplesPerFrame: nat)
      requires 0 < capacity && 0 < samplesPerFrame <= FRAME_SAMPLES
      ensures Inv() && fresh(ring) && fresh(ring.samples)
      ensures fresh(publisher) && fresh(publisher.pending) && fresh(clients)
      ensures publisher.frames == [] && accepted == [] && fates == []
    {
      var queue := new Ring(capacity, Sample(0, 0));
      var sender := new IqPublisher(queue, samplesPerFrame);
      var sockets := new IqClients();
      ring, publisher, clients := queue, sender, sockets;
      accepted, fates := [], [];
    }

    /** Samples from the radio. */
    method Receive(samples: seq<Sample>)
      requires Inv()
      modifies this`accepted, ring`size, ring`dropped, ring.samples
      ensures Inv()
      ensures var room := ring.samples.Length - old(ring.size);
              var taken := if |samples| <= room then |samples| else room;
              accepted == old(accepted) + samples[..taken] && ring.dropped == old(ring.dropped) + |samples| - taken
    {
      hide Follows, FrameBytes, Stored;
      var taken := ring.Push(samples);
      ghost var longer := accepted + samples[..taken];
      assert longer[..|fates|] == accepted[..|fates|];
      accepted := longer;
    }

    /** A retune or the end of a transmission discards queued samples. */
    method DiscardQueue()
      requires Inv()
      modifies this`fates, ring`readIndex, ring`size
      ensures Inv() && ring.Contents() == []
      ensures fates == old(fates) + Repeat(Discarded, |accepted| - |old(fates)|)
    {
      hide Follows, FrameBytes, Stored;
      ring.Clear();
      Discard();
    }

    /** Books the queued samples as discarded. */
    ghost method Discard()
      requires ring.Valid() && ring.Contents() == [] && |fates| <= |accepted|
      requires Concat(publisher.frames) == Kept(accepted[..|fates|], fates)
      modifies this`fates
      ensures Accounted() && fates == old(fates) + Repeat(Discarded, |accepted| - |old(fates)|)
    {
      DiscardMore(accepted, fates, |accepted| - |fates|);
      fates := fates + Repeat(Discarded, |accepted| - |fates|);
    }

    /** A client asks for the stream. The first client discards stale samples and
        any half-sent frame; a later one begins with the current frame. */
    method Connect(headerSent: bool) returns (slot: Placement)
      requires Inv()
      modifies this`fates, ring`readIndex, ring`size, clients, publisher
      ensures Inv() && publisher.frames == old(publisher.frames) && old(fates) <= fates
      ensures slot.Placed? ==>
                && slot.index < MAX_CLIENTS && !old(clients.slots)[slot.index].connected
                && clients.slots == old(clients.slots)[slot.index := Slot(true, 0, [], publisher.Whole())]
      ensures slot.Refused? ==> clients.slots == old(clients.slots)
      ensures slot.Refused? && headerSent ==> forall i :: 0 <= i < MAX_CLIENTS ==> old(clients.slots)[i].connected
      ensures slot.Placed? && !old(clients.AnyConnected()) ==>
                |fates| == |accepted| && clients.slots[slot.index].since == |publisher.frames|
    {
      hide FrameBytes, Stored, Accounted, Sequence;
      var i := clients.FirstFree();
      if i == MAX_CLIENTS || !headerSent {
        return Refused;
      }
      if !clients.AnyConnected() {
        BeginFresh();
      }
      Admit(i);
      return Placed(i);
    }

    method Admit(i: nat)
      requires Inv() && i < MAX_CLIENTS
      modifies clients
      ensures Inv() && clients.slots == old(clients.slots)[i := Slot(true, 0, [], publisher.Whole())]
    {
      hide FrameBytes, Stored, Sequence, IqClients.AllFollow, Ring.Valid, Ring.Contents, Concat, Kept;
      var encoded := publisher.stats.framesEncoded;
      var whole := if publisher.pendingLength > 0 then encoded - 1 else encoded;
      clients.Place(i, publisher.frames, whole, publisher.Current());
    }

    /** Drops stale samples and the frame nobody is reading, for the first client. */
    method BeginFresh()
      requires Inv() && !clients.AnyConnected()
      modifies this`fates, ring`readIndex, ring`size
      modifies publisher`pendingLength, publisher`pendingOffset, publisher`pendingSamples
      ensures Inv() && old(fates) <= fates && |fates| == |accepted| && publisher.pendingLength == 0
    {
      hide FrameBytes, Stored, Follows;
      ring.Clear();
      Discard();
      publisher.Disconnect();
      clients.NoneFollow(publisher.frames, publisher.Whole(), publisher.Current());
    }

    /** Publishes until the queue is empty, a client lags or no client is left. */
    method PumpAll()
      requires Inv() && clients.AnyConnected()
      modifies this`fates, publisher, publisher.pending, ring`readIndex, ring`size, clients
      ensures Inv() && clients.OnlyGrew() && old(publisher.frames) <= publisher.frames
      ensures |old(fates)| <= |fates| && fates == old(fates) + Repeat(Delivered, |fates| - |old(fates)|)
      ensures clients.AnyConnected() ==>
                (ring.size == 0 && publisher.pendingLength == 0) || clients.Lags(publisher.pendingLength)
    {
      hide IqClients.AllFollow, Concat, Kept, Ring.Valid, Ring.Contents, Repeat, FrameBytes;
      OnlyFramed();
      PumpWhilePossible();
      Framed(old(publisher.frames));
    }

    method PumpWhilePossible()
      requires Serving() && clients.AnyConnected()
      modifies publisher, publisher.pending, ring`readIndex, ring`size, clients
      ensures Serving() && clients.OnlyGrew() && old(publisher.frames) <= publisher.frames
      ensures publisher.Samples() == old(publisher.Samples())
      ensures clients.AnyConnected() ==>
                (ring.size == 0 && publisher.pendingLength == 0) || clients.Lags(publisher.pendingLength)
    {
      hide Follows, FrameBytes, Stored, Concat;
      while true
        invariant Serving() && clients.OnlyGrew() && old(publisher.frames) <= publisher.frames
        invariant publisher.Samples() == old(publisher.Samples())
        decreases ring.size, publisher.pendingLength > 0
      {
        ghost var before := clients.slots;
        var result := publisher.Pump(clients);
        if result == PublishEmpty || result == WouldBlock {
          break;
        }
        if result == ClientsGone || result == PublishError {
          publisher.Disconnect();
          clients.NoneFollow(publisher.frames, publisher.Whole(), publisher.Current());
          break;
        }
      }
    }

    /** Books the samples framed since `earlier` as delivered. */
    ghost method Framed(earlier: seq<seq<Sample>>)
      requires publisher.source == ring && ring.Valid() && earlier <= publisher.frames
      requires |fates| <= |accepted| && Concat(earlier) == Kept(accepted[..|fates|], fates)
      requires publisher.Samples() == Concat(earlier) + accepted[|fates|..]
      modifies this`fates
      ensures Accounted() && |old(fates)| <= |fates|
      ensures fates == old(fates) + Repeat(Delivered, |fates| - |old(fates)|)
    {
      hide Stored, Concat, Kept, Ring.Valid, Ring.Contents, Repeat;
      var later := publisher.frames[|earlier|..];
      assert publisher.frames == earlier + later;
      ConcatSplit(earlier, later);
      var n := |Concat(later)|;
      Uncovered(Concat(earlier), Concat(later), ring.Contents(), accepted, |fates|);
      DeliverMore(accepted, fates, n);
      fates := fates + Repeat(Delivered, n);
    }

    /** USB recovery drops every client and the frame being sent. */
    method Recover()
      requires Inv()
      modifies clients, publisher
      ensures Inv() && !clients.AnyConnected() && publisher.frames == old(publisher.frames)
      ensures clients.OnlyGrew()
    {
      hide FrameBytes, Stored;
      clients.CloseAll();
      publisher.Disconnect();
    }

    /** The frames a client has in full. */
    ghost function FramesOf(i: nat): seq<seq<Sample>>
      requires Inv() && i < MAX_CLIENTS && clients.slots[i].connected
      reads this, ring, ring.samples, publisher, publisher.pending, clients
    {
      var s := clients.slots[i];
      var n := publisher.Whole();
      publisher.frames[s.since..if s.offset > 0 && s.offset == |publisher.Current()| then n + 1 else n]
    }

    /** In every reachable state, decoding what a client has received gives back
        exactly the samples of the frames since it joined, in order, then the end. */
    lemma ClientReadsBack(i: nat)
      requires Inv() && i < MAX_CLIENTS && clients.slots[i].connected
      ensures DecodeAll(clients.slots[i].received, -1) == (FramesOf(i), Failed(Disconnected))
    {
      hide FrameBytes, DecodeAll;
      var s := clients.slots[i];
      var (frames, n, current) := (publisher.frames, publisher.Whole(), publisher.Current());
      assert Follows(s, frames, n, current);
      if s.offset > 0 && s.offset == |current| {
        assert current[..s.offset] == current;
        assert s.received == StreamBytes(frames, s.since, n + 1) + [];
        StreamReadsBack(frames, s.since, n + 1, [], -1);
      } else {
        assert s.offset == 0 ==> current[..s.offset] == [];
        StreamReadsBack(frames, s.since, n, current[..s.offset], -1);
      }
    }

    /** And these are one stretch of the accepted samples that were not discarded,
        bit for bit and with none missing. */
    lemma ClientHearsAccepted(i: nat)
      requires Inv() && i < MAX_CLIENTS && clients.slots[i].connected
      ensures var heard := Concat(FramesOf(i));
              var kept := Kept(accepted[..|fates|], fates);
              var start := |Concat(publisher.frames[..clients.slots[i].since])|;
              start + |heard| <= |kept| && heard == kept[start..start + |heard|]
    {
      hide Concat, FrameBytes;
      var s := clients.slots[i];
      assert Follows(s, publisher.frames, publisher.Whole(), publisher.Current());
      var n := publisher.Whole();
      ConcatStretch(publisher.frames, s.since, if s.offset > 0 && s.offset == |publisher.Current()| then n + 1 else n);
    }

    /** The same through the decoder object, however the connection cuts the bytes. */
    method ReadClient(i: nat, chunks: seq<seq<Byte>>) returns (frames: seq<seq<Sample>>, why: Failure)
      requires Inv() && i < MAX_CLIENTS && clients.slots[i].connected
      requires Flatten(chunks) == clients.slots[i].received
      ensures frames == FramesOf(i) && why == Disconnected
      ensures exists start, end :: 0 <= start <= end <= |Kept(accepted[..|fates|], fates)| &&
                Concat(frames) == Kept(accepted[..|fates|], fates)[start..end]
    {
      hide DecodeAll, FrameBytes, Follows, Decode;
      var decoder := new Decoder([], chunks);
      assert decoder.Undecoded() == Flatten(chunks);
      ClientReadsBack(i);
      ClientHearsAccepted(i);
      frames, why := decoder.ReadAll();
    }

    /** The frames a client has in full, the frame it is still being sent and the
        queue hold, in order, the rest of the `earlier` frames since it joined and
        then every sample accepted from position `past` on. */
    ghost predicate HearsAll(i: nat, earlier: seq<seq<Sample>>, past: nat)
      requires Inv() && i < MAX_CLIENTS
      reads this, ring, ring.samples, publisher, publisher.pending, clients
    {
      var s := clients.slots[i];
      s.connected && s.since <= |earlier| && past <= |accepted| ==>
        exists unsent: seq<Sample> ::
          && |unsent| <= FRAME_SAMPLES
          && Concat(FramesOf(i)) + unsent + ring.Contents() == Concat(earlier[s.since..]) + accepted[past..]
    }

    /** So it is when nothing has been discarded since. */
    lemma HearsAllSince(i: nat, earlier: seq<seq<Sample>>, past: nat)
      requires Inv() && i < MAX_CLIENTS && earlier <= publisher.frames && DeliveredSince(fates, past)
      requires Concat(earlier) == Kept(accepted[..past], fates[..past])
      ensures HearsAll(i, earlier, past)
    {
      hide Concat, FrameBytes, Kept, StreamBytes, Stored;
      FramedSince(earlier, past);
      var s := clients.slots[i];
      if s.connected && s.since <= |earlier| {
        var frames := publisher.frames;
        assert Follows(s, frames, publisher.Whole(), publisher.Current());
        var end := s.since + |FramesOf(i)|;
        assert FramesOf(i) == frames[s.since..end];
        HeardAndUnsent(frames, earlier, s.since, end, ring.Contents(), accepted[past..]);
      }
    }

    lemma AllHear(earlier: seq<seq<Sample>>, past: nat)
      requires Inv() && earlier <= publisher.frames && DeliveredSince(fates, past)
      requires Concat(earlier) == Kept(accepted[..past], fates[..past])
      ensures forall i :: 0 <= i < MAX_CLIENTS ==> HearsAll(i, earlier, past)
    {
      forall i | 0 <= i < MAX_CLIENTS
        ensures HearsAll(i, earlier, past)
      {
        HearsAllSince(i, earlier, past);
      }
    }

    /** The frames encoded since, and the queue, are all that was accepted since. */
    lemma FramedSince(earlier: seq<seq<Sample>>, past: nat)
      requires ring.Valid() && Accounted() && earlier <= publisher.frames && DeliveredSince(fates, past)
      requires Concat(earlier) == Kept(accepted[..past], fates[..past])
      ensures Concat(publisher.frames[|earlier|..]) + ring.Contents() == accepted[past..]
    {
      hide Concat, Kept, Stored, Ring.Valid, Ring.Contents;
      KeptSince(accepted, fates, past);
      SplitAfter(publisher.frames, earlier);
      SameTail(Concat(earlier), Concat(publisher.frames[|earlier|..]), accepted[past..|fates|]);
      CutOnce(accepted, past, |fates|);
    }

    /** One event. `taken` is how many of its samples the queue accepted. */
    method Take(e: StreamEvent) returns (ghost taken: nat)
      requires Inv()
      modifies this, ring, ring.samples, publisher, publisher.pending, clients
      ensures Inv() && old(publisher.frames) <= publisher.frames && old(fates) <= fates
      ensures taken <= |Offered(e)| && accepted == old(accepted) + Offered(e)[..taken]
      ensures ring.dropped == old(ring.dropped) + |Offered(e)| - taken
      ensures Steady(e) ==> DeliveredSince(fates, |old(fates)|) && clients.OnlyGrew()
    {
      hide Follows, FrameBytes, Stored, Concat, Kept;
      taken := 0;
      match e
      case Samples(samples) =>
        Receive(samples);
        taken := |accepted| - |old(accepted)|;
      case Discard => DiscardQueue();
      case Join(headerSent) => var _ := Connect(headerSent);
      case Lost => Recover();
      case Serve =>
        if clients.AnyConnected() {
          PumpAll();
        }
    }

    /** Any run of the receive side keeps every client's view whole. The queue
        accepts what fits of the samples that arrive and counts the rest as
        dropped; and while nobody joins and no discard comes, every client that
        is still connected hears all of it. */
    method Run(events: seq<StreamEvent>) returns (ghost taken: seq<nat>)
      requires Inv()
      modifies this, ring, ring.samples, publisher, publisher.pending, clients
      ensures Inv() && old(publisher.frames) <= publisher.frames && old(fates) <= fates
      ensures FitsEvents(taken, events) && accepted == old(accepted) + Arrived(events, taken)
      ensures ring.dropped - old(ring.dropped) + |Arrived(events, taken)| == TotalOffered(events)
      ensures AllSteady(events) ==>
                && clients.OnlyGrew()
                && forall i :: 0 <= i < MAX_CLIENTS ==> HearsAll(i, old(publisher.frames), |old(fates)|)
    {
      hide Follows, FrameBytes, Stored, Concat, Kept, IqServer.Inv, Offered, Steady;
      hide Arrived, TotalOffered, FitsEvents, AllSteady;
      taken := [];
      NothingArrived();
      OnlyFramed();
      for i := 0 to |events|
        invariant Inv() && old(publisher.frames) <= publisher.frames && old(fates) <= fates
        invariant FitsEvents(taken, events[..i]) && accepted == old(accepted) + Arrived(events[..i], taken)
        invariant ring.dropped - old(ring.dropped) + |Arrived(events[..i], taken)| == TotalOffered(events[..i])
        invariant AllSteady(events[..i]) ==> DeliveredSince(fates, |old(fates)|) && clients.OnlyGrew()
      {
        ghost var n := Take(events[i]);
        ArrivedNext(events[..i], taken, events[i], n);
        assert events[..i + 1] == events[..i] + [events[i]];
        taken := taken + [n];
      }
      assert events[..|events|] == events;
      if AllSteady(events) {
        assert accepted[..|old(fates)|] == old(accepted)[..|old(fates)|] && fates[..|old(fates)|] == old(fates);
        AllHear(old(publisher.frames), |old(fates)|);
      }
    }

    lemma OnlyFramed()
      requires Inv()
      ensures |fates| <= |accepted| && Concat(publisher.frames) == Kept(accepted[..|fates|], fates)
      ensures publisher.Samples() == Concat(publisher.frames) + accepted[|fates|..]
    {
    }
  }

  /** The samples an event brings from the radio. */
  function Offered(e: StreamEvent): seq<Sample> {
    if e.Samples? then e.samples else []
  }

  /** Events that make the daemon discard nothing and admit nobody. */
  predicate Steady(e: StreamEvent) {
    !e.Discard? && !e.Join?
  }

  predicate AllSteady(events: seq<StreamEvent>) {
    forall e <- events :: Steady(e)
  }

  /** How many samples of each event were taken, at most those it brought. */
  predicate FitsEvents(taken: seq<nat>, events: seq<StreamEvent>) {
    |taken| == |events| && forall i :: 0 <= i < |events| ==> taken[i] <= |Offered(events[i])|
  }

  /** The samples taken from a run of events. */
  function Arrived(events: seq<StreamEvent>, taken: seq<nat>): seq<Sample>
    requires FitsEvents(taken, events)
  {
    if events == [] then []
    else
      var n := |events| - 1;
      Arrived(events[..n], taken[..n]) + Offered(events[n])[..taken[n]]
  }

  function TotalOffered(events: seq<StreamEvent>): nat {
    if events == [] then 0 else TotalOffered(events[..|events| - 1]) + |Offered(events[|events| - 1])|
  }

  lemma NothingArrived()
    ensures FitsEvents([], []) && Arrived([], []) == [] && TotalOffered([]) == 0 && AllSteady([])
  {
  }

  lemma ArrivedNext(events: seq<StreamEvent>, taken: seq<nat>, e: StreamEvent, n: nat)
    requires FitsEvents(taken, events) && n <= |Offered(e)|
    ensures FitsEvents(taken + [n], events + [e])
    ensures Arrived(events + [e], taken + [n]) == Arrived(events, taken) + Offered(e)[..n]
    ensures TotalOffered(events + [e]) == TotalOffered(events) + |Offered(e)|
    ensures AllSteady(events + [e]) ==> AllSteady(events) && Steady(e)
  {
    var more := events + [e];
    assert more[..|events|] == events && (taken + [n])[..|taken|] == taken;
    assert AllSteady(more) ==> forall i :: 0 <= i < |more| ==> more[i] in more;
    assert more[|events|] == e && forall i :: 0 <= i < |events| ==> more[i] == events[i];
  }

  lemma SplitAfter(frames: seq<seq<Sample>>, earlier: seq<seq<Sample>>)
    requires earlier <= frames
    ensures Concat(frames) == Concat(earlier) + Concat(frames[|earlier|..])
  {
    hide Concat;
    ConcatSplit(earlier, frames[|earlier|..]);
    assert frames == earlier + frames[|earlier|..];
  }

  /** What a client has heard since it joined, and what it has yet to hear, cut
      the frames at `end` instead of where `earlier` ended. */
  lemma HeardAndUnsent(
    frames: seq<seq<Sample>>, earlier: seq<seq<Sample>>, since: nat, end: nat,
    queue: seq<Sample>, rest: seq<Sample>)
    requires Encodable(frames) && earlier <= frames && since <= |earlier| && since <= end <= |frames| <= end + 1
    requires Concat(frames[|earlier|..]) + queue == rest
    ensures var unsent := Concat(frames[end..]);
            && |unsent| <= FRAME_SAMPLES
            && Concat(frames[since..end]) + unsent + queue == Concat(earlier[since..]) + rest
  {
    hide Concat, Encodable;
    ShortTail(frames, end);
    CutAnywhere(frames[since..], end - since);
    CutAnywhere(frames[since..], |earlier| - since);
    assert frames[since..][..end - since] == frames[since..end] && frames[since..][end - since..] == frames[end..];
    assert frames[since..][..|earlier| - since] == earlier[since..];
    assert frames[since..][|earlier| - since..] == frames[|earlier|..];
    Rejoined(Concat(frames[since..end]), Concat(frames[end..]), Concat(earlier[since..]),
             Concat(frames[|earlier|..]), queue, rest);
  }

  lemma CutAnywhere(frames: seq<seq<Sample>>, at: nat)
    requires at <= |frames|
    ensures Concat(frames) == Concat(frames[..at]) + Concat(frames[at..])
  {
    hide Concat;
    SplitAfter(frames, frames[..at]);
  }

  /** At most one frame has no client been sent in full. */
  lemma ShortTail(frames: seq<seq<Sample>>, end: nat)
    requires Encodable(frames) && end <= |frames| <= end + 1
    ensures |Concat(frames[end..])| <= FRAME_SAMPLES
  {
    if end < |frames| {
      assert frames[end..] == [] + [frames[end]];
      ConcatNext([], frames[end]);
      assert frames[end] in frames;
    }
  }

  lemma CutOnce(xs: seq<Sample>, from: nat, at: nat)
    requires from <= at <= |xs|
    ensures xs[from..] == xs[from..at] + xs[at..]
  {
  }

  lemma SameTail(a: seq<Sample>, b: seq<Sample>, c: seq<Sample>)
    requires a + b == a + c
    ensures b == c
  {
    assert b == (a + b)[|a|..] && c == (a + c)[|a|..];
  }

  lemma Rejoined(
    a: seq<Sample>, b: seq<Sample>, c: seq<Sample>, d: seq<Sample>, queue: seq<Sample>, rest: seq<Sample>)
    requires a + b == c + d && d + queue == rest
    ensures a + b + queue == c + rest
  {
    assert c + d + queue == c + (d + queue);
  }

  datatype StreamEvent = Samples(samples: seq<Sample>) | Discard | Join(headerSent: bool) | Lost | Serve

  datatype Placement = Refused | Placed(index: nat)
}
