/** The client's lock-free single-producer single-consumer audio ring
    (client/src/audio_ring.cpp). The two threads take turns in any order, one
    memory access at a time, and each may see an index the other has already
    moved on from. */
module AudioRing {

  import opened Fates
  import opened IqRing

  // ---- slot arithmetic ----

  /** The slot of position `k`, counted round the ring one step at a time. */
  ghost function Slot(k: nat, n: nat): (r: nat)
    requires 0 < n
    ensures r < n
  {
    if k == 0 then 0 else Wrap(Slot(k - 1, n) + 1, n)
  }

  /** Up to a turn ahead, slots differ from the start exactly by the distance. */
  lemma {:induction false} SlotAhead(a: nat, distance: nat, n: nat)
    requires 0 < n && distance <= n
    ensures Slot(a + distance, n) == Wrap(Slot(a, n) + distance, n)
  {
    hide Wrap;
    if distance > 0 {
      SlotAhead(a, distance - 1, n);
      assert a + distance - 1 == a + (distance - 1);
    }
  }

  /** Less than a turn apart, different positions use different slots. */
  lemma SlotsDiffer(a: nat, b: nat, n: nat)
    requires 0 < n && a < b < a + n
    ensures Slot(a, n) != Slot(b, n)
  {
    hide Wrap, Slot;
    SlotAhead(a, b - a, n);
  }

  /** An index loaded `lag` positions late, worked out from the two slots: what
      it was when last seen is never passed. */
  function Late(seen: nat, current: nat, lag: nat, n: nat): (r: nat)
    requires seen < n && current < n
  {
    var behind := Wrap(current + n - seen, n);
    Wrap(current + n - if lag < behind then lag else behind, n)
  }

  lemma LateIsBetween(seen: nat, current: nat, lag: nat, n: nat)
    requires 0 < n && seen <= current < seen + n
    ensures Late(Slot(seen, n), Slot(current, n), lag, n) == Slot(Seen(seen, current, lag), n)
  {
    hide Wrap, Slot;
    SlotAhead(seen, current - seen, n);
    var k := Seen(seen, current, lag);
    SlotAhead(k, current - k, n);
  }

  // ---- the history of the ring ----

  /** Everything that ever happened, with positions counted from the start. */
  datatype History = History(
    handed: seq<real>,     // samples handed to finished pushes
    admitted: seq<Fate>,   // whether each was stored or dropped
    accepted: seq<real>,   // samples the producer has stored
    published: nat,        // how many of them the producer has announced
    fates: seq<Fate>,      // of the samples the consumer has moved past
    released: nat,         // how many slots the consumer has given back
    seenReleased: nat,     // the release the producer last saw
    seenPublished: nat)    // the announcement the consumer last saw

  /** The order the positions always keep; the producer runs at most `capacity` ahead. */
  ghost predicate Ordered(h: History, capacity: nat) {
    && h.seenReleased <= h.released <= |h.fates| <= h.seenPublished <= h.published <= |h.accepted|
    && |h.accepted| <= h.seenReleased + capacity
  }

  /** Every sample the consumer may still read is in its slot. */
  ghost predicate SlotsHold(slots: seq<real>, accepted: seq<real>, from: nat) {
    && 0 < |slots|
    && forall k :: from <= k < |accepted| ==> slots[Slot(k, |slots|)] == accepted[k]
  }

  // ---- the two threads ----

  /** Where a thread is in a call; `index` and `limit` are its local slot numbers. */
  datatype Producer = Resting | Pushing(input: seq<real>, done: nat, index: nat, limit: nat)
  datatype Consumer = Waiting | Popping(count: nat, done: nat, index: nat, limit: nat)

  /** One step of a schedule. `lag` is how stale the index a call loads may be. */
  datatype Event =
    | Push(input: seq<real>, lag: nat)
    | ProducerStep
    | Pop(count: nat, lag: nat)
    | ConsumerStep
    | Clear(lag: nat)

  // ---- the ring as positions alone ----

  /** A thread's call: its argument and how far it has got. */
  datatype Call<T> = NoCall | Within(argument: T, done: nat)

  /** What a schedule does, with no slots, indices or wrap-around. */
  datatype Machine = Machine(
    h: History, dropped: nat, underruns: nat, producer: Call<seq<real>>, consumer: Call<nat>)
  {
    ghost predicate Valid(capacity: nat) {
      && Ordered(h, capacity)
      && (producer.Within? ==> producer.done <= |producer.argument|)
      && (consumer.Within? ==> consumer.done <= consumer.argument)
    }
  }

  const NO_HISTORY := History([], [], [], 0, [], 0, 0, 0)
  const NEW_MACHINE := Machine(NO_HISTORY, 0, 0, NoCall, NoCall)

  /** A position loaded `lag` late, but never before the one last seen. */
  function Seen(seen: nat, current: nat, lag: nat): nat {
    if seen < current - lag then current - lag else seen
  }

  /** One step of a schedule; one that does not fit where its thread is does nothing. */
  ghost function Next(m: Machine, capacity: nat, event: Event): (r: Machine)
    requires m.Valid(capacity)
    ensures r.Valid(capacity)
  {
    match event
    case Push(input, lag) => if m.producer.NoCall? then PushBegun(m, input, lag) else m
    case ProducerStep => if m.producer.Within? then PushStepped(m, capacity) else m
    case Pop(count, lag) => if m.consumer.NoCall? then PopBegun(m, count, lag) else m
    case ConsumerStep => if m.consumer.Within? then PopStepped(m) else m
    case Clear(lag) => if m.consumer.NoCall? then Cleared(m, lag) else m
  }

  function PushBegun(m: Machine, input: seq<real>, lag: nat): Machine {
    m.(producer := Within(input, 0),
       h := m.h.(seenReleased := Seen(m.h.seenReleased, m.h.released, lag)))
  }

  function PushStepped(m: Machine, capacity: nat): Machine
    requires m.producer.Within? && m.producer.done <= |m.producer.argument|
  {
    var Within(input, done) := m.producer;
    if done < |input| && |m.h.accepted| < m.h.seenReleased + capacity then
      m.(producer := Within(input, done + 1), h := m.h.(accepted := m.h.accepted + [input[done]]))
    else
      m.(producer := NoCall, dropped := m.dropped + |input| - done, h := Finished(m.h, input, done))
  }

  function PopBegun(m: Machine, count: nat, lag: nat): Machine {
    m.(consumer := Within(count, 0),
       h := m.h.(seenPublished := Seen(m.h.seenPublished, m.h.published, lag)))
  }

  function PopStepped(m: Machine): Machine
    requires m.consumer.Within? && m.consumer.done <= m.consumer.argument
  {
    var Within(count, done) := m.consumer;
    if done < count && |m.h.fates| < m.h.seenPublished then
      m.(consumer := Within(count, done + 1), h := m.h.(fates := m.h.fates + [Delivered]))
    else
      m.(consumer := NoCall, underruns := m.underruns + count - done, h := m.h.(released := |m.h.fates|))
  }

  function Cleared(m: Machine, lag: nat): Machine
    requires |m.h.fates| <= m.h.seenPublished
  {
    var to := Seen(m.h.seenPublished, m.h.published, lag);
    m.(h := m.h.(seenPublished := to, released := to,
                 fates := m.h.fates + Repeat(Discarded, to - |m.h.fates|)))
  }

  /** A push ends: what it stored is announced, the rest of its input is dropped. */
  function Finished(h: History, input: seq<real>, done: nat): History
    requires done <= |input|
  {
    h.(published := |h.accepted|, handed := h.handed + input,
       admitted := h.admitted + Repeat(Delivered, done) + Repeat(Discarded, |input| - done))
  }

  ghost function Played(capacity: nat, schedule: seq<Event>): (r: Machine)
    ensures r.Valid(capacity)
  {
    if schedule == [] then NEW_MACHINE
    else
      var n := |schedule| - 1;
      Next(Played(capacity, schedule[..n]), capacity, schedule[n])
  }

  predicate NoneDiscarded(fates: seq<Fate>) {
    forall f <- fates :: f.Delivered?
  }

  /** Only a clear discards what was accepted. */
  lemma {:induction false} OnlyClearDiscards(capacity: nat, schedule: seq<Event>)
    requires forall e <- schedule :: !e.Clear?
    ensures NoneDiscarded(Played(capacity, schedule).h.fates)
  {
    if schedule != [] {
      var n := |schedule| - 1;
      OnlyClearDiscards(capacity, schedule[..n]);
      assert schedule[n] in schedule;
    }
  }

  /** The accepted samples are the ones handed in, in order, without those
      counted as dropped, and then what the push under way has stored. */
  ghost predicate Admitted(m: Machine) {
    && |m.h.admitted| == |m.h.handed|
    && m.h.accepted == Kept(m.h.handed, m.h.admitted) +
                       (if m.producer.Within? then Stored(m.producer) else [])
    && (m.dropped == 0 ==> NoneDiscarded(m.h.admitted))
  }

  function Stored(c: Call<seq<real>>): seq<real>
    requires c.Within?
  {
    if c.done <= |c.argument| then c.argument[..c.done] else []
  }

  lemma FinishAdmits(h: History, input: seq<real>, done: nat)
    requires done <= |input| && |h.admitted| == |h.handed|
    ensures var g := Finished(h, input, done);
            && |g.admitted| == |g.handed|
            && Kept(g.handed, g.admitted) == Kept(h.handed, h.admitted) + input[..done]
  {
    hide Kept;
    var (n, all) := (|h.handed|, h.handed + input);
    var fates := h.admitted + Repeat(Delivered, done);
    DeliverMore(all, h.admitted, done);
    DiscardMore(all, fates, |input| - done);
    assert all[..n] == h.handed && all[n..n + done] == input[..done];
    assert all[..|all|] == all;
  }

  lemma {:induction false} AcceptedIsAdmitted(capacity: nat, schedule: seq<Event>)
    ensures Admitted(Played(capacity, schedule))
  {
    hide Kept;
    if schedule == [] {
      AllKept<real>([], []);
    } else {
      var n := |schedule| - 1;
      var m := Played(capacity, schedule[..n]);
      AcceptedIsAdmitted(capacity, schedule[..n]);
      StepAdmits(m, capacity, schedule[n]);
    }
  }

  lemma StepAdmits(m: Machine, capacity: nat, event: Event)
    requires m.Valid(capacity) && Admitted(m)
    ensures Admitted(Next(m, capacity, event))
  {
    hide Kept;
    if event.ProducerStep? && m.producer.Within? {
      var Within(input, done) := m.producer;
      FinishAdmits(m.h, input, done);
      if done < |input| {
        assert input[..done + 1] == input[..done] + [input[done]];
      }
    }
  }

  class AudioRing {
    const samples: array<real>
    var read: nat
    var write: nat
    var dropped: nat
    var underruns: nat
    var producer: Producer
    var consumer: Consumer
    /** The indices each thread last loaded: a later load never goes back. */
    var loadedRead: nat
    var loadedWrite: nat

    var output: seq<real>
    ghost var h: History

    ghost predicate Valid()
      reads this, samples
    {
      var n := samples.Length;
      && 0 < n && Ordered(h, n - 1) && SlotsHold(samples[..], h.accepted, h.seenReleased)
      && read == Slot(h.released, n) && write == Slot(h.published, n)
      && loadedRead == Slot(h.seenReleased, n) && loadedWrite == Slot(h.seenPublished, n)
      && output == Kept(h.accepted[..|h.fates|], h.fates)
      && ProducerValid() && ConsumerValid()
    }

    /** The producer's locals: its call has stored a prefix of its input. */
    ghost predicate ProducerValid()
      reads this
      requires h.published <= |h.accepted|
      requires 0 < samples.Length
    {
      match producer
      case Resting => h.published == |h.accepted| && |h.handed| == |h.accepted| + dropped
      case Pushing(input, done, index, limit) =>
        && done <= |input| && h.accepted[h.published..] == input[..done]
        && |h.handed| == h.published + dropped
        && index == Slot(|h.accepted|, samples.Length) && limit == loadedRead
    }

    ghost predicate ConsumerValid()
      reads this
      requires 0 < samples.Length
    {
      match consumer
      case Waiting => h.released == |h.fates|
      case Popping(count, done, index, limit) =>
        done <= count && index == Slot(|h.fates|, samples.Length) && limit == loadedWrite
    }

    /** The ring as the positions alone see it. */
    ghost function State(): Machine
      reads this
    {
      Machine(
        h, dropped, underruns,
        if producer.Resting? then NoCall else Within(producer.input, producer.done),
        if consumer.Waiting? then NoCall else Within(consumer.count, consumer.done))
    }

    constructor (capacity: nat)
      ensures Valid() && fresh(samples) && samples.Length == capacity + 1
      ensures State() == NEW_MACHINE && output == []
    {
      samples := new real[capacity + 1](_ => 0.0);
      read, write, dropped, underruns := 0, 0, 0, 0;
      producer, consumer, loadedRead, loadedWrite, output := Resting, Waiting, 0, 0, [];
      h := NO_HISTORY;
    }

    /** The producer starts a push: it loads the read index, perhaps stale. */
    method BeginPush(input: seq<real>, lag: nat)
      requires Valid() && producer.Resting?
      modifies this`producer, this`loadedRead, this`h
      ensures Valid()
      ensures State() == PushBegun(old(State()), input, lag)
    {
      hide Slot, Late, Kept;
      var n := samples.Length;
      LateIsBetween(h.seenReleased, h.released, lag, n);
      loadedRead := Late(loadedRead, read, lag, n);
      producer := Pushing(input, 0, write, loadedRead);
      h := h.(seenReleased := Seen(h.seenReleased, h.released, lag));
    }

    /** One turn of the push loop, or its end. A sample is stored exactly when
        one is left and fewer than `capacity` are ahead of the release last
        seen; no slot that is yet to be read is touched. */
    method StepPush() returns (stored: bool)
      requires Valid() && producer.Pushing?
      modifies this`producer, this`write, this`dropped, this`h, samples
      ensures Valid()
      ensures stored <==>
                && old(producer.done) < |old(producer.input)|
                && |old(h.accepted)| < old(h.seenReleased) + samples.Length - 1
      ensures State() == PushStepped(old(State()), samples.Length - 1)
      ensures !stored ==> samples[..] == old(samples[..])
      ensures forall k :: old(h.seenReleased) <= k < |old(h.accepted)| ==>
                            var slot := Slot(k, samples.Length); samples[slot] == old(samples[slot])
    {
      hide Slot, Kept, Wrap, SlotsHold, Repeat;
      var n := samples.Length;
      var Pushing(input, done, index, limit) := producer;
      var next := Wrap(index + 1, n);
      RoomSeen(h.seenReleased, |h.accepted|, n);
      stored := done < |input| && next != limit;
      if stored {
        StoreKeeps(samples[..], h.accepted, h.seenReleased, input[done]);
        ghost var longer := h.accepted + [input[done]];
        OneMore(h.accepted, input, |h.fates|, h.published, done);
        samples[index] := input[done];
        assert samples[..] == old(samples[..])[index := input[done]];
        producer := Pushing(input, done + 1, next, limit);
        h := h.(accepted := longer);
      } else {
        write, dropped, producer := index, dropped + (|input| - done), Resting;
        h := Finished(h, input, done);
      }
    }

    /** The consumer starts a pop: it loads the write index, perhaps stale. */
    method BeginPop(count: nat, lag: nat)
      requires Valid() && consumer.Waiting?
      modifies this`consumer, this`loadedWrite, this`h
      ensures Valid()
      ensures State() == PopBegun(old(State()), count, lag)
    {
      LoadWrite(lag);
      consumer := Popping(count, 0, read, loadedWrite);
    }

    method LoadWrite(lag: nat)
      requires Valid() && consumer.Waiting?
      modifies this`loadedWrite, this`h
      ensures Valid()
      ensures h == old(h).(seenPublished := Seen(old(h.seenPublished), h.published, lag))
    {
      hide Slot, Late, Kept;
      var n := samples.Length;
      LateIsBetween(h.seenPublished, h.published, lag, n);
      loadedWrite := Late(loadedWrite, write, lag, n);
      h := h.(seenPublished := Seen(h.seenPublished, h.published, lag));
    }

    /** One turn of the pop loop, or its end. A sample is delivered exactly when
        one is wanted and one was announced; it is the oldest unread one. */
    method StepPop() returns (delivered: bool)
      requires Valid() && consumer.Popping?
      modifies this`consumer, this`read, this`underruns, this`output, this`h
      ensures Valid()
      ensures delivered <==> old(consumer.done) < old(consumer.count) && |old(h.fates)| < old(h.seenPublished)
      ensures State() == PopStepped(old(State()))
      ensures delivered ==>
                |old(h.fates)| < |h.accepted| && output == old(output) + [h.accepted[|old(h.fates)|]]
      ensures !delivered ==> output == old(output)
    {
      hide Slot, Wrap, Kept, SlotsHold, Repeat;
      var n := samples.Length;
      var Popping(count, done, index, limit) := consumer;
      SampleSeen(|h.fates|, h.seenPublished, n);
      delivered := done < count && index != limit;
      if delivered {
        DeliverNext(h.accepted, h.fates);
        HeldAt(samples[..], h.accepted, h.seenReleased, |h.fates|);
        output := output + [samples[index]];
        consumer := Popping(count, done + 1, Wrap(index + 1, n), limit);
        h := h.(fates := h.fates + [Delivered]);
      } else {
        read, underruns, consumer := index, underruns + (count - done), Waiting;
        h := h.(released := |h.fates|);
      }
    }

    /** The consumer throws away everything announced so far. */
    method ClearAll(lag: nat)
      requires Valid() && consumer.Waiting?
      modifies this`read, this`loadedWrite, this`h
      ensures Valid()
      ensures State() == Cleared(old(State()), lag)
    {
      hide Slot, Kept;
      LoadWrite(lag);
      read := loadedWrite;
      ghost var skipped := h.seenPublished - |h.fates|;
      DiscardMore(h.accepted, h.fates, skipped);
      h := h.(fates := h.fates + Repeat(Discarded, skipped), released := h.seenPublished);
    }
  }

  /** The store that would fill the last slot meets the index it last saw. */
  lemma RoomSeen(seen: nat, next: nat, n: nat)
    requires seen <= next < seen + n
    ensures Wrap(Slot(next, n) + 1, n) == Slot(next + 1, n)
    ensures Wrap(Slot(next, n) + 1, n) != Slot(seen, n) <==> next < seen + n - 1
  {
    hide Slot;
    SlotAhead(next, 1, n);
    SlotAhead(seen, next + 1 - seen, n);
  }

  /** A sample is left exactly when the reader has not met the index it last saw. */
  lemma SampleSeen(next: nat, seen: nat, n: nat)
    requires next <= seen < next + n
    ensures Wrap(Slot(next, n) + 1, n) == Slot(next + 1, n)
    ensures Slot(next, n) != Slot(seen, n) <==> next < seen
  {
    hide Slot;
    SlotAhead(next, 1, n);
    SlotAhead(next, seen - next, n);
  }

  lemma OneMore(accepted: seq<real>, input: seq<real>, passed: nat, published: nat, done: nat)
    requires passed <= |accepted| && published <= |accepted| && done < |input|
    requires accepted[published..] == input[..done]
    ensures var longer := accepted + [input[done]];
            longer[..passed] == accepted[..passed] && longer[published..] == input[..done + 1]
  {
  }

  lemma DeliverNext(accepted: seq<real>, fates: seq<Fate>)
    requires |fates| < |accepted|
    ensures Kept(accepted[..|fates| + 1], fates + [Delivered]) ==
            Kept(accepted[..|fates|], fates) + [accepted[|fates|]]
  {
    hide Kept, Repeat;
    RepeatOnce(Delivered);
    DeliverMore(accepted, fates, 1);
    assert accepted[|fates|..|fates| + 1] == [accepted[|fates|]];
  }

  lemma HeldAt(slots: seq<real>, accepted: seq<real>, from: nat, k: nat)
    requires SlotsHold(slots, accepted, from) && from <= k < |accepted|
    ensures slots[Slot(k, |slots|)] == accepted[k]
  {
  }

  /** Storing the next sample leaves every unread one in its slot. */
  lemma StoreKeeps(slots: seq<real>, accepted: seq<real>, from: nat, value: real)
    requires SlotsHold(slots, accepted, from) && from <= |accepted| < from + |slots| - 1
    ensures var index := Slot(|accepted|, |slots|);
            SlotsHold(slots[index := value], accepted + [value], from)
    ensures forall k :: from <= k < |accepted| ==> Slot(k, |slots|) != Slot(|accepted|, |slots|)
  {
    hide Slot;
    forall k | from <= k < |accepted|
      ensures Slot(k, |slots|) != Slot(|accepted|, |slots|)
    {
      SlotsDiffer(k, |accepted|, |slots|);
    }
  }

  /** What a ring that has run any schedule has done: the delivered samples are
      accepted ones in order, complete when nothing was cleared; every sample
      not yet read is in its slot; never more than the capacity is held; every
      offered sample was accepted or counted as dropped. */
  ghost predicate Faithful(ring: AudioRing)
    reads ring, ring.samples
  {
    && 0 < ring.samples.Length && |ring.h.fates| <= |ring.h.accepted|
    && ring.output == Kept(ring.h.accepted[..|ring.h.fates|], ring.h.fates)
    && (NoneDiscarded(ring.h.fates) ==> ring.output == ring.h.accepted[..|ring.h.fates|])
    && (forall k :: |ring.h.fates| <= k < |ring.h.accepted| ==>
          ring.samples[Slot(k, ring.samples.Length)] == ring.h.accepted[k])
    && |ring.h.accepted| - |ring.h.fates| <= ring.samples.Length - 1
    && (ring.producer.Resting? ==> |ring.h.handed| == |ring.h.accepted| + ring.dropped)
  }

  lemma ValidIsFaithful(ring: AudioRing)
    requires ring.Valid()
    ensures Faithful(ring)
  {
    AllKept(ring.h.accepted[..|ring.h.fates|], ring.h.fates);
  }

  /** What a valid ring looks like from outside. */
  lemma StateIsValid(ring: AudioRing)
    requires ring.Valid()
    ensures 0 < ring.samples.Length && ring.State().Valid(ring.samples.Length - 1)
  {
  }

  /** One step of a schedule; the slots and wrapped indices do what the
      positions say, and the output only grows. */
  method Take(ring: AudioRing, event: Event)
    requires ring.Valid()
    modifies ring, ring.samples
    ensures ring.Valid() && ring.State() == Next(old(ring.State()), ring.samples.Length - 1, event)
    ensures old(ring.output) <= ring.output
  {
    hide AudioRing.Valid, Next;
    if event.Push? || event.ProducerStep? {
      Produce(ring, event);
    } else {
      Consume(ring, event);
    }
  }

  method Produce(ring: AudioRing, event: Event)
    requires ring.Valid() && (event.Push? || event.ProducerStep?)
    modifies ring, ring.samples
    ensures ring.Valid() && ring.State() == Next(old(ring.State()), ring.samples.Length - 1, event)
    ensures ring.output == old(ring.output)
  {
    StateIsValid(ring);
    hide AudioRing.Valid, Kept, PushBegun, PushStepped;
    if event.Push? {
      if ring.producer.Resting? {
        ring.BeginPush(event.input, event.lag);
      }
    } else if ring.producer.Pushing? {
      var _ := ring.StepPush();
    }
  }

  method Consume(ring: AudioRing, event: Event)
    requires ring.Valid() && !event.Push? && !event.ProducerStep?
    modifies ring
    ensures ring.Valid() && ring.State() == Next(old(ring.State()), ring.samples.Length - 1, event)
    ensures old(ring.output) <= ring.output
  {
    StateIsValid(ring);
    hide AudioRing.Valid, Kept, PopBegun, PopStepped, Cleared;
    match event
    case Pop(count, lag) =>
      if ring.consumer.Waiting? {
        ring.BeginPop(count, lag);
      }
    case ConsumerStep =>
      if ring.consumer.Popping? {
        var _ := ring.StepPop();
      }
    case Clear(lag) =>
      if ring.consumer.Waiting? {
        ring.ClearAll(lag);
      }
  }

  /** Any schedule of the two threads, with any staleness, from a new ring. */
  method Run(capacity: nat, schedule: seq<Event>) returns (ring: AudioRing)
    ensures fresh(ring) && ring.samples.Length == capacity + 1
    ensures Faithful(ring) && ring.State() == Played(capacity, schedule)
    ensures (forall e <- schedule :: !e.Clear?) ==> ring.output <= ring.h.accepted
    ensures Admitted(ring.State())
  {
    hide AudioRing.Valid, Next, Kept;
    ring := new AudioRing(capacity);
    for t := 0 to |schedule|
      invariant fresh(ring) && fresh(ring.samples) && ring.samples.Length == capacity + 1
      invariant ring.Valid() && ring.State() == Played(capacity, schedule[..t])
    {
      assert schedule[..t + 1][..t] == schedule[..t];
      Take(ring, schedule[t]);
    }
    assert schedule[..|schedule|] == schedule;
    ValidIsFaithful(ring);
    AcceptedIsAdmitted(capacity, schedule);
    if forall e <- schedule :: !e.Clear? {
      OnlyClearDiscards(capacity, schedule);
    }
  }
}
