/** The transmit pipeline of src/usb_rx.c while a graceful stop drains it: a
    queue of audio and eight transfers in flight, completed and resubmitted by
    the USB library in any order, any of them failing. */
module Drain {
  import opened Frame
  import opened TxAudioStream

  const TRANSFERS: nat := 8

  datatype Slot = Slot(submitted: bool, audioFrames: nat)

  /** How a transfer ended. */
  datatype Outcome = Completed | Cancelled | Failed

  /** What the library reports while events are handled. */
  datatype Event =
    | TransferEnds(index: nat, outcome: Outcome, resubmits: bool)
    | PacketArrives(data: seq<Byte>)

  /** One turn of the drain loop: the events handled, whether handling failed,
      and whether the time allowed was over before them. */
  datatype Turn = Turn(events: seq<Event>, failed: bool, late: bool)

  /** The totals a graceful stop reports. */
  datatype Report = Report(requested: nat, drained: nat, discarded: nat)

  /** Audio frames in the submitted transfers. */
  function InFlight(slots: seq<Slot>): nat {
    if slots == [] then 0 else InFlight(slots[..|slots| - 1]) + Carried(slots[|slots| - 1])
  }

  function Carried(slot: Slot): nat {
    if slot.submitted then slot.audioFrames else 0
  }

  lemma {:induction false} InFlightUpdate(slots: seq<Slot>, index: nat, slot: Slot)
    requires index < |slots|
    ensures InFlight(slots[index := slot]) + Carried(slots[index]) == InFlight(slots) + Carried(slot)
  {
    var n := |slots| - 1;
    if index < n {
      InFlightUpdate(slots[..n], index, slot);
      assert slots[index := slot][..n] == slots[..n][index := slot];
    } else {
      assert slots[index := slot][..n] == slots[..n];
    }
  }

  // ---- the drain on plain values ----

  /** The audio queued, the transfers, and whether the stream still runs; the
      frames sent in completed transfers, and those in transfers that failed,
      were cancelled or could not be resubmitted. */
  datatype Flow = Flow(queued: nat, slots: seq<Slot>, streaming: bool, running: bool, sent: nat, lost: nat)

  function Pending(f: Flow): nat {
    f.queued + InFlight(f.slots)
  }

  /** The frames the next transfer of `frames` takes off the queue. */
  function Refill(f: Flow, frames: nat): nat {
    if f.queued < frames then f.queued else frames
  }

  predicate Refills(f: Flow, outcome: Outcome) {
    f.streaming && f.running && outcome != Failed
  }

  /** A submitted transfer ends, and while the stream runs it is filled and
      submitted again. */
  function Ended(f: Flow, frames: nat, index: nat, outcome: Outcome, resubmits: bool): Flow
    requires index < |f.slots|
  {
    var carried := f.slots[index].audioFrames;
    var sent := f.sent + if outcome == Completed then carried else 0;
    var lost := f.lost + if outcome == Completed then 0 else carried;
    if !Refills(f, outcome) then
      Flow(f.queued, f.slots[index := Slot(false, 0)],
           f.streaming && outcome != Failed, f.running && outcome != Failed, sent, lost)
    else
      var taken := Refill(f, frames);
      Flow(f.queued - taken, f.slots[index := Slot(resubmits, taken)], resubmits, resubmits, sent,
           lost + if resubmits then 0 else taken)
  }

  /** With no audio accepted, packets change nothing. */
  function Handled(f: Flow, frames: nat, e: Event): Flow {
    match e
    case TransferEnds(index, outcome, resubmits) =>
      if index < |f.slots| && f.slots[index].submitted then Ended(f, frames, index, outcome, resubmits) else f
    case PacketArrives(_) => f
  }

  function HandledAll(f: Flow, frames: nat, events: seq<Event>): Flow {
    if events == [] then f
    else Handled(HandledAll(f, frames, events[..|events| - 1]), frames, events[|events| - 1])
  }

  /** The whole drain and the number of turns it took. */
  function Drained(f: Flow, frames: nat, schedule: seq<Turn>): (r: (Flow, nat))
    ensures r.1 <= |schedule|
    decreases |schedule|
  {
    if schedule == [] || Pending(f) == 0 || schedule[0].late then (f, 0)
    else
      var g := HandledAll(f, frames, schedule[0].events);
      if schedule[0].failed || !g.streaming || !g.running then (g, 1)
      else
        var (end, turns) := Drained(g, frames, schedule[1..]);
        (end, turns + 1)
  }

  /** An event that loses no audio: a transfer carrying audio completes, and one
      that is refilled with audio is resubmitted. */
  predicate Harmless(f: Flow, frames: nat, e: Event) {
    match e
    case TransferEnds(index, outcome, resubmits) =>
      index < |f.slots| && f.slots[index].submitted ==>
        && (f.slots[index].audioFrames > 0 ==> outcome == Completed)
        && (Refills(f, outcome) && Refill(f, frames) > 0 ==> resubmits)
    case PacketArrives(_) => true
  }

  predicate AllHarmless(f: Flow, frames: nat, events: seq<Event>) {
    events == [] ||
    var n := |events| - 1;
    AllHarmless(f, frames, events[..n]) && Harmless(HandledAll(f, frames, events[..n]), frames, events[n])
  }

  /** No event handled during the drain loses audio. */
  predicate HarmlessDrain(f: Flow, frames: nat, schedule: seq<Turn>)
    decreases |schedule|
  {
    if schedule == [] || Pending(f) == 0 || schedule[0].late then true
    else
      var g := HandledAll(f, frames, schedule[0].events);
      && AllHarmless(f, frames, schedule[0].events)
      && (schedule[0].failed || !g.streaming || !g.running || HarmlessDrain(g, frames, schedule[1..]))
  }

  /** No frame appears or disappears, and the stream never comes back. */
  ghost predicate Conserved(before: Flow, after: Flow) {
    && |after.slots| == |before.slots|
    && before.sent <= after.sent && before.lost <= after.lost
    && Pending(after) + after.sent + after.lost == Pending(before) + before.sent + before.lost
    && (after.streaming ==> before.streaming) && (after.running ==> before.running)
  }

  lemma HandledConserves(f: Flow, frames: nat, e: Event)
    ensures Conserved(f, Handled(f, frames, e))
    ensures Handled(f, frames, e).lost == f.lost <==> Harmless(f, frames, e)
  {
    hide InFlight;
    match e
    case TransferEnds(index, outcome, resubmits) =>
      if index < |f.slots| && f.slots[index].submitted {
        InFlightUpdate(f.slots, index, Ended(f, frames, index, outcome, resubmits).slots[index]);
      }
    case PacketArrives(_) =>
  }

  /** While the stream runs, a transfer that comes back takes the oldest queued
      frames out again, as many as it holds; once it has stopped, none does. */
  lemma ReturnsAreRefilled(f: Flow, frames: nat, index: nat, outcome: Outcome, resubmits: bool)
    requires index < |f.slots| && f.slots[index].submitted
    ensures var after := Handled(f, frames, TransferEnds(index, outcome, resubmits));
            if f.streaming && f.running && outcome != Failed then
              && f.queued - after.queued == (if f.queued < frames then f.queued else frames)
              && after.slots[index] == Slot(resubmits, f.queued - after.queued)
              && after.streaming == after.running == resubmits
            else
              && after.queued == f.queued && !after.slots[index].submitted
              && (outcome == Failed ==> !after.streaming && !after.running)
  {
  }

  lemma {:induction false} HandledAllConserves(f: Flow, frames: nat, events: seq<Event>)
    ensures Conserved(f, HandledAll(f, frames, events))
    ensures HandledAll(f, frames, events).lost == f.lost <==> AllHarmless(f, frames, events)
  {
    hide InFlight, Handled, Harmless;
    if events != [] {
      var n := |events| - 1;
      HandledAllConserves(f, frames, events[..n]);
      HandledConserves(HandledAll(f, frames, events[..n]), frames, events[n]);
    }
  }

  /** Over a whole drain every frame stays pending, is sent or is lost, and
      frames are lost exactly when some event was not harmless. */
  lemma {:induction false} DrainedConserves(f: Flow, frames: nat, schedule: seq<Turn>)
    ensures Conserved(f, Drained(f, frames, schedule).0)
    ensures Drained(f, frames, schedule).0.lost == f.lost <==> HarmlessDrain(f, frames, schedule)
    decreases |schedule|
  {
    hide InFlight, HandledAll, AllHarmless;
    if schedule != [] && Pending(f) != 0 && !schedule[0].late {
      var g := HandledAll(f, frames, schedule[0].events);
      HandledAllConserves(f, frames, schedule[0].events);
      if !schedule[0].failed && g.streaming && g.running {
        DrainedConserves(g, frames, schedule[1..]);
      }
    }
  }

  /** The events of the first turns. */
  function EventsOf(schedule: seq<Turn>): seq<Event> {
    if schedule == [] then [] else schedule[0].events + EventsOf(schedule[1..])
  }

  /** A drain goes on until it may stop: all the events of its turns are handled,
      and it ends only with nothing pending, the time over, the schedule at its
      end, handling failed or the stream broken. */
  lemma {:induction false} DrainGoesOn(f: Flow, frames: nat, schedule: seq<Turn>)
    ensures var (end, turns) := Drained(f, frames, schedule);
            && end == HandledAll(f, frames, EventsOf(schedule[..turns]))
            && (|| turns == |schedule| || Pending(end) == 0 || schedule[turns].late
                || (turns > 0 && (schedule[turns - 1].failed || !end.streaming || !end.running)))
            && (forall t :: 0 <= t < turns ==> !schedule[t].late)
            && (forall t :: 0 <= t < turns - 1 ==> !schedule[t].failed)
    decreases |schedule|
  {
    hide HandledAll, Pending;
    if schedule == [] || Pending(f) == 0 || schedule[0].late {
      NothingHandled(f, frames);
    } else {
      var g := HandledAll(f, frames, schedule[0].events);
      var (end, turns) := Drained(f, frames, schedule);
      assert schedule[..turns][0] == schedule[0] && schedule[..turns][1..] == schedule[1..turns];
      if schedule[0].failed || !g.streaming || !g.running {
        assert schedule[1..1] == [] && EventsOf([]) == [] && schedule[0].events + [] == schedule[0].events;
      } else {
        DrainGoesOn(g, frames, schedule[1..]);
        assert schedule[1..][..turns - 1] == schedule[1..turns];
        HandledBoth(f, frames, schedule[0].events, EventsOf(schedule[1..turns]));
        assert forall t :: 1 <= t < turns ==> schedule[t] == schedule[1..][t - 1];
      }
    }
  }

  lemma NothingHandled(f: Flow, frames: nat)
    ensures HandledAll(f, frames, []) == f
  {
  }

  lemma {:induction false} HandledBoth(f: Flow, frames: nat, a: seq<Event>, b: seq<Event>)
    ensures HandledAll(f, frames, a + b) == HandledAll(HandledAll(f, frames, a), frames, b)
  {
    hide Handled;
    if b == [] {
      assert a + b == a;
    } else {
      var n := |b| - 1;
      HandledBoth(f, frames, a, b[..n]);
      assert (a + b)[..|a| + n] == a + b[..n];
    }
  }

  /** It happens: of eight transfers one carries audio and fails, and all of it
      counts as drained although none of it was sent. */
  lemma LostCountsAsDrained(frames: nat)
    ensures var f := Flow(0, seq(TRANSFERS, _ => Slot(true, 0))[0 := Slot(true, 480)], true, true, 0, 0);
            var end := Drained(f, frames, [Turn([TransferEnds(0, Failed, false)], false, false)]).0;
            Pending(f) - Pending(end) == 480 && end.sent == 0 && end.lost == 480
  {
    hide InFlight;
    var silent := seq(TRANSFERS, _ => Slot(true, 0));
    var f := Flow(0, silent[0 := Slot(true, 480)], true, true, 0, 0);
    var e := TransferEnds(0, Failed, false);
    InFlightUpdate(silent, 0, Slot(true, 480));
    NothingCarried(silent);
    NothingCarried(f.slots[0 := Slot(false, 0)]);
    assert [e][..0] == [];
    assert HandledAll(f, frames, [e]) == Handled(HandledAll(f, frames, []), frames, e);
  }

  lemma {:induction false} NothingCarried(slots: seq<Slot>)
    requires forall s <- slots :: Carried(s) == 0
    ensures InFlight(slots) == 0
  {
    if slots != [] {
      NothingCarried(slots[..|slots| - 1]);
      assert slots[|slots| - 1] in slots;
    }
  }

  class Pipeline {
    const stream: AudioStream
    const slots: array<Slot>
    const framesPerTransfer: nat
    var streaming: bool
    var running: bool
    var accepting: bool
    var microphone: bool
    var capture: bool
    var report: Report
    ghost var sent: nat
    ghost var lost: nat

    ghost predicate Valid()
      reads this, stream, stream.dsp, stream.dsp.audioHistory, stream.dsp.filteredHistory
    {
      slots.Length == TRANSFERS && stream.Valid()
    }

    ghost function Now(): Flow
      reads this, stream, slots
    {
      Flow(stream.count, slots[..], streaming, running, sent, lost)
    }

    /** Frames queued or in flight. */
    function PendingFrames(): nat
      reads this, stream, slots
    {
      if microphone then stream.count + InFlight(slots[..]) else 0
    }

    /** A pipeline with nothing in flight, not streaming. */
    constructor (stream: AudioStream, framesPerTransfer: nat)
      requires stream.Valid()
      ensures Valid() && this.stream == stream && fresh(slots) && !streaming
      ensures report == Report(0, 0, 0) && sent == lost == 0 && !microphone
    {
      this.stream, this.framesPerTransfer := stream, framesPerTransfer;
      slots := new Slot[TRANSFERS](_ => Slot(false, 0));
      streaming, running, accepting, microphone, capture := false, true, false, false, false;
      report, sent, lost := Report(0, 0, 0), 0, 0;
    }

    /** The completion callback of a transmit transfer. */
    method TransferEnds(index: nat, outcome: Outcome, resubmits: bool)
      requires Valid() && microphone && index < TRANSFERS && slots[index].submitted
      modifies this`streaming, this`running, this`sent, this`lost, slots
      modifies stream`readIndex, stream`count, stream`rawPhase, stream`translated, stream`books, stream`fadePosition
      modifies stream.dsp, stream.dsp.audioHistory, stream.dsp.filteredHistory
      ensures Valid() && Now() == Ended(old(Now()), framesPerTransfer, index, outcome, resubmits)
    {
      hide InFlight, AudioStream.Valid;
      ghost var carried := slots[index].audioFrames;
      slots[index] := Slot(false, 0);
      if outcome == Completed {
        sent := sent + carried;
      } else {
        lost := lost + carried;
      }
      if outcome == Failed {
        streaming, running := false, false;
      }
      ghost var freed := slots[..];
      assert freed == old(slots[..])[index := Slot(false, 0)];
      if streaming && running {
        Resubmit(index, resubmits);
        assert freed[index := slots[index]] == old(slots[..])[index := slots[index]];
      }
    }

    /** Fills a free transfer from the queue and submits it again. */
    method Resubmit(index: nat, resubmits: bool)
      requires Valid() && index < TRANSFERS && streaming && running
      modifies this`streaming, this`running, this`lost, slots
      modifies stream`readIndex, stream`count, stream`rawPhase, stream`translated, stream`books, stream`fadePosition
      modifies stream.dsp, stream.dsp.audioHistory, stream.dsp.filteredHistory
      ensures Valid() && sent == old(sent)
      ensures var taken := Refill(old(Now()), framesPerTransfer);
              && stream.count == old(stream.count) - taken
              && slots[..] == old(slots[..])[index := Slot(resubmits, taken)]
              && lost == old(lost) + (if resubmits then 0 else taken)
              && streaming == running == resubmits
    {
      hide InFlight, AudioStream.Valid, Rendered, TapeAfter, SilentFrom, AudioStream.Remaining, AudioStream.Conditions;
      var before := stream.count;
      var _ := stream.Render(framesPerTransfer);
      var taken := before - stream.count;
      slots[index] := Slot(resubmits, taken);
      if !resubmits {
        lost := lost + taken;
        streaming, running := false, false;
      }
    }

    /** A microphone packet: queued only while audio is accepted. */
    method PacketArrives(data: seq<Byte>)
      requires Valid() && microphone
      modifies stream`writeIndex, stream`count, stream`books, stream.microphone, stream.networkIq
      ensures Valid()
      ensures !accepting ==> Now() == old(Now())
    {
      hide AudioStream.Valid;
      if capture && accepting {
        var _ := stream.PushIq16(data);
      }
    }

    /** What the library reports in one turn. */
    method HandleEvents(events: seq<Event>)
      requires Valid() && microphone && !accepting
      modifies this`streaming, this`running, this`sent, this`lost, slots
      modifies stream, stream.microphone, stream.networkIq
      modifies stream.dsp, stream.dsp.audioHistory, stream.dsp.filteredHistory
      ensures Valid() && Now() == HandledAll(old(Now()), framesPerTransfer, events)
    {
      hide AudioStream.Valid, InFlight, Ended;
      for e := 0 to |events|
        invariant Valid() && Now() == HandledAll(old(Now()), framesPerTransfer, events[..e])
      {
        assert events[..e + 1][..e] == events[..e];
        match events[e]
        case TransferEnds(index, outcome, resubmits) =>
          if index < TRANSFERS && slots[index].submitted {
            TransferEnds(index, outcome, resubmits);
          }
        case PacketArrives(data) => PacketArrives(data);
      }
      assert events[..|events|] == events;
    }

    /** The graceful stop up to the unkey: no more audio is taken, and events are
        handled until nothing is pending, the time is over, handling failed or
        the stream broke. What was requested is exactly what was drained or is
        discarded; the drained frames are those sent and those lost on the way,
        and they were all sent exactly when the drain was harmless. */
    method DrainAudio(schedule: seq<Turn>)
      requires Valid()
      modifies this`accepting, this`streaming, this`running, this`report, this`sent, this`lost, slots
      modifies stream, stream.microphone, stream.networkIq
      modifies stream.dsp, stream.dsp.audioHistory, stream.dsp.filteredHistory
      ensures Valid() && !accepting
      ensures Now() == if microphone then Drained(old(Now()), framesPerTransfer, schedule).0 else old(Now())
      ensures Conserved(old(Now()), Now()) && PendingFrames() <= old(PendingFrames())
      ensures report.requested == old(report).requested + old(PendingFrames())
      ensures report.discarded == old(report).discarded + PendingFrames()
      ensures report.drained == old(report).drained + (sent - old(sent)) + (lost - old(lost))
      ensures report.drained + report.discarded - report.requested ==
              old(report).drained + old(report).discarded - old(report).requested
      ensures microphone ==>
                (report.drained - old(report).drained == sent - old(sent) <==>
                   HarmlessDrain(old(Now()), framesPerTransfer, schedule))
    {
      hide AudioStream.Valid, InFlight, HarmlessDrain, Drained;
      accepting := false;
      stream.BeginGracefulStop();
      var requested := PendingFrames();
      report := report.(requested := report.requested + requested);
      ghost var start := Now();
      if microphone {
        DrainLoop(schedule);
      }
      var discarded := PendingFrames();
      assert Conserved(start, Now()) by {
        DrainedConserves(start, framesPerTransfer, schedule);
      }
      assert microphone ==> (lost == start.lost <==> HarmlessDrain(start, framesPerTransfer, schedule)) by {
        DrainedConserves(start, framesPerTransfer, schedule);
      }
      report := report.(drained := report.drained + (requested - discarded), discarded := report.discarded + discarded);
    }

    /** The drain loop. */
    method DrainLoop(schedule: seq<Turn>)
      requires Valid() && microphone && !accepting
      modifies this`streaming, this`running, this`sent, this`lost, slots
      modifies stream, stream.microphone, stream.networkIq
      modifies stream.dsp, stream.dsp.audioHistory, stream.dsp.filteredHistory
      ensures Valid() && Now() == Drained(old(Now()), framesPerTransfer, schedule).0
    {
      hide AudioStream.Valid, InFlight, HandledAll;
      ghost var all := Drained(Now(), framesPerTransfer, schedule).0;
      var turn := 0;
      while turn < |schedule| && PendingFrames() != 0 && !schedule[turn].late
        invariant turn <= |schedule| && Valid()
        invariant Drained(Now(), framesPerTransfer, schedule[turn..]).0 == all
      {
        assert schedule[turn..][1..] == schedule[turn + 1..];
        HandleEvents(schedule[turn].events);
        turn := turn + 1;
        if schedule[turn - 1].failed || !streaming || !running {
          assert Now() == all;
          return;
        }
      }
    }
  }
}
