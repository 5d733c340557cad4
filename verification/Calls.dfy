/** The order of start and stop callbacks of the transmitter owner machine. */
module Calls {

  datatype Owner = NoOwner | Tune | PhysicalMic | Http | Soapy

  datatype Call = Start(owner: Owner, ok: bool) | Stop(owner: Owner, graceful: bool, ok: bool)

  /** Where a well-bracketed run of callbacks stands. `Failed` has no way out;
      `Broken` is any run that is not well bracketed. */
  datatype Phase = Rest | Owned(owner: Owner) | Undoing(owner: Owner) | Failed | Broken

  function NextPhase(p: Phase, c: Call): Phase {
    match (p, c)
    case (Rest, Start(o, ok)) => if o == NoOwner then Broken else if ok then Owned(o) else Undoing(o)
    case (Owned(o), Stop(s, _, ok)) => if s != o then Broken else if ok then Rest else Failed
    case (Undoing(o), Stop(s, graceful, _)) => if s == o && !graceful then Failed else Broken
    case _ => Broken
  }

  function PhaseOf(calls: seq<Call>): Phase {
    if calls == [] then Rest else NextPhase(PhaseOf(calls[..|calls| - 1]), calls[|calls| - 1])
  }

  lemma PhaseExtend(calls: seq<Call>, c: Call)
    ensures PhaseOf(calls + [c]) == NextPhase(PhaseOf(calls), c)
  {
    assert (calls + [c])[..|calls|] == calls;
  }

  /** An open start is the last callback made. */
  lemma OwnedIsLast(calls: seq<Call>)
    requires PhaseOf(calls).Owned?
    ensures calls != [] && calls[|calls| - 1] == Start(PhaseOf(calls).owner, true)
  {
  }

  /** How a fault came about, from the last two callbacks: the stop of a running
      transmission failed, or a start failed and one stop followed. `reported`
      is whether that stop reported an error; the stop after a failed start
      never does for an owner that has a radio to stop. */
  predicate FaultCame(calls: seq<Call>, reported: bool) {
    |calls| >= 2 &&
    var (start, stop) := (calls[|calls| - 2], calls[|calls| - 1]);
    && start.Start? && stop.Stop? && start.owner == stop.owner
    && reported == !stop.ok
    && (if start.ok then reported else reported == (start.owner == Soapy))
  }

  lemma StopFaults(calls: seq<Call>, graceful: bool)
    requires PhaseOf(calls).Owned?
    ensures FaultCame(calls + [Stop(PhaseOf(calls).owner, graceful, false)], true)
  {
    OwnedIsLast(calls);
  }

  lemma {:induction false} BrokenStays(calls: seq<Call>, i: nat)
    requires i <= |calls| && PhaseOf(calls[..i]) == Broken
    ensures PhaseOf(calls) == Broken
  {
    if i < |calls| {
      assert calls[..|calls| - 1][..i] == calls[..i];
      BrokenStays(calls[..|calls| - 1], i);
    } else {
      assert calls[..i] == calls;
    }
  }

  /** The phases of a run that never broke form one path. */
  lemma StepAt(calls: seq<Call>, i: nat)
    requires PhaseOf(calls) != Broken && i < |calls|
    ensures PhaseOf(calls[..i]) != Broken && PhaseOf(calls[..i + 1]) != Broken
    ensures PhaseOf(calls[..i + 1]) == NextPhase(PhaseOf(calls[..i]), calls[i])
  {
    assert calls[..i + 1] == calls[..i] + [calls[i]];
    PhaseExtend(calls[..i], calls[i]);
    if PhaseOf(calls[..i]) == Broken { BrokenStays(calls, i); }
    if PhaseOf(calls[..i + 1]) == Broken { BrokenStays(calls, i + 1); }
  }

  /** Every start is answered by the stop of the same owner before anything
      else, and every stop answers such a start; only the last start may be
      open, and it is open exactly when the phase is `Owned` (or `Undoing`). */
  lemma Bracketed(calls: seq<Call>, i: nat)
    requires PhaseOf(calls) != Broken && i < |calls|
    ensures calls[i].Start? && i + 1 < |calls| ==>
              calls[i + 1].Stop? && calls[i + 1].owner == calls[i].owner
    ensures calls[i].Stop? ==>
              i > 0 && calls[i - 1].Start? && calls[i - 1].owner == calls[i].owner
    ensures i + 1 == |calls| ==> (calls[i].Start? <==> PhaseOf(calls).Owned? || PhaseOf(calls).Undoing?)
  {
    StepAt(calls, i);
    if i + 1 < |calls| {
      StepAt(calls, i + 1);
    } else {
      assert calls[..i + 1] == calls;
    }
    if i > 0 {
      StepAt(calls, i - 1);
    }
  }

  /** After a failed callback no start is ever issued again. */
  lemma NoStartAfterFailure(calls: seq<Call>, i: nat, j: nat)
    requires PhaseOf(calls) != Broken && i < j < |calls| && !calls[i].ok
    ensures calls[j].Stop? && j == i + 1
  {
    StepAt(calls, i);
    StepAt(calls, i + 1);
    if i + 1 < j {
      StepAt(calls, i + 2);
      assert false;
    }
  }
}
