/** The USB receiver object: tuning, key-up and unkey sequences (src/usb_rx.c).

    Every command and stream operation may fail, and a failed command may still
    have reached the radio; `log` is the ghost record of both and `digest` its
    running summary. */
module UsbRx {
  import opened Common
  import opened Protocol
  import opened Trace
  import opened TxLifecycle

  /** How far the current key-up has got. "Attempted" is set before the command is sent. */
  datatype Stage = Stage(
    prepared: bool, active: bool, keyed: bool,
    keyAttempted: bool, transitionAttempted: bool, frequencyAttempted: bool)
  {
    predicate Ordered() {
      && (active ==> keyed) && (keyed ==> keyAttempted)
      && (keyAttempted ==> frequencyAttempted) && (frequencyAttempted ==> prepared)
      && (transitionAttempted ==> prepared)
    }
  }

  const NOT_STARTED := Stage(false, false, false, false, false, false)
  const ON_AIR := Stage(true, true, true, true, false, true)

  /** The transmit sample stream; `slots` holds while transfers are allocated. */
  datatype Stream = Stream(
    streaming: bool, slots: bool, microphone: bool, capture: bool, accepting: bool)

  const NO_STREAM := Stream(false, false, false, false, false)

  datatype Preparation = Preparation(
    transmitPrepared: bool, ampAttempted: bool, paKnown: bool, pa: nat)

  datatype Tuning = Tuning(frequencyKnown: bool, frequencyHz: nat, filterKnown: bool, filter: nat)

  class Receiver {
    var handleOpen: bool
    var running: bool
    var stage: Stage
    var stream: Stream
    var preparation: Preparation
    var tuning: Tuning
    /** The receive gain in decibels, once a gain command has succeeded. */
    var gain: Option<int>

    ghost var log: Log
    ghost var digest: Digest
    /** How many stops have let queued audio drain first. */
    ghost var drains: nat
    /** What the current key-up is for; meaningful while `Active`. */
    ghost var job: Job

    ghost predicate Idle()
      reads this`stage, this`stream
    {
      stage == NOT_STARTED && !stream.streaming && !stream.slots && !stream.microphone
    }

    ghost predicate Active()
      reads this
    {
      && stage == ON_AIR && stream.slots
      && preparation.transmitPrepared && preparation.paKnown
      && tuning.frequencyKnown && !job.Receive? && job.frequency == tuning.frequencyHz
      && digest.inWindow && digest.radio.keyed && !digest.radio.muted
      && KeyReady(digest.radio.(muted := true), job)
    }

    /** Between two calls the receiver is fully idle or fully transmitting. */
    ghost predicate Settled()
      reads this
    {
      Idle() || Active()
    }

    ghost predicate Valid()
      reads this`log, this`digest, this`stage, this`stream, this`tuning
    {
      && digest == Summary(log)
      && digest.wellFormed && digest.disciplined
      && stage.Ordered() && (digest.inWindow ==> stage.keyAttempted)
      && (stream.streaming ==> stream.slots) && (stream.microphone ==> stream.slots)
      && stream.slots == digest.radio.streaming
      && (tuning.frequencyKnown ==> InRange(tuning.frequencyHz))
    }

    lemma DigestIs()
      requires Valid()
      ensures digest.radio == Replay(log) && digest.mayBeKeyed == MayBeKeyed(log)
    {
      SummaryIs(log);
    }

    /** Unkeyed, unmuted and silent. */
    ghost predicate RestExceptWord()
      reads this
    {
      && !digest.mayBeKeyed && !digest.inWindow
      && !digest.radio.keyed && !digest.radio.muted && !digest.radio.streaming
    }

    /** The last tuning command reported done was to the held frequency: only a
        tuning command that failed since can have moved the radio off it. */
    ghost predicate WordHeld()
      reads this
    {
      tuning.frequencyKnown ==> RxWord(tuning.frequencyHz) == Some(digest.word.confirmed)
    }

    /** And none has failed since. */
    ghost predicate WordCertain()
      reads this
    {
      tuning.frequencyKnown ==>
        InRange(tuning.frequencyHz) && digest.word.Certain(RxWord(tuning.frequencyHz).value)
    }

    /** At rest on the receive word of the held frequency. */
    ghost predicate AtRest()
      reads this
    {
      && RestExceptWord()
      && (tuning.frequencyKnown ==> RxWord(tuning.frequencyHz) == Some(digest.radio.word))
    }

    /** At rest with the amplifier off and the PA filter of the held frequency. */
    ghost predicate Quiet()
      reads this
    {
      && AtRest() && !digest.radio.amp
      && (tuning.frequencyKnown && preparation.paKnown ==>
            PaFilter(tuning.frequencyHz) == Some(digest.radio.pa))
    }

    /** The freshly initialised receiver: INITIALIZE has unkeyed the radio. */
    constructor ()
      ensures Valid() && Idle() && AtRest() && log == []
      ensures handleOpen && running && !preparation.transmitPrepared && !tuning.frequencyKnown
    {
      handleOpen, running := true, true;
      stage, stream := NOT_STARTED, NO_STREAM;
      preparation := Preparation(false, false, false, 0);
      tuning, gain := Tuning(false, 0, false, 0), None;
      log, digest, job, drains := [], EMPTY_DIGEST, Receive, 0;
    }

    ghost method Record(e: Entry)
      requires digest == Summary(log)
      modifies this`log, this`digest
      ensures log == old(log) + [e] && digest == Next(old(digest), e) == Summary(log)
    {
      SummaryExtend(log, e);
      log, digest := log + [e], Next(digest, e);
    }

    /** Sends one command. The host learns `ok`; on failure the radio may or
        may not have acted. Waiting for the transfer handles other completions
        too, any of which may report a dead stream or device. */
    method Send(c: Command, purpose: Job) returns (ok: bool, ghost applied: bool)
      requires digest == Summary(log)
      modifies this`log, this`digest, this`stream, this`running
      ensures ok ==> applied
      ensures StreamAfter(old(stream), stream, false) && (running ==> old(running))
      ensures var e := Entry(c, ok, applied, purpose);
              log == old(log) + [e] && digest == Next(old(digest), e) == Summary(log)
    {
      ok := *;
      applied := *;
      applied := ok || applied;
      Completions();
      Record(Entry(c, ok, applied, purpose));
    }

    /** Starts the endpoint-0x01 stream; a failed start releases every transfer. */
    method StartTxStream(generatedAudio: bool, purpose: Job) returns (ok: bool)
      requires Valid() && !stream.slots && !digest.inWindow
      modifies this`log, this`digest, this`stream, this`running
      ensures Valid()
      ensures stream == if ok then Stream(true, true, generatedAudio, old(stream.capture), generatedAudio)
                        else NO_STREAM
      ensures if ok then running == old(running) else running ==> old(running)
      ensures Quietly(old(digest), digest, StartStream, ok) &&
              digest.radio == old(digest.radio).(streaming := ok)
    {
      hide KeyReady, JobAllowed, Summary, Next, Quietly, InRange, Stage.Ordered;
      ok := *;
      if ok {
        stream := Stream(true, true, generatedAudio, stream.capture, generatedAudio);
      } else {
        // Completions of already submitted transfers may report a dead device.
        var healthy: bool := *;
        running := running && healthy;
        stream := NO_STREAM;
      }
      Record(Entry(StartStream, ok, ok, purpose));
      NextStarted(old(digest), Entry(StartStream, ok, ok, purpose));
    }

    /** Services USB events for a while; transfers completing meanwhile may end
        the stream, in which case servicing reports failure. */
    method ServiceTxStream(purpose: Job) returns (ok: bool)
      requires Valid()
      modifies this`log, this`digest, this`stream, this`running
      ensures Valid()
      ensures ok ==> stream == old(stream) && running == old(running)
      ensures stream == old(stream) || stream == old(stream).(streaming := false)
      ensures running ==> old(running)
      ensures digest == old(digest).(failures := old(digest.failures) + if ok then 0 else 1)
    {
      hide Summary, Next, KeyReady, InRange, Stage.Ordered;
      ok := *;
      if !ok {
        Completions();
      }
      Record(Entry(Service, ok, ok, purpose));
      NextServiced(old(digest), Entry(Service, ok, ok, purpose));
    }

    /** Completion callbacks handled meanwhile. */
    method Completions()
      modifies this`stream, this`running
      ensures StreamAfter(old(stream), stream, false) && (running ==> old(running))
    {
      var streamLost: bool, deviceLost: bool := *, *;
      if streamLost {
        stream := stream.(streaming := false);
      }
      running := running && !deviceLost;
    }

    /** A completion callback reporting a dead stream or device. */
    method StreamFault()
      requires Valid()
      modifies this`stream, this`running
      ensures Valid()
      ensures stream == old(stream) || stream == old(stream).(streaming := false)
      ensures running ==> old(running)
      ensures old(Idle()) ==> Idle()
      ensures old(Active()) ==> Active()
    {
      Completions();
    }

    method ReleaseTxStream()
      requires Valid() && !digest.inWindow
      modifies this`log, this`digest, this`stream, this`running
      ensures Valid() && stream == NO_STREAM && (running ==> old(running))
      ensures CommandDone(old(digest), digest, Some(StopStream), true)
    {
      hide Summary, Next, CommandDone, InRange, Stage.Ordered;
      var healthy: bool := *;
      running := running && healthy;
      stream := NO_STREAM;
      Record(Entry(StopStream, true, true, Receive));
      NextStopped(old(digest), Entry(StopStream, true, true, Receive));
    }

    function PartialState(): Partial
      reads this
    {
      Partial(
        preparation.paKnown,
        preparation.ampAttempted || preparation.transmitPrepared,
        stream.streaming || stream.slots,
        stage.transitionAttempted,
        stage.frequencyAttempted,
        stage.keyAttempted || stage.keyed || stage.active)
    }

    /** What cleanup restores: the held receive word, and the PA filter of the
        held frequency if transmit preparation is to be preserved, else filter 0. */
    function CleanupTarget(preservePa: bool): Target
      requires tuning.frequencyKnown ==> InRange(tuning.frequencyHz)
      reads this`tuning
    {
      Target(
        if tuning.frequencyKnown then RxWord(tuning.frequencyHz) else None,
        if preservePa && tuning.frequencyKnown then PaFilter(tuning.frequencyHz).value else 0)
    }

    /** Sends one command of a cleanup; none of them keys the radio. */
    method SendCleanup(c: Command) returns (ok: bool)
      requires Valid() && !c.StartStream? && !c.StopStream? && !c.Service? && c != SetTr(true)
      requires digest.inWindow ==> WindowCommand(c)
      modifies this`log, this`digest, this`stream, this`running
      ensures Valid() && CommandDone(old(digest), digest, Some(c), ok)
      ensures StreamAfter(old(stream), stream, false) && (running ==> old(running))
    {
      hide Summary, Next, CommandDone, InRange, Stage.Ordered;
      ghost var applied;
      ok, applied := Send(c, Receive);
      NextCleanup(old(digest), Entry(c, ok, applied, Receive));
    }

    method RestoreRxWord() returns (ok: bool)
      requires Valid() && !digest.inWindow
      modifies this`log, this`digest, this`stream, this`running
      ensures Valid() && (running ==> old(running))
      ensures CommandDone(old(digest), digest, ActionCommand(RestoreRxFrequency, CleanupTarget(true)), ok)
      ensures StreamAfter(old(stream), stream, false)
    {
      hide Summary, KeyReady, Stage.Ordered;
      ok := true;
      if tuning.frequencyKnown {
        ok := SendCleanup(SetWord(RxWord(tuning.frequencyHz).value));
        if ok && stream.streaming && running {
          ok := ServiceTxStream(Receive);
        }
      }
    }

    method ResetPa(preservePa: bool) returns (ok: bool)
      requires Valid() && !digest.inWindow
      modifies this`log, this`digest, this`stream, this`running, this`preparation
      ensures Valid() && (running ==> old(running))
      ensures StreamAfter(old(stream), stream, false)
      ensures CommandDone(old(digest), digest, ActionCommand(ResetPaFilter, CleanupTarget(preservePa)), ok)
      ensures preparation == PreparationAfter(
                old(preparation), CleanupTarget(preservePa), preservePa, true)
    {
      hide Summary, KeyReady, InRange, Stage.Ordered;
      var filter := 0;
      if preservePa && tuning.frequencyKnown {
        filter := PaFilter(tuning.frequencyHz).value;
      }
      ok := SendCleanup(SetPaFilter(filter));
      preparation := preparation.(pa := filter, paKnown := preservePa);
    }

    method ExecuteCleanupAction(action: Action, preservePa: bool) returns (ok: bool)
      requires Valid()
      requires digest.inWindow ==> action == TransitionMute || action == Unkey
      modifies this`log, this`digest, this`stream, this`running, this`preparation
      ensures Valid() && (running ==> old(running))
      ensures ActionDone(old(Ledger()), Ledger(), action, CleanupTarget(preservePa), preservePa, ok)
    {
      hide CommandDone, Valid;
      match action
      case TransitionMute =>
        ok := SendCleanup(SetMute(true));
      case Unkey =>
        ok := SendCleanup(SetTr(false));
      case RestoreRxFrequency =>
        ok := RestoreRxWord();
      case TransitionUnmute =>
        ok := SendCleanup(SetMute(false));
      case ResetPaFilter =>
        ok := ResetPa(preservePa);
      case DisableAmplifier =>
        ok := SendCleanup(SetAmp(false));
      case StopTxStream =>
        ReleaseTxStream();
        ok := true;
    }

    /** The host-side bookkeeping a cleanup touches. */
    ghost function Ledger(): Books
      reads this
    {
      Books(digest, stream, preparation)
    }

    /** Runs every planned action in safety order, even after an error, and
        reports whether all of them succeeded. */
    method ExecuteCleanup(plan: set<Action>, preservePa: bool) returns (ok: bool)
      requires Valid() && (digest.inWindow ==> Unkey in plan)
      modifies this`log, this`digest, this`stream, this`running, this`preparation
      ensures Valid() && (running ==> old(running))
      ensures CleanupDone(old(Ledger()), Ledger(), plan, CleanupTarget(preservePa), preservePa, |ORDER|, ok)
    {
      ok := true;
      ghost var start, target := Ledger(), CleanupTarget(preservePa);
      CleanupStart(start, plan, target, preservePa);
      hide CleanupDone, Valid, InRange;
      for i := 0 to |ORDER|
        invariant Valid() && (running ==> old(running))
        invariant CleanupDone(start, Ledger(), plan, target, preservePa, i, ok)
      {
        ok := CleanupTurn(start, target, plan, preservePa, i, ok);
      }
    }

    /** One turn of that loop. */
    method CleanupTurn(
      ghost start: Books, ghost target: Target, plan: set<Action>, preservePa: bool, i: nat, soFar: bool)
      returns (ok: bool)
      requires Valid() && i < |ORDER| && target == CleanupTarget(preservePa)
      requires CleanupDone(start, Ledger(), plan, target, preservePa, i, soFar)
      requires start.digest.inWindow ==> Unkey in plan
      modifies this`log, this`digest, this`stream, this`running, this`preparation
      ensures Valid() && (running ==> old(running))
      ensures CleanupDone(start, Ledger(), plan, target, preservePa, i + 1, ok)
    {
      hide CleanupDone, ActionDone, Valid, InRange;
      var action := ORDER[i];
      ghost var before := Ledger();
      if action in plan {
        CleanupMayAct(start, before, plan, target, preservePa, i, soFar);
        var done := ExecuteCleanupAction(action, preservePa);
        CleanupStep(start, before, Ledger(), plan, target, preservePa, i, soFar, done);
        ok := soFar && done;
      } else {
        CleanupSkip(start, before, plan, target, preservePa, i, soFar);
        ok := soFar;
      }
    }

    /** Unkeys and undoes a transmission from any stage of a start. Every planned
        action is attempted; the result is whether all succeeded. */
    method CarrierStop() returns (ok: bool)
      requires Valid()
      modifies this`log, this`digest, this`stream, this`running, this`preparation, this`stage
      ensures Valid() && (running ==> old(running))
      ensures !handleOpen ==> !ok && stage == old(stage) && Ledger() == old(Ledger())
      ensures handleOpen && NothingToStop(old(stage), old(stream)) ==>
                ok && LeftAlone()
      ensures handleOpen && !NothingToStop(old(stage), old(stream)) ==>
                && stage == NOT_STARTED && stream.slots == stream.streaming == stream.microphone == false
                && !digest.inWindow
                && StopDone(old(Ledger()), Ledger(), old(PartialState()),
                            CleanupTarget(old(preparation.transmitPrepared)), ok)
    {
      if !handleOpen {
        return false;
      }
      if NothingToStop(stage, stream) {
        return true;
      }
      PlanIs(PartialState());
      ghost var partial := PartialState();
      var plan := Plan(PartialState());
      ghost var before := Ledger();
      var preservePa := preparation.transmitPrepared;
      ok := ExecuteCleanup(plan, preservePa);
      ghost var target := CleanupTarget(preservePa);
      StopIsDone(before, Ledger(), plan, partial, target, preservePa, ok);
      stage := NOT_STARTED;
      // The plan has already stopped any stream, so the program's second check finds none.
      assert !stream.streaming && !stream.slots;
    }

    /** Sends one command of a key-up other than SET_TR(1). */
    method SendStart(c: Command, purpose: Job) returns (ok: bool)
      requires Valid() && !digest.inWindow
      requires Setting(c)
      modifies this`log, this`digest, this`stream, this`running
      ensures Valid() && Quietly(old(digest), digest, c, ok)
      ensures StreamAfter(old(stream), stream, false) && (running ==> old(running))
    {
      hide Summary, Next, Quietly, InRange, Stage.Ordered;
      ghost var applied;
      ok, applied := Send(c, purpose);
      NextQuietly(old(digest), Entry(c, ok, applied, purpose));
    }

    /** Key-up, first part: PA filter, amplifier, transmit stream and its pre-roll. */
    method PrepareStream(filter: nat, generatedAudio: bool, purpose: Job) returns (ok: bool)
      requires Valid() && !stream.slots && !digest.inWindow
      modifies this`log, this`digest, this`stream, this`running, this`preparation
      ensures Valid() && (running ==> old(running)) && !digest.inWindow
      ensures Untouched(old(digest), digest, NOT_STARTED)
      ensures digest.keysAllowed == old(digest.keysAllowed)
      ensures preparation == old(preparation) ||
              preparation == old(preparation).(pa := filter, paKnown := true)
      ensures ok ==>
                && preparation.paKnown && stream.slots && digest.radio.pa == filter
                && digest.radio.amp && digest.radio.streaming
      ensures ok ==> stream == Stream(stream.streaming, true, generatedAudio, old(stream.capture), generatedAudio)
      ensures Attempted(old(digest), digest, [SetPaFilter(filter), SetAmp(true), StartStream], ok)
    {
      hide Valid, Attempted;
      ghost var before := digest;
      assert [SetPaFilter(filter), SetAmp(true)] + [StartStream] == [SetPaFilter(filter), SetAmp(true), StartStream];
      ok := SelectPa(filter, purpose);
      PaAttempted(before, digest, filter, ok);
      if !ok {
        return;
      }
      ghost var selected := digest;
      ok := SendStart(SetAmp(true), purpose);
      AmpAttempted(before, selected, digest, filter, ok);
      if !ok {
        return;
      }
      ghost var ready := digest;
      ok := StartAndPreRoll(generatedAudio, purpose);
      AttemptedBoth(before, ready, digest, [SetPaFilter(filter), SetAmp(true)], [StartStream], ok);
    }

    /** The transmit stream and its pre-roll. */
    method StartAndPreRoll(generatedAudio: bool, purpose: Job) returns (ok: bool)
      requires Valid() && !stream.slots && !digest.inWindow
      modifies this`log, this`digest, this`stream, this`running
      ensures Valid() && (running ==> old(running)) && !digest.inWindow
      ensures digest.keysAllowed == old(digest.keysAllowed) && digest.mayBeKeyed == old(digest.mayBeKeyed)
      ensures digest.word == old(digest.word)
      ensures digest.radio == old(digest.radio).(streaming := digest.radio.streaming)
      ensures ok ==>
                && stream.slots && digest.radio.streaming
                && stream == Stream(stream.streaming, true, generatedAudio, old(stream.capture), generatedAudio)
      ensures Attempted(old(digest), digest, [StartStream], ok)
    {
      hide Summary, KeyReady, InRange, Stage.Ordered;
      ok := StartTxStream(generatedAudio, purpose);
      if ok {
        ok := ServiceTxStream(purpose);
      }
    }

    /** Selects a PA filter for transmission. */
    method SelectPa(filter: nat, purpose: Job) returns (ok: bool)
      requires Valid() && !digest.inWindow
      modifies this`log, this`digest, this`stream, this`running, this`preparation
      ensures Valid() && Quietly(old(digest), digest, SetPaFilter(filter), ok)
      ensures StreamAfter(old(stream), stream, false) && (running ==> old(running))
      ensures preparation == if ok then old(preparation).(pa := filter, paKnown := true) else old(preparation)
    {
      hide Valid, Quietly;
      ok := SendStart(SetPaFilter(filter), purpose);
      if ok {
        preparation := preparation.(pa := filter, paKnown := true);
      }
    }

    /** Key-up, second part: the transition mute and the transmit word. */
    method MuteAndRetune(word: nat, purpose: Job) returns (ok: bool)
      requires Valid() && stage == NOT_STARTED.(prepared := true) && !digest.inWindow
      modifies this`log, this`digest, this`stream, this`running, this`stage
      ensures Valid() && !digest.inWindow && (running ==> old(running))
      ensures StreamAfter(old(stream), stream, false)
      ensures stage == NOT_STARTED.(prepared := true, transitionAttempted := true,
                                    frequencyAttempted := stage.frequencyAttempted)
      ensures Untouched(old(digest), digest, stage)
      ensures digest.keysAllowed == old(digest.keysAllowed)
      ensures ok ==>
                && stage.frequencyAttempted
                && digest.radio == old(digest.radio).(muted := true, word := word)
      ensures Attempted(old(digest), digest, [SetMute(true), SetWord(word)], ok)
    {
      hide Valid, Quietly, Untouched, Attempted;
      ghost var before := digest;
      ok := MuteForKeyUp(purpose);
      UntouchedByMute(before, digest, word, ok);
      if !ok {
        return;
      }
      ghost var muted := digest;
      ok := TuneForKeyUp(word, purpose);
      UntouchedByWord(before, muted, digest, word, ok);
    }

    method MuteForKeyUp(purpose: Job) returns (ok: bool)
      requires Valid() && stage == NOT_STARTED.(prepared := true) && !digest.inWindow
      modifies this`log, this`digest, this`stream, this`running, this`stage
      ensures Valid() && Quietly(old(digest), digest, SetMute(true), ok) && !digest.inWindow
      ensures StreamAfter(old(stream), stream, false) && (running ==> old(running))
      ensures stage == NOT_STARTED.(prepared := true, transitionAttempted := true)
    {
      hide Summary, InRange;
      stage := stage.(transitionAttempted := true);
      ok := SendStart(SetMute(true), purpose);
    }

    method TuneForKeyUp(word: nat, purpose: Job) returns (ok: bool)
      requires Valid() && stage == NOT_STARTED.(prepared := true, transitionAttempted := true) && !digest.inWindow
      modifies this`log, this`digest, this`stream, this`running, this`stage
      ensures Valid() && Quietly(old(digest), digest, SetWord(word), ok) && !digest.inWindow
      ensures StreamAfter(old(stream), stream, false) && (running ==> old(running))
      ensures stage == NOT_STARTED.(prepared := true, transitionAttempted := true, frequencyAttempted := true)
    {
      hide Summary, InRange;
      stage := stage.(frequencyAttempted := true);
      ok := SendStart(SetWord(word), purpose);
    }

    /** Key-up, last part: SET_TR(1), the transition wait and the unmute. */
    method Key(purpose: Job, capture: bool) returns (ok: bool)
      requires Valid() && !digest.inWindow && KeyReady(digest.radio, purpose)
      requires stage == NOT_STARTED.(prepared := true, transitionAttempted := true, frequencyAttempted := true)
      modifies this`log, this`digest, this`stream, this`running, this`stage
      ensures Valid() && (running ==> old(running))
      ensures stage.prepared && stage.keyAttempted && stage.frequencyAttempted
      ensures old(digest.keysAllowed) && JobAllowed(purpose) ==> digest.keysAllowed
      ensures ok ==>
                && stage == ON_AIR && stream.slots && digest.inWindow
                && digest.radio == old(digest.radio).(keyed := true, muted := false)
      ensures ok ==> stream == old(stream).(streaming := stream.streaming, capture := capture)
      ensures Attempted(old(digest), digest, [SetTr(true), SetMute(false)], ok)
    {
      hide Valid, KeyReady, JobAllowed, Attempted;
      ghost var before := digest;
      ReadyStreams(digest.radio, purpose);
      assert [SetTr(true)] + [SetMute(false)] == [SetTr(true), SetMute(false)];
      ok := Transmit(purpose);
      if !ok {
        AttemptedPart(before, digest, [SetTr(true)], [SetMute(false)]);
        return;
      }
      ghost var keyed := digest;
      ok := Hold(purpose, capture);
      AttemptedBoth(before, keyed, digest, [SetTr(true)], [SetMute(false)], ok);
    }

    /** The transition wait after SET_TR(1), and the unmute. */
    method Hold(purpose: Job, capture: bool) returns (ok: bool)
      requires Valid() && digest.inWindow && digest.radio.streaming
      requires stage.prepared && stage.keyAttempted && stage.frequencyAttempted && !stage.active
      modifies this`log, this`digest, this`stream, this`running, this`stage
      ensures Valid() && (running ==> old(running)) && digest.keysAllowed == old(digest.keysAllowed)
      ensures stage == if ok then ON_AIR else old(stage).(keyed := true)
      ensures ok ==>
                && stream.slots && digest.inWindow
                && digest.radio == old(digest.radio).(muted := false)
                && stream == old(stream).(streaming := stream.streaming, capture := capture)
      ensures Attempted(old(digest), digest, [SetMute(false)], ok)
    {
      hide Summary, InRange;
      stage := stage.(keyed := true);
      stream := stream.(capture := capture);
      ok := ServiceTxStream(purpose);
      if !ok {
        return;
      }
      ok := Unmute(purpose);
      if ok {
        stage := stage.(transitionAttempted := false, active := true);
      }
    }

    /** SET_TR(1), booked as attempted before it is sent. */
    method Transmit(purpose: Job) returns (ok: bool)
      requires Valid() && !digest.inWindow && KeyReady(digest.radio, purpose)
      requires stage == NOT_STARTED.(prepared := true, transitionAttempted := true, frequencyAttempted := true)
      modifies this`log, this`digest, this`stream, this`running, this`stage
      ensures Valid() && (running ==> old(running))
      ensures StreamAfter(old(stream), stream, false) && stage == old(stage).(keyAttempted := true)
      ensures old(digest.keysAllowed) && JobAllowed(purpose) ==> digest.keysAllowed
      ensures digest.inWindow && Attempted(old(digest), digest, [SetTr(true)], ok)
      ensures ok ==> digest.radio == old(digest.radio).(keyed := true)
    {
      hide Summary, JobAllowed, KeyReady, InRange, Next;
      ghost var applied;
      stage := stage.(keyAttempted := true);
      ok, applied := Send(SetTr(true), purpose);
      NextKeyed(old(digest), Entry(SetTr(true), ok, applied, purpose));
    }

    /** Lifts the transition mute. */
    method Unmute(purpose: Job) returns (ok: bool)
      requires Valid()
      modifies this`log, this`digest, this`stream, this`running
      ensures Valid() && CommandDone(old(digest), digest, Some(SetMute(false)), ok)
      ensures StreamAfter(old(stream), stream, false) && (running ==> old(running))
    {
      hide Summary, Next, CommandDone, InRange, Stage.Ordered;
      ghost var applied;
      ok, applied := Send(SetMute(false), purpose);
      NextCleanup(old(digest), Entry(SetMute(false), ok, applied, purpose));
    }

    /** The nine steps of a key-up, each flag set before its command is sent.
        A failed step leaves everything as it is for the caller to clean up. */
    method KeyUp(purpose: Job, generatedAudio: bool, capture: bool) returns (ok: bool)
      requires Valid() && Idle() && preparation.transmitPrepared && tuning.frequencyKnown
      requires !purpose.Receive? && purpose.frequency == tuning.frequencyHz
      requires PaFilter(tuning.frequencyHz).Some? && TxWord(tuning.frequencyHz, Offset(purpose)).Some?
      modifies this`log, this`digest, this`stream, this`running, this`preparation, this`stage, this`job
      ensures Valid() && (running ==> old(running)) && stage.prepared
      ensures ok ==> Active() && job == purpose
      ensures preparation.transmitPrepared
      ensures preparation.ampAttempted == old(preparation.ampAttempted)
      ensures Untouched(old(digest), digest, stage)
      ensures old(digest.keysAllowed) && JobAllowed(purpose) ==> digest.keysAllowed
      ensures Attempted(old(digest), digest, KeyUpCommands(purpose), ok)
      ensures ok ==> stream == Stream(stream.streaming, true, generatedAudio, capture, generatedAudio)
    {
      hide Summary, JobAllowed, Attempted;
      job := purpose;
      stage := stage.(prepared := true);
      ghost var before := digest;
      var filter, word := PaFilter(tuning.frequencyHz).value, TxWord(tuning.frequencyHz, Offset(purpose)).value;
      ghost var first := [SetPaFilter(filter), SetAmp(true), StartStream];
      ghost var rest := [SetMute(true), SetWord(word), SetTr(true), SetMute(false)];
      assert KeyUpCommands(purpose) == first + rest;
      ok := PrepareStream(filter, generatedAudio, purpose);
      if !ok {
        AttemptedPart(before, digest, first, rest);
        return;
      }
      ghost var started := digest;
      ok := TuneAndKey(word, purpose, capture);
      AttemptedBoth(before, started, digest, first, rest, ok);
    }

    /** Key-up from the transition mute on. */
    method TuneAndKey(word: nat, purpose: Job, capture: bool) returns (ok: bool)
      requires Valid() && stage == NOT_STARTED.(prepared := true) && !digest.inWindow
      requires KeyReady(digest.radio.(muted := true, word := word), purpose)
      modifies this`log, this`digest, this`stream, this`running, this`stage
      ensures Valid() && (running ==> old(running)) && stage.prepared
      ensures Untouched(old(digest), digest, stage)
      ensures old(digest.keysAllowed) && JobAllowed(purpose) ==> digest.keysAllowed
      ensures ok ==>
                && stage == ON_AIR && stream.slots && digest.inWindow
                && digest.radio == old(digest.radio).(keyed := true, muted := false, word := word)
                && stream == old(stream).(streaming := stream.streaming, capture := capture)
      ensures Attempted(old(digest), digest, [SetMute(true), SetWord(word), SetTr(true), SetMute(false)], ok)
    {
      hide Valid, KeyReady, JobAllowed, Attempted;
      ghost var before := digest;
      ghost var first, second := [SetMute(true), SetWord(word)], [SetTr(true), SetMute(false)];
      assert first + second == [SetMute(true), SetWord(word), SetTr(true), SetMute(false)];
      ok := MuteAndRetune(word, purpose);
      if !ok {
        AttemptedPart(before, digest, first, second);
        return;
      }
      ghost var tuned := digest;
      ok := Key(purpose, capture);
      AttemptedBoth(before, tuned, digest, first, second, ok);
    }

    /** Keys up, and on any failure undoes whatever was reached. `cleaned` says
        whether the undoing itself met no error; the program discards it. */
    method StartOrUndo(purpose: Job, generatedAudio: bool, capture: bool)
      returns (ok: bool, ghost cleaned: bool)
      requires Valid() && Idle() && handleOpen
      requires preparation.transmitPrepared && tuning.frequencyKnown
      requires !purpose.Receive? && purpose.frequency == tuning.frequencyHz
      requires PaFilter(tuning.frequencyHz).Some? && TxWord(tuning.frequencyHz, Offset(purpose)).Some?
      modifies this`log, this`digest, this`stream, this`running, this`preparation, this`stage, this`job
      ensures Valid() && (running ==> old(running))
      ensures if ok then Active() && job == purpose else Idle() && !digest.inWindow
      ensures preparation.transmitPrepared
      ensures preparation.ampAttempted == old(preparation.ampAttempted)
      ensures old(digest.keysAllowed) && JobAllowed(purpose) ==> digest.keysAllowed
      ensures !ok && cleaned && old(RestExceptWord()) ==> RestExceptWord()
      ensures !ok && cleaned && old(AtRest()) ==> Quiet()
      ensures !ok && cleaned && old(WordCertain()) ==> WordCertain()
      ensures Tried(old(digest), purpose, generatedAudio, capture, ok)
      ensures cleaned <==> digest.failures <= old(digest.failures) + 1
    {
      cleaned := true;
      ghost var before := digest;
      ok := KeyUp(purpose, generatedAudio, capture);
      if !ok {
        cleaned := Undo(before);
      }
    }

    /** The failure path of a start that began with digest `before`. */
    method Undo(ghost before: Digest) returns (ok: bool)
      requires Valid() && handleOpen && stage.prepared && preparation.transmitPrepared
      requires Untouched(before, digest, stage) && tuning.frequencyKnown
      modifies this`log, this`digest, this`stream, this`running, this`preparation, this`stage
      ensures Valid() && (running ==> old(running)) && Idle() && !digest.inWindow
      ensures StopDone(old(Ledger()), Ledger(), old(PartialState()), CleanupTarget(true), ok)
      ensures ok ==>
                (WordCertain() <==>
                   || old(stage.transitionAttempted || stage.frequencyAttempted)
                   || before.word.Certain(RxWord(tuning.frequencyHz).value))
      ensures digest.keysAllowed == old(digest.keysAllowed)
      ensures preparation.transmitPrepared
      ensures preparation.ampAttempted == old(preparation.ampAttempted)
      ensures ok && RestDigest(before) ==> RestExceptWord() && !digest.radio.amp
      ensures (&& ok && RestDigest(before) && tuning.frequencyKnown
               && RxWord(tuning.frequencyHz) == Some(before.radio.word)) ==> Quiet()
    {
      hide Untouched, Summary, Plan, Planned, Restored, WordRestored, KeyReady;
      ghost var failed := Ledger();
      ghost var partial := PartialState();
      ok := CarrierStop();
      UndoneBooks(before, old(stage), failed, partial, ok);
    }

    /** What the books say after the cleanup of that start. */
    lemma UndoneBooks(before: Digest, stage: Stage, failed: Books, p: Partial, ok: bool)
      requires Valid() && tuning.frequencyKnown && preparation.transmitPrepared && !digest.inWindow
      requires Untouched(before, failed.digest, stage) && (p.keyAttempted ==> p.frequencyAttempted)
      requires p.keyAttempted == stage.keyAttempted && p.ampAttempted
      requires p.transitionAttempted == stage.transitionAttempted
      requires p.frequencyAttempted == stage.frequencyAttempted
      requires p.streamStarted == failed.digest.radio.streaming
      requires p.paSelected == failed.preparation.paKnown
      requires StopDone(failed, Ledger(), p, CleanupTarget(true), ok)
      ensures ok ==>
                (WordCertain() <==>
                   || stage.transitionAttempted || stage.frequencyAttempted
                   || before.word.Certain(RxWord(tuning.frequencyHz).value))
      ensures ok && RestDigest(before) ==> RestExceptWord() && !digest.radio.amp
      ensures (&& ok && RestDigest(before)
               && RxWord(tuning.frequencyHz) == Some(before.radio.word)) ==> Quiet()
    {
      hide Untouched, Summary, Plan, Planned, Restored, WordRestored, KeyReady;
      if ok {
        UndoneWord(before, stage, failed, Ledger(), p, CleanupTarget(true));
      }
      if ok && RestDigest(before) {
        UndoneIsQuiet(before, stage, failed, Ledger(), p, CleanupTarget(true));
      }
    }

    /** Starts the fixed Tune carrier. */
    method TuneCarrierStart() returns (ok: bool, ghost cleaned: bool)
      requires Valid() && Settled()
      modifies this`log, this`digest, this`stream, this`running, this`preparation, this`stage, this`job
      ensures old(MayStart(Carrier(tuning.frequencyHz))) ==>
                && Tried(old(digest), Carrier(tuning.frequencyHz), false, false, ok)
                && if ok then Active() && job == Carrier(tuning.frequencyHz) else Idle() && !digest.inWindow
      ensures !old(MayStart(Carrier(tuning.frequencyHz))) ==> !ok && LeftAlone()
      ensures ok ==> RxWord(tuning.frequencyHz - 600) == Some(digest.radio.word)
      ensures Valid() && Settled() && (running ==> old(running))
      ensures preparation.transmitPrepared == old(preparation.transmitPrepared)
      ensures old(digest.keysAllowed) && TuneAllowed(tuning.frequencyHz) ==> digest.keysAllowed
      ensures !ok && cleaned && old(Idle() && RestExceptWord()) ==> RestExceptWord()
      ensures !ok && cleaned && old(Idle() && AtRest()) ==> Quiet() || Ledger() == old(Ledger())
    {
      cleaned := true;
      hide Summary, Attempted;
      if !running || !handleOpen || !preparation.transmitPrepared || !tuning.frequencyKnown ||
         stage.active || PaFilter(tuning.frequencyHz).None? ||
         TxWord(tuning.frequencyHz, TUNE_TONE_HZ).None?
      {
        return false, true;
      }
      ok, cleaned := StartOrUndo(Carrier(tuning.frequencyHz), false, false);
    }

    /** Starts a microphone or network transmission. `audioReady` stands for the
        audio stream accepting its settings and any prebuffer. */
    method AudioStart(mode: TxMode, rawIq: bool, translate: bool, capture: bool, audioReady: bool)
      returns (ok: bool, ghost cleaned: bool)
      requires Valid() && Settled()
      modifies this`log, this`digest, this`stream, this`running, this`preparation, this`stage, this`job
      ensures var purpose := Audio(tuning.frequencyHz, mode, rawIq, translate);
              if old(MayStart(purpose) && !stream.streaming) && audioReady then
                && Tried(old(digest), purpose, true, capture, ok)
                && if ok then Active() && job == purpose else Idle() && !digest.inWindow
              else !ok && LeftAlone()
      ensures ok ==>
                RxWord(tuning.frequencyHz - if mode == Am || translate then 11_025 else 0) == Some(digest.radio.word)
      ensures Valid() && Settled() && (running ==> old(running))
      ensures preparation.transmitPrepared == old(preparation.transmitPrepared)
      ensures old(digest.keysAllowed) && JobAllowed(Audio(tuning.frequencyHz, mode, rawIq, translate)) ==>
                digest.keysAllowed
      ensures !ok && cleaned && old(Idle() && RestExceptWord()) ==> RestExceptWord()
      ensures !ok && cleaned && old(Idle() && AtRest()) ==> Quiet() || Ledger() == old(Ledger())
    {
      hide Summary, JobAllowed, Attempted;
      cleaned := true;
      var purpose := Audio(tuning.frequencyHz, mode, rawIq, translate);
      if !running || !handleOpen || !preparation.transmitPrepared || !tuning.frequencyKnown ||
         stage.active || stream.streaming || PaFilter(tuning.frequencyHz).None? ||
         TxWord(tuning.frequencyHz, Offset(purpose)).None? || !audioReady
      {
        return false, true;
      }
      ok, cleaned := StartOrUndo(purpose, true, capture);
    }

    /** When a start is attempted at all, audio apart. */
    predicate MayStart(purpose: Job)
      requires !purpose.Receive?
      reads this`handleOpen, this`running, this`preparation, this`tuning, this`stage
    {
      && running && handleOpen && preparation.transmitPrepared && tuning.frequencyKnown && !stage.active
      && PaFilter(purpose.frequency).Some? && TxWord(purpose.frequency, Offset(purpose)).Some?
    }

    /** Nothing was sent to the radio and nothing about it was changed. */
    twostate predicate LeftAlone()
      reads this
    {
      && stage == old(stage) && Ledger() == old(Ledger()) && job == old(job) && log == old(log)
      && running == old(running) && drains == old(drains) && tuning == old(tuning) && gain == old(gain)
    }

    /** An attempted start succeeds exactly when no command or servicing of it
        failed, and has then sent exactly the key-up. */
    ghost predicate Tried(before: Digest, purpose: Job, generatedAudio: bool, capture: bool, ok: bool)
      requires !purpose.Receive?
      requires PaFilter(purpose.frequency).Some? && TxWord(purpose.frequency, Offset(purpose)).Some?
      reads this`digest, this`stream
    {
      && before.failures <= digest.failures && (ok <==> digest.failures == before.failures)
      && (ok ==>
            && digest.issued == before.issued + KeyUpCommands(purpose)
            && stream == Stream(stream.streaming, true, generatedAudio, capture, generatedAudio))
    }

    /** A stop with anything to stop has attempted the whole plan, and reports
        success exactly when nothing in it failed. */
    ghost predicate Undone(was: Books, p: Partial, nothing: bool, ok: bool)
      requires tuning.frequencyKnown ==> InRange(tuning.frequencyHz)
      reads this
    {
      handleOpen && !nothing ==>
        StopDone(was, Ledger(), p, CleanupTarget(was.preparation.transmitPrepared), ok)
    }

    /** Stopping keeps what the host holds selected for transmission. */
    twostate predicate PreparationKept()
      reads this
    {
      var (was, now) := (old(preparation), preparation);
      && now.transmitPrepared == was.transmitPrepared
      && (was.transmitPrepared && was.paKnown ==> now.paKnown)
    }

    /** Ends a transmission after letting queued audio drain; transfers that
        complete meanwhile may report a dead stream or device. */
    method GracefulStop() returns (ok: bool)
      requires Valid()
      modifies this`log, this`digest, this`stream, this`running, this`preparation, this`stage, this`drains
      ensures drains == old(drains) + if handleOpen then 1 else 0
      ensures Valid() && (running ==> old(running))
      ensures !handleOpen ==> !ok && stage == old(stage) && Ledger() == old(Ledger())
      ensures old(Active()) && handleOpen ==> StoppedFromAir(ok)
      ensures old(Active()) && handleOpen ==>
                old(digest.failures) <= digest.failures && (ok <==> digest.failures == old(digest.failures))
      ensures digest.keysAllowed == old(digest.keysAllowed)
      ensures old(Idle()) && handleOpen ==> ok && Idle() && digest == old(digest)
      ensures PreparationKept() && Undone(old(Ledger()), old(PartialState()), old(NothingToStop(stage, stream)), ok)
    {
      var streamLives: bool, deviceLives: bool := *, *;
      ok := StopAfterDrain(stream.streaming && streamLives, running && deviceLives);
    }

    /** The unkey that follows a drain, which has left the stream and the device
        in the given state. */
    method StopAfterDrain(streaming: bool, alive: bool) returns (ok: bool)
      requires Valid() && (streaming ==> stream.streaming) && (alive ==> running)
      modifies this`log, this`digest, this`stream, this`running, this`preparation, this`stage, this`drains
      ensures drains == old(drains) + if handleOpen then 1 else 0
      ensures Valid() && (running ==> old(running))
      ensures !handleOpen ==> !ok && stage == old(stage) && Ledger() == old(Ledger())
      ensures old(Active()) && handleOpen ==> StoppedFromAir(ok)
      ensures old(Active()) && handleOpen ==>
                old(digest.failures) <= digest.failures && (ok <==> digest.failures == old(digest.failures))
      ensures digest.keysAllowed == old(digest.keysAllowed)
      ensures old(Idle()) && handleOpen ==> ok && Idle() && digest == old(digest)
      ensures PreparationKept() && Undone(old(Ledger()), old(PartialState()), old(NothingToStop(stage, stream)), ok)
    {
      hide Valid, Idle, Active, NothingToStop;
      if !handleOpen {
        return false;
      }
      Drained(streaming, alive);
      ok := Stop();
    }

    /** What is left of the stream and the device after a drain. */
    method Drained(streaming: bool, alive: bool)
      requires Valid() && (streaming ==> stream.streaming) && (alive ==> running)
      modifies this`stream, this`running, this`drains
      ensures Valid() && running == alive && drains == old(drains) + 1
      ensures Ledger() == old(Ledger()).(stream := stream) && PartialState() == old(PartialState())
      ensures (Idle() <==> old(Idle())) && (Active() <==> old(Active()))
      ensures NothingToStop(stage, stream) == old(NothingToStop(stage, stream))
    {
      hide Summary, KeyReady, InRange, Stage.Ordered;
      drains := drains + 1;
      stream := stream.(accepting := false, streaming := streaming);
      running := alive;
    }

    /** Ends a transmission at once. */
    method Stop() returns (ok: bool)
      requires Valid()
      modifies this`log, this`digest, this`stream, this`running, this`preparation, this`stage
      ensures Valid() && (running ==> old(running))
      ensures !handleOpen ==> !ok && stage == old(stage) && Ledger() == old(Ledger())
      ensures old(Active()) && handleOpen ==> StoppedFromAir(ok)
      ensures old(Active()) && handleOpen ==>
                old(digest.failures) <= digest.failures && (ok <==> digest.failures == old(digest.failures))
      ensures digest.keysAllowed == old(digest.keysAllowed)
      ensures old(Idle()) && handleOpen ==> ok && Idle() && LeftAlone()
      ensures PreparationKept() && Undone(old(Ledger()), old(PartialState()), old(NothingToStop(stage, stream)), ok)
    {
      ok := CarrierStop();
    }

    /** Retunes the receiver; refused while transmitting. */
    method Retune(frequency: nat) returns (ok: bool)
      requires Valid() && Settled()
      modifies this`log, this`digest, this`stream, this`running, this`preparation, this`tuning
      ensures Valid() && Settled() && (running ==> old(running))
      ensures digest.keysAllowed == old(digest.keysAllowed)
      ensures old(Active() || !running) || !handleOpen || !InRange(frequency) ==> !ok && LeftAlone()
      ensures tuning == old(tuning) || (tuning.frequencyKnown && tuning.frequencyHz == frequency)
      ensures preparation.transmitPrepared == old(preparation.transmitPrepared)
      ensures preparation.ampAttempted == old(preparation.ampAttempted)
      ensures old(RestExceptWord()) ==> RestExceptWord()
      ensures old(WordHeld()) ==> WordHeld()
      ensures tuning.frequencyHz != old(tuning.frequencyHz) ==> WordCertain()
      ensures old(Idle() && running) && handleOpen && InRange(frequency) ==>
                Attempted(old(digest), digest, RetuneCommands(frequency, preparation.transmitPrepared), ok)
      ensures ok ==>
                && WordCertain()
                && tuning == Tuning(true, frequency, true, RxFilter(frequency).value)
                && RxWord(frequency) == Some(digest.radio.word)
                && (preparation.transmitPrepared ==>
                      && preparation.paKnown
                      && PaFilter(frequency) == Some(preparation.pa) == Some(digest.radio.pa))
    {
      hide Summary, KeyReady, InRange, Stage.Ordered;
      if !running || !handleOpen || stage.active || stage.keyed ||
         RxFilter(frequency).None? || RxWord(frequency).None?
      {
        return false;
      }
      if preparation.transmitPrepared && PaFilter(frequency).None? {
        return false;
      }
      ok := RetuneIdle(frequency);
    }

    /** The commands of a retune: word, receive filter and, when prepared, PA filter. */
    method RetuneIdle(frequency: nat) returns (ok: bool)
      requires Valid() && Idle() && InRange(frequency)
      modifies this`log, this`digest, this`stream, this`running, this`preparation, this`tuning
      ensures Valid() && Idle() && (running ==> old(running))
      ensures OnlyTuned(old(digest), digest)
      ensures Attempted(old(digest), digest, RetuneCommands(frequency, preparation.transmitPrepared), ok)
      ensures (&& tuning.frequencyKnown && tuning.frequencyHz == frequency
               && digest.word == WordRecord(RxWord(frequency).value, {})) ||
              (&& !ok && tuning == old(tuning)
               && digest.word == NextWord(old(digest.word), SetWord(RxWord(frequency).value), false))
      ensures preparation == old(preparation).(pa := preparation.pa, paKnown := preparation.paKnown)
      ensures ok ==>
                && tuning == Tuning(true, frequency, true, RxFilter(frequency).value)
                && RxWord(frequency) == Some(digest.radio.word)
                && (preparation.transmitPrepared ==>
                      && preparation.paKnown
                      && PaFilter(frequency) == Some(preparation.pa) == Some(digest.radio.pa))
    {
      hide Summary, KeyReady, InRange, Stage.Ordered;
      ok := SendStart(SetWord(RxWord(frequency).value), Receive);
      if !ok {
        return;
      }
      tuning := tuning.(frequencyKnown := true, frequencyHz := frequency, filterKnown := false);
      ok := SelectFilters(RxFilter(frequency).value, PaFilter(frequency).value);
    }

    method SelectFilters(rx: nat, pa: nat) returns (ok: bool)
      requires Valid() && !digest.inWindow
      modifies this`log, this`digest, this`stream, this`running, this`preparation, this`tuning
      ensures Valid() && !digest.inWindow && (running ==> old(running))
      ensures StreamAfter(old(stream), stream, false)
      ensures OnlyTuned(old(digest), digest) && digest.word == old(digest.word)
      ensures digest.radio.word == old(digest.radio.word)
      ensures Attempted(old(digest), digest,
                        [SetRxFilter(rx)] + (if preparation.transmitPrepared then [SetPaFilter(pa)] else []), ok)
      ensures preparation == old(preparation).(pa := preparation.pa, paKnown := preparation.paKnown)
      ensures tuning == old(tuning) ||
              tuning == old(tuning).(filterKnown := true, filter := rx)
      ensures ok ==>
                && tuning == old(tuning).(filterKnown := true, filter := rx)
                && (preparation.transmitPrepared ==>
                      && preparation.paKnown
                      && preparation.pa == digest.radio.pa == pa)
    {
      hide Valid;
      ok := SelectRxFilter(rx);
      if ok && preparation.transmitPrepared {
        ok := RemapPa(pa);
      }
    }

    method SelectRxFilter(rx: nat) returns (ok: bool)
      requires Valid() && !digest.inWindow
      modifies this`log, this`digest, this`stream, this`running, this`tuning
      ensures Valid() && Quietly(old(digest), digest, SetRxFilter(rx), ok)
      ensures StreamAfter(old(stream), stream, false) && (running ==> old(running))
      ensures tuning == if ok then old(tuning).(filterKnown := true, filter := rx) else old(tuning)
    {
      hide Summary, Quietly, InRange, Stage.Ordered;
      ok := SendStart(SetRxFilter(rx), Receive);
      if ok {
        tuning := tuning.(filterKnown := true, filter := rx);
      }
    }

    method RemapPa(filter: nat) returns (ok: bool)
      requires Valid() && !digest.inWindow
      modifies this`log, this`digest, this`stream, this`running, this`preparation
      ensures StreamAfter(old(stream), stream, false) && (running ==> old(running))
      ensures Valid() && Quietly(old(digest), digest, SetPaFilter(filter), ok)
      ensures preparation == if ok then old(preparation).(pa := filter, paKnown := true)
                             else old(preparation).(paKnown := false)
    {
      hide Valid, Quietly;
      ok := SendStart(SetPaFilter(filter), Receive);
      if ok {
        preparation := preparation.(pa := filter, paKnown := true);
      } else {
        preparation := preparation.(paKnown := false);
      }
    }

    /** Changes the receive gain; refused while transmitting. */
    method ChangeGain(db: int) returns (ok: bool)
      requires Valid() && Settled()
      modifies this`log, this`digest, this`stream, this`running, this`gain
      ensures Valid() && Settled() && (running ==> old(running))
      ensures gain == if ok then Some(db) else old(gain)
      ensures var accepted := old(Idle() && running) && handleOpen && ValidGain(db);
              if accepted then Idle() && Quietly(old(digest), digest, SetPreamp(GainStep(db)), ok)
              else
                && !ok && log == old(log) && Ledger() == old(Ledger()) && running == old(running)
    {
      hide Summary, KeyReady, InRange;
      if !running || !handleOpen || stage.active || stage.keyed || !ValidGain(db) {
        return false;
      }
      ok := SendStart(SetPreamp(GainStep(db)), Receive);
      if ok {
        gain := Some(db);
      }
    }

    /** A gain change concerns the gain alone. */
    twostate predicate SettingsSameBut(ok: bool, db: int)
      reads this
    {
      && tuning == old(tuning) && job == old(job) && drains == old(drains)
      && gain == if ok then Some(db) else old(gain)
    }

    /** What a transmission, however it goes, leaves as it was set before. */
    twostate predicate SettingsKept()
      reads this
    {
      && tuning == old(tuning) && gain == old(gain)
      && preparation.transmitPrepared == old(preparation.transmitPrepared)
    }

    /** Selects the transmit antenna and PA filter and turns the amplifier on. */
    method EnablePreparation() returns (ok: bool)
      requires Valid() && Settled()
      modifies this`log, this`digest, this`stream, this`running, this`preparation
      ensures Valid() && Settled() && (running ==> old(running))
      ensures digest.keysAllowed == old(digest.keysAllowed) && digest.word == old(digest.word)
      ensures old(preparation.transmitPrepared) || !old(running) || !handleOpen ==>
                !ok && Ledger() == old(Ledger())
      ensures !old(preparation.transmitPrepared) ==> preparation.transmitPrepared == ok
      ensures !old(preparation.transmitPrepared) && old(running) && handleOpen ==>
                && old(digest.failures) <= digest.failures && (ok <==> digest.failures == old(digest.failures))
      ensures ok ==>
                digest.issued == old(digest.issued) + [SetTxAntenna] +
                  (if tuning.frequencyKnown then [SetPaFilter(PaFilter(tuning.frequencyHz).value)] else []) +
                  [SetAmp(true)]
      ensures old(Idle() && RestExceptWord()) ==> RestExceptWord()
      ensures digest.radio.word == old(digest.radio.word)
      ensures ok ==> digest.radio.amp && preparation.ampAttempted
      ensures ok && tuning.frequencyKnown ==>
                preparation.paKnown && PaFilter(tuning.frequencyHz) == Some(digest.radio.pa)
    {
      hide Summary, KeyReady, InRange, Stage.Ordered;
      if !running || !handleOpen || preparation.transmitPrepared {
        return false;
      }
      ok := SendStart(SetTxAntenna, Receive);
      if !ok {
        return;
      }
      if tuning.frequencyKnown {
        ok := SelectPa(PaFilter(tuning.frequencyHz).value, Receive);
        if !ok {
          return;
        }
      }
      ok := FinishPreparation();
    }

    /** Turns the amplifier on, or undoes the preparation. */
    method FinishPreparation() returns (ok: bool)
      requires Valid() && !digest.inWindow && !preparation.transmitPrepared
      modifies this`log, this`digest, this`stream, this`running, this`preparation
      ensures Valid() && !digest.inWindow
      ensures StreamAfter(old(stream), stream, false) && (running ==> old(running))
      ensures OnlyPrepared(old(digest), digest)
      ensures preparation.transmitPrepared == ok
      ensures old(digest.failures) <= digest.failures && (ok <==> digest.failures == old(digest.failures))
      ensures digest.issued == old(digest.issued) + [SetAmp(true)] +
                if ok then [] else (if old(preparation.paKnown) then [SetPaFilter(0)] else []) + [SetAmp(false)]
      ensures ok ==> digest.radio == old(digest.radio).(amp := true)
      ensures ok ==> preparation == old(preparation).(ampAttempted := true, transmitPrepared := true)
    {
      hide Valid;
      preparation := preparation.(ampAttempted := true);
      ok := SendStart(SetAmp(true), Receive);
      if ok {
        preparation := preparation.(transmitPrepared := true);
      } else {
        AbandonPreparation();
      }
    }

    method AbandonPreparation()
      requires Valid() && !digest.inWindow
      modifies this`log, this`digest, this`stream, this`running, this`preparation
      ensures Valid() && !digest.inWindow
      ensures StreamAfter(old(stream), stream, false) && (running ==> old(running))
      ensures OnlyPrepared(old(digest), digest) && old(digest.failures) <= digest.failures
      ensures digest.issued ==
              old(digest.issued) + (if old(preparation.paKnown) then [SetPaFilter(0)] else []) + [SetAmp(false)]
      ensures preparation == old(preparation).(paKnown := false, ampAttempted := false)
    {
      hide Valid;
      if preparation.paKnown {
        var _ := SendStart(SetPaFilter(0), Receive);
        preparation := preparation.(paKnown := false);
      }
      var _ := SendStart(SetAmp(false), Receive);
      preparation := preparation.(ampAttempted := false);
    }

    /** Ends transmit preparation, stopping any transmission first. */
    method DisablePreparation() returns (ok: bool)
      requires Valid() && Settled()
      modifies this`log, this`digest, this`stream, this`running, this`preparation, this`stage
      ensures Valid() && (running ==> old(running))
      ensures digest.keysAllowed == old(digest.keysAllowed)
      ensures !handleOpen ==> !ok && Settled() && stage == old(stage) && Ledger() == old(Ledger())
      ensures handleOpen ==> Idle() && (digest.mayBeKeyed ==> old(digest.mayBeKeyed))
      ensures handleOpen && ok && old(preparation.transmitPrepared) ==> !digest.radio.amp
      ensures handleOpen && ok && old(preparation.paKnown && preparation.transmitPrepared) ==> digest.radio.pa == 0
      ensures handleOpen ==> !preparation.transmitPrepared
      ensures handleOpen && old(Idle()) ==> (ok <==> digest.failures == old(digest.failures))
      ensures handleOpen && ok && old(Idle()) ==>
                && OnlyPreparationChanged(old(digest), digest)
                && digest.radio.pa == if old(preparation.paKnown) then 0 else old(digest.radio.pa)
    {
      if !handleOpen {
        return false;
      }
      if !NothingToStop(stage, stream) {
        var _ := CarrierStop();
      }
      ok := DropPreparation();
    }

    method DropPreparation() returns (ok: bool)
      requires Valid() && Idle() && !digest.inWindow
      modifies this`log, this`digest, this`stream, this`running, this`preparation
      ensures Valid() && (running ==> old(running)) && Idle() && !digest.inWindow
      ensures digest.keysAllowed == old(digest.keysAllowed)
      ensures digest.mayBeKeyed ==> old(digest.mayBeKeyed)
      ensures !preparation.transmitPrepared
      ensures old(digest.failures) <= digest.failures && (ok <==> digest.failures == old(digest.failures))
      ensures ok && old(preparation.transmitPrepared || preparation.ampAttempted) ==> !digest.radio.amp
      ensures ok ==> digest.radio.pa == if old(preparation.paKnown) then 0 else old(digest.radio.pa)
      ensures ok ==> OnlyPreparationChanged(old(digest), digest)
    {
      hide KeyReady, JobAllowed, Summary, Planned, Cleaned, InRange;
      var plan := Plan(PartialState()) * {ResetPaFilter, DisableAmplifier};
      if plan == {} {
        NoPreparation(PartialState());
        return true;
      }
      ghost var partial := Partial(
        preparation.paKnown, preparation.ampAttempted || preparation.transmitPrepared,
        false, false, false, false);
      ghost var before := Ledger();
      PlanIs(PartialState());
      ok := ExecuteCleanup(plan, false);
      MaskedPlanIsDone(before, Ledger(), plan, partial, CleanupTarget(false), ok);
      preparation := preparation.(transmitPrepared := false, ampAttempted := false, paKnown := false);
    }

    /** After stopping a transmission: idle, and quiet if nothing failed. */
    ghost predicate StoppedFromAir(ok: bool)
      reads this
    {
      Idle() && !digest.inWindow && (ok ==> Quiet() && WordCertain())
    }
  }

  /** Five gains, ten decibels apart, numbered from the lowest. */
  lemma GainsAreFive(db: int)
    ensures ValidGain(db) <==> db in {-10, 0, 10, 20, 30}
    ensures GainStep(-10) == 0 && GainStep(0) == 1 && GainStep(10) == 2 && GainStep(20) == 3 && GainStep(30) == 4
  {
  }

  /** The commands of a complete retune, in order. */
  function RetuneCommands(frequency: nat, prepared: bool): seq<Command>
    requires InRange(frequency)
  {
    [SetWord(RxWord(frequency).value), SetRxFilter(RxFilter(frequency).value)] +
    if prepared then [SetPaFilter(PaFilter(frequency).value)] else []
  }

  /** The gains the radio can be set to, and the step sent for one. */
  predicate ValidGain(db: int) {
    -10 <= db <= 30 && db % 10 == 0
  }

  function GainStep(db: int): nat
    requires ValidGain(db)
  {
    (db + 10) / 10
  }

  /** A radio at rest, as a digest sees it. */
  ghost predicate RestDigest(d: Digest) {
    !d.mayBeKeyed && !d.radio.keyed && !d.radio.muted && !d.radio.streaming
  }

  /** Nothing but the word and the PA filter can have changed. */
  ghost predicate OnlyTuned(before: Digest, after: Digest) {
    && after.keysAllowed == before.keysAllowed && after.mayBeKeyed == before.mayBeKeyed && !after.inWindow
    && after.radio == before.radio.(word := after.radio.word, pa := after.radio.pa)
  }

  /** Nothing but the PA filter and the amplifier can have changed. */
  ghost predicate OnlyPrepared(before: Digest, after: Digest) {
    && after.keysAllowed == before.keysAllowed && after.mayBeKeyed == before.mayBeKeyed
    && after.word == before.word && OnlyPreparationChanged(before, after)
  }

  ghost predicate OnlyPreparationChanged(before: Digest, after: Digest) {
    after.radio == before.radio.(amp := after.radio.amp, pa := after.radio.pa)
  }

  lemma NoPreparation(p: Partial)
    requires Plan(p) * {ResetPaFilter, DisableAmplifier} == {}
    ensures !p.paSelected && !p.ampAttempted
  {
    assert ResetPaFilter !in Plan(p) by {
      assert ResetPaFilter !in Plan(p) * {ResetPaFilter, DisableAmplifier};
    }
    assert DisableAmplifier !in Plan(p) by {
      assert DisableAmplifier !in Plan(p) * {ResetPaFilter, DisableAmplifier};
    }
  }

  lemma MaskedPlanIsDone(
    before: Books, after: Books, plan: set<Action>, p: Partial, target: Target, ok: bool)
    requires PlanFor(plan, p) && !p.keyAttempted && !p.streamStarted
    requires CleanupDone(before, after, plan, target, false, |ORDER|, ok)
    ensures ok ==> after.digest.radio == Restored(before.digest.radio, p, target)
    ensures StreamAfter(before.stream, after.stream, false)
  {
    CleanedIs(before.digest.radio, plan, p, target);
  }

  /** From any failure point of a key-up that began at rest, a cleanup without
      errors ends at rest again, with the amplifier off, the receive word back if
      it was right before, and the mapped PA filter if one had been selected. */
  lemma UndoneIsQuiet(
    before: Digest, stage: Stage, failed: Books, after: Books, p: Partial, target: Target)
    requires Untouched(before, failed.digest, stage) && (p.keyAttempted ==> p.frequencyAttempted)
    requires p.keyAttempted == stage.keyAttempted
    requires p.transitionAttempted == stage.transitionAttempted
    requires p.frequencyAttempted == stage.frequencyAttempted
    requires p.streamStarted == failed.digest.radio.streaming && p.ampAttempted
    requires StopDone(failed, after, p, target, true)
    requires RestDigest(before)
    ensures RestDigest(after.digest) && !after.digest.radio.amp
    ensures target.word == Some(before.radio.word) ==> target.word == Some(after.digest.radio.word)
    ensures p.paSelected ==> after.digest.radio.pa == target.pa
  {
  }

  /** And the host is then sure of the receive word exactly when the mute or
      frequency stage was reached or it was sure before the start. */
  lemma UndoneWord(before: Digest, stage: Stage, failed: Books, after: Books, p: Partial, target: Target)
    requires Untouched(before, failed.digest, stage) && target.word.Some?
    requires p.transitionAttempted == stage.transitionAttempted
    requires p.frequencyAttempted == stage.frequencyAttempted
    requires StopDone(failed, after, p, target, true)
    ensures after.digest.word.Certain(target.word.value) <==>
              stage.transitionAttempted || stage.frequencyAttempted || before.word.Certain(target.word.value)
  {
  }

  /** A command that does not touch keying was attempted outside a key window. */
  ghost predicate Quietly(before: Digest, after: Digest, c: Command, ok: bool) {
    && after.keysAllowed == before.keysAllowed && after.mayBeKeyed == before.mayBeKeyed
    && !after.inWindow
    && after.issued == before.issued + [c]
    && after.word == NextWord(before.word, c, ok)
    && after.failures == before.failures + (if ok then 0 else 1)
    && (after.radio == Effect(before.radio, c) || (!ok && after.radio == before.radio))
  }

  /** Commands that change a setting of the radio and do not key it. */
  predicate Setting(c: Command) {
    c.SetPaFilter? || c.SetAmp? || c.SetMute? || c.SetWord? || c.SetRxFilter? || c.SetTxAntenna? || c.SetPreamp?
  }

  lemma NextQuietly(d: Digest, e: Entry)
    requires d.wellFormed && d.disciplined && !d.inWindow && Setting(e.command) && (e.ok ==> e.applied)
    ensures var n := Next(d, e);
            && n.wellFormed && n.disciplined && n.radio.streaming == d.radio.streaming
            && (n.inWindow ==> d.inWindow)
            && Quietly(d, n, e.command, e.ok)
  {
    hide KeyReady, JobAllowed;
  }

  lemma NextServiced(d: Digest, e: Entry)
    requires d.wellFormed && d.disciplined && e.command == Service && e.ok == e.applied
    ensures Next(d, e) == d.(failures := d.failures + if e.ok then 0 else 1)
  {
    hide KeyReady, JobAllowed;
    assert d.issued + [] == d.issued;
  }

  lemma NextStarted(d: Digest, e: Entry)
    requires d.wellFormed && d.disciplined && !d.inWindow && !d.radio.streaming
    requires e.command == StartStream && e.ok == e.applied
    ensures var n := Next(d, e);
            && n.wellFormed && n.disciplined && !n.inWindow
            && Quietly(d, n, StartStream, e.ok) && n.radio == d.radio.(streaming := e.ok)
  {
    hide KeyReady, JobAllowed;
  }

  lemma NextStopped(d: Digest, e: Entry)
    requires d.wellFormed && d.disciplined && !d.inWindow && e.command == StopStream && e.ok && e.applied
    ensures var n := Next(d, e);
            && n.wellFormed && n.disciplined && !n.inWindow && !n.radio.streaming
            && CommandDone(d, n, Some(StopStream), true)
  {
    hide KeyReady, JobAllowed;
  }

  lemma ReadyStreams(s: RadioState, job: Job)
    requires KeyReady(s, job)
    ensures s.streaming && s.muted
  {
  }

  lemma NextKeyed(d: Digest, e: Entry)
    requires d.wellFormed && d.disciplined && !d.inWindow && (e.ok ==> e.applied)
    requires e.command == SetTr(true) && KeyReady(d.radio, e.job)
    ensures var n := Next(d, e);
            && n.wellFormed && n.disciplined && n.inWindow && n.radio.streaming == d.radio.streaming
            && Attempted(d, n, [SetTr(true)], e.ok)
            && n.issued == d.issued + [SetTr(true)]
            && (e.applied ==> n.radio == d.radio.(keyed := true))
            && (d.keysAllowed && JobAllowed(e.job) ==> n.keysAllowed)
  {
    hide KeyReady, JobAllowed;
  }

  lemma NextCleanup(d: Digest, e: Entry)
    requires d.wellFormed && d.disciplined && (e.ok ==> e.applied)
    requires Setting(e.command) || e.command == SetTr(false)
    requires d.inWindow ==> WindowCommand(e.command)
    ensures var n := Next(d, e);
            && n.wellFormed && n.disciplined && n.radio.streaming == d.radio.streaming
            && (n.inWindow ==> d.inWindow)
            && CommandDone(d, n, Some(e.command), e.ok)
  {
    hide KeyReady, JobAllowed;
  }

  lemma PaAttempted(before: Digest, after: Digest, filter: nat, ok: bool)
    requires Quietly(before, after, SetPaFilter(filter), ok)
    ensures !ok ==> Attempted(before, after, [SetPaFilter(filter), SetAmp(true), StartStream], false)
  {
  }

  lemma AmpAttempted(before: Digest, middle: Digest, after: Digest, filter: nat, ok: bool)
    requires Quietly(before, middle, SetPaFilter(filter), true) && Quietly(middle, after, SetAmp(true), ok)
    ensures ok ==> Attempted(before, after, [SetPaFilter(filter), SetAmp(true)], true)
    ensures !ok ==> Attempted(before, after, [SetPaFilter(filter), SetAmp(true), StartStream], false)
  {
  }

  lemma UntouchedByMute(before: Digest, after: Digest, word: nat, ok: bool)
    requires Quietly(before, after, SetMute(true), ok)
    ensures Untouched(before, after, NOT_STARTED.(prepared := true, transitionAttempted := true))
    ensures after.keysAllowed == before.keysAllowed
    ensures !ok ==> Attempted(before, after, [SetMute(true), SetWord(word)], false)
  {
  }

  lemma UntouchedByWord(before: Digest, muted: Digest, after: Digest, word: nat, ok: bool)
    requires Quietly(before, muted, SetMute(true), true) && Quietly(muted, after, SetWord(word), ok)
    ensures Untouched(
              before, after,
              NOT_STARTED.(prepared := true, transitionAttempted := true, frequencyAttempted := true))
    ensures after.keysAllowed == before.keysAllowed
    ensures ok ==> after.radio == before.radio.(muted := true, word := word)
    ensures Attempted(before, after, [SetMute(true), SetWord(word)], ok)
  {
  }

  /** The commands of a complete key-up, in order. */
  function KeyUpCommands(purpose: Job): seq<Command>
    requires !purpose.Receive?
    requires PaFilter(purpose.frequency).Some? && TxWord(purpose.frequency, Offset(purpose)).Some?
  {
    [SetPaFilter(PaFilter(purpose.frequency).value), SetAmp(true), StartStream,
     SetMute(true), SetWord(TxWord(purpose.frequency, Offset(purpose)).value),
     SetTr(true), SetMute(false)]
  }

  /** A sequence of commands was sent in order up to the first failure, if any. */
  ghost predicate Attempted(before: Digest, after: Digest, cs: seq<Command>, ok: bool) {
    var n := |after.issued| - |before.issued|;
    && 0 <= n <= |cs| && after.issued == before.issued + cs[..n]
    && (ok ==> n == |cs|)
    && after.failures == before.failures + if ok then 0 else 1
  }

  lemma AttemptedBoth(
    before: Digest, middle: Digest, after: Digest, first: seq<Command>, second: seq<Command>, ok: bool)
    requires Attempted(before, middle, first, true) && Attempted(middle, after, second, ok)
    ensures Attempted(before, after, first + second, ok)
  {
    var n := |after.issued| - |middle.issued|;
    assert (first + second)[..|first| + n] == first + second[..n];
  }

  /** A sequence that failed before its end is a longer one that failed. */
  lemma AttemptedPart(before: Digest, after: Digest, first: seq<Command>, rest: seq<Command>)
    requires Attempted(before, after, first, false)
    ensures Attempted(before, after, first + rest, false)
  {
    var n := |after.issued| - |before.issued|;
    assert (first + rest)[..n] == first[..n];
  }

  /** What a start that got no further than `stage` cannot have changed. */
  ghost predicate Untouched(before: Digest, after: Digest, stage: Stage) {
    && (!stage.keyAttempted ==>
          after.mayBeKeyed == before.mayBeKeyed && after.radio.keyed == before.radio.keyed)
    && (!stage.transitionAttempted && !stage.frequencyAttempted ==>
          after.radio.muted == before.radio.muted)
    && (!stage.frequencyAttempted ==> after.radio.word == before.radio.word && after.word == before.word)
  }

  predicate NothingToStop(stage: Stage, stream: Stream) {
    && !stage.prepared && !stage.active && !stage.keyed && !stage.keyAttempted
    && !(stream.streaming || stream.slots)
    && !stage.transitionAttempted && !stage.frequencyAttempted
  }

  /** The record of the word after a cleanup that sent it, if `sent`. */
  function WordRestored(r: WordRecord, target: Target, sent: bool): WordRecord {
    if sent && target.word.Some? then WordRecord(target.word.value, {}) else r
  }

  /** What a stop achieves: everything planned was attempted in safety order; if
      all of it succeeded the radio is restored field by field, and in
      particular unkeyed if keying had been attempted. */
  ghost predicate StopDone(before: Books, after: Books, p: Partial, target: Target, ok: bool) {
    var (b, a) := (before.digest, after.digest);
    && a.keysAllowed == b.keysAllowed
    && (a.mayBeKeyed ==> b.mayBeKeyed)
    && (ok && p.keyAttempted ==> !a.mayBeKeyed)
    && a.issued == b.issued + Planned(Plan(p), target, |ORDER|)
    && b.failures <= a.failures && (ok <==> a.failures == b.failures)
    && (ok ==> a.radio == Restored(b.radio, p, target))
    && (ok ==> a.word == WordRestored(b.word, target, p.transitionAttempted || p.frequencyAttempted))
    && after.preparation.transmitPrepared == before.preparation.transmitPrepared
    && after.preparation.ampAttempted == before.preparation.ampAttempted
    && (p.paSelected ==> after.preparation.pa == target.pa &&
                         after.preparation.paKnown == before.preparation.transmitPrepared)
    && (!p.paSelected ==> after.preparation == before.preparation)
  }

  lemma StopIsDone(
    before: Books, after: Books, plan: set<Action>, p: Partial, target: Target, preservePa: bool, ok: bool)
    requires PlanFor(plan, p) && plan == Plan(p) && (p.keyAttempted ==> p.frequencyAttempted)
    requires preservePa == before.preparation.transmitPrepared
    requires CleanupDone(before, after, plan, target, preservePa, |ORDER|, ok)
    ensures StopDone(before, after, p, target, ok)
    ensures after.digest.inWindow == (before.digest.inWindow && !p.keyAttempted)
    ensures p.streamStarted ==> after.stream == NO_STREAM
    ensures !p.streamStarted ==> StreamAfter(before.stream, after.stream, false)
  {
    CleanedIs(before.digest.radio, plan, p, target);
  }

  datatype Books = Books(digest: Digest, stream: Stream, preparation: Preparation)

  /** One cleanup command, or none, was attempted. */
  ghost predicate CommandDone(before: Digest, after: Digest, c: Option<Command>, ok: bool) {
    && after.keysAllowed == before.keysAllowed
    && after.inWindow == (before.inWindow && c != Some(SetTr(false)))
    && after.mayBeKeyed == (before.mayBeKeyed && !(c == Some(SetTr(false)) && ok))
    && after.issued == before.issued + (if c.Some? then [c.value] else [])
    && (ok ==> after.word == if c.Some? then NextWord(before.word, c.value, true) else before.word)
    && (ok ==> after.radio == if c.Some? then Effect(before.radio, c.value) else before.radio)
    && after.failures == before.failures + if ok then 0 else 1
  }

  /** The effect on the books of attempting one action. */
  ghost predicate ActionDone(
    before: Books, after: Books, action: Action, target: Target, preservePa: bool, ok: bool)
  {
    && CommandDone(before.digest, after.digest, ActionCommand(action, target), ok)
    && StreamAfter(before.stream, after.stream, action == StopTxStream)
    && after.preparation ==
         PreparationAfter(before.preparation, target, preservePa, action == ResetPaFilter)
  }

  /** The first `i` steps of the safety order have been attempted; `ok` if none failed. */
  ghost predicate CleanupDone(
    before: Books, after: Books, plan: set<Action>, target: Target, preservePa: bool, i: nat, ok: bool)
    requires i <= |ORDER|
  {
    var (b, a) := (before.digest, after.digest);
    && a.keysAllowed == b.keysAllowed
    && a.inWindow == (b.inWindow && !(i >= 2 && Unkey in plan))
    && (a.mayBeKeyed ==> b.mayBeKeyed)
    && (ok && i >= 2 && Unkey in plan ==> !a.mayBeKeyed)
    && a.issued == b.issued + Planned(plan, target, i)
    && b.failures <= a.failures && (ok <==> a.failures == b.failures)
    && (ok ==> a.radio == Cleaned(b.radio, plan, target, i))
    && (ok ==> a.word == WordRestored(b.word, target, i >= 3 && RestoreRxFrequency in plan))
    && StreamAfter(before.stream, after.stream, i >= 7 && StopTxStream in plan)
    && after.preparation ==
         PreparationAfter(before.preparation, target, preservePa, i >= 5 && ResetPaFilter in plan)
  }

  lemma OrderIs(i: nat, action: Action)
    requires i < |ORDER| && action == ORDER[i]
    ensures (action == TransitionMute <==> i == 0) && (action == Unkey <==> i == 1)
    ensures action == RestoreRxFrequency <==> i == 2
    ensures (action == ResetPaFilter <==> i == 4) && (action == StopTxStream <==> i == 6)
  {
  }

  lemma CleanupStart(before: Books, plan: set<Action>, target: Target, preservePa: bool)
    ensures CleanupDone(before, before, plan, target, preservePa, 0, true)
  {
  }

  lemma CleanupMayAct(
    before: Books, after: Books, plan: set<Action>, target: Target, preservePa: bool, i: nat, ok: bool)
    requires i < |ORDER| && CleanupDone(before, after, plan, target, preservePa, i, ok)
    requires before.digest.inWindow ==> Unkey in plan
    ensures after.digest.inWindow ==> ORDER[i] == TransitionMute || ORDER[i] == Unkey
  {
    OrderIs(i, ORDER[i]);
  }

  lemma CleanupStep(
    before: Books, middle: Books, after: Books, plan: set<Action>, target: Target,
    preservePa: bool, i: nat, ok: bool, done: bool)
    requires i < |ORDER| && CleanupDone(before, middle, plan, target, preservePa, i, ok)
    requires ORDER[i] in plan && ActionDone(middle, after, ORDER[i], target, preservePa, done)
    ensures CleanupDone(before, after, plan, target, preservePa, i + 1, ok && done)
  {
    hide Effect;
    OrderIs(i, ORDER[i]);
  }

  lemma CleanupSkip(
    before: Books, after: Books, plan: set<Action>, target: Target, preservePa: bool, i: nat, ok: bool)
    requires i < |ORDER| && ORDER[i] !in plan
    requires CleanupDone(before, after, plan, target, preservePa, i, ok)
    ensures CleanupDone(before, after, plan, target, preservePa, i + 1, ok)
  {
    OrderIs(i, ORDER[i]);
  }

  predicate StreamAfter(before: Stream, after: Stream, stopped: bool) {
    if stopped then after == NO_STREAM
    else after == before || after == before.(streaming := false)
  }

  function PreparationAfter(p: Preparation, target: Target, preservePa: bool, reset: bool): Preparation {
    if reset then p.(pa := target.pa, paKnown := preservePa) else p
  }
}
