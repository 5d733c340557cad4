/** One transmitter shared by exclusive owners: the owner machine with its fault
    latch (src/tx_control.c), the daemon callbacks that key and unkey the radio
    (src/flex1500d.c), and the leased Tune and network sessions on top
    (src/tune_control.c, src/network_tx.c). */
module Transmitter {
  import opened Common
  import opened Protocol
  import opened Trace
  import opened Calls
  import opened StationOwner
  import opened UsbRx

  datatype TxState =
    StartupInhibit | RxState | Preparing | Transmitting | Unkeying | Recovering | Faulted

  datatype ControlResult =
    ControlOk | Disabled | Inhibited | ControlBusy | InvalidOwner | HardwareError | MaxKey

  datatype NetworkSource = PcmAudio | RawIq
  datatype NetworkMode = NetUsb | NetLsb | NetAm | NetIq

  datatype Profile = Profile(mode: NetworkMode, source: NetworkSource, drivePercent: nat, sampleRate: nat)

  datatype RxMode = RxAm | RxUsb | RxLsb | RxFm | RxCw

  const TIMEOUT_DEFAULT_SECONDS: nat := 180
  const TIMEOUT_MIN_SECONDS: nat := 30
  const TIMEOUT_MAX_SECONDS: nat := 1800

  predicate ValidOwner(o: Owner) {
    o != NoOwner
  }

  function ProfileMode(p: Profile): TxMode {
    match p.mode
    case NetLsb => Lsb
    case NetAm => Am
    case _ => Usb
  }

  predicate ProfileAllows(p: Profile, frequency: nat) {
    JobAllowed(Audio(frequency, ProfileMode(p), p.source == RawIq, false))
  }

  /** The kind of transmission each owner may have on the air, inside its frequency policy. */
  predicate FitsOwner(job: Job, owner: Owner) {
    JobAllowed(job) &&
    match owner
    case Tune => job.Carrier?
    case PhysicalMic => job.Audio? && !job.rawIq && !job.translate
    case Http => job.Audio?
    case _ => false
  }

  predicate FitsProfile(job: Job, p: Profile) {
    job.Audio? && job.mode == ProfileMode(p) && job.rawIq == (p.source == RawIq)
  }

  /** The mode the microphone transmits in: the customary sideband for a station
      that is not mode aware, else the receive mode; always within its policy. */
  function ResolvedMode(unaware: bool, rxMode: RxMode, frequency: nat): Option<TxMode> {
    if unaware then
      match DefaultSideband(frequency)
      case None => None
      case Some(upper) => Some(if upper then Usb else Lsb)
    else
      match rxMode
      case RxUsb => if MicAllowed(frequency, true) then Some(Usb) else None
      case RxLsb => if MicAllowed(frequency, false) then Some(Lsb) else None
      case RxAm => if AmAllowed(frequency) then Some(Am) else None
      case _ => None
  }

  /** The microphone's mode, spelled out. */
  lemma ResolvedModeIs(rxMode: RxMode, f: nat)
    ensures ResolvedMode(true, rxMode, f) == Some(Lsb) <==> InVoiceBand(f, 0) && f < 10_000_000
    ensures ResolvedMode(true, rxMode, f) == Some(Usb) <==>
              (InVoiceBand(f, 0) && f >= 10_000_000) || (MicAllowed(f, true) && !InVoiceBand(f, 0))
    ensures ResolvedMode(true, rxMode, f) != Some(Am)
    ensures ResolvedMode(false, rxMode, f) == Some(Usb) <==> rxMode == RxUsb && MicAllowed(f, true)
    ensures ResolvedMode(false, rxMode, f) == Some(Lsb) <==> rxMode == RxLsb && InVoiceBand(f, 0)
    ensures ResolvedMode(false, rxMode, f) == Some(Am) <==> rxMode == RxAm && InVoiceBand(f, 3_000)
  {
    SidebandIsCustomary(f);
  }

  /** What an owner would put on the air, if its request makes sense at all. */
  ghost function PurposeOf(
    owner: Owner, tuning: Tuning, unaware: bool, rxMode: RxMode, session: Session, audio: AudioInput): Option<Job>
  {
    var f := tuning.frequencyHz;
    if !tuning.frequencyKnown then None
    else
      match owner
      case Tune => Some(Carrier(f))
      case PhysicalMic =>
        var mode := ResolvedMode(unaware, rxMode, f);
        if mode.Some? then Some(Audio(f, mode.value, false, false)) else None
      case Http =>
        var raw := session.profile.source == RawIq;
        if session.reserved then Some(Audio(f, ProfileMode(session.profile), raw, raw && audio.carrierLike)) else None
      case _ => None
  }

  /** When a start is attempted, transmit preparation apart. */
  ghost predicate Startable(owner: Owner, purpose: Option<Job>, running: bool, audio: AudioInput) {
    purpose.Some? && JobAllowed(purpose.value) && running && (owner != Tune ==> audio.ready)
  }

  /** The part of the API controller that the transmitter reads. */
  class ApiSettings {
    var rxMode: RxMode
    const station: Station

    constructor (station: Station)
      ensures rxMode == RxAm && this.station == station
    {
      rxMode := RxAm;
      this.station := station;
    }
  }

  /** The callback context: what starting and stopping an owner does to the radio. */
  class TxContext {
    const receiver: Receiver
    const api: ApiSettings
    var network: NetworkTx?
    var frequencyHz: nat

    constructor (receiver: Receiver, api: ApiSettings)
      ensures this.receiver == receiver && this.api == api && network == null
    {
      this.receiver, this.api, network, frequencyHz := receiver, api, null, 0;
    }

    /** The mode the physical microphone transmits in at a frequency, if allowed. */
    function ResolveMode(frequency: nat): Option<TxMode>
      reads api, api.station
    {
      ResolvedMode(api.station.held && !api.station.modeAware, api.rxMode, frequency)
    }

    /** Whatever mode is resolved, its policy holds at that frequency. */
    lemma ResolvedModeAllowed(frequency: nat)
      ensures ResolveMode(frequency).Some? ==>
                JobAllowed(Audio(frequency, ResolveMode(frequency).value, false, false))
    {
      PolicyImpliesTunable(frequency);
    }

    ghost predicate RadioValid()
      reads receiver
    {
      && receiver.Valid() && receiver.Settled() && receiver.handleOpen
      && receiver.digest.keysAllowed
    }

    /** Unkeyed, unmuted, silent, and last tuned to the held frequency. */
    ghost predicate RadioRests()
      reads receiver
    {
      receiver.RestExceptWord() && receiver.WordHeld()
    }

    /** What an owner would put on the air, if its request makes sense at all. */
    ghost function Purpose(owner: Owner, audio: AudioInput): Option<Job>
      reads receiver`tuning, api, api.station, this`network, network
    {
      PurposeOf(
        owner, receiver.tuning, api.station.held && !api.station.modeAware, api.rxMode,
        if network == null then NO_SESSION else network.session, audio)
    }

    /** When a start is attempted: the policy of what it would transmit admits the frequency. */
    ghost predicate CanStart(owner: Owner, audio: AudioInput)
      reads receiver, api, api.station, this`network, network
    {
      receiver.preparation.transmitPrepared && Startable(owner, Purpose(owner, audio), receiver.running, audio)
    }

    /** What an owner may put on the air fits that owner and its session. */
    lemma PurposeFits(owner: Owner, audio: AudioInput)
      ensures var p := Purpose(owner, audio);
              CanStart(owner, audio) ==>
                && p.Some? && FitsOwner(p.value, owner)
                && (owner == Http ==> network != null && network.session.reserved &&
                                      FitsProfile(p.value, network.session.profile))
    {
    }

    /** Starts the radio for an owner. An attempted start succeeds exactly when
        nothing in it failed; any other leaves the radio alone. */
    method OwnerStart(owner: Owner, audio: AudioInput) returns (ok: bool)
      requires RadioValid() && receiver.Idle()
      modifies this`frequencyHz, receiver
      ensures RadioValid() && receiver.SettingsKept() && receiver.drains == old(receiver.drains)
      ensures StartOutcome(old(CanStart(owner, audio)), old(Purpose(owner, audio)), ok)
      ensures ok ==> receiver.stream.capture == (owner == PhysicalMic)
    {
      if owner == Tune {
        ok := StartTune(audio);
      } else if owner == Http && network != null && network.session.reserved && receiver.tuning.frequencyKnown {
        ok := StartNetwork(network.session.profile, audio);
      } else if owner == PhysicalMic {
        ok := StartMicrophone(audio);
      } else {
        ok := false;
      }
    }

    twostate predicate StartOutcome(can: bool, purpose: Option<Job>, ok: bool)
      reads this, receiver
    {
      if can then
        && old(receiver.digest.failures) <= receiver.digest.failures
        && (ok <==> receiver.digest.failures == old(receiver.digest.failures))
        && if ok then receiver.Active() && Some(receiver.job) == purpose else receiver.Idle()
      else !ok && receiver.LeftAlone()
    }

    method StartTune(audio: AudioInput) returns (ok: bool)
      requires RadioValid() && receiver.Idle()
      modifies this`frequencyHz, receiver
      ensures RadioValid() && receiver.SettingsKept() && receiver.drains == old(receiver.drains)
      ensures StartOutcome(old(CanStart(Tune, audio)), old(Purpose(Tune, audio)), ok)
      ensures ok ==> !receiver.stream.capture
    {
      hide Receiver.Valid, Receiver.AtRest, Receiver.Quiet, Receiver.RestExceptWord, Receiver.WordHeld;
      hide KeyUpCommands, KeyReady, IqAllowed, AmAllowed, MicAllowed, TxWord, PaFilter;
      if !receiver.tuning.frequencyKnown {
        return false;
      }
      frequencyHz := receiver.tuning.frequencyHz;
      if !TuneAllowed(frequencyHz) {
        return false;
      }
      PolicyImpliesTunable(frequencyHz);
      ghost var cleaned;
      ok, cleaned := receiver.TuneCarrierStart();
    }

    /** Raw samples are translated when the prebuffered ones look like a carrier. */
    method StartNetwork(profile: Profile, audio: AudioInput) returns (ok: bool)
      requires RadioValid() && receiver.Idle() && receiver.tuning.frequencyKnown
      requires network != null && network.session.reserved && network.session.profile == profile
      modifies this`frequencyHz, receiver
      ensures RadioValid() && receiver.SettingsKept() && receiver.drains == old(receiver.drains)
      ensures StartOutcome(old(CanStart(Http, audio)), old(Purpose(Http, audio)), ok)
      ensures ok ==> !receiver.stream.capture
    {
      hide Receiver.Valid, Receiver.AtRest, Receiver.Quiet, Receiver.RestExceptWord, Receiver.WordHeld;
      hide KeyUpCommands, KeyReady, IqAllowed, AmAllowed, MicAllowed, TxWord, PaFilter;
      frequencyHz := receiver.tuning.frequencyHz;
      var rawIq := profile.source == RawIq;
      if !ProfileAllows(profile, frequencyHz) {
        return false;
      }
      PolicyImpliesTunable(frequencyHz);
      ghost var cleaned;
      ok, cleaned := receiver.AudioStart(
        ProfileMode(profile), rawIq, rawIq && audio.carrierLike, false, audio.ready);
    }

    method StartMicrophone(audio: AudioInput) returns (ok: bool)
      requires RadioValid() && receiver.Idle()
      modifies this`frequencyHz, receiver
      ensures RadioValid() && receiver.SettingsKept() && receiver.drains == old(receiver.drains)
      ensures StartOutcome(old(CanStart(PhysicalMic, audio)), old(Purpose(PhysicalMic, audio)), ok)
      ensures ok ==> receiver.stream.capture
    {
      hide Receiver.Valid, Receiver.AtRest, Receiver.Quiet, Receiver.RestExceptWord, Receiver.WordHeld;
      hide KeyUpCommands, KeyReady, IqAllowed, AmAllowed, MicAllowed, TxWord, PaFilter;
      if !receiver.tuning.frequencyKnown {
        return false;
      }
      frequencyHz := receiver.tuning.frequencyHz;
      var mode := ResolveMode(frequencyHz);
      if mode.None? {
        return false;
      }
      ResolvedModeAllowed(frequencyHz);
      PolicyImpliesTunable(frequencyHz);
      ghost var cleaned;
      ok, cleaned := receiver.AudioStart(mode.value, false, false, true, audio.ready);
    }

    /** Stops the radio for an owner; a success leaves it unkeyed and at rest.
        Only a graceful stop of an audio owner lets queued audio drain. */
    method OwnerStop(owner: Owner, graceful: bool) returns (ok: bool)
      requires RadioValid()
      modifies receiver
      ensures RadioValid() && receiver.SettingsKept()
      ensures old(receiver.Idle()) ==> receiver.Idle() && (!graceful ==> receiver.LeftAlone())
      ensures ok && old(receiver.Active()) ==> RadioRests()
      ensures old(receiver.Idle()) ==> ok == (owner != NoOwner && owner != Soapy)
      ensures receiver.PreparationKept()
      ensures receiver.drains == old(receiver.drains) + if graceful && (owner == PhysicalMic || owner == Http) then 1 else 0
      ensures owner == NoOwner || owner == Soapy ==> !ok && receiver.LeftAlone()
      ensures owner != NoOwner && owner != Soapy ==> receiver.Idle()
      ensures owner != NoOwner && owner != Soapy && old(receiver.Active()) ==>
                && receiver.StoppedFromAir(ok)
                && old(receiver.digest.failures) <= receiver.digest.failures
                && (ok <==> receiver.digest.failures == old(receiver.digest.failures))
    {
      hide Receiver.Valid, StopDone, KeyReady;
      if owner == Tune {
        ok := receiver.Stop();
      } else if owner != PhysicalMic && owner != Http {
        ok := false;
      } else if graceful {
        ok := receiver.GracefulStop();
      } else {
        ok := receiver.Stop();
      }
    }
  }

  /** The owner machine as a value, for stating what an operation does to it. */
  datatype TxBook = TxBook(
    enabled: bool, armed: bool, pressed: bool, cleanupFailed: bool, owner: Owner, state: TxState,
    startedMs: nat, maximumKeyMs: nat, calls: seq<Call>)

  /** What the audio side contributes to a start: whether it accepts its settings
      and prebuffer, and whether prebuffered raw samples look like a carrier. */
  datatype AudioInput = AudioInput(ready: bool, carrierLike: bool)

  /** Physical PTT has been allowed. */
  function Armed(b: TxBook): TxBook {
    b.(armed := true, state := if b.state == StartupInhibit then RxState else b.state)
  }

  /** The owner's transmission has ended, with or without an error. */
  function Ended(b: TxBook, graceful: bool, ok: bool): TxBook {
    b.(owner := NoOwner, startedMs := 0, cleanupFailed := !ok, state := if ok then RxState else Faulted,
       calls := b.calls + [Stop(b.owner, graceful, ok)])
  }

  /** Somebody has been given the transmitter. */
  function Begun(b: TxBook, who: Owner, nowMs: nat): TxBook {
    b.(owner := who, startedMs := nowMs, cleanupFailed := false, state := Transmitting,
       calls := b.calls + [Start(who, true)])
  }

  /** The start failed: one stop followed, and the fault is latched. */
  function NotBegun(b: TxBook, who: Owner): TxBook {
    b.(cleanupFailed := who == Soapy, state := Faulted,
       calls := b.calls + [Start(who, false), Stop(who, false, who != Soapy)])
  }

  /** The radio side: what was sent, what for, and the receive settings. */
  datatype RadioView = RadioView(
    log: Log, failures: nat, drains: nat, running: bool, job: Job, tuning: Tuning, gain: Option<int>)

  datatype TxView = TxView(tx: TxBook, radio: RadioView)

  predicate SettingsSame(b: RadioView, a: RadioView) {
    a.tuning == b.tuning && a.gain == b.gain
  }

  /** The owner's transmission ended. The stop succeeds exactly when nothing in it
      failed; only a graceful one of an audio owner lets audio drain. */
  predicate TxStops(b: TxView, a: TxView, graceful: bool, ok: bool) {
    && a.tx == Ended(b.tx, graceful, ok) && SettingsSame(b.radio, a.radio)
    && b.radio.failures <= a.radio.failures && (ok <==> a.radio.failures == b.radio.failures)
    && a.radio.drains == b.radio.drains + if graceful && b.tx.owner != Tune then 1 else 0
  }

  /** A start was called for: it succeeded exactly when it could be attempted and
      nothing in it failed, and what is then on the air is what was asked for. */
  predicate TxStarts(
    b: TxView, a: TxView, who: Owner, at: nat, startable: bool, purpose: Option<Job>, ok: bool)
  {
    && a.tx == (if ok then Begun(b.tx, who, at) else NotBegun(b.tx, who))
    && SettingsSame(b.radio, a.radio) && a.radio.drains == b.radio.drains
    && if startable then
         && b.radio.failures <= a.radio.failures && (ok <==> a.radio.failures == b.radio.failures)
         && (ok ==> Some(a.radio.job) == purpose)
       else !ok && a.radio == b.radio
  }

  /** A microphone edge. A release ends the microphone's own transmission, letting
      audio drain, and nobody else's; a press takes the transmitter from anybody
      else once that transmission has ended without an error. */
  ghost predicate TxEdge(
    b: TxView, a: TxView, pressed: bool, at: nat, prepared: bool, purpose: Option<Job>, audio: AudioInput)
  {
    var held := b.(tx := b.tx.(pressed := pressed));
    if !b.tx.enabled then a == b
    else if !b.tx.armed then a == (if pressed then held else held.(tx := Armed(held.tx)))
    else if !pressed then
      if b.tx.owner == PhysicalMic then TxStops(held, a, true, a.tx.state == RxState) else a == held
    else if b.tx.state == Faulted || b.tx.owner == PhysicalMic then a == held
    else if b.tx.owner == NoOwner then MicStarts(held, a, at, prepared, purpose, audio)
    else exists m: TxView :: TxPreempts(held, m, a, at, prepared, purpose, audio)
  }

  ghost predicate MicStarts(
    b: TxView, a: TxView, at: nat, prepared: bool, purpose: Option<Job>, audio: AudioInput)
  {
    TxStarts(b, a, PhysicalMic, at, prepared && Startable(PhysicalMic, purpose, b.radio.running, audio), purpose,
             a.tx.state == Transmitting)
  }

  /** The other transmission is cut off, and if that met no error, the
      microphone's begins. */
  ghost predicate TxPreempts(
    b: TxView, m: TxView, a: TxView, at: nat, prepared: bool, purpose: Option<Job>, audio: AudioInput)
  {
    && TxStops(b, m, false, m.tx.state == RxState)
    && if m.tx.state == Faulted then a == m else MicStarts(m, a, at, prepared, purpose, audio)
  }

  /** The owner machine. */
  class TxControl {
    const context: TxContext
    var enabled: bool
    var pttArmed: bool
    var pttPressed: bool
    var cleanupFailed: bool
    var owner: Owner
    var state: TxState
    var startedMs: nat
    var maximumKeyMs: nat

    ghost var calls: seq<Call>
    ghost var phase: Phase

    /** At rest there is an owner exactly when transmitting; the radio is on the
        air for that owner and for nobody else; and unless the machine has
        faulted, a radio without an owner is known to be unkeyed. */
    ghost predicate Inv()
      reads this`enabled, this`cleanupFailed, this`owner, this`state, this`calls, this`phase, context.receiver
    {
      var radio := context.receiver;
      && context.RadioValid()
      && phase == PhaseOf(calls)
      && (if state == Faulted then FaultCame(calls, cleanupFailed) else !cleanupFailed)
      && match state
         case Transmitting =>
           enabled && owner != NoOwner && phase == Owned(owner) && radio.Active() && FitsOwner(radio.job, owner)
         case Faulted => owner == NoOwner && phase == Failed && radio.Idle()
         case StartupInhibit => owner == NoOwner && phase == Rest && radio.Idle() && context.RadioRests()
         case RxState => owner == NoOwner && phase == Rest && radio.Idle() && context.RadioRests()
         case _ => false
    }

    lemma OwnerIsOnAir()
      requires Inv()
      ensures owner != NoOwner <==> state == Transmitting
      ensures owner != NoOwner ==>
                enabled && context.receiver.Active() && FitsOwner(context.receiver.job, owner)
      ensures owner == NoOwner ==> context.receiver.Idle()
      ensures owner == NoOwner && state != Faulted ==> context.RadioRests()
      ensures if state == Faulted then FaultCame(calls, cleanupFailed) else !cleanupFailed
      ensures context.RadioValid()
    {
    }

    ghost function Book(): TxBook
      reads this
    {
      TxBook(enabled, pttArmed, pttPressed, cleanupFailed, owner, state, startedMs, maximumKeyMs, calls)
    }

    ghost function Seen(): TxView
      reads this, context.receiver
    {
      var r := context.receiver;
      TxView(Book(), RadioView(r.log, r.digest.failures, r.drains, r.running, r.job, r.tuning, r.gain))
    }

    /** No transition happened and the radio was left alone. */
    twostate predicate Unchanged()
      reads this, context.receiver
    {
      Seen() == old(Seen())
    }

    /** The transmission of whoever owns the transmitter ended. */
    twostate predicate Stopped(graceful: bool, ok: bool)
      reads this, context.receiver
    {
      TxStops(old(Seen()), Seen(), graceful, ok)
    }

    /** A start was called for. */
    twostate predicate Called(wanted: Owner, nowMs: nat, can: bool, purpose: Option<Job>, ok: bool)
      reads this, context.receiver
    {
      TxStarts(old(Seen()), Seen(), wanted, nowMs, can, purpose, ok)
    }

    constructor (context: TxContext, enabled: bool, maximumKeyMs: nat)
      requires context.RadioValid() && context.receiver.Idle() && context.RadioRests()
      ensures Inv() && this.context == context
      ensures Book() == TxBook(
                enabled, false, false, false, NoOwner, if enabled then StartupInhibit else RxState,
                0, maximumKeyMs, [])
    {
      this.context, this.enabled, this.maximumKeyMs := context, enabled, maximumKeyMs;
      pttArmed, pttPressed, cleanupFailed := false, false, false;
      owner, startedMs := NoOwner, 0;
      state := if enabled then StartupInhibit else RxState;
      calls, phase := [], Rest;
    }

    ghost method Record(c: Call)
      requires phase == PhaseOf(calls)
      modifies this`calls, this`phase
      ensures calls == old(calls) + [c] && phase == NextPhase(old(phase), c) == PhaseOf(calls)
    {
      PhaseExtend(calls, c);
      calls, phase := calls + [c], NextPhase(phase, c);
    }

    /** Stops whoever owns the transmitter. Ownership always ends; a failed stop
        latches the fault. */
    method StopOwner(graceful: bool) returns (r: ControlResult)
      requires Inv()
      modifies this, context.receiver
      ensures Inv() && context.receiver.SettingsKept() && context.receiver.PreparationKept()
      ensures r == ControlOk || r == HardwareError
      ensures if old(owner) == NoOwner then r == ControlOk && Unchanged() else Stopped(graceful, r == ControlOk)
    {
      hide Receiver.Valid, Receiver.Settled, Receiver.Idle, Receiver.Active;
      hide Receiver.RestExceptWord, Receiver.StoppedFromAir, PhaseOf, FaultCame;
      hide TxContext.RadioRests, TxContext.RadioValid;
      if owner == NoOwner {
        return ControlOk;
      }
      StopFaults(calls, graceful);
      var current := owner;
      state := Unkeying;
      var ok := context.OwnerStop(current, graceful);
      EndOwnership(graceful, ok);
      r := if ok then ControlOk else HardwareError;
    }

    /** Books the stop callback and ends the ownership. */
    method EndOwnership(graceful: bool, ok: bool)
      requires context.RadioValid() && context.receiver.Idle() && (ok ==> context.RadioRests())
      requires owner != NoOwner && phase == PhaseOf(calls) == Owned(owner)
      requires FaultCame(calls + [Stop(owner, graceful, false)], true)
      modifies this
      ensures Inv() && Book() == Ended(old(Book()), graceful, ok)
    {
      hide Receiver.Idle, PhaseOf, FaultCame, TxContext.RadioRests, TxContext.RadioValid;
      Record(Stop(owner, graceful, ok));
      cleanupFailed := !ok;
      owner, startedMs := NoOwner, 0;
      state := if ok then RxState else Faulted;
    }

    /** Why a request is refused outright, if it is. */
    function Refusal(wanted: Owner): Option<ControlResult>
      reads this
    {
      if !enabled then Some(Disabled)
      else if !ValidOwner(wanted) then Some(InvalidOwner)
      else if wanted == PhysicalMic && !pttArmed then Some(Inhibited)
      else if state == Faulted || state == Recovering then Some(Inhibited)
      else if owner == wanted then Some(ControlOk)
      else if owner != NoOwner then Some(ControlBusy)
      else None
    }

    /** A request is accepted exactly when nobody owns a working transmitter;
        the microphone needs PTT armed; the owner itself is told all is well. */
    lemma RefusalIs(wanted: Owner)
      requires Inv()
      ensures Refusal(wanted).None? <==>
                && enabled && wanted != NoOwner && owner == NoOwner && state != Faulted
                && (wanted == PhysicalMic ==> pttArmed)
      ensures Refusal(wanted) == Some(ControlOk) ==> owner == wanted
      ensures enabled && owner != NoOwner && owner != wanted && wanted != NoOwner && wanted != PhysicalMic ==>
                Refusal(wanted) == Some(ControlBusy)
      ensures enabled && owner == NoOwner && state == Faulted && wanted != NoOwner ==>
                Refusal(wanted) == Some(Inhibited)
      ensures wanted == PhysicalMic && enabled && pttArmed && owner == PhysicalMic ==>
                Refusal(wanted) == Some(ControlOk)
    {
    }

    /** Ties a network transmission to the session that asked for it. */
    ghost predicate ServesSession()
      reads this, context, context.receiver, context.network
    {
      owner == Http ==>
        context.network != null && context.network.session.reserved &&
        FitsProfile(context.receiver.job, context.network.session.profile)
    }

    /** Asks for the transmitter. A start that fails is followed by one stop and latches the fault. */
    method Request(wanted: Owner, nowMs: nat, audio: AudioInput) returns (r: ControlResult)
      requires Inv()
      modifies this, context`frequencyHz, context.receiver
      ensures Inv() && Latched() && context.receiver.SettingsKept()
      ensures old(Refusal(wanted)).Some? ==> r == old(Refusal(wanted)).value && Unchanged()
      ensures old(Refusal(wanted)).None? ==>
                && (r == ControlOk || r == HardwareError)
                && Called(wanted, nowMs, old(context.CanStart(wanted, audio)), old(context.Purpose(wanted, audio)),
                          r == ControlOk)
                && (r == ControlOk ==> ServesSession())
    {
      hide TxControl.Inv, PhaseOf, FitsOwner, FitsProfile, FaultCame, TxControl.ServesSession;
      hide TxContext.CanStart, TxContext.Purpose;
      var refused := Refusal(wanted);
      if refused.Some? {
        return refused.value;
      }
      var ok := Prepare(wanted, nowMs, audio);
      r := if ok then ControlOk else HardwareError;
    }

    /** The accepted part of a request. */
    method Prepare(wanted: Owner, nowMs: nat, audio: AudioInput) returns (ok: bool)
      requires Inv() && Refusal(wanted).None?
      modifies this, context`frequencyHz, context.receiver
      ensures Inv() && Latched() && context.receiver.SettingsKept()
      ensures Called(wanted, nowMs, old(context.CanStart(wanted, audio)), old(context.Purpose(wanted, audio)), ok)
      ensures ok ==> ServesSession()
    {
      hide Receiver.Valid, Receiver.Active, PhaseOf, FitsOwner, FitsProfile, FaultCame;
      hide TxContext.RadioValid, TxContext.RadioRests, TxContext.CanStart, TxContext.Purpose;
      cleanupFailed, state := false, Preparing;
      ok := Begin(wanted, nowMs, audio);
    }

    /** The calls the start makes, and what follows from its outcome. */
    method Begin(wanted: Owner, nowMs: nat, audio: AudioInput) returns (ok: bool)
      requires context.RadioValid() && context.receiver.Idle()
      requires enabled && wanted != NoOwner && owner == NoOwner && state == Preparing && !cleanupFailed
      requires phase == PhaseOf(calls) == Rest
      modifies this, context`frequencyHz, context.receiver
      ensures Inv() && context.receiver.SettingsKept()
      ensures Called(wanted, nowMs, old(context.CanStart(wanted, audio)), old(context.Purpose(wanted, audio)), ok)
      ensures ok ==> ServesSession()
    {
      hide Receiver.Valid, Receiver.Settled, Receiver.Idle, Receiver.Active;
      hide Receiver.RestExceptWord, Receiver.StoppedFromAir, PhaseOf, FitsOwner, FaultCame;
      hide TxContext.RadioValid, TxContext.RadioRests, TxControl.Inv, TxContext.CanStart;
      context.PurposeFits(wanted, audio);
      ok := context.OwnerStart(wanted, audio);
      if ok {
        BeginOwnership(wanted, nowMs);
      } else {
        FailStart(wanted);
      }
    }

    /** Books a start callback that failed, and gives up. */
    method FailStart(wanted: Owner)
      requires context.RadioValid() && context.receiver.Idle()
      requires wanted != NoOwner && owner == NoOwner && phase == PhaseOf(calls) == Rest
      modifies this`calls, this`phase, this`cleanupFailed, this`state, context.receiver
      ensures Inv() && context.receiver.LeftAlone() && context.receiver.SettingsKept()
      ensures Book() == NotBegun(old(Book()), wanted)
    {
      hide TxControl.Inv, Receiver.Idle, PhaseOf, TxContext.RadioValid;
      Record(Start(wanted, false));
      GiveUp(wanted);
      assert calls == old(calls) + [Start(wanted, false), Stop(wanted, false, wanted != Soapy)];
    }

    /** Books a start callback that succeeded. */
    method BeginOwnership(wanted: Owner, nowMs: nat)
      requires context.RadioValid() && context.receiver.Active() && FitsOwner(context.receiver.job, wanted)
      requires enabled && wanted != NoOwner && phase == PhaseOf(calls) == Rest && !cleanupFailed
      modifies this`calls, this`phase, this`owner, this`startedMs, this`state
      ensures Inv() && Book() == Begun(old(Book()), wanted, nowMs)
    {
      hide PhaseOf, FaultCame, Receiver.Active, FitsOwner, TxContext.RadioRests, TxContext.RadioValid;
      Record(Start(wanted, true));
      owner, startedMs, state := wanted, nowMs, Transmitting;
    }

    /** One stop after a start that failed; the fault is latched either way. The
        radio has already been through its own cleanup, so this stop finds nothing
        to do and never reports an error, whatever that cleanup met. */
    method GiveUp(wanted: Owner)
      requires context.RadioValid() && context.receiver.Idle()
      requires wanted != NoOwner && owner == NoOwner && phase == PhaseOf(calls) == Undoing(wanted)
      requires calls != [] && calls[|calls| - 1] == Start(wanted, false)
      modifies this`calls, this`phase, this`cleanupFailed, this`state, context.receiver
      ensures Inv() && state == Faulted && context.receiver.SettingsKept()
      ensures context.receiver.Idle() && context.receiver.LeftAlone()
      ensures cleanupFailed == (wanted == Soapy)
      ensures calls == old(calls) + [Stop(wanted, false, wanted != Soapy)]
    {
      hide Receiver.Valid, Receiver.Settled, Receiver.Idle, Receiver.Active;
      hide Receiver.RestExceptWord, Receiver.StoppedFromAir, PhaseOf, FitsOwner;
      hide TxContext.RadioValid, TxContext.RadioRests;
      var cleanupOk := context.OwnerStop(wanted, false);
      Record(Stop(wanted, false, cleanupOk));
      cleanupFailed := !cleanupOk;
      state := Faulted;
    }

    /** Gives the transmitter up; refused to anyone who does not own it. */
    method Release(party: Owner, graceful: bool) returns (r: ControlResult)
      requires Inv()
      modifies this, context.receiver
      ensures Inv() && Latched() && context.receiver.SettingsKept()
      ensures !old(enabled) ==> r == Disabled && Unchanged()
      ensures old(enabled) && party == NoOwner ==> r == InvalidOwner && Unchanged()
      ensures old(enabled) && party != NoOwner && old(owner) != party ==> r == ControlBusy && Unchanged()
      ensures old(enabled) && party != NoOwner && old(owner) == party ==>
                (r == ControlOk || r == HardwareError) && Stopped(graceful, r == ControlOk)
    {
      hide Receiver.Valid, Receiver.Active, PhaseOf, FaultCame, TxContext.RadioRests, TxContext.RadioValid;
      if !enabled {
        return Disabled;
      }
      if !ValidOwner(party) {
        return InvalidOwner;
      }
      if owner != party {
        return ControlBusy;
      }
      r := StopOwner(graceful);
    }

    /** The fault latch: once faulted, always faulted, and no callback is made. */
    twostate predicate Latched()
      reads this
    {
      old(state) == Faulted ==> state == Faulted && calls == old(calls)
    }

    /** Allows physical PTT; to be called only with the radio known to be in receive. */
    method ArmPhysicalPtt()
      requires Inv()
      modifies this`pttArmed, this`state
      ensures Inv()
      ensures Book() == if enabled && owner == NoOwner then Armed(old(Book())) else old(Book())
    {
      if !enabled || owner != NoOwner {
        return;
      }
      pttArmed := true;
      if state == StartupInhibit {
        state := RxState;
      }
    }

    /** A microphone PTT edge. A press preempts any other owner, but only after
        that owner's stop has succeeded; a release ends the microphone's own
        transmission and nobody else's. */
    method PhysicalPtt(pressed: bool, nowMs: nat, audio: AudioInput) returns (r: ControlResult)
      requires Inv()
      modifies this, context`frequencyHz, context.receiver
      ensures Inv() && Latched() && context.receiver.SettingsKept()
      ensures TxEdge(old(Seen()), Seen(), pressed, nowMs, old(context.receiver.preparation.transmitPrepared),
                     old(context.Purpose(PhysicalMic, audio)), audio)
      ensures var b := old(Book());
              && (!b.enabled ==> r == Disabled)
              && (b.enabled && pressed && (!b.armed || b.state == Faulted) ==> r == Inhibited)
              && (r == Disabled || r == Inhibited || r == if state == Faulted && pressed then HardwareError
                  else if b.owner == PhysicalMic && !pressed && state == Faulted then HardwareError else ControlOk)
    {
      hide Receiver.Valid, Receiver.Active, PhaseOf, FaultCame, TxContext.RadioValid, TxContext.RadioRests;
      hide FitsOwner, FitsProfile, TxContext.CanStart, TxContext.Purpose;
      if !enabled {
        return Disabled;
      }
      pttPressed := pressed;
      if !pttArmed {
        if pressed {
          return Inhibited;
        }
        pttArmed := true;
        if state == StartupInhibit {
          state := RxState;
        }
        return ControlOk;
      }
      if !pressed {
        if owner == PhysicalMic {
          r := StopOwner(true);
          return;
        }
        return ControlOk;
      }
      r := Press(nowMs, audio);
    }

    /** A press with PTT armed. */
    method Press(nowMs: nat, audio: AudioInput) returns (r: ControlResult)
      requires Inv() && enabled && pttArmed && pttPressed
      modifies this, context`frequencyHz, context.receiver
      ensures Inv() && Latched() && context.receiver.SettingsKept()
      ensures TxEdge(old(Seen()), Seen(), true, nowMs, old(context.receiver.preparation.transmitPrepared),
                     old(context.Purpose(PhysicalMic, audio)), audio)
      ensures r == if old(state) == Faulted then Inhibited else if state == Faulted then HardwareError else ControlOk
    {
      hide TxControl.Inv, PhaseOf, FaultCame, Receiver.Active, TxContext.RadioValid, TxContext.RadioRests;
      hide FitsOwner, FitsProfile, TxControl.ServesSession, PurposeOf, Startable;
      OwnerIsOnAir();
      RefusalIs(PhysicalMic);
      ghost var (b, purpose) := (Seen(), context.Purpose(PhysicalMic, audio));
      ghost var prepared := context.receiver.preparation.transmitPrepared;
      if owner != NoOwner && owner != PhysicalMic {
        var stopped := StopOwner(false);
        OwnerIsOnAir();
        RefusalIs(PhysicalMic);
        if stopped != ControlOk {
          assert TxPreempts(b, Seen(), Seen(), nowMs, prepared, purpose, audio);
          return stopped;
        }
      }
      ghost var m := Seen();
      assert context.Purpose(PhysicalMic, audio) == purpose;
      assert context.CanStart(PhysicalMic, audio) == (prepared && Startable(PhysicalMic, purpose, m.radio.running, audio));
      r := Request(PhysicalMic, nowMs, audio);
      assert b.tx.owner != NoOwner && b.tx.owner != PhysicalMic ==>
          TxPreempts(b, m, Seen(), nowMs, prepared, purpose, audio);
    }

    /** The maximum-key watchdog. */
    method Tick(nowMs: nat) returns (r: ControlResult)
      requires Inv()
      modifies this, context.receiver
      ensures Inv() && Latched() && context.receiver.SettingsKept()
      ensures if old(owner) != NoOwner && old(maximumKeyMs) != 0 &&
                 Elapsed(nowMs, old(startedMs)) >= old(maximumKeyMs)
              then (r == MaxKey || r == HardwareError) && Stopped(false, r == MaxKey)
              else r == (if enabled then ControlOk else Disabled) && Unchanged()
    {
      hide TxControl.Inv, Receiver.Active, PhaseOf, FaultCame, FitsOwner, TxContext.RadioRests, TxContext.RadioValid;
      OwnerIsOnAir();
      if !enabled {
        return Disabled;
      }
      if owner == NoOwner || state != Transmitting {
        return ControlOk;
      }
      if maximumKeyMs != 0 && Elapsed(nowMs, startedMs) >= maximumKeyMs {
        var stopped := StopOwner(false);
        r := if stopped == ControlOk then MaxKey else stopped;
      } else {
        r := ControlOk;
      }
    }

    method Shutdown()
      requires Inv()
      modifies this, context.receiver
      ensures Inv() && Latched() && context.receiver.SettingsKept() && context.receiver.PreparationKept()
      ensures if old(owner) == NoOwner then Unchanged() && context.receiver.LeftAlone()
              else Stopped(false, state == RxState)
    {
      hide Receiver.Valid, Receiver.Active, PhaseOf, FaultCame, TxContext.RadioRests, TxContext.RadioValid;
      if owner != NoOwner {
        var _ := StopOwner(false);
      }
    }

    /** Changes the key limit; refused while anyone owns the transmitter. */
    method SetTimeoutSeconds(seconds: nat) returns (ok: bool)
      requires Inv()
      modifies this`maximumKeyMs
      ensures Inv()
      ensures ok == (owner == NoOwner && TIMEOUT_MIN_SECONDS <= seconds <= TIMEOUT_MAX_SECONDS)
      ensures maximumKeyMs == if ok then seconds * 1000 else old(maximumKeyMs)
    {
      if owner != NoOwner || seconds < TIMEOUT_MIN_SECONDS || seconds > TIMEOUT_MAX_SECONDS {
        return false;
      }
      maximumKeyMs := seconds * 1000;
      return true;
    }
  }

  const TUNE_LEASE_MS: nat := 15_000
  const TUNE_HARD_LIMIT_MS: nat := 60_000

  datatype TuneResult =
    TuneOk | TuneDisabled | TuneBusy | InvalidLease | TuneExpired | HardLimit | TuneHardwareError

  datatype TuneLease = TuneLease(active: bool, lease: nat, startedMs: nat, renewedMs: nat)

  const NO_TUNE := TuneLease(false, 0, 0, 0)

  /** The leased Tune carrier. */
  class TuneControl {
    const control: TxControl
    var enabled: bool
    var carrier: TuneLease

    constructor (control: TxControl, enabled: bool)
      ensures this.control == control && this.enabled == enabled && carrier == NO_TUNE
    {
      this.control, this.enabled, carrier := control, enabled, NO_TUNE;
    }

    /** Whoever transmits as Tune holds a Tune lease. The converse may lag
        behind until `Reconcile`, when another owner preempted the carrier. */
    ghost predicate Linked()
      reads this, control
    {
      && (control.owner == Tune ==> carrier.active)
      && (if carrier.active then carrier.lease != 0 && enabled else carrier == NO_TUNE)
    }

    predicate Holds(lease: nat)
      reads this
    {
      carrier.active && lease != 0 && lease == carrier.lease
    }

    /** The carrier's lease is gone, and its transmission with it. */
    twostate predicate TakenDown(reason: TuneResult, r: TuneResult)
      reads this, control, control.context.receiver
    {
      && carrier == NO_TUNE
      && if old(control.owner) == Tune
         then control.Stopped(false, control.state == RxState) &&
              r == if control.state == RxState then reason else TuneHardwareError
         else control.Unchanged() && r == TuneHardwareError
    }

    /** Ends the carrier; the lease is gone whatever the radio does, and only
        the Tune owner is ever stopped. */
    method StopActive(reason: TuneResult) returns (r: TuneResult)
      requires control.Inv() && Linked()
      modifies this`carrier, control, control.context.receiver
      ensures control.Inv() && Linked() && control.Latched()
      ensures control.context.receiver.SettingsKept()
      ensures if old(carrier.active) then TakenDown(reason, r)
              else r == reason && carrier == old(carrier) && control.Unchanged()
    {
      hide TxControl.Inv;
      hide Receiver.Active, Receiver.Idle, TxContext.RadioValid, TxContext.RadioRests, FitsOwner, FaultCame;
      control.OwnerIsOnAir();
      if !carrier.active {
        return reason;
      }
      var released := control.Release(Tune, false);
      carrier := NO_TUNE;
      r := if released == ControlOk then reason else TuneHardwareError;
    }

    method Start(nowMs: nat, lease: nat, audio: AudioInput) returns (r: TuneResult)
      requires control.Inv() && Linked()
      modifies this`carrier, control, control.context`frequencyHz, control.context.receiver
      ensures control.Inv() && Linked() && control.Latched()
      ensures control.context.receiver.SettingsKept()
      ensures var refused :=
                if !old(enabled) then Some(TuneDisabled)
                else if old(carrier.active) then Some(TuneBusy)
                else if lease == 0 then Some(InvalidLease)
                else if old(!control.enabled || control.state == Faulted) then Some(TuneHardwareError)
                else if old(control.owner) != NoOwner then Some(TuneBusy)
                else None;
              if refused.Some? then r == refused.value && carrier == old(carrier) && control.Unchanged()
              else
                && (r == TuneOk || r == TuneHardwareError)
                && carrier == (if r == TuneOk then TuneLease(true, lease, nowMs, nowMs) else old(carrier))
                && control.Called(Tune, nowMs, old(control.context.CanStart(Tune, audio)),
                                  old(control.context.Purpose(Tune, audio)), r == TuneOk)
    {
      hide TxControl.Inv, TxContext.CanStart, TxContext.Purpose;
      hide Receiver.Active, Receiver.Idle, TxContext.RadioValid, TxContext.RadioRests, FitsOwner, FaultCame;
      control.RefusalIs(Tune);
      control.OwnerIsOnAir();
      if !enabled {
        return TuneDisabled;
      }
      if carrier.active {
        return TuneBusy;
      }
      if lease == 0 {
        return InvalidLease;
      }
      var started := control.Request(Tune, nowMs, audio);
      if started != ControlOk {
        return if started == ControlBusy then TuneBusy else TuneHardwareError;
      }
      carrier := TuneLease(true, lease, nowMs, nowMs);
      return TuneOk;
    }

    method Keepalive(nowMs: nat, lease: nat) returns (r: TuneResult)
      requires control.Inv() && Linked()
      modifies this`carrier, control, control.context.receiver
      ensures control.Inv() && Linked() && control.Latched()
      ensures control.context.receiver.SettingsKept()
      ensures if !old(enabled && Holds(lease)) then
                && r == (if enabled then InvalidLease else TuneDisabled)
                && carrier == old(carrier) && control.Unchanged()
              else if Elapsed(nowMs, old(carrier.startedMs)) >= TUNE_HARD_LIMIT_MS then TakenDown(HardLimit, r)
              else if Elapsed(nowMs, old(carrier.renewedMs)) >= TUNE_LEASE_MS then TakenDown(TuneExpired, r)
              else r == TuneOk && carrier == old(carrier).(renewedMs := nowMs) && control.Unchanged()
    {
      hide TxControl.Inv;
      hide Receiver.Active, Receiver.Idle, TxContext.RadioValid, TxContext.RadioRests, FitsOwner, FaultCame;
      if !enabled {
        return TuneDisabled;
      }
      if !Holds(lease) {
        return InvalidLease;
      }
      if Elapsed(nowMs, carrier.startedMs) >= TUNE_HARD_LIMIT_MS {
        r := StopActive(HardLimit);
      } else if Elapsed(nowMs, carrier.renewedMs) >= TUNE_LEASE_MS {
        r := StopActive(TuneExpired);
      } else {
        carrier := carrier.(renewedMs := nowMs);
        r := TuneOk;
      }
    }

    method Stop(lease: nat) returns (r: TuneResult)
      requires control.Inv() && Linked()
      modifies this`carrier, control, control.context.receiver
      ensures control.Inv() && Linked() && control.Latched()
      ensures control.context.receiver.SettingsKept()
      ensures if old(enabled && Holds(lease)) then TakenDown(TuneOk, r)
              else
                && r == (if enabled then InvalidLease else TuneDisabled)
                && carrier == old(carrier) && control.Unchanged()
    {
      hide TxControl.Inv;
      hide Receiver.Active, Receiver.Idle, TxContext.RadioValid, TxContext.RadioRests, FitsOwner, FaultCame;
      if !enabled {
        return TuneDisabled;
      }
      if !Holds(lease) {
        return InvalidLease;
      }
      r := StopActive(TuneOk);
    }

    method Tick(nowMs: nat) returns (r: TuneResult)
      requires control.Inv() && Linked()
      modifies this`carrier, control, control.context.receiver
      ensures control.Inv() && Linked() && control.Latched()
      ensures control.context.receiver.SettingsKept()
      ensures if old(carrier.active) && Elapsed(nowMs, old(carrier.startedMs)) >= TUNE_HARD_LIMIT_MS
              then TakenDown(HardLimit, r)
              else if old(carrier.active) && Elapsed(nowMs, old(carrier.renewedMs)) >= TUNE_LEASE_MS
              then TakenDown(TuneExpired, r)
              else
                && r == (if enabled then TuneOk else TuneDisabled)
                && carrier == old(carrier) && control.Unchanged()
    {
      hide TxControl.Inv;
      hide Receiver.Active, Receiver.Idle, TxContext.RadioValid, TxContext.RadioRests, FitsOwner, FaultCame;
      if !enabled {
        return TuneDisabled;
      }
      if !carrier.active {
        return TuneOk;
      }
      if Elapsed(nowMs, carrier.startedMs) >= TUNE_HARD_LIMIT_MS {
        r := StopActive(HardLimit);
      } else if Elapsed(nowMs, carrier.renewedMs) >= TUNE_LEASE_MS {
        r := StopActive(TuneExpired);
      } else {
        r := TuneOk;
      }
    }

    /** Drops a lease whose carrier another owner has taken down. */
    method Reconcile()
      requires Linked()
      modifies this`carrier
      ensures Linked() && carrier == if control.owner == Tune then old(carrier) else NO_TUNE
    {
      if carrier.active && control.owner != Tune {
        carrier := NO_TUNE;
      }
    }

    method Shutdown()
      requires control.Inv() && Linked()
      modifies this`carrier, control, control.context.receiver
      ensures control.Inv() && Linked() && control.Latched()
      ensures control.context.receiver.SettingsKept()
      ensures if old(carrier.active) then exists r :: TakenDown(TuneOk, r)
              else carrier == old(carrier) && control.Unchanged()
    {
      hide TxControl.Inv;
      hide Receiver.Active, Receiver.Idle, TxContext.RadioValid, TxContext.RadioRests, FitsOwner, FaultCame;
      if carrier.active {
        var r := StopActive(TuneOk);
        assert TakenDown(TuneOk, r);
      }
    }
  }

  const NETWORK_LEASE_MS: nat := 15_000
  const PREBUFFER_FRAMES: nat := 4_096

  datatype NetworkResult =
    NetOk | NetDisabled | NetBusy | NetInvalid | NetStale | NotReady | NetHardwareError | NetExpired

  datatype Session = Session(
    reserved: bool, streamConnected: bool, keyed: bool, lease: nat,
    renewedMs: nat, lastDataMs: nat, buffered: nat, profile: Profile)

  const NO_PROFILE := Profile(NetUsb, PcmAudio, 0, 0)
  const NO_SESSION := Session(false, false, false, 0, 0, 0, 0, NO_PROFILE)

  predicate ValidProfile(p: Profile) {
    && 1 <= p.drivePercent <= 100 && p.sampleRate == 48_000
    && ((p.source == PcmAudio && p.mode != NetIq) || (p.source == RawIq && p.mode == NetIq))
  }

  /** The profiles that are accepted. */
  lemma ProfilesAre(p: Profile)
    ensures ValidProfile(p) <==>
              && p.drivePercent != 0 && p.drivePercent <= 100 && p.sampleRate == 48_000
              && (p.source == RawIq <==> p.mode == NetIq)
    ensures ValidProfile(p) ==>
              && (ProfileMode(p) == Lsb <==> p.mode == NetLsb) && (ProfileMode(p) == Am <==> p.mode == NetAm)
  {
  }

  /** The leased network transmit session. */
  class NetworkTx {
    const control: TxControl
    var enabled: bool
    var session: Session

    constructor (control: TxControl, enabled: bool)
      ensures this.control == control && this.enabled == enabled && session == NO_SESSION
    {
      this.control, this.enabled, session := control, enabled, NO_SESSION;
    }

    /** Whoever transmits over the network has a keyed, connected and filled
        session. The converse may lag behind until `Reconcile`. */
    ghost predicate Linked()
      reads this, control
    {
      && (control.owner == Http ==> session.keyed && session.streamConnected && session.buffered == PREBUFFER_FRAMES)
      && (session.keyed ==> session.reserved)
      && (session.reserved ==> session.lease != 0)
      && session.buffered <= PREBUFFER_FRAMES
    }

    predicate Owns(lease: nat)
      reads this
    {
      session.reserved && lease != 0 && session.lease == lease
    }

    /** The transmission of the session, if it is still the session's, ended. */
    twostate predicate Unkeyed(graceful: bool, r: NetworkResult)
      reads this, control, control.context.receiver
    {
      if old(!session.keyed) then r == NetOk && control.Unchanged()
      else if old(control.owner) == Http then
        && control.Stopped(graceful, control.state == RxState)
        && r == if control.state == RxState then NetOk else NetHardwareError
      else r == NetHardwareError && control.Unchanged()
    }

    method StopIfKeyed() returns (r: NetworkResult)
      requires control.Inv() && Linked()
      modifies this`session, control, control.context.receiver
      ensures control.Inv() && Linked() && control.Latched()
      ensures control.context.receiver.SettingsKept()
      ensures session == old(session).(keyed := false) && Unkeyed(false, r)
    {
      hide TxControl.Inv;
      hide Receiver.Active, Receiver.Idle, TxContext.RadioValid, TxContext.RadioRests, FitsOwner, FaultCame;
      control.OwnerIsOnAir();
      if !session.keyed {
        return NetOk;
      }
      var released := control.Release(Http, false);
      session := session.(keyed := false);
      r := if released == ControlOk then NetOk else NetHardwareError;
    }

    method Acquire(profile: Profile, lease: nat, nowMs: nat) returns (r: NetworkResult)
      requires Linked()
      modifies this`session
      ensures Linked()
      ensures r == if !enabled || !control.enabled then NetDisabled
                   else if !ValidProfile(profile) || lease == 0 then NetInvalid
                   else if old(session.reserved) || control.owner != NoOwner then NetBusy
                   else NetOk
      ensures session == if r == NetOk
                         then Session(true, old(session.streamConnected), old(session.keyed), lease,
                                      nowMs, nowMs, old(session.buffered), profile)
                         else old(session)
    {
      if !enabled || !control.enabled {
        return NetDisabled;
      }
      if !ValidProfile(profile) || lease == 0 {
        return NetInvalid;
      }
      if session.reserved || control.owner != NoOwner {
        return NetBusy;
      }
      session := session.(reserved := true, lease := lease, renewedMs := nowMs,
                          lastDataMs := nowMs, profile := profile);
      return NetOk;
    }

    /** Renews without looking at the age of the lease: only `Tick` expires it. */
    method Keepalive(lease: nat, nowMs: nat) returns (r: NetworkResult)
      requires Linked()
      modifies this`session
      ensures Linked() && r == if old(Owns(lease)) then NetOk else NetStale
      ensures session == if r == NetOk then old(session).(renewedMs := nowMs) else old(session)
    {
      if !Owns(lease) {
        return NetStale;
      }
      session := session.(renewedMs := nowMs);
      return NetOk;
    }

    method AttachStream(lease: nat, nowMs: nat) returns (r: NetworkResult)
      requires Linked()
      modifies this`session
      ensures Linked()
      ensures r == if !old(Owns(lease)) then NetStale else if old(session.streamConnected) then NetBusy else NetOk
      ensures session == if r == NetOk
                         then old(session).(streamConnected := true, buffered := 0, lastDataMs := nowMs)
                         else old(session)
    {
      if !Owns(lease) {
        return NetStale;
      }
      if session.streamConnected {
        return NetBusy;
      }
      session := session.(streamConnected := true, buffered := 0, lastDataMs := nowMs);
      return NetOk;
    }

    method RecordData(lease: nat, frames: nat, nowMs: nat) returns (r: NetworkResult)
      requires Linked()
      modifies this`session
      ensures Linked()
      ensures r == if !old(Owns(lease)) then NetStale
                   else if !old(session.streamConnected) || frames == 0 then NetInvalid
                   else NetOk
      ensures session == if r == NetOk
                         then old(session).(lastDataMs := nowMs,
                                buffered := if old(session.buffered) + frames <= PREBUFFER_FRAMES
                                            then old(session.buffered) + frames else PREBUFFER_FRAMES)
                         else old(session)
    {
      if !Owns(lease) {
        return NetStale;
      }
      if !session.streamConnected || frames == 0 {
        return NetInvalid;
      }
      if session.buffered < PREBUFFER_FRAMES {
        var room := PREBUFFER_FRAMES - session.buffered;
        session := session.(buffered := session.buffered + (if frames < room then frames else room));
      }
      session := session.(lastDataMs := nowMs);
      return NetOk;
    }

    method PttStart(lease: nat, nowMs: nat, audio: AudioInput) returns (r: NetworkResult)
      requires control.Inv() && Linked() && control.context.network == this
      modifies this`session, control, control.context`frequencyHz, control.context.receiver
      ensures control.Inv() && Linked() && control.Latched()
      ensures control.context.receiver.SettingsKept()
      ensures r == NetOk && !old(session.keyed) ==> FitsProfile(control.context.receiver.job, session.profile)
      ensures var answered :=
                if !old(Owns(lease)) then Some(NetStale)
                else if old(!session.streamConnected || session.buffered < PREBUFFER_FRAMES) then Some(NotReady)
                else if old(session.keyed) then Some(NetOk)
                else if old(!control.enabled || control.state == Faulted) then Some(NetHardwareError)
                else if old(control.owner) != NoOwner then Some(NetBusy)
                else None;
              if answered.Some? then r == answered.value && session == old(session) && control.Unchanged()
              else
                && (r == NetOk || r == NetHardwareError)
                && session == (if r == NetOk then old(session).(keyed := true, renewedMs := nowMs) else old(session))
                && control.Called(Http, nowMs, old(control.context.CanStart(Http, audio)),
                                  old(control.context.Purpose(Http, audio)), r == NetOk)
    {
      hide TxControl.Inv, TxContext.CanStart, TxContext.Purpose, FitsProfile;
      hide Receiver.Active, Receiver.Idle, TxContext.RadioValid, TxContext.RadioRests, FitsOwner, FaultCame;
      control.RefusalIs(Http);
      control.OwnerIsOnAir();
      if !Owns(lease) {
        return NetStale;
      }
      if !session.streamConnected || session.buffered < PREBUFFER_FRAMES {
        return NotReady;
      }
      if session.keyed {
        return NetOk;
      }
      var requested := control.Request(Http, nowMs, audio);
      if requested == ControlBusy {
        return NetBusy;
      }
      if requested != ControlOk {
        return NetHardwareError;
      }
      session := session.(keyed := true, renewedMs := nowMs);
      return NetOk;
    }

    method PttStop(lease: nat) returns (r: NetworkResult)
      requires control.Inv() && Linked()
      modifies this`session, control, control.context.receiver
      ensures control.Inv() && Linked() && control.Latched()
      ensures control.context.receiver.SettingsKept()
      ensures if !old(Owns(lease)) then r == NetStale && session == old(session) && control.Unchanged()
              else
                && Unkeyed(true, r)
                && session == if old(session.keyed) then old(session).(keyed := false, buffered := 0) else old(session)
    {
      hide TxControl.Inv;
      hide Receiver.Active, Receiver.Idle, TxContext.RadioValid, TxContext.RadioRests, FitsOwner, FaultCame;
      control.OwnerIsOnAir();
      if !Owns(lease) {
        return NetStale;
      }
      r := NetOk;
      if session.keyed {
        var stopped := control.Release(Http, true);
        session := session.(keyed := false, buffered := 0);
        r := if stopped == ControlOk then NetOk else NetHardwareError;
      }
    }

    method Release(lease: nat) returns (r: NetworkResult)
      requires control.Inv() && Linked()
      modifies this`session, control, control.context.receiver
      ensures control.Inv() && Linked() && control.Latched()
      ensures control.context.receiver.SettingsKept()
      ensures if !old(Owns(lease)) then r == NetStale && session == old(session) && control.Unchanged()
              else session == NO_SESSION && Unkeyed(false, r)
    {
      hide TxControl.Inv;
      hide Receiver.Active, Receiver.Idle, TxContext.RadioValid, TxContext.RadioRests, FitsOwner, FaultCame;
      if !Owns(lease) {
        return NetStale;
      }
      r := StopIfKeyed();
      session := NO_SESSION;
    }

    method DisconnectStream() returns (r: NetworkResult)
      requires control.Inv() && Linked()
      modifies this`session, control, control.context.receiver
      ensures control.Inv() && Linked() && control.Latched()
      ensures control.context.receiver.SettingsKept()
      ensures if !old(session.reserved) then r == NetOk && session == old(session) && control.Unchanged()
              else
                && Unkeyed(false, r)
                && session == old(session).(keyed := false, streamConnected := false, buffered := 0)
    {
      hide TxControl.Inv;
      hide Receiver.Active, Receiver.Idle, TxContext.RadioValid, TxContext.RadioRests, FitsOwner, FaultCame;
      if !session.reserved {
        return NetOk;
      }
      r := StopIfKeyed();
      session := session.(streamConnected := false, buffered := 0);
    }

    method Tick(nowMs: nat) returns (r: NetworkResult)
      requires control.Inv() && Linked()
      modifies this`session, control, control.context.receiver
      ensures control.Inv() && Linked() && control.Latched()
      ensures control.context.receiver.SettingsKept()
      ensures if old(session.reserved) && Elapsed(nowMs, old(session.renewedMs)) >= NETWORK_LEASE_MS then
                && session == NO_SESSION
                && exists stopped :: Unkeyed(false, stopped) && r == if stopped == NetOk then NetExpired else stopped
              else r == NetOk && session == old(session) && control.Unchanged()
    {
      hide TxControl.Inv;
      hide Receiver.Active, Receiver.Idle, TxContext.RadioValid, TxContext.RadioRests, FitsOwner, FaultCame;
      if !session.reserved {
        return NetOk;
      }
      if Elapsed(nowMs, session.renewedMs) < NETWORK_LEASE_MS {
        return NetOk;
      }
      var stopped := StopIfKeyed();
      session := NO_SESSION;
      assert Unkeyed(false, stopped);
      r := if stopped != NetOk then stopped else NetExpired;
    }

    /** Drops a session whose transmission another owner has taken down. */
    method Reconcile()
      requires Linked()
      modifies this`session
      ensures Linked() && session == if old(session.keyed) && control.owner != Http then NO_SESSION else old(session)
    {
      if session.reserved && session.keyed && control.owner != Http {
        session := NO_SESSION;
      }
    }
  }
}
