/** The transmit-enabled daemon: watchdog pass, microphone PTT, API requests and
    the network stream, in any order and over any run (src/flex1500d.c, src/api.c). */
module Daemon {
  import opened Common
  import opened Protocol
  import opened Trace
  import opened Calls
  import opened StationOwner
  import opened UsbRx
  import opened Transmitter
  import opened Events

  /** Clock readings never go back (nor overflow), and a watchdog pass begins and ends at most
      `gap` after the previous one began. */
  ghost predicate Clocked(events: seq<Event>, now: nat, lastPass: nat, gap: nat) {
    events == [] ||
    var e := events[0];
    match e
    case WatchdogPass(a, b, c, d) =>
      now <= a <= b <= c <= d <= lastPass + gap && d < TWO_64 && Clocked(events[1..], d, a, gap)
    case _ =>
      now <= e.at <= lastPass + gap && e.at < TWO_64 && Clocked(events[1..], e.at, lastPass, gap)
  }

  function OwnerStatus(r: OwnerResult, acquire: bool): nat {
    match r
    case Ok => if acquire then 201 else 200
    case Busy => 409
    case _ => 410
  }

  function NetStatus(r: NetworkResult, create: bool): nat {
    match r
    case NetOk => if create then 201 else 200
    case NetDisabled => 404
    case NetBusy => 409
    case NotReady => 409
    case NetStale => 410
    case NetHardwareError => 500
    case NetInvalid => 422
    case NetExpired => 400
  }

  function TuneStatus(r: TuneResult): nat {
    match r
    case TuneOk => 200
    case TuneBusy => 409
    case InvalidLease => 403
    case TuneDisabled => 404
    case _ => 500
  }

  function SettingStatus(ok: bool): nat {
    if ok then 200 else 500
  }

  class FlexDaemon {
    const receiver: Receiver
    const station: Station
    const api: ApiSettings
    const context: TxContext
    const control: TxControl
    const tune: TuneControl
    const network: NetworkTx
    var nextStationLease: nat
    var nextTuneLease: nat
    var nextTxLease: nat

    /** The latest clock reading. */
    var now: nat
    /** When the last watchdog pass began. */
    ghost var lastPass: nat

    ghost predicate Wired()
      reads api, context, control, tune, network
    {
      && context.receiver == receiver && context.api == api && api.station == station
      && context.network == network && control.context == context
      && tune.control == control && network.control == control
    }

    ghost predicate Leases()
      reads this`nextStationLease, this`nextTuneLease, this`nextTxLease, station
    {
      && nextStationLease < TWO_64 && nextTuneLease < TWO_64 && nextTxLease < TWO_64
      && (station.held ==> station.lease != 0)
    }

    /** What every step of the daemon keeps. */
    ghost predicate Inv()
      reads this, receiver, station, api, context, control, tune, network
    {
      Linked() && lastPass <= now < TWO_64 && Timely(Snapshot(), now, lastPass)
    }

    /** The daemon after start-up: the radio initialised and prepared for
        transmission, every machine fresh. `lease` stands for the random first
        lease number. */
    constructor (receiver: Receiver, at: nat, lease: nat)
      requires receiver.Valid() && receiver.Idle() && receiver.RestExceptWord() && receiver.WordHeld()
      requires receiver.handleOpen && receiver.digest.keysAllowed && receiver.preparation.transmitPrepared
      requires at < TWO_64 && lease < TWO_64
      ensures Inv() && this.receiver == receiver && now == lastPass == at
      ensures fresh(station) && fresh(api) && fresh(context) && fresh(control)
      ensures fresh(tune) && fresh(network)
      ensures Snapshot() == View(
                TxBook(true, true, false, false, NoOwner, RxState, 0, 180_000, []), NO_TUNE, NO_SESSION, NO_STATION,
                RxAm, Snapshot().radio, Counters(lease, lease, lease))
    {
      hide Receiver.Valid, Receiver.RestExceptWord, Receiver.WordHeld, Receiver.Idle, PhaseOf, FitsProfile, FaultCame;
      hide TxControl.Inv;
      var held := new Station();
      var settings := new ApiSettings(held);
      var owner := NewControl(receiver, settings);
      var callbacks := owner.context;
      var carrier := new TuneControl(owner, true);
      var session := new NetworkTx(owner, true);
      callbacks.network := session;
      this.receiver, this.station, this.api := receiver, held, settings;
      this.context, this.control := callbacks, owner;
      this.tune, this.network := carrier, session;
      nextStationLease, nextTuneLease, nextTxLease := lease, lease, lease;
      now, lastPass := at, at;
    }

    /** The owner machine over a receiver at rest, armed for the microphone. */
    static method NewControl(receiver: Receiver, settings: ApiSettings) returns (control: TxControl)
      requires receiver.Valid() && receiver.Idle() && receiver.RestExceptWord() && receiver.WordHeld()
      requires receiver.handleOpen && receiver.digest.keysAllowed
      ensures fresh(control) && fresh(control.context)
      ensures control.context.receiver == receiver && control.context.api == settings
      ensures control.Inv() && fresh(control.context)
      ensures control.Book() == TxBook(true, true, false, false, NoOwner, RxState, 0, 180_000, [])
    {
      hide TxControl.Inv, Receiver.Valid, Receiver.RestExceptWord, Receiver.WordHeld, Receiver.Idle;
      var callbacks := new TxContext(receiver, settings);
      control := new TxControl(callbacks, true, TIMEOUT_DEFAULT_SECONDS * 1000);
      control.ArmPhysicalPtt();
    }

    /** Everything in `Inv` but the clock. */
    ghost predicate Linked()
      reads this`nextStationLease, this`nextTuneLease, this`nextTxLease
      reads receiver, station, api, context, control, tune, network
    {
      && Wired()
      && control.Inv() && tune.Linked() && network.Linked() && control.ServesSession()
      && (tune.carrier.active ==> control.owner == Tune)
      && (control.owner == Tune || control.owner == Http ==> station.held)
      && 30_000 <= control.maximumKeyMs <= 1_800_000
      && control.enabled && tune.enabled && network.enabled && receiver.preparation.transmitPrepared
      && Leases()
    }

    /** The daemon as a value. */
    ghost function Snapshot(): View
      reads this`nextStationLease, this`nextTuneLease, this`nextTxLease
      reads receiver, station, api, control, tune, network
    {
      View(control.Book(), tune.carrier, network.session,
           StationView(station.held, station.modeAware, station.lease, station.renewedMs), api.rxMode,
           RadioView(receiver.log, receiver.digest.failures, receiver.drains, receiver.running,
                     receiver.job, receiver.tuning, receiver.gain),
           Counters(nextStationLease, nextTuneLease, nextTxLease))
    }

    method SetClock(at: nat)
      requires Inv() && now <= at < TWO_64
      modifies this`now
      ensures Inv() && now == at && Snapshot() == old(Snapshot())
    {
      hide FlexDaemon.Linked, Timely;
      TimePasses(Snapshot(), now, lastPass, at);
      now := at;
    }

    /** What the linked machines look like from outside. */
    lemma LinkedView()
      requires Linked()
      ensures receiver.preparation.transmitPrepared
      ensures var v := Snapshot();
              && Wired() && Numbered(v) && v.tx.maximumKeyMs != 0 && v.tx.enabled
              && (v.tx.owner == Tune <==> v.carrier.active) && (!v.carrier.active ==> v.carrier == NO_TUNE)
              && (v.session.keyed ==> v.session.reserved) && (v.tx.owner == Http ==> v.session.keyed)
    {
    }

    // ---- the watchdog pass ----

    /** Station lease watchdog: when it expires, both sessions that depend on it go too. */
    method StationWatch(at: nat)
      requires Linked()
      modifies control, receiver, tune, network, station
      ensures Linked() && control.Latched()
      ensures var (b, a) := (old(Snapshot()), Snapshot());
              if b.station.held && Elapsed(at, b.station.renewedMs) >= STATION_LEASE_MS then
                && Ends(b, a, b.tx.owner == Tune || b.tx.owner == Http)
                && a == b.(tx := a.tx, radio := a.radio, carrier := NO_TUNE, station := NO_STATION,
                           session := if b.session.reserved then NO_SESSION else b.session)
              else a == b
    {
      hide TxControl.Inv, FitsProfile, PurposeOf, FitsOwner;
      var r := station.Tick(at);
      if r == Expired {
        EndSessions();
      }
    }

    /** Ends the Tune and network sessions, stopping only their own transmissions. */
    method EndSessions()
      requires control.Inv() && Wired() && tune.Linked() && network.Linked() && control.ServesSession()
      modifies control, receiver, tune, network
      ensures control.Inv() && tune.Linked() && network.Linked() && control.ServesSession()
      ensures control.Latched() && tune.enabled == old(tune.enabled) && network.enabled == old(network.enabled)
      ensures receiver.SettingsKept()
      ensures var (b, a) := (old(Snapshot()), Snapshot());
              && Ends(b, a, b.tx.owner == Tune || b.tx.owner == Http)
              && a == b.(tx := a.tx, radio := a.radio, carrier := NO_TUNE,
                         session := if b.session.reserved then NO_SESSION else b.session)
    {
      hide TxControl.Inv, FitsProfile, PurposeOf, FitsOwner;
      tune.Shutdown();
      if network.session.reserved {
        var _ := network.Release(network.session.lease);
      }
    }

    /** The Tune watchdog. */
    method TuneWatch(at: nat)
      requires Linked()
      modifies control, receiver, tune
      ensures Linked() && control.Latched()
      ensures var (b, a) := (old(Snapshot()), Snapshot());
              var over := b.carrier.active && (Elapsed(at, b.carrier.startedMs) >= TUNE_HARD_LIMIT_MS ||
                                               Elapsed(at, b.carrier.renewedMs) >= TUNE_LEASE_MS);
              && Ends(b, a, over)
              && a == b.(tx := a.tx, radio := a.radio, carrier := if over then NO_TUNE else b.carrier)
    {
      hide TxControl.Inv, FitsProfile, PurposeOf, FitsOwner;
      var result := tune.Tick(at);
    }

    /** The maximum-key watchdog and the Tune reconciliation. */
    method OwnerWatch(at: nat)
      requires Linked()
      modifies control, receiver, tune
      ensures Linked() && control.Latched()
      ensures var (b, a) := (old(Snapshot()), Snapshot());
              && Ends(b, a, b.tx.owner != NoOwner && Elapsed(at, b.tx.startedMs) >= b.tx.maximumKeyMs)
              && a == b.(tx := a.tx, radio := a.radio, carrier := if a.tx.owner == Tune then b.carrier else NO_TUNE)
    {
      hide TxControl.Inv, FitsProfile, FitsOwner, PurposeOf;
      var result := control.Tick(at);
      tune.Reconcile();
    }

    /** Network reconciliation and lease watchdog. */
    method NetworkWatch(at: nat)
      requires Linked()
      modifies control, receiver, network
      ensures Linked() && control.Latched() && SessionsAgree()
      ensures var (b, a) := (old(Snapshot()), Snapshot());
              var over := b.session.reserved && Elapsed(at, b.session.renewedMs) >= NETWORK_LEASE_MS;
              && Ends(b, a, b.tx.owner == Http && over)
              && a == b.(tx := a.tx, radio := a.radio,
                         session := if over || (b.session.keyed && b.tx.owner != Http) then NO_SESSION else b.session)
    {
      hide TxControl.Inv, FitsProfile, FitsOwner, PurposeOf;
      network.Reconcile();
      var networkResult := network.Tick(at);
    }

    /** The four watchdogs, with the clock readings they take. */
    method Watch(stationAt: nat, tuneAt: nat, ownerAt: nat, networkAt: nat)
      requires Linked() && Past(Snapshot(), stationAt) && stationAt <= tuneAt <= ownerAt <= networkAt
      modifies control, receiver, tune, network, station
      ensures Linked() && control.Latched() && SessionsAgree()
      ensures Passed(old(Snapshot()), Snapshot(), stationAt, tuneAt, ownerAt, networkAt)
    {
      hide FlexDaemon.Linked, Ends, Passed;
      ghost var b := Snapshot();
      LinkedView();
      StationWatch(stationAt);
      ghost var s := Snapshot();
      TuneWatch(tuneAt);
      ghost var t := Snapshot();
      OwnerWatch(ownerAt);
      ghost var o := Snapshot();
      NetworkWatch(networkAt);
      PassIs(b, s, t, o, Snapshot(), stationAt, tuneAt, ownerAt, networkAt);
    }

    /** One watchdog pass. Afterwards the sessions agree with the owner exactly. */
    method Pass(stationAt: nat, tuneAt: nat, ownerAt: nat, networkAt: nat)
      requires Inv() && now <= stationAt <= tuneAt <= ownerAt <= networkAt < TWO_64
      modifies this`now, this`lastPass, control, receiver, tune, network, station
      ensures Inv() && now == networkAt && lastPass == stationAt && control.Latched() && SessionsAgree()
      ensures Passed(old(Snapshot()), Snapshot(), stationAt, tuneAt, ownerAt, networkAt)
    {
      hide FlexDaemon.Linked, Passed;
      ghost var b := Snapshot();
      LinkedView();
      Watch(stationAt, tuneAt, ownerAt, networkAt);
      PassKeepsTime(b, Snapshot(), now, lastPass, stationAt, tuneAt, ownerAt, networkAt);
      now, lastPass := networkAt, stationAt;
    }

    // ---- the microphone ----

    /** A microphone PTT edge. A press is passed on only at a frequency the
        microphone may transmit on, unless PTT is not armed yet. */
    method MicrophonePtt(pressed: bool, at: nat, audio: AudioInput)
      requires Inv() && now <= at < TWO_64
      modifies this`now, control, context`frequencyHz, receiver, tune
      ensures Inv() && now == at && lastPass == old(lastPass) && control.Latched()
      ensures Edge(old(Snapshot()), Snapshot(), pressed, at, audio)
    {
      hide FlexDaemon.Linked, Timely, TxEdge, Startable;
      ghost var b := Snapshot();
      SetClock(at);
      LinkedView();
      if pressed && control.pttArmed && !MicrophoneMayKey() {
        return;
      }
      PassEdge(pressed, audio);
      EdgeKeepsTime(b, Snapshot(), now, lastPass, pressed, at, audio);
    }

    /** Hands an edge to the owner machine. */
    method PassEdge(pressed: bool, audio: AudioInput)
      requires Linked() && (pressed && control.pttArmed ==> MicrophoneMayKey())
      modifies control, context`frequencyHz, receiver, tune
      ensures Linked() && control.Latched()
      ensures Edge(old(Snapshot()), Snapshot(), pressed, now, audio)
    {
      hide FlexDaemon.Linked, Startable, PurposeIn, TxEdge, Edge, TxContext.Purpose, TxContext.CanStart;
      ghost var b := Snapshot();
      LinkedView();
      OwnerPurpose(PhysicalMic, audio);
      TakeEdge(pressed, audio);
      EdgeIs(b, Snapshot(), pressed, now, PurposeIn(b, PhysicalMic, audio), audio);
    }

    /** The carrier's lease goes with its transmission. */
    method TakeEdge(pressed: bool, audio: AudioInput)
      requires Linked()
      modifies control, context`frequencyHz, receiver, tune
      ensures Linked() && control.Latched()
      ensures TxEdge(old(control.Seen()), control.Seen(), pressed, now, true,
                     old(context.Purpose(PhysicalMic, audio)), audio)
      ensures var (b, a) := (old(Snapshot()), Snapshot());
              a == b.(tx := a.tx, radio := a.radio, carrier := if a.tx.owner == Tune then b.carrier else NO_TUNE)
    {
      hide TxControl.Inv, FitsProfile, TxEdge, TxContext.Purpose;
      ghost var (b, purpose) := (control.Seen(), context.Purpose(PhysicalMic, audio));
      var r := control.PhysicalPtt(pressed, now, audio);
      EdgeOwner(b, control.Seen(), pressed, now, purpose, audio);
      tune.Reconcile();
    }

    /** What an owner would transmit and whether it can, read off the view. */
    lemma OwnerPurpose(owner: Owner, audio: AudioInput)
      requires Wired() && receiver.preparation.transmitPrepared
      ensures var purpose := PurposeIn(Snapshot(), owner, audio);
              && context.Purpose(owner, audio) == purpose
              && context.CanStart(owner, audio) == Startable(owner, purpose, receiver.running, audio)
      ensures MicrophoneMayKey() <==> PurposeIn(Snapshot(), PhysicalMic, audio).Some?
    {
    }

    predicate MicrophoneMayKey()
      reads receiver, context, context.api, context.api.station
    {
      receiver.tuning.frequencyKnown && context.ResolveMode(receiver.tuning.frequencyHz).Some?
    }

    // ---- API requests ----

    /** Whether a request that changes the station may proceed. */
    predicate Authorized(stationLease: nat)
      reads station
    {
      station.Matches(stationLease)
    }

    /** Station-control requests. Giving the station up is refused while anyone transmits. */
    method DispatchOwner(request: Request, stationLease: nat) returns (status: nat)
      requires Linked() && (request.OwnerAcquire? || request.OwnerKeepalive? || request.OwnerRelease?)
      modifies this`nextStationLease, station
      ensures Linked()
      ensures StationServed(old(Snapshot()), Snapshot(), request, stationLease, now, status)
    {
      hide TxControl.Inv, FitsProfile, FitsOwner, PurposeOf;
      var result;
      if request.OwnerAcquire? {
        var (lease, next) := FreshLease(nextStationLease);
        nextStationLease := next;
        result := station.Acquire(lease, now, request.modeAware);
      } else if request.OwnerRelease? {
        if control.owner != NoOwner {
          return 409;
        }
        result := station.Release(stationLease);
      } else {
        result := station.Keepalive(stationLease, now);
      }
      status := OwnerStatus(result, request.OwnerAcquire?);
    }

    predicate NetworkMayKey()
      reads receiver, network
    {
      receiver.tuning.frequencyKnown && ProfileAllows(network.session.profile, receiver.tuning.frequencyHz)
    }

    /** Key, unkey and release requests of a network session. */
    method DispatchPtt(request: Request, audio: AudioInput) returns (result: NetworkResult)
      requires Linked() && station.held
      requires request.TxPttStart? || request.TxPttStop? || request.TxRelease?
      modifies control, context`frequencyHz, receiver, network
      ensures Linked() && control.Latched()
      ensures PttServed(old(Snapshot()), Snapshot(), request, now, audio, NetStatus(result, false))
    {
      hide FlexDaemon.Linked, IqAllowed, AmAllowed, MicAllowed, SessionKeyed, SessionStopped, SessionReleased;
      LinkedView();
      MayKeyIs();
      result := NetInvalid;
      if request.lease == 0 {
        return;
      }
      if request.TxPttStart? {
        if NetworkMayKey() {
          result := KeyNetwork(request.lease, audio);
        }
      } else if request.TxPttStop? {
        result := UnkeyNetwork(request.lease);
      } else {
        result := ReleaseNetwork(request.lease);
      }
    }

    method KeyNetwork(lease: nat, audio: AudioInput) returns (result: NetworkResult)
      requires Linked() && station.held && NetworkMayKey() && lease != 0
      modifies control, context`frequencyHz, receiver, network
      ensures Linked() && control.Latched()
      ensures SessionKeyed(old(Snapshot()), Snapshot(), lease, now, audio, NetStatus(result, false))
    {
      hide TxControl.Inv, FitsProfile, Startable, PurposeIn, TxContext.Purpose, TxContext.CanStart;
      hide TxStarts, SessionKeyed;
      ghost var b := Snapshot();
      OwnerPurpose(Http, audio);
      result := network.PttStart(lease, now, audio);
      StartsOwner(TxOf(b), control.Seen(), Http, now, audio, PurposeIn(b, Http, audio));
      SessionKeyedIs(b, Snapshot(), lease, now, audio, result);
    }

    /** The policy check of a session, spelled out. */
    lemma MayKeyIs()
      requires Wired()
      ensures NetworkMayKey() <==> SessionMayKey(Snapshot())
    {
    }

    method UnkeyNetwork(lease: nat) returns (result: NetworkResult)
      requires Linked() && lease != 0
      modifies control, receiver, network
      ensures Linked() && control.Latched()
      ensures SessionStopped(old(Snapshot()), Snapshot(), lease, NetStatus(result, false))
    {
      hide TxControl.Inv, FitsProfile, FitsOwner, PurposeOf;
      result := network.PttStop(lease);
    }

    method ReleaseNetwork(lease: nat) returns (result: NetworkResult)
      requires Linked() && lease != 0
      modifies control, receiver, network
      ensures Linked() && control.Latched()
      ensures SessionReleased(old(Snapshot()), Snapshot(), lease, NetStatus(result, false))
    {
      hide TxControl.Inv, FitsProfile, FitsOwner, PurposeOf;
      result := network.Release(lease);
    }

    /** Session requests that do not touch the transmitter. */
    method DispatchSession(request: Request) returns (result: NetworkResult)
      requires Linked()
      requires request.TxCreate? || request.TxKeepalive? || request.TxStream? || request.TxAudio?
      modifies this`nextTxLease, network
      ensures Linked()
      ensures SessionServed(old(Snapshot()), Snapshot(), request, now, NetStatus(result, request.TxCreate?))
    {
      hide TxControl.Inv, FitsProfile, FitsOwner, PurposeOf;
      result := NetInvalid;
      match request
      case TxCreate(profile) =>
        if profile.Some? {
          var (lease, next) := FreshLease(nextTxLease);
          nextTxLease := next;
          result := network.Acquire(profile.value, lease, now);
        }
      case TxKeepalive(lease) =>
        if lease != 0 {
          result := network.Keepalive(lease, now);
        }
      case TxStream(lease) =>
        if lease != 0 {
          result := network.AttachStream(lease, now);
        }
      case TxAudio(lease, bytes) =>
        if lease != 0 && 0 < bytes <= 9600 && bytes % 2 == 0 && network.session.profile.source == PcmAudio {
          result := TakeAudio(lease, bytes / 2);
        }
    }

    /** Posted audio opens the stream if it is not open yet. */
    method TakeAudio(lease: nat, frames: nat) returns (result: NetworkResult)
      requires Linked() && lease != 0 && frames > 0
      modifies network
      ensures Linked()
      ensures var (b, a) := (old(Snapshot()), Snapshot());
              if !HoldsSession(b, lease) then result == NetStale && a == b
              else
                && result == NetOk
                && a == b.(session := Fed(if b.session.streamConnected then b.session else Opened(b.session, now),
                                          frames, now))
    {
      hide TxControl.Inv, FitsProfile, FitsOwner, PurposeOf;
      result := NetOk;
      if !network.session.streamConnected {
        result := network.AttachStream(lease, now);
      }
      if result == NetOk {
        result := network.RecordData(lease, frames, now);
      }
    }

    method DispatchTune(request: Request, audio: AudioInput) returns (status: nat)
      requires Linked() && station.held && Past(Snapshot(), now)
      requires request.TuneStart? || request.TuneKeepalive? || request.TuneStop?
      modifies this`nextTuneLease, control, context`frequencyHz, receiver, tune
      ensures Linked() && control.Latched()
      ensures TuneServed(old(Snapshot()), Snapshot(), request, now, audio, status)
    {
      hide FlexDaemon.Linked, TuneStarted, TuneKept, TuneStopped;
      LinkedView();
      var result := InvalidLease;
      if request.TuneStart? {
        if !receiver.tuning.frequencyKnown || !TuneAllowed(receiver.tuning.frequencyHz) {
          return 422;
        }
        result := StartTune(audio);
      } else if request.lease != 0 {
        if request.TuneKeepalive? {
          result := KeepTune(request.lease);
        } else {
          result := StopTune(request.lease);
        }
      } else {
        NoTuneLease(Snapshot(), now);
      }
      status := TuneStatus(result);
    }

    /** Starts the carrier under a fresh lease. */
    method StartTune(audio: AudioInput) returns (result: TuneResult)
      requires Linked() && station.held
      requires receiver.tuning.frequencyKnown && TuneAllowed(receiver.tuning.frequencyHz)
      modifies this`nextTuneLease, control, context`frequencyHz, receiver, tune
      ensures Linked() && control.Latched()
      ensures TuneStarted(old(Snapshot()), Snapshot(), now, audio, TuneStatus(result))
    {
      hide FlexDaemon.Linked, Startable, TuneAllowed, TxStarts, TuneStarted;
      ghost var b := Snapshot();
      LinkedView();
      var lease := TakeTuneLease();
      result := KeyTune(lease, audio);
      StartsOwner(TxOf(b), TxOf(Snapshot()), Tune, now, audio, PurposeIn(b, Tune, audio));
      TuneStartedIs(b, Snapshot(), now, audio, result);
    }

    method TakeTuneLease() returns (lease: nat)
      requires Linked()
      modifies this`nextTuneLease
      ensures Linked() && lease == FreshLease(old(nextTuneLease)).0 > 0
      ensures var b := old(Snapshot());
              Snapshot() == b.(counters := b.counters.(tune := FreshLease(old(nextTuneLease)).1))
    {
      hide TxControl.Inv, FitsProfile;
      var (number, next) := FreshLease(nextTuneLease);
      lease, nextTuneLease := number, next;
    }

    method KeyTune(lease: nat, audio: AudioInput) returns (result: TuneResult)
      requires Linked() && station.held && lease > 0
      modifies control, context`frequencyHz, receiver, tune
      ensures Linked() && control.Latched()
      ensures var (b, a) := (old(Snapshot()), Snapshot());
              var purpose := PurposeIn(b, Tune, audio);
              && a == b.(tx := a.tx, radio := a.radio, carrier := a.carrier)
              && if b.carrier.active || b.tx.state == Faulted || b.tx.owner != NoOwner then
                   && TxOf(a) == TxOf(b) && a.carrier == b.carrier
                   && result == if b.carrier.active then TuneBusy
                                else if b.tx.state == Faulted then TuneHardwareError else TuneBusy
                 else
                   && (result == TuneOk || result == TuneHardwareError)
                   && a.carrier == (if result == TuneOk then TuneLease(true, lease, now, now) else b.carrier)
                   && TxStarts(TxOf(b), TxOf(a), Tune, now, Startable(Tune, purpose, b.radio.running, audio), purpose,
                               result == TuneOk)
    {
      hide TxControl.Inv, FitsProfile, Startable, PurposeIn, TxContext.Purpose, TxContext.CanStart, TxStarts;
      ghost var b := Snapshot();
      OwnerPurpose(Tune, audio);
      result := tune.Start(now, lease, audio);
      StartsOwner(TxOf(b), control.Seen(), Tune, now, audio, PurposeIn(b, Tune, audio));
    }

    /** Renews the carrier's lease, or ends a carrier that is over a limit. */
    method KeepTune(lease: nat) returns (result: TuneResult)
      requires Linked() && Past(Snapshot(), now) && lease != 0
      modifies control, receiver, tune
      ensures Linked() && control.Latched()
      ensures TuneKept(old(Snapshot()), Snapshot(), lease, now, TuneStatus(result))
    {
      hide TxControl.Inv, FitsProfile, FitsOwner, PurposeOf;
      result := tune.Keepalive(now, lease);
    }

    method StopTune(lease: nat) returns (result: TuneResult)
      requires Linked() && lease != 0
      modifies control, receiver, tune
      ensures Linked() && control.Latched()
      ensures TuneStopped(old(Snapshot()), Snapshot(), lease, TuneStatus(result))
    {
      hide TxControl.Inv, FitsProfile, FitsOwner, PurposeOf;
      result := tune.Stop(lease);
    }

    /** Settings; all but the gain are refused while anyone transmits. */
    method DispatchSetting(request: Request) returns (status: nat)
      requires Linked() && (request.SetTimeout? || request.SetFrequency? || request.SetMode? || request.SetGain?)
      modifies control`maximumKeyMs, receiver, api
      ensures Linked()
      ensures SettingServed(old(Snapshot()), Snapshot(), request, status)
    {
      hide TxControl.Inv, FitsProfile, FitsOwner, PurposeOf, Receiver.Valid;
      if request.SetTimeout? {
        if request.seconds < TIMEOUT_MIN_SECONDS || request.seconds > TIMEOUT_MAX_SECONDS {
          return 400;
        }
        if control.owner != NoOwner {
          return 409;
        }
        var changed := control.SetTimeoutSeconds(request.seconds);
        return SettingStatus(changed);
      }
      if request.SetGain? {
        status := DispatchGain(request.db);
        return;
      }
      if control.owner != NoOwner {
        return 409;
      }
      if request.SetFrequency? {
        if RxFilter(request.frequency).None? {
          return 400;
        }
        var tuned := TuneReceiver(request.frequency);
        return SettingStatus(tuned);
      }
      api.rxMode := request.mode;
      return 200;
    }

    /** Retunes the receiver with the transmitter unowned. */
    method TuneReceiver(frequency: nat) returns (ok: bool)
      requires Linked() && control.owner == NoOwner
      modifies receiver
      ensures Linked()
      ensures if InRange(frequency) then Retunes(old(Snapshot()), Snapshot(), frequency, ok)
              else !ok && Snapshot() == old(Snapshot())
    {
      hide Receiver.Valid, FitsProfile, FitsOwner, PurposeOf;
      ok := receiver.Retune(frequency);
    }

    /** A gain request: the only one that reaches the receiver while anyone
        transmits, and refused there. */
    method DispatchGain(db: int) returns (status: nat)
      requires Linked()
      modifies receiver
      ensures Linked() && SettingServed(old(Snapshot()), Snapshot(), SetGain(db), status)
      ensures control.owner != NoOwner ==> status == 500 && receiver.LeftAlone()
      ensures control.owner == NoOwner && ValidGain(db) && old(receiver.running) ==>
                Quietly(old(receiver.digest), receiver.digest, SetPreamp(GainStep(db)), status == 200)
    {
      hide FlexDaemon.Linked;
      LinkedView();
      var changed := ChangeGain(db);
      return SettingStatus(changed);
    }

    method ChangeGain(db: int) returns (ok: bool)
      requires Linked()
      modifies receiver
      ensures Linked() && receiver.SettingsSameBut(ok, db)
      ensures control.owner != NoOwner || !ValidGain(db) || !old(receiver.running) ==> !ok && receiver.LeftAlone()
      ensures control.owner == NoOwner && ValidGain(db) && old(receiver.running) ==>
                Quietly(old(receiver.digest), receiver.digest, SetPreamp(GainStep(db)), ok)
    {
      hide Receiver.Valid, FitsProfile, FitsOwner, PurposeOf;
      ok := receiver.ChangeGain(db);
    }

    /** One API request. Anything that changes the station needs the station lease. */
    method Dispatch(request: Request, stationLease: nat, at: nat, audio: AudioInput) returns (status: nat)
      requires Inv() && now <= at < TWO_64
      modifies this, control, context`frequencyHz, receiver, tune, network, station, api
      ensures Inv() && now == at && lastPass == old(lastPass) && control.Latched()
      ensures Served(old(Snapshot()), Snapshot(), request, stationLease, at, audio, status)
    {
      hide FlexDaemon.Linked, Timely, Past, Served;
      ghost var b := Snapshot();
      SetClock(at);
      LinkedView();
      TimePasses(b, now, lastPass, at);
      status := Route(request, stationLease, audio);
      ServedKeepsTime(b, Snapshot(), now, lastPass, request, stationLease, at, audio, status);
    }

    method Route(request: Request, stationLease: nat, audio: AudioInput) returns (status: nat)
      requires Linked() && Past(Snapshot(), now)
      modifies this`nextStationLease, this`nextTuneLease, this`nextTxLease
      modifies control, context`frequencyHz, receiver, tune, network, station, api
      ensures Linked() && control.Latched() && Numbered(old(Snapshot()))
      ensures Served(old(Snapshot()), Snapshot(), request, stationLease, now, audio, status)
    {
      hide FlexDaemon.Linked, Past, StationServed, PttServed, SessionServed, TuneServed, SettingServed;
      LinkedView();
      if request.OwnerAcquire? || request.OwnerKeepalive? || request.OwnerRelease? {
        status := DispatchOwner(request, stationLease);
        return;
      }
      if !Authorized(stationLease) {
        return 409;
      }
      if request.TxPttStart? || request.TxPttStop? || request.TxRelease? {
        var result := DispatchPtt(request, audio);
        status := NetStatus(result, false);
      } else if request.TxCreate? || request.TxKeepalive? || request.TxStream? || request.TxAudio? {
        var result := DispatchSession(request);
        status := NetStatus(result, request.TxCreate?);
      } else if request.TuneStart? || request.TuneKeepalive? || request.TuneStop? {
        status := DispatchTune(request, audio);
      } else {
        status := DispatchSetting(request);
      }
    }

    // ---- the network stream, rtl_tcp and the USB device ----

    /** Samples arriving on the network stream, which is open only while the
        session reports it connected. */
    method ReceiveNetworkData(frames: nat, at: nat)
      requires Inv() && now <= at < TWO_64
      modifies this`now, network
      ensures Inv() && now == at && lastPass == old(lastPass) && control.Latched()
      ensures Happened(NetworkData(frames, at), old(Snapshot()), Snapshot(), 0)
    {
      hide FlexDaemon.Linked, Timely;
      ghost var b := Snapshot();
      SetClock(at);
      LinkedView();
      FeedStream(frames);
      FedKeepsTime(b, Snapshot(), now, lastPass, frames, at);
    }

    method FeedStream(frames: nat)
      requires Linked()
      modifies network
      ensures Linked() && control.Latched() && Numbered(old(Snapshot()))
      ensures Happened(NetworkData(frames, now), old(Snapshot()), Snapshot(), 0)
    {
      hide TxControl.Inv, FitsProfile, FitsOwner, PurposeOf;
      var _ := network.RecordData(network.session.lease, frames, now);
    }

    /** The network stream closed: its transmission, and only its, is unkeyed. */
    method CloseNetworkStream(at: nat)
      requires Inv() && now <= at < TWO_64
      modifies this`now, control, receiver, network
      ensures Inv() && now == at && lastPass == old(lastPass) && control.Latched()
      ensures Closed(old(Snapshot()), Snapshot())
    {
      hide FlexDaemon.Linked, Timely, Closed;
      ghost var b := Snapshot();
      SetClock(at);
      CloseStream();
      ClosedKeepsTime(b, Snapshot(), now, lastPass);
    }

    method CloseStream()
      requires Linked()
      modifies control, receiver, network
      ensures Linked() && control.Latched() && Closed(old(Snapshot()), Snapshot())
    {
      hide TxControl.Inv, FitsProfile, FitsOwner, PurposeOf;
      var _ := network.DisconnectStream();
    }

    /** A frequency command of an rtl_tcp client: ignored while anyone transmits
        or holds the station. */
    method RtlFrequency(frequency: nat, at: nat)
      requires Inv() && now <= at < TWO_64
      modifies this`now, receiver
      ensures Inv() && now == at && lastPass == old(lastPass) && control.Latched()
      ensures Happened(RtlTune(frequency, at), old(Snapshot()), Snapshot(), 0)
    {
      hide FlexDaemon.Linked, Retunes, Timely;
      ghost var b := Snapshot();
      SetClock(at);
      LinkedView();
      if control.owner != NoOwner || station.held {
        return;
      }
      var ok := TuneReceiver(frequency);
      RetuneKeepsTime(b, Snapshot(), now, lastPass, frequency, ok);
    }

    /** A completion callback reporting a dead stream or device. */
    method ReceiverFault(at: nat)
      requires Inv() && now <= at < TWO_64
      modifies this`now, receiver
      ensures Inv() && now == at && lastPass == old(lastPass) && control.Latched()
      ensures Happened(UsbFault(at), old(Snapshot()), Snapshot(), 0)
    {
      hide FlexDaemon.Linked, Timely;
      ghost var b := Snapshot();
      SetClock(at);
      LoseReceiver();
      SameTimes(b, Snapshot(), now, lastPass);
    }

    method LoseReceiver()
      requires Linked()
      modifies receiver
      ensures Linked() && control.Latched()
      ensures Happened(UsbFault(now), old(Snapshot()), Snapshot(), 0)
    {
      hide Receiver.Valid, FitsProfile, PhaseOf, FitsOwner, PurposeOf;
      receiver.StreamFault();
    }

    /** Shutdown: whoever transmits is stopped, then transmit preparation is
        undone. A radio that may still be keyed has latched the fault, and if
        nothing failed it is unkeyed, unmuted and silent; and if the last step
        reports no error the amplifier is off and the PA filter is 0 or, if the
        host held none selected, as it was. */
    method ShutDown() returns (ok: bool)
      requires Inv()
      modifies control, receiver, tune
      ensures tune.carrier == NO_TUNE && control.Latched()
      ensures control.Book() == if old(control.owner) == NoOwner then old(control.Book())
                                else Ended(old(control.Book()), false, control.state == RxState)
      ensures receiver.Valid() && receiver.Idle() && receiver.digest.keysAllowed
      ensures MayBeKeyed(receiver.log) ==> control.state == Faulted
      ensures ok && control.state != Faulted ==>
                var radio := Replay(receiver.log);
                !radio.keyed && !radio.muted && !radio.streaming
      ensures ok ==>
                && !Replay(receiver.log).amp
                && Replay(receiver.log).pa ==
                     if old(receiver.preparation.paKnown) then 0 else old(Replay(receiver.log).pa)
    {
      hide FlexDaemon.Linked, Receiver.Valid, Timely;
      StopEverybody();
      ok := receiver.DisablePreparation();
      receiver.DigestIs();
    }

    /** The first half of a shutdown. */
    method StopEverybody()
      requires Linked()
      modifies control, receiver, tune
      ensures tune.carrier == NO_TUNE && control.Latched()
      ensures control.Book() == if old(control.owner) == NoOwner then old(control.Book())
                                else Ended(old(control.Book()), false, control.state == RxState)
      ensures receiver.Valid() && receiver.Idle() && receiver.handleOpen && receiver.digest.keysAllowed
      ensures receiver.preparation.transmitPrepared
      ensures receiver.preparation.paKnown == old(receiver.preparation.paKnown)
      ensures receiver.digest.radio == Replay(receiver.log)
      ensures receiver.digest.mayBeKeyed ==> control.state == Faulted
      ensures control.state != Faulted ==> RestDigest(receiver.digest)
      ensures old(control.owner) == NoOwner ==> Replay(receiver.log) == old(Replay(receiver.log))
      ensures old(control.owner) != NoOwner ==> receiver.preparation.paKnown
    {
      hide TxControl.Inv, Receiver.Valid, FitsProfile, PhaseOf, FaultCame, FitsOwner, KeyReady;
      control.OwnerIsOnAir();
      control.Shutdown();
      tune.Reconcile();
      control.OwnerIsOnAir();
      receiver.DigestIs();
    }

    /** One event; the answer is that to a request. */
    method Step(e: Event) returns (status: nat)
      requires Inv()
      requires match e
               case WatchdogPass(a, b, c, d) => now <= a <= b <= c <= d < TWO_64
               case _ => now <= e.at < TWO_64
      modifies this, control, context`frequencyHz, receiver, tune, network, station, api
      ensures Inv() && control.Latched()
      ensures now == (if e.WatchdogPass? then e.network else e.at)
      ensures lastPass == (if e.WatchdogPass? then e.station else old(lastPass))
      ensures e.WatchdogPass? ==> SessionsAgree()
      ensures Numbered(old(Snapshot())) && Happened(e, old(Snapshot()), Snapshot(), status)
    {
      hide FlexDaemon.Linked, Timely, Passed, Edge, Served, Closed, Retunes;
      LinkedView();
      status := 0;
      match e
      case WatchdogPass(a, b, c, d) => Pass(a, b, c, d);
      case PttEdge(pressed, at, audio) => MicrophonePtt(pressed, at, audio);
      case ApiRequest(request, stationLease, at, audio) => status := Dispatch(request, stationLease, at, audio);
      case NetworkData(frames, at) => ReceiveNetworkData(frames, at);
      case NetworkClosed(at) => CloseNetworkStream(at);
      case RtlTune(frequency, at) => RtlFrequency(frequency, at);
      case UsbFault(at) => ReceiverFault(at);
    }

    /** The sessions and the owner say the same thing. */
    ghost predicate SessionsAgree()
      reads control, tune, network
    {
      && (tune.carrier.active <==> control.owner == Tune)
      && (network.session.keyed <==> control.owner == Http)
    }

    /** Transmitter safety, stated on the whole command and callback histories. */
    ghost predicate Safe()
      reads this, receiver, control, tune, network, station
    {
      var log := receiver.log;
      && Disciplined(log) && KeysAllowed(log)
      && PhaseOf(control.calls) != Broken
      && (PhaseOf(control.calls).Owned? <==> control.owner != NoOwner)
      && (control.owner != NoOwner <==> control.state == Transmitting)
      && (MayBeKeyed(log) && control.owner == NoOwner ==> control.state == Faulted)
      && (if control.state == Faulted then FaultCame(control.calls, control.cleanupFailed) else !control.cleanupFailed)
      && (control.owner == NoOwner && control.state != Faulted && receiver.tuning.frequencyKnown ==>
            InRange(receiver.tuning.frequencyHz) &&
            forall word :: MayHaveWord(log, word) <==>
              word == RxWord(receiver.tuning.frequencyHz).value || word in WordHistory(log).doubtful)
      && (InKeyWindow(log) <==> control.owner != NoOwner)
      && (control.owner != NoOwner ==>
            && Replay(log).keyed && !Replay(log).muted
            && FitsOwner(receiver.job, control.owner)
            && receiver.job.frequency == receiver.tuning.frequencyHz
            && KeyReady(Replay(log).(muted := true), receiver.job))
      && (control.owner == Tune ==> tune.carrier.active && station.held)
      && (control.owner == Http ==>
            && network.session.reserved && network.session.keyed && network.session.streamConnected
            && network.session.buffered == PREBUFFER_FRAMES
            && FitsProfile(receiver.job, network.session.profile) && station.held)
    }

    /** With watchdog passes at most `gap` apart nothing outlives its limit by `gap`. */
    ghost predicate InTime(gap: nat)
      reads this, control, tune, network, station
    {
      && (control.owner != NoOwner ==>
            30_000 <= control.maximumKeyMs <= 1_800_000 &&
            now < control.startedMs + control.maximumKeyMs + gap)
      && (control.owner == Tune ==> now < tune.carrier.startedMs + TUNE_HARD_LIMIT_MS + gap)
      && (tune.carrier.active ==> now < tune.carrier.renewedMs + TUNE_LEASE_MS + gap)
      && (network.session.reserved ==> now < network.session.renewedMs + NETWORK_LEASE_MS + gap)
      && (station.held ==> now < station.renewedMs + STATION_LEASE_MS + gap)
    }

    lemma InvIsSafe(gap: nat)
      requires Inv() && now <= lastPass + gap
      ensures Safe() && InTime(gap)
    {
      SummaryIs(receiver.log);
      control.OwnerIsOnAir();
      forall word
        ensures MayHaveWord(receiver.log, word) <==> WordHistory(receiver.log).Possible(word)
      {
        MayHaveWordIs(receiver.log, word);
      }
    }

    /** Every run of the daemon is safe and in time, and every event in it does
        exactly what it has to. */
    method Run(events: seq<Event>, gap: nat) returns (ghost trace: seq<View>, ghost answers: seq<nat>)
      requires Inv() && now <= lastPass + gap
      requires Clocked(events, now, lastPass, gap)
      modifies this, control, context`frequencyHz, receiver, tune, network, station, api
      ensures Inv() && Safe() && InTime(gap) && control.Latched()
      ensures Traced(events, trace, answers) && trace[0] == old(Snapshot()) && trace[|events|] == Snapshot()
    {
      hide FlexDaemon.Linked, FlexDaemon.Safe, FlexDaemon.InTime, Happened, Timely;
      trace, answers := [Snapshot()], [];
      for i := 0 to |events|
        invariant Inv() && now <= lastPass + gap && control.Latched()
        invariant Clocked(events[i..], now, lastPass, gap)
        invariant Traced(events[..i], trace, answers) && trace[0] == old(Snapshot()) && trace[i] == Snapshot()
      {
        assert events[i..][1..] == events[i + 1..] && events[..i + 1] == events[..i] + [events[i]];
        var status := Step(events[i]);
        TracedNext(events[..i], trace, answers, events[i], Snapshot(), status);
        trace, answers := trace + [Snapshot()], answers + [status];
      }
      assert events[..|events|] == events;
      InvIsSafe(gap);
    }
  }

  /** A step of a watchdog: the owner's transmission ends, if it has to. */
  ghost predicate Ends(b: View, a: View, over: bool) {
    if over then Stops(b, b.(tx := a.tx, radio := a.radio), false) else a.tx == b.tx && a.radio == b.radio
  }

  /** No clock reading in the view is in the future. */
  ghost predicate Past(v: View, now: nat) {
    && (v.tx.owner != NoOwner ==> v.tx.startedMs <= now)
    && (v.carrier.active ==> v.carrier.startedMs <= now && v.carrier.renewedMs <= now)
    && (v.session.reserved ==> v.session.renewedMs <= now)
    && (v.station.held ==> v.station.renewedMs <= now)
  }

  /** Started no later than now, and at the last pass still within the limit. */
  predicate Fresh(since: nat, limit: nat, now: nat, lastPass: nat) {
    since <= now && lastPass - since < limit
  }

  /** Nothing in the view was over its limit at the last pass. */
  ghost predicate Timely(v: View, now: nat, lastPass: nat) {
    && v.tx.maximumKeyMs > 0
    && (v.tx.owner != NoOwner ==> Fresh(v.tx.startedMs, v.tx.maximumKeyMs, now, lastPass))
    && (v.carrier.active ==> Fresh(v.carrier.startedMs, TUNE_HARD_LIMIT_MS, now, lastPass) &&
                             Fresh(v.carrier.renewedMs, TUNE_LEASE_MS, now, lastPass))
    && (v.session.reserved ==> Fresh(v.session.renewedMs, NETWORK_LEASE_MS, now, lastPass))
    && (v.station.held ==> Fresh(v.station.renewedMs, STATION_LEASE_MS, now, lastPass))
  }

  lemma PassKeepsTime(
    b: View, a: View, now: nat, lastPass: nat, stationAt: nat, tuneAt: nat, ownerAt: nat, networkAt: nat)
    requires Timely(b, now, lastPass) && now <= stationAt <= tuneAt <= ownerAt <= networkAt
    requires (b.tx.owner == Tune <==> b.carrier.active) && (b.tx.owner == Http ==> b.session.reserved)
    requires Passed(b, a, stationAt, tuneAt, ownerAt, networkAt)
    ensures Timely(a, networkAt, stationAt)
  {
  }

  lemma EdgeKeepsTime(b: View, a: View, now: nat, lastPass: nat, pressed: bool, at: nat, audio: AudioInput)
    requires Timely(b, now, lastPass) && lastPass <= now <= at && Edge(b, a, pressed, at, audio)
    ensures Timely(a, at, lastPass)
  {
    hide PurposeOf, Startable;
  }

  lemma ServedKeepsTime(
    b: View, a: View, now: nat, lastPass: nat, request: Request, lease: nat, at: nat, audio: AudioInput, status: nat)
    requires Timely(b, now, lastPass) && lastPass <= now <= at && Numbered(b)
    requires Served(b, a, request, lease, at, audio, status)
    ensures Timely(a, at, lastPass)
  {
    hide StationServed, PttServed, SessionServed, TuneServed, SettingServed, Timely;
    TimePasses(b, now, lastPass, at);
    if request.OwnerAcquire? || request.OwnerKeepalive? || request.OwnerRelease? {
      StationKeepsTime(b, a, request, lease, at, lastPass, status);
    } else if HoldsStation(b, lease) {
      if request.TxPttStart? || request.TxPttStop? || request.TxRelease? {
        PttKeepsTime(b, a, request, at, lastPass, audio, status);
      } else if request.TxCreate? || request.TxKeepalive? || request.TxStream? || request.TxAudio? {
        SessionKeepsTime(b, a, request, at, lastPass, status);
      } else if request.TuneStart? || request.TuneKeepalive? || request.TuneStop? {
        TuneKeepsTime(b, a, request, at, lastPass, audio, status);
      } else {
        SettingKeepsTime(b, a, request, at, lastPass, status);
      }
    }
  }

  lemma StationKeepsTime(b: View, a: View, request: Request, lease: nat, at: nat, lastPass: nat, status: nat)
    requires request.OwnerAcquire? || request.OwnerKeepalive? || request.OwnerRelease?
    requires Timely(b, at, lastPass) && lastPass <= at && Numbered(b)
    requires StationServed(b, a, request, lease, at, status)
    ensures Timely(a, at, lastPass)
  {
  }

  lemma PttKeepsTime(b: View, a: View, request: Request, at: nat, lastPass: nat, audio: AudioInput, status: nat)
    requires request.TxPttStart? || request.TxPttStop? || request.TxRelease?
    requires Timely(b, at, lastPass) && lastPass <= at && PttServed(b, a, request, at, audio, status)
    ensures Timely(a, at, lastPass)
  {
    hide PurposeIn, Startable, SessionMayKey;
  }

  lemma SessionKeepsTime(b: View, a: View, request: Request, at: nat, lastPass: nat, status: nat)
    requires request.TxCreate? || request.TxKeepalive? || request.TxStream? || request.TxAudio?
    requires Timely(b, at, lastPass) && lastPass <= at && Numbered(b) && SessionServed(b, a, request, at, status)
    ensures Timely(a, at, lastPass)
  {
  }

  lemma TuneKeepsTime(b: View, a: View, request: Request, at: nat, lastPass: nat, audio: AudioInput, status: nat)
    requires request.TuneStart? || request.TuneKeepalive? || request.TuneStop?
    requires Timely(b, at, lastPass) && lastPass <= at && Numbered(b)
    requires TuneServed(b, a, request, at, audio, status)
    ensures Timely(a, at, lastPass)
  {
    hide PurposeIn, Startable, TuneAllowed;
  }

  lemma SettingKeepsTime(b: View, a: View, request: Request, at: nat, lastPass: nat, status: nat)
    requires request.SetTimeout? || request.SetFrequency? || request.SetMode? || request.SetGain?
    requires Timely(b, at, lastPass) && SettingServed(b, a, request, status)
    ensures Timely(a, at, lastPass)
  {
  }

  /** Without a lease number a Tune request is refused. */
  lemma NoTuneLease(b: View, at: nat)
    ensures TuneKept(b, b, 0, at, 403) && TuneStopped(b, b, 0, 403)
  {
  }

  lemma RetuneKeepsTime(b: View, a: View, now: nat, lastPass: nat, frequency: nat, ok: bool)
    requires Timely(b, now, lastPass)
    ensures InRange(frequency) && Retunes(b, a, frequency, ok) ==> Timely(a, now, lastPass)
  {
  }

  lemma ClosedKeepsTime(b: View, a: View, now: nat, lastPass: nat)
    requires Timely(b, now, lastPass) && Closed(b, a)
    ensures Timely(a, now, lastPass)
  {
  }

  lemma FedKeepsTime(b: View, a: View, now: nat, lastPass: nat, frames: nat, at: nat)
    requires Timely(b, now, lastPass) && Numbered(b) && Happened(NetworkData(frames, at), b, a, 0)
    ensures Timely(a, now, lastPass)
  {
  }

  lemma SameTimes(b: View, a: View, now: nat, lastPass: nat)
    requires Timely(b, now, lastPass) && a == b.(radio := a.radio)
    ensures Timely(a, now, lastPass)
  {
  }

  lemma EdgeIs(
    b: View, a: View, pressed: bool, at: nat, purpose: Option<Job>, audio: AudioInput)
    requires TxEdge(TxOf(b), TxOf(a), pressed, at, true, purpose, audio)
    requires purpose == PurposeIn(b, PhysicalMic, audio)
    requires pressed && b.tx.armed ==> purpose.Some?
    requires a == b.(tx := a.tx, radio := a.radio, carrier := if a.tx.owner == Tune then b.carrier else NO_TUNE)
    ensures Edge(b, a, pressed, at, audio)
  {
  }

  /** Whoever is called for has the transmitter afterwards, or nobody new has. */
  lemma StartsOwner(b: TxView, a: TxView, who: Owner, at: nat, audio: AudioInput, purpose: Option<Job>)
    ensures forall ok :: TxStarts(b, a, who, at, Startable(who, purpose, b.radio.running, audio), purpose, ok) ==>
              && a.tx == (if ok then Begun(b.tx, who, at) else NotBegun(b.tx, who))
              && (ok <==> a.tx.state == Transmitting)
  {
    hide Startable;
  }

  /** What the Tune machine reports is what has to happen. */
  lemma TuneStartedIs(b: View, a: View, at: nat, audio: AudioInput, r: TuneResult)
    requires b.counters.tune < TWO_64 && b.tx.enabled
    requires var (number, next) := FreshLease(b.counters.tune);
             a == b.(tx := a.tx, radio := a.radio, carrier := a.carrier, counters := b.counters.(tune := next))
    requires var refused :=
               if b.carrier.active then Some(TuneBusy)
               else if b.tx.state == Faulted then Some(TuneHardwareError)
               else if b.tx.owner != NoOwner then Some(TuneBusy)
               else None;
             if refused.Some? then r == refused.value && a.carrier == b.carrier && TxOf(a) == TxOf(b)
             else
               var purpose := PurposeIn(b, Tune, audio);
               && (r == TuneOk || r == TuneHardwareError) && (r == TuneOk <==> a.tx.state == Transmitting)
               && a.carrier == (if r == TuneOk then TuneLease(true, FreshLease(b.counters.tune).0, at, at) else b.carrier)
               && TxStarts(TxOf(b), TxOf(a), Tune, at, Startable(Tune, purpose, b.radio.running, audio), purpose,
                           r == TuneOk)
    ensures TuneStarted(b, a, at, audio, TuneStatus(r))
  {
    hide TxStarts, Startable, PurposeOf, FreshLease;
  }

  /** And the same of a session. */
  lemma SessionKeyedIs(b: View, a: View, lease: nat, at: nat, audio: AudioInput, r: NetworkResult)
    requires b.tx.enabled && a == b.(tx := a.tx, radio := a.radio, session := a.session)
    requires var answered :=
               if !HoldsSession(b, lease) then Some(NetStale)
               else if !b.session.streamConnected || b.session.buffered < PREBUFFER_FRAMES then Some(NotReady)
               else if b.session.keyed then Some(NetOk)
               else if b.tx.state == Faulted then Some(NetHardwareError)
               else if b.tx.owner != NoOwner then Some(NetBusy)
               else None;
             if answered.Some? then r == answered.value && a.session == b.session && TxOf(a) == TxOf(b)
             else
               var purpose := PurposeIn(b, Http, audio);
               && (r == NetOk || r == NetHardwareError) && (r == NetOk <==> a.tx.state == Transmitting)
               && a.session == (if r == NetOk then b.session.(keyed := true, renewedMs := at) else b.session)
               && TxStarts(TxOf(b), TxOf(a), Http, at, Startable(Http, purpose, b.radio.running, audio), purpose,
                           r == NetOk)
    ensures SessionKeyed(b, a, lease, at, audio, NetStatus(r, false))
  {
    hide TxStarts, Startable, PurposeOf;
  }

  /** Nobody but the microphone gains the transmitter by an edge. */
  lemma EdgeOwner(b: TxView, a: TxView, pressed: bool, at: nat, purpose: Option<Job>, audio: AudioInput)
    requires TxEdge(b, a, pressed, at, true, purpose, audio)
    ensures a.tx.owner == b.tx.owner || a.tx.owner == NoOwner || a.tx.owner == PhysicalMic
    ensures a.tx.owner == b.tx.owner && a.tx.owner != NoOwner && a.tx.owner != PhysicalMic ==> a.radio == b.radio
    ensures a.tx.enabled == b.tx.enabled && a.tx.maximumKeyMs == b.tx.maximumKeyMs
  {
    hide Startable;
  }

  lemma TimePasses(v: View, now: nat, lastPass: nat, at: nat)
    requires Timely(v, now, lastPass) && lastPass <= now <= at
    ensures Timely(v, at, lastPass) && Past(v, at)
  {
  }

  /** The four watchdogs together are one pass. */
  lemma PassIs(
    b: View, s: View, t: View, o: View, a: View, stationAt: nat, tuneAt: nat, ownerAt: nat, networkAt: nat)
    requires Past(b, stationAt) && stationAt <= tuneAt <= ownerAt <= networkAt
    requires (b.tx.owner == Tune <==> b.carrier.active) && (!b.carrier.active ==> b.carrier == NO_TUNE)
    requires b.tx.owner == Http ==> b.session.reserved && b.session.keyed
    requires b.session.keyed ==> b.session.reserved
    requires b.tx.maximumKeyMs != 0
    requires if b.station.held && Elapsed(stationAt, b.station.renewedMs) >= STATION_LEASE_MS then
               && Ends(b, s, b.tx.owner == Tune || b.tx.owner == Http)
               && s == b.(tx := s.tx, radio := s.radio, carrier := NO_TUNE, station := NO_STATION,
                          session := if b.session.reserved then NO_SESSION else b.session)
             else s == b
    requires var over := s.carrier.active && (Elapsed(tuneAt, s.carrier.startedMs) >= TUNE_HARD_LIMIT_MS ||
                                              Elapsed(tuneAt, s.carrier.renewedMs) >= TUNE_LEASE_MS);
             && Ends(s, t, over)
             && t == s.(tx := t.tx, radio := t.radio, carrier := if over then NO_TUNE else s.carrier)
    requires && Ends(t, o, t.tx.owner != NoOwner && Elapsed(ownerAt, t.tx.startedMs) >= t.tx.maximumKeyMs)
             && o == t.(tx := o.tx, radio := o.radio, carrier := if o.tx.owner == Tune then t.carrier else NO_TUNE)
    requires var over := o.session.reserved && Elapsed(networkAt, o.session.renewedMs) >= NETWORK_LEASE_MS;
             && Ends(o, a, o.tx.owner == Http && over)
             && a == o.(tx := a.tx, radio := a.radio,
                        session := if over || (o.session.keyed && o.tx.owner != Http) then NO_SESSION else o.session)
    ensures Passed(b, a, stationAt, tuneAt, ownerAt, networkAt)
  {
  }

  ghost predicate Numbered(v: View) {
    v.counters.station < TWO_64 && v.counters.tune < TWO_64 && v.counters.tx < TWO_64
  }

  /** Every event of a run did what it has to, from one view to the next. */
  ghost predicate Traced(events: seq<Event>, trace: seq<View>, answers: seq<nat>) {
    && |trace| == |events| + 1 && |answers| == |events|
    && forall i :: 0 <= i < |events| ==>
         Numbered(trace[i]) && Happened(events[i], trace[i], trace[i + 1], answers[i])
  }

  lemma TracedNext(events: seq<Event>, trace: seq<View>, answers: seq<nat>, e: Event, a: View, status: nat)
    requires Traced(events, trace, answers)
    requires Numbered(trace[|events|]) && Happened(e, trace[|events|], a, status)
    ensures Traced(events + [e], trace + [a], answers + [status])
  {
    hide Happened;
  }
}
