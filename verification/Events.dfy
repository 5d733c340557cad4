/** What happens to the daemon and what each event has to do: the control side
    of the daemon as a relation between plain values (src/flex1500d.c,
    src/api.c). */
module Events {
  import opened Common
  import opened Protocol
  import opened Trace
  import opened Calls
  import opened StationOwner
  import opened UsbRx
  import opened Transmitter

  /** A request after parsing; lease 0 stands for a missing or malformed lease. */
  datatype Request =
    | OwnerAcquire(modeAware: bool)
    | OwnerKeepalive
    | OwnerRelease
    | TxCreate(profile: Option<Profile>)
    | TxKeepalive(lease: nat)
    | TxStream(lease: nat)
    | TxAudio(lease: nat, bytes: nat)
    | TxPttStart(lease: nat)
    | TxPttStop(lease: nat)
    | TxRelease(lease: nat)
    | TuneStart
    | TuneKeepalive(lease: nat)
    | TuneStop(lease: nat)
    | SetTimeout(seconds: nat)
    | SetFrequency(frequency: nat)
    | SetMode(mode: RxMode)
    | SetGain(db: int)

  /** One thing that happens to the daemon, with the clock readings it takes. */
  datatype Event =
    | WatchdogPass(station: nat, tune: nat, owner: nat, network: nat)
    | PttEdge(pressed: bool, at: nat, audio: AudioInput)
    | ApiRequest(request: Request, stationLease: nat, at: nat, audio: AudioInput)
    | NetworkData(frames: nat, at: nat)
    | NetworkClosed(at: nat)
    | RtlTune(frequency: nat, at: nat)
    | UsbFault(at: nat)

  /** A lease number and the next counter value; zero is never handed out. */
  function FreshLease(counter: nat): (r: (nat, nat))
    requires counter < TWO_64
    ensures 0 < r.0 < TWO_64 && r.1 < TWO_64
  {
    if counter == 0 then (1, 2) else (counter, (counter + 1) % TWO_64)
  }

  /** No number is handed out twice before the counter has gone all the way round. */
  lemma LeasesDiffer(counter: nat, more: nat)
    requires 0 < counter && counter + more < TWO_64
    ensures FreshLease(counter).0 == counter && HandedOut(counter, more) == counter + more
    decreases more
  {
    if more > 0 {
      LeasesDiffer(counter + 1, more - 1);
    }
  }

  /** The number handed out after `more` others. */
  function HandedOut(counter: nat, more: nat): nat
    requires 0 < counter && counter + more < TWO_64
    decreases more
  {
    if more == 0 then FreshLease(counter).0 else HandedOut(FreshLease(counter).1, more - 1)
  }

  // ---- the daemon as a value ----

  datatype StationView = StationView(held: bool, modeAware: bool, lease: nat, renewedMs: nat)

  const NO_STATION := StationView(false, false, 0, 0)

  datatype Counters = Counters(station: nat, tune: nat, tx: nat)

  datatype View = View(
    tx: TxBook, carrier: TuneLease, session: Session, station: StationView, rxMode: RxMode,
    radio: RadioView, counters: Counters)

  function TxOf(v: View): TxView {
    TxView(v.tx, v.radio)
  }

  /** The owner's transmission ends and nothing else happens. */
  ghost predicate Stops(b: View, a: View, graceful: bool) {
    a == b.(tx := a.tx, radio := a.radio) && TxStops(TxOf(b), TxOf(a), graceful, a.tx.state == RxState)
  }

  ghost function PurposeIn(v: View, who: Owner, audio: AudioInput): Option<Job> {
    PurposeOf(who, v.radio.tuning, v.station.held && !v.station.modeAware, v.rxMode, v.session, audio)
  }

  /** An owner's start is called for and nothing else happens. */
  ghost predicate Starts(b: View, a: View, who: Owner, at: nat, audio: AudioInput) {
    var purpose := PurposeIn(b, who, audio);
    && a == b.(tx := a.tx, radio := a.radio)
    && TxStarts(TxOf(b), TxOf(a), who, at, Startable(who, purpose, b.radio.running, audio), purpose,
                a.tx.state == Transmitting)
  }

  // ---- what each event does ----

  /** Who is over its limit in a watchdog pass. */
  predicate StationOver(b: View, at: nat) {
    b.station.held && at - b.station.renewedMs >= STATION_LEASE_MS
  }

  predicate TuneOver(b: View, station: nat, tune: nat) {
    b.carrier.active &&
    (StationOver(b, station) ||
     tune - b.carrier.startedMs >= TUNE_HARD_LIMIT_MS || tune - b.carrier.renewedMs >= TUNE_LEASE_MS)
  }

  predicate NetworkOver(b: View, station: nat, network: nat) {
    b.session.reserved && (StationOver(b, station) || network - b.session.renewedMs >= NETWORK_LEASE_MS)
  }

  /** A transmission ends in a pass exactly when its lease, the station's lease or
      the key limit is over; a session goes with its transmission. */
  ghost predicate Passed(b: View, a: View, station: nat, tune: nat, owner: nat, network: nat) {
    var ends :=
      || (b.tx.owner == Tune && TuneOver(b, station, tune))
      || (b.tx.owner == Http && NetworkOver(b, station, network))
      || (b.tx.owner != NoOwner && b.tx.maximumKeyMs != 0 && owner - b.tx.startedMs >= b.tx.maximumKeyMs);
    && (if ends then Stops(b, b.(tx := a.tx, radio := a.radio), false) else a.tx == b.tx && a.radio == b.radio)
    && a.carrier == (if a.tx.owner == Tune then b.carrier else NO_TUNE)
    && a.session == (if NetworkOver(b, station, network) || (b.session.keyed && a.tx.owner != Http)
                     then NO_SESSION else b.session)
    && a.station == (if StationOver(b, station) then NO_STATION else b.station)
    && a.rxMode == b.rxMode && a.counters == b.counters
  }

  /** A microphone edge: passed on, except a press at a frequency or mode the
      microphone may not use. The carrier's lease goes with its transmission. */
  ghost predicate Edge(b: View, a: View, pressed: bool, at: nat, audio: AudioInput) {
    var purpose := PurposeIn(b, PhysicalMic, audio);
    && a == b.(tx := a.tx, radio := a.radio, carrier := if a.tx.owner == Tune then b.carrier else NO_TUNE)
    && if pressed && b.tx.armed && purpose.None? then TxOf(a) == TxOf(b)
       else TxEdge(TxOf(b), TxOf(a), pressed, at, true, purpose, audio)
  }

  predicate HoldsStation(v: View, lease: nat) {
    v.station.held && lease != 0 && lease == v.station.lease
  }

  predicate HoldsSession(v: View, lease: nat) {
    v.session.reserved && lease != 0 && lease == v.session.lease
  }

  predicate HoldsTune(v: View, lease: nat) {
    v.carrier.active && lease != 0 && lease == v.carrier.lease
  }

  /** Taking, renewing and giving up the station. */
  predicate StationServed(b: View, a: View, request: Request, lease: nat, at: nat, status: nat)
    requires request.OwnerAcquire? || request.OwnerKeepalive? || request.OwnerRelease?
    requires b.counters.station < TWO_64
  {
    match request
    case OwnerAcquire(modeAware) =>
      var (number, next) := FreshLease(b.counters.station);
      var counted := b.(counters := b.counters.(station := next));
      if b.station.held then status == 409 && a == counted
      else status == 201 && a == counted.(station := StationView(true, modeAware, number, at))
    case OwnerKeepalive =>
      if HoldsStation(b, lease) then status == 200 && a == b.(station := b.station.(renewedMs := at))
      else status == 410 && a == b
    case OwnerRelease =>
      if b.tx.owner != NoOwner then status == 409 && a == b
      else if HoldsStation(b, lease) then status == 200 && a == b.(station := NO_STATION)
      else status == 410 && a == b
  }

  /** Reserving a session, keeping it, opening its stream and posting audio. */
  predicate SessionServed(b: View, a: View, request: Request, at: nat, status: nat)
    requires request.TxCreate? || request.TxKeepalive? || request.TxStream? || request.TxAudio?
    requires b.counters.tx < TWO_64
  {
    var s := b.session;
    match request
    case TxCreate(profile) =>
      if profile.None? then status == 422 && a == b
      else
        var (number, next) := FreshLease(b.counters.tx);
        var counted := b.(counters := b.counters.(tx := next));
        if !ValidProfile(profile.value) then status == 422 && a == counted
        else if s.reserved || b.tx.owner != NoOwner then status == 409 && a == counted
        else
          status == 201 &&
          a == counted.(session := Session(true, s.streamConnected, s.keyed, number, at, at, s.buffered, profile.value))
    case TxKeepalive(lease) =>
      if lease == 0 then status == 422 && a == b
      else if !HoldsSession(b, lease) then status == 410 && a == b
      else status == 200 && a == b.(session := s.(renewedMs := at))
    case TxStream(lease) =>
      if lease == 0 then status == 422 && a == b
      else if !HoldsSession(b, lease) then status == 410 && a == b
      else if s.streamConnected then status == 409 && a == b
      else status == 200 && a == b.(session := Opened(s, at))
    case TxAudio(lease, bytes) =>
      if lease == 0 || bytes == 0 || bytes > 9600 || bytes % 2 == 1 || s.profile.source != PcmAudio then
        status == 422 && a == b
      else if !HoldsSession(b, lease) then status == 410 && a == b
      else
        var open := if s.streamConnected then s else Opened(s, at);
        status == 200 && a == b.(session := Fed(open, bytes / 2, at))
  }

  function Opened(s: Session, at: nat): Session {
    s.(streamConnected := true, buffered := 0, lastDataMs := at)
  }

  /** Frames arrive; the prebuffer counts no more than it needs. */
  function Fed(s: Session, frames: nat, at: nat): Session {
    s.(lastDataMs := at,
       buffered := if s.buffered + frames <= PREBUFFER_FRAMES then s.buffered + frames else PREBUFFER_FRAMES)
  }

  /** Keying, unkeying and giving up a session: only its lease does either, and
      then it really happens. */
  ghost predicate PttServed(b: View, a: View, request: Request, at: nat, audio: AudioInput, status: nat)
    requires request.TxPttStart? || request.TxPttStop? || request.TxRelease?
  {
    if request.lease == 0 then status == 422 && a == b
    else
      match request
      case TxPttStart(lease) =>
        if !SessionMayKey(b) then status == 422 && a == b else SessionKeyed(b, a, lease, at, audio, status)
      case TxPttStop(lease) => SessionStopped(b, a, lease, status)
      case TxRelease(lease) => SessionReleased(b, a, lease, status)
  }

  ghost predicate SessionKeyed(b: View, a: View, lease: nat, at: nat, audio: AudioInput, status: nat) {
    var (s, rest) := (b.session, a.(session := b.session));
    if !HoldsSession(b, lease) then status == 410 && a == b
    else if !s.streamConnected || s.buffered < PREBUFFER_FRAMES then status == 409 && a == b
    else if s.keyed then status == 200 && a == b
    else if b.tx.state == Faulted then status == 500 && a == b
    else if b.tx.owner != NoOwner then status == 409 && a == b
    else
      && Starts(b, rest, Http, at, audio)
      && if a.tx.state == Transmitting then status == 200 && a.session == s.(keyed := true, renewedMs := at)
         else status == 500 && a.session == s
  }

  ghost predicate SessionStopped(b: View, a: View, lease: nat, status: nat) {
    var s := b.session;
    if !HoldsSession(b, lease) then status == 410 && a == b
    else
      && SessionUnkeyed(b, a.(session := s), true, status)
      && a.session == if s.keyed then s.(keyed := false, buffered := 0) else s
  }

  ghost predicate SessionReleased(b: View, a: View, lease: nat, status: nat) {
    if !HoldsSession(b, lease) then status == 410 && a == b
    else SessionUnkeyed(b, a.(session := b.session), false, status) && a.session == NO_SESSION
  }

  /** The frequency policy of a session's profile. */
  predicate SessionMayKey(b: View) {
    var (f, p) := (b.radio.tuning.frequencyHz, b.session.profile);
    && b.radio.tuning.frequencyKnown
    && if p.source == RawIq then IqAllowed(f)
       else if p.mode == NetAm then AmAllowed(f)
       else MicAllowed(f, p.mode != NetLsb)
  }

  ghost predicate SessionUnkeyed(b: View, a: View, graceful: bool, status: nat) {
    if !b.session.keyed then status == 200 && a == b
    else if b.tx.owner != Http then status == 500 && a == b
    else Stops(b, a, graceful) && status == if a.tx.state == RxState then 200 else 500
  }

  /** The leased carrier: started within its policy, kept and stopped by its lease. */
  ghost predicate TuneServed(b: View, a: View, request: Request, at: nat, audio: AudioInput, status: nat)
    requires request.TuneStart? || request.TuneKeepalive? || request.TuneStop?
    requires b.counters.tune < TWO_64
  {
    match request
    case TuneStart =>
      if !b.radio.tuning.frequencyKnown || !TuneAllowed(b.radio.tuning.frequencyHz) then status == 422 && a == b
      else TuneStarted(b, a, at, audio, status)
    case TuneKeepalive(lease) => TuneKept(b, a, lease, at, status)
    case TuneStop(lease) => TuneStopped(b, a, lease, status)
  }

  ghost predicate TuneStarted(b: View, a: View, at: nat, audio: AudioInput, status: nat)
    requires b.counters.tune < TWO_64
  {
    var (number, next) := FreshLease(b.counters.tune);
    var counted := b.(counters := b.counters.(tune := next));
    if b.carrier.active then status == 409 && a == counted
    else if b.tx.state == Faulted then status == 500 && a == counted
    else if b.tx.owner != NoOwner then status == 409 && a == counted
    else
      && Starts(counted, a.(carrier := b.carrier), Tune, at, audio)
      && if a.tx.state == Transmitting then status == 200 && a.carrier == TuneLease(true, number, at, at)
         else status == 500 && a.carrier == b.carrier
  }

  ghost predicate TuneKept(b: View, a: View, lease: nat, at: nat, status: nat) {
    var rest := a.(carrier := b.carrier);
    if !HoldsTune(b, lease) then status == 403 && a == b
    else if at - b.carrier.startedMs >= TUNE_HARD_LIMIT_MS || at - b.carrier.renewedMs >= TUNE_LEASE_MS then
      status == 500 && a.carrier == NO_TUNE && if b.tx.owner == Tune then Stops(b, rest, false) else rest == b
    else status == 200 && a == b.(carrier := b.carrier.(renewedMs := at))
  }

  ghost predicate TuneStopped(b: View, a: View, lease: nat, status: nat) {
    var rest := a.(carrier := b.carrier);
    if !HoldsTune(b, lease) then status == 403 && a == b
    else
      && a.carrier == NO_TUNE
      && if b.tx.owner == Tune then Stops(b, rest, false) && status == (if a.tx.state == RxState then 200 else 500)
         else rest == b && status == 500
  }

  /** A retune attempts its commands in order and books the frequency once the
      first of them succeeded. */
  ghost predicate Retunes(b: View, a: View, frequency: nat, ok: bool)
    requires InRange(frequency)
  {
    && a == b.(radio := a.radio) && a.radio.gain == b.radio.gain && a.radio.drains == b.radio.drains
    && a.radio.job == b.radio.job
    && (a.radio.tuning == b.radio.tuning ||
        (a.radio.tuning.frequencyKnown && a.radio.tuning.frequencyHz == frequency))
    && (ok ==> a.radio.tuning == Tuning(true, frequency, true, RxFilter(frequency).value))
    && (if b.radio.running then
          b.radio.failures <= a.radio.failures && (ok <==> a.radio.failures == b.radio.failures)
        else !ok && a.radio == b.radio)
  }

  /** Settings. Only a gain request reaches the receiver while anyone transmits,
      and is refused there. */
  ghost predicate SettingServed(b: View, a: View, request: Request, status: nat)
    requires request.SetTimeout? || request.SetFrequency? || request.SetMode? || request.SetGain?
  {
    match request
    case SetTimeout(seconds) =>
      if seconds < TIMEOUT_MIN_SECONDS || seconds > TIMEOUT_MAX_SECONDS then status == 400 && a == b
      else if b.tx.owner != NoOwner then status == 409 && a == b
      else status == 200 && a == b.(tx := b.tx.(maximumKeyMs := seconds * 1000))
    case SetFrequency(frequency) =>
      if b.tx.owner != NoOwner then status == 409 && a == b
      else if !InRange(frequency) then status == 400 && a == b
      else (status == 200 || status == 500) && Retunes(b, a, frequency, status == 200)
    case SetMode(mode) =>
      if b.tx.owner != NoOwner then status == 409 && a == b
      else status == 200 && a == b.(rxMode := mode)
    case SetGain(db) =>
      && (status == 200 || status == 500)
      && a == b.(radio := a.radio) && a.radio.tuning == b.radio.tuning
      && a.radio.job == b.radio.job && a.radio.drains == b.radio.drains
      && a.radio.gain == (if status == 200 then Some(db) else b.radio.gain)
      && if b.tx.owner != NoOwner || !ValidGain(db) || !b.radio.running then status == 500 && a == b
         else a.radio.failures == b.radio.failures + if status == 200 then 0 else 1
  }

  /** One API request. Whatever changes the station needs the station's lease. */
  ghost predicate Served(b: View, a: View, request: Request, lease: nat, at: nat, audio: AudioInput, status: nat)
    requires b.counters.station < TWO_64 && b.counters.tune < TWO_64 && b.counters.tx < TWO_64
  {
    if request.OwnerAcquire? || request.OwnerKeepalive? || request.OwnerRelease? then
      StationServed(b, a, request, lease, at, status)
    else if !HoldsStation(b, lease) then status == 409 && a == b
    else if request.TxPttStart? || request.TxPttStop? || request.TxRelease? then
      PttServed(b, a, request, at, audio, status)
    else if request.TxCreate? || request.TxKeepalive? || request.TxStream? || request.TxAudio? then
      SessionServed(b, a, request, at, status)
    else if request.TuneStart? || request.TuneKeepalive? || request.TuneStop? then
      TuneServed(b, a, request, at, audio, status)
    else SettingServed(b, a, request, status)
  }

  /** The network stream closed: its transmission, and only its, is unkeyed. */
  ghost predicate Closed(b: View, a: View) {
    var rest := a.(session := b.session);
    if !b.session.reserved then a == b
    else
      && a.session == b.session.(keyed := false, streamConnected := false, buffered := 0)
      && if b.session.keyed && b.tx.owner == Http then Stops(b, rest, false) else rest == b
  }

  /** What an event does to the daemon; `status` is the answer to a request. */
  ghost predicate Happened(e: Event, b: View, a: View, status: nat)
    requires b.counters.station < TWO_64 && b.counters.tune < TWO_64 && b.counters.tx < TWO_64
  {
    match e
    case WatchdogPass(station, tune, owner, network) => Passed(b, a, station, tune, owner, network)
    case PttEdge(pressed, at, audio) => Edge(b, a, pressed, at, audio)
    case ApiRequest(request, lease, at, audio) => Served(b, a, request, lease, at, audio, status)
    case NetworkData(frames, at) =>
      a == if b.session.reserved && b.session.streamConnected && frames > 0
           then b.(session := Fed(b.session, frames, at)) else b
    case NetworkClosed(_) => Closed(b, a)
    case RtlTune(frequency, _) =>
      if b.tx.owner != NoOwner || b.station.held || !InRange(frequency) then a == b
      else exists ok :: Retunes(b, a, frequency, ok)
    case UsbFault(_) => a == b.(radio := b.radio.(running := a.radio.running)) && (a.radio.running ==> b.radio.running)
  }
}
