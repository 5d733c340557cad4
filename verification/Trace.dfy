/** The radio as the host can know it: a history of attempted commands.

    Each entry records what the host was told (`ok`) and what the radio did
    (`applied`). A command reported as done was applied; a failed one may or
    may not have been. The radio's state is the replay of the history. */
module Trace {
  import opened Common
  import opened Protocol

  /** What a command sequence is for. `Audio` covers the microphone and network paths. */
  datatype Job =
    | Receive
    | Carrier(frequency: nat)
    | Audio(frequency: nat, mode: TxMode, rawIq: bool, translate: bool)

  function Offset(job: Job): nat {
    match job
    case Receive => 0
    case Carrier(_) => TUNE_TONE_HZ
    case Audio(_, mode, _, translate) => if mode == Am || translate then AM_IF_HZ else 0
  }

  /** The frequency policy the owner of a job has to satisfy. */
  predicate JobAllowed(job: Job) {
    match job
    case Receive => false
    case Carrier(f) => TuneAllowed(f)
    case Audio(f, mode, rawIq, _) =>
      if rawIq then IqAllowed(f)
      else if mode == Am then AmAllowed(f)
      else MicAllowed(f, mode == Usb)
  }

  /** Whatever a job sends, within its bandwidth, stays inside the voice
      allocations; only voice and the carrier may use the 60 m channels. */
  lemma AllowedJobStaysInBand(job: Job)
    ensures JobAllowed(job) <==>
              match job
              case Receive => false
              case Carrier(f) => InVoiceBand(f, 0) || MicAllowed(f, true)
              case Audio(f, mode, rawIq, _) =>
                if rawIq then 24_000 <= f && forall g :: f - 24_000 <= g <= f + 24_000 ==> InVoiceBand(g, 0)
                else if mode == Am then 3_000 <= f && forall g :: f - 3_000 <= g <= f + 3_000 ==> InVoiceBand(g, 0)
                else InVoiceBand(f, 0) || (mode == Usb && MicAllowed(f, true))
  {
    if job.Audio? {
      GuardIsContainment(job.frequency, if job.rawIq then 24_000 else 3_000);
    }
  }

  datatype Command =
    | SetPaFilter(filter: nat)
    | SetAmp(on: bool)
    | SetMute(on: bool)
    | SetWord(word: nat)
    | SetTr(transmit: bool)
    | SetRxFilter(filter: nat)
    | SetPreamp(gain: nat)
    | SetTxAntenna
    | StartStream
    | Service
    | StopStream

  datatype Entry = Entry(command: Command, ok: bool, applied: bool, job: Job)

  type Log = seq<Entry>

  datatype RadioState = RadioState(
    keyed: bool, muted: bool, word: nat, pa: nat, amp: bool, streaming: bool)

  /** State established by INITIALIZE; the word and filter are placeholders. */
  const INITIALIZED := RadioState(false, false, 0, 0, false, false)

  function Effect(s: RadioState, c: Command): RadioState {
    match c
    case SetPaFilter(filter) => s.(pa := filter)
    case SetAmp(on) => s.(amp := on)
    case SetMute(on) => s.(muted := on)
    case SetWord(word) => s.(word := word)
    case SetTr(transmit) => s.(keyed := transmit)
    case StartStream => s.(streaming := true)
    case StopStream => s.(streaming := false)
    case _ => s
  }

  function Apply(s: RadioState, e: Entry): RadioState {
    if e.applied then Effect(s, e.command) else s
  }

  function Replay(log: Log): RadioState {
    if log == [] then INITIALIZED
    else Apply(Replay(log[..|log| - 1]), log[|log| - 1])
  }

  /** A SET_TR(1) was attempted and no SET_TR(0) has succeeded since. */
  predicate MayBeKeyed(log: Log) {
    log != [] &&
    var e := log[|log| - 1];
    if e.command == SetTr(true) then true
    else if e.command == SetTr(false) && e.ok then false
    else MayBeKeyed(log[..|log| - 1])
  }

  /** The word of the last tuning command reported done, or of a failed one since. */
  predicate MayHaveWord(log: Log, word: nat) {
    if log == [] then word == INITIALIZED.word
    else
      var (before, e) := (log[..|log| - 1], log[|log| - 1]);
      if e.command.SetWord? then e.command.word == word || (!e.ok && MayHaveWord(before, word))
      else MayHaveWord(before, word)
  }

  /** What the host can keep to know that: the last word reported done, and the
      words of the commands that failed since. */
  datatype WordRecord = WordRecord(confirmed: nat, doubtful: set<nat>)
  {
    predicate Possible(word: nat) {
      word == confirmed || word in doubtful
    }

    predicate Certain(word: nat) {
      confirmed == word && doubtful <= {word}
    }
  }

  function NextWord(r: WordRecord, c: Command, ok: bool): WordRecord {
    if !c.SetWord? then r
    else if ok then WordRecord(c.word, {})
    else r.(doubtful := r.doubtful + {c.word})
  }

  function WordHistory(log: Log): WordRecord {
    if log == [] then WordRecord(INITIALIZED.word, {})
    else NextWord(WordHistory(log[..|log| - 1]), log[|log| - 1].command, log[|log| - 1].ok)
  }

  /** A SET_TR(1) was attempted and no SET_TR(0) has been attempted since. */
  predicate InKeyWindow(log: Log) {
    log != [] &&
    var e := log[|log| - 1];
    if e.command.SetTr? then e.command.transmit else InKeyWindow(log[..|log| - 1])
  }

  /** Everything that must be in force before SET_TR(1) for a job. */
  predicate KeyReady(s: RadioState, job: Job) {
    && !job.Receive?
    && s.streaming && s.amp && s.muted
    && PaFilter(job.frequency) == Some(s.pa)
    && TxWord(job.frequency, Offset(job)) == Some(s.word)
  }

  predicate WindowCommand(c: Command) {
    c.SetMute? || c.Service? || c == SetTr(false)
  }

  predicate StepDisciplined(before: Log, e: Entry) {
    && (InKeyWindow(before) ==> WindowCommand(e.command))
    && (e.command == SetTr(true) ==> KeyReady(Replay(before), e.job))
  }

  predicate Disciplined(log: Log) {
    log == [] ||
    var before := log[..|log| - 1];
    Disciplined(before) && StepDisciplined(before, log[|log| - 1])
  }

  ghost predicate KeysAllowed(log: Log) {
    forall i :: 0 <= i < |log| && log[i].command == SetTr(true) ==> JobAllowed(log[i].job)
  }

  ghost predicate WellFormed(log: Log) {
    forall i :: 0 <= i < |log| && log[i].ok ==> log[i].applied
  }

  /** Two histories the host cannot tell apart. */
  ghost predicate SameToHost(a: Log, b: Log) {
    |a| == |b| &&
    forall i :: 0 <= i < |a| ==>
      a[i].command == b[i].command && a[i].ok == b[i].ok && a[i].job == b[i].job
  }

  /** The commands of a history, leaving out stream servicing. */
  function Issued(log: Log): seq<Command> {
    if log == [] then []
    else
      var n := |log| - 1;
      Issued(log[..n]) + (if log[n].command.Service? then [] else [log[n].command])
  }

  /** How many commands were reported failed. */
  function Failures(log: Log): nat {
    if log == [] then 0
    else Failures(log[..|log| - 1]) + if log[|log| - 1].ok then 0 else 1
  }

  /** Every judgement on a history at once, kept up to date entry by entry. */
  datatype Digest = Digest(
    radio: RadioState, word: WordRecord, inWindow: bool, mayBeKeyed: bool,
    disciplined: bool, keysAllowed: bool, wellFormed: bool, issued: seq<Command>, failures: nat)

  const EMPTY_DIGEST := Digest(INITIALIZED, WordRecord(INITIALIZED.word, {}), false, false, true, true, true, [], 0)

  function Next(d: Digest, e: Entry): Digest {
    Digest(
      Apply(d.radio, e),
      NextWord(d.word, e.command, e.ok),
      if e.command.SetTr? then e.command.transmit else d.inWindow,
      e.command == SetTr(true) || (d.mayBeKeyed && !(e.command == SetTr(false) && e.ok)),
      && d.disciplined
      && (d.inWindow ==> WindowCommand(e.command))
      && (e.command == SetTr(true) ==> KeyReady(d.radio, e.job)),
      d.keysAllowed && (e.command == SetTr(true) ==> JobAllowed(e.job)),
      d.wellFormed && (e.ok ==> e.applied),
      d.issued + (if e.command.Service? then [] else [e.command]),
      d.failures + if e.ok then 0 else 1)
  }

  function Summary(log: Log): Digest {
    if log == [] then EMPTY_DIGEST
    else Next(Summary(log[..|log| - 1]), log[|log| - 1])
  }

  lemma SummaryExtend(log: Log, e: Entry)
    ensures Summary(log + [e]) == Next(Summary(log), e)
  {
    assert (log + [e])[..|log|] == log;
  }

  /** The digest holds exactly the judgements defined on the whole history. */
  lemma {:induction false} SummaryIs(log: Log)
    ensures var d := Summary(log);
      && d.radio == Replay(log) && d.word == WordHistory(log) && d.inWindow == InKeyWindow(log)
      && d.mayBeKeyed == MayBeKeyed(log) && d.disciplined == Disciplined(log)
      && d.keysAllowed == KeysAllowed(log) && d.wellFormed == WellFormed(log)
      && d.issued == Issued(log) && d.failures == Failures(log)
  {
    if log != [] {
      SummaryIs(log[..|log| - 1]);
    }
  }

  /** `MayBeKeyed` is exactly what an observer of command results has to fear:
      some radio behaviour consistent with those results ends up keyed. */
  lemma MayBeKeyedIsExact(log: Log)
    requires WellFormed(log)
    ensures MayBeKeyed(log) <==>
              exists other :: WellFormed(other) && SameToHost(log, other) && Replay(other).keyed
  {
    if MayBeKeyed(log) {
      var other := WorstCase(log);
    }
    forall other | WellFormed(other) && SameToHost(log, other) && Replay(other).keyed
      ensures MayBeKeyed(log)
    {
      KeyedImpliesMayBeKeyed(log, other);
    }
  }

  /** One more entry the host sees alike. */
  lemma Lengthened(log: Log, before: Log, e: Entry)
    requires log != [] && SameToHost(log[..|log| - 1], before) && WellFormed(before)
    requires e == log[|log| - 1].(applied := e.applied) && (e.ok ==> e.applied)
    ensures WellFormed(before + [e]) && SameToHost(log, before + [e])
    ensures Replay(before + [e]) == Apply(Replay(before), e)
  {
    assert (before + [e])[..|before|] == before;
  }

  lemma {:induction false} WorstCase(log: Log) returns (other: Log)
    requires WellFormed(log)
    ensures WellFormed(other) && SameToHost(log, other)
    ensures MayBeKeyed(log) ==> Replay(other).keyed
  {
    if log == [] {
      other := [];
    } else {
      var n := |log| - 1;
      var before := WorstCase(log[..n]);
      var e := log[n].(applied := log[n].ok || log[n].command != SetTr(false));
      other := before + [e];
      Lengthened(log, before, e);
    }
  }

  lemma {:induction false} KeyedImpliesMayBeKeyed(log: Log, other: Log)
    requires WellFormed(other) && SameToHost(log, other) && Replay(other).keyed
    ensures MayBeKeyed(log)
  {
    if log != [] {
      var n := |log| - 1;
      if Replay(other[..n]).keyed {
        KeyedImpliesMayBeKeyed(log[..n], other[..n]);
      }
    }
  }

  lemma {:induction false} MayHaveWordIs(log: Log, word: nat)
    ensures MayHaveWord(log, word) <==> WordHistory(log).Possible(word)
  {
    if log != [] {
      MayHaveWordIs(log[..|log| - 1], word);
    }
  }

  /** `MayHaveWord` is exact in the same sense: the radio may be tuned to a word
      if and only if some behaviour consistent with the results ends there. */
  lemma MayHaveWordIsExact(log: Log, word: nat)
    requires WellFormed(log)
    ensures MayHaveWord(log, word) <==>
              exists other :: WellFormed(other) && SameToHost(log, other) && Replay(other).word == word
  {
    if MayHaveWord(log, word) {
      var other := TunedTo(log, word);
    }
    forall other | WellFormed(other) && SameToHost(log, other) && Replay(other).word == word
      ensures MayHaveWord(log, word)
    {
      TunedImpliesMayHaveWord(log, other);
    }
  }

  lemma {:induction false} TunedTo(log: Log, word: nat) returns (other: Log)
    requires WellFormed(log) && MayHaveWord(log, word)
    ensures WellFormed(other) && SameToHost(log, other) && Replay(other).word == word
  {
    if log == [] {
      other := [];
    } else {
      hide SameToHost, Replay;
      var n := |log| - 1;
      var e := log[n];
      var before := log[..n];
      if e.command.SetWord? && e.command.word == word {
        Itself(before);
        e := e.(applied := true);
      } else {
        before := TunedTo(log[..n], word);
        e := e.(applied := e.ok);
      }
      other := before + [e];
      Lengthened(log, before, e);
    }
  }

  lemma Itself(log: Log)
    ensures SameToHost(log, log)
  {
  }

  lemma {:induction false} TunedImpliesMayHaveWord(log: Log, other: Log)
    requires WellFormed(other) && SameToHost(log, other)
    ensures MayHaveWord(log, Replay(other).word)
  {
    if log != [] {
      var n := |log| - 1;
      TunedImpliesMayHaveWord(log[..n], other[..n]);
    }
  }

  /** So the host can be sure of the word exactly when its record is certain. */
  lemma WordIsCertain(log: Log, word: nat)
    requires WellFormed(log)
    ensures WordHistory(log).Certain(word) <==>
              forall other :: WellFormed(other) && SameToHost(log, other) ==> Replay(other).word == word
  {
    var r := WordHistory(log);
    if r.Certain(word) {
      forall other | WellFormed(other) && SameToHost(log, other)
        ensures Replay(other).word == word
      {
        TunedImpliesMayHaveWord(log, other);
        MayHaveWordIs(log, Replay(other).word);
      }
    } else {
      var wrong := r.confirmed;
      if wrong == word {
        assert r.doubtful != {} by {
          assert !(r.doubtful <= {word});
        }
        wrong :| wrong in r.doubtful && wrong != word;
      }
      MayHaveWordIs(log, wrong);
      var other := TunedTo(log, wrong);
    }
  }

  /** Between a SET_TR(1) and the next SET_TR(0) attempt only mute, unmute and
      stream servicing happen. */
  lemma {:induction false} OnlyMutesWhileKeyed(log: Log, i: nat, j: nat)
    requires Disciplined(log) && i < j < |log| && log[i].command == SetTr(true)
    requires forall k :: i < k < j ==> log[k].command != SetTr(false)
    ensures log[j].command.SetMute? || log[j].command.Service? || log[j].command == SetTr(false)
  {
    if j + 1 < |log| {
      OnlyMutesWhileKeyed(log[..|log| - 1], i, j);
    } else {
      WindowOpen(log[..j], i);
    }
  }

  lemma {:induction false} WindowOpen(log: Log, i: nat)
    requires i < |log| && log[i].command == SetTr(true)
    requires forall k :: i < k < |log| ==> log[k].command != SetTr(false)
    ensures InKeyWindow(log)
  {
    if i + 1 < |log| {
      WindowOpen(log[..|log| - 1], i);
    }
  }

  /** At every SET_TR(1) the filter and word mapped from the frequency are in
      force, the amplifier is on, the stream was started and not released, and the
      transition is muted. */
  lemma {:induction false} ReadyAtKeyUp(log: Log, i: nat)
    requires Disciplined(log) && i < |log| && log[i].command == SetTr(true)
    ensures KeyReady(Replay(log[..i]), log[i].job)
  {
    if i + 1 < |log| {
      ReadyAtKeyUp(log[..|log| - 1], i);
      assert log[..|log| - 1][..i] == log[..i];
    }
  }
}
