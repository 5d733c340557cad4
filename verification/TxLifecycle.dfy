/** Cleanup planning for a partly started transmission (src/tx_lifecycle.c). */
module TxLifecycle {
  import opened Common
  import opened Protocol
  import opened Trace

  datatype Partial = Partial(
    paSelected: bool, ampAttempted: bool, streamStarted: bool,
    transitionAttempted: bool, frequencyAttempted: bool, keyAttempted: bool)

  datatype Action =
    | TransitionMute
    | Unkey
    | RestoreRxFrequency
    | TransitionUnmute
    | ResetPaFilter
    | DisableAmplifier
    | StopTxStream

  const ORDER: seq<Action> := [
    TransitionMute, Unkey, RestoreRxFrequency, TransitionUnmute,
    ResetPaFilter, DisableAmplifier, StopTxStream]

  function Plan(p: Partial): set<Action> {
    (if p.keyAttempted then {TransitionMute, Unkey} else {}) +
    (if p.transitionAttempted || p.frequencyAttempted
     then {RestoreRxFrequency, TransitionUnmute} else {}) +
    (if p.streamStarted then {StopTxStream} else {}) +
    (if p.paSelected then {ResetPaFilter} else {}) +
    (if p.ampAttempted then {DisableAmplifier} else {})
  }

  /** What a cleanup restores to: the receive word, if a frequency is known, and the PA filter. */
  datatype Target = Target(word: Option<nat>, pa: nat)

  /** The command an action sends, if it has anything to send. */
  function ActionCommand(a: Action, target: Target): Option<Command> {
    match a
    case TransitionMute => Some(SetMute(true))
    case Unkey => Some(SetTr(false))
    case RestoreRxFrequency => if target.word.Some? then Some(SetWord(target.word.value)) else None
    case TransitionUnmute => Some(SetMute(false))
    case ResetPaFilter => Some(SetPaFilter(target.pa))
    case DisableAmplifier => Some(SetAmp(false))
    case StopTxStream => Some(StopStream)
  }

  function Wanted(plan: set<Action>, target: Target, a: Action): Option<Command> {
    if a in plan then ActionCommand(a, target) else None
  }

  /** The planned commands among the first `i` steps of the safety order. */
  function Planned(plan: set<Action>, target: Target, i: nat): seq<Command>
    requires i <= |ORDER|
  {
    if i == 0 then []
    else
      var c := Wanted(plan, target, ORDER[i - 1]);
      Planned(plan, target, i - 1) + (if c.Some? then [c.value] else [])
  }

  /** The radio after the first `i` planned steps have all succeeded. */
  function Cleaned(s: RadioState, plan: set<Action>, target: Target, i: nat): RadioState
    requires i <= |ORDER|
  {
    if i == 0 then s
    else
      var before := Cleaned(s, plan, target, i - 1);
      var c := Wanted(plan, target, ORDER[i - 1]);
      if c.Some? then Effect(before, c.value) else before
  }

  /** A plan that mutes the transition also unmutes it, exactly when keying was
      never attempted without the mute or the frequency being attempted first. */
  lemma MutesArePaired(p: Partial)
    ensures (TransitionMute in Plan(p) ==> TransitionUnmute in Plan(p)) <==>
            (p.keyAttempted ==> p.transitionAttempted || p.frequencyAttempted)
  {
    if p.keyAttempted {
      assert TransitionMute in Plan(p);
    }
  }

  /** Which actions a plan holds, flag by flag. */
  ghost predicate PlanFor(plan: set<Action>, p: Partial) {
    && (TransitionMute in plan <==> p.keyAttempted)
    && (Unkey in plan <==> p.keyAttempted)
    && (RestoreRxFrequency in plan <==> p.transitionAttempted || p.frequencyAttempted)
    && (TransitionUnmute in plan <==> p.transitionAttempted || p.frequencyAttempted)
    && (ResetPaFilter in plan <==> p.paSelected)
    && (DisableAmplifier in plan <==> p.ampAttempted)
    && (StopTxStream in plan <==> p.streamStarted)
  }

  lemma PlanIs(p: Partial)
    ensures PlanFor(Plan(p), p)
  {
  }

  /** The radio after the first `i` steps of a plan, field by field. */
  function Halfway(s: RadioState, p: Partial, target: Target, i: nat): RadioState {
    var touched := p.transitionAttempted || p.frequencyAttempted;
    RadioState(
      !(i >= 2 && p.keyAttempted) && s.keyed,
      if i >= 4 && touched then false else (i >= 1 && p.keyAttempted) || s.muted,
      if i >= 3 && touched && target.word.Some? then target.word.value else s.word,
      if i >= 5 && p.paSelected then target.pa else s.pa,
      !(i >= 6 && p.ampAttempted) && s.amp,
      !(i >= 7 && p.streamStarted) && s.streaming)
  }

  lemma HalfwayStep(s: RadioState, plan: set<Action>, p: Partial, target: Target, i: nat, a: Action)
    requires 0 < i <= |ORDER| && a == ORDER[i - 1] && PlanFor(plan, p)
    ensures var c := Wanted(plan, target, a);
            var before := Halfway(s, p, target, i - 1);
            Halfway(s, p, target, i) == if c.Some? then Effect(before, c.value) else before
  {
    match i
    case 1 =>
    case 2 =>
    case 3 =>
    case 4 =>
    case 5 =>
    case 6 =>
    case 7 =>
  }

  lemma {:induction false} CleanedIsHalfway(s: RadioState, plan: set<Action>, p: Partial, target: Target, i: nat)
    requires i <= |ORDER| && PlanFor(plan, p)
    ensures Cleaned(s, plan, target, i) == Halfway(s, p, target, i)
  {
    if i > 0 {
      CleanedIsHalfway(s, plan, p, target, i - 1);
      HalfwayStep(s, plan, p, target, i, ORDER[i - 1]);
    }
  }

  /** The radio a fully successful cleanup is meant to leave behind. */
  function Restored(s: RadioState, p: Partial, target: Target): RadioState {
    var touched := p.transitionAttempted || p.frequencyAttempted;
    RadioState(
      !p.keyAttempted && s.keyed,
      !touched && s.muted,
      if touched && target.word.Some? then target.word.value else s.word,
      if p.paSelected then target.pa else s.pa,
      !p.ampAttempted && s.amp,
      !p.streamStarted && s.streaming)
  }

  /** What a fully successful cleanup leaves behind, field by field. Mute and
      word are only touched if their stage was attempted. */
  lemma CleanedIs(s: RadioState, plan: set<Action>, p: Partial, target: Target)
    requires PlanFor(plan, p) && (p.keyAttempted ==> p.frequencyAttempted)
    ensures Cleaned(s, plan, target, |ORDER|) == Restored(s, p, target)
  {
    CleanedIsHalfway(s, plan, p, target, |ORDER|);
  }

  // ---- the receive word, as the host can know it ----

  /** The last word a run of commands tunes to, if it tunes. */
  function LastWord(cs: seq<Command>): Option<nat> {
    if cs == [] then None
    else
      var c := cs[|cs| - 1];
      if c.SetWord? then Some(c.word) else LastWord(cs[..|cs| - 1])
  }

  lemma LastWordNext(cs: seq<Command>, c: Command)
    ensures LastWord(cs + [c]) == if c.SetWord? then Some(c.word) else LastWord(cs)
  {
    assert (cs + [c])[..|cs|] == cs;
  }

  lemma {:induction false} PlannedWord(plan: set<Action>, target: Target, i: nat)
    requires i <= |ORDER|
    ensures LastWord(Planned(plan, target, i)) ==
            if i >= 3 && RestoreRxFrequency in plan then target.word else None
  {
    if i > 0 {
      PlannedWord(plan, target, i - 1);
      var before := Planned(plan, target, i - 1);
      var c := Wanted(plan, target, ORDER[i - 1]);
      assert ORDER[i - 1] == RestoreRxFrequency <==> i == 3;
      if c.Some? {
        LastWordNext(before, c.value);
      } else {
        assert before + [] == before;
      }
    }
  }

  /** Every command of a run was reported done. */
  ghost predicate AllDone(log: Log) {
    forall e <- log :: e.ok
  }

  lemma {:induction false} WordAfter(log: Log, run: Log)
    requires AllDone(run)
    ensures var word := LastWord(Issued(run));
            WordHistory(log + run) == if word.Some? then WordRecord(word.value, {}) else WordHistory(log)
  {
    if run == [] {
      assert log + run == log;
    } else {
      var n := |run| - 1;
      WordAfter(log, run[..n]);
      assert (log + run)[..|log| + n] == log + run[..n];
      var issued := Issued(run[..n]);
      LastWordNext(issued, run[n].command);
      assert run[n] in run && issued + [] == issued;
    }
  }

  /** After a cleanup whose every command is reported done, the radio is on the
      receive word whatever it did, if and only if the mute or frequency stage
      was reached or the host was already sure of that word. */
  lemma WordRestoredIff(log: Log, p: Partial, target: Target, cleanup: Log)
    requires target.word.Some?
    requires AllDone(cleanup) && Issued(cleanup) == Planned(Plan(p), target, |ORDER|)
    requires WellFormed(log + cleanup)
    ensures (forall radio :: WellFormed(radio) && SameToHost(log + cleanup, radio) ==>
               Replay(radio).word == target.word.value) <==>
            (p.transitionAttempted || p.frequencyAttempted || WordHistory(log).Certain(target.word.value))
  {
    PlanIs(p);
    PlannedWord(Plan(p), target, |ORDER|);
    WordAfter(log, cleanup);
    WordIsCertain(log + cleanup, target.word.value);
  }

  /** One command as the host saw it: reported done, or failed and `applied` or not. */
  function Done(c: Command, job: Job): Entry {
    Entry(c, true, true, job)
  }

  function NotDone(c: Command, applied: bool, job: Job): Entry {
    Entry(c, false, applied, job)
  }

  /** The radio prepared, and tuned to 7.1 MHz. */
  function TunedHistory(): Log {
    [Done(SetTxAntenna, Receive), Done(SetAmp(true), Receive),
     Done(SetWord(RxWord(7_100_000).value), Receive), Done(SetRxFilter(RxFilter(7_100_000).value), Receive),
     Done(SetPaFilter(PaFilter(7_100_000).value), Receive)]
  }

  /** The failing case happens. With the radio prepared and tuned to 7.1 MHz, a
      retune to 14.2 MHz is reported failed at its first command but takes
      effect; a Tune start fails at its first command; the cleanup that follows
      succeeds and leaves the radio off the frequency the host holds. */
  function StaleHistory(): Log {
    TunedHistory() +
    [NotDone(SetWord(RxWord(14_200_000).value), true, Receive),
     NotDone(SetPaFilter(PaFilter(7_100_000).value), false, Carrier(7_100_000))]
  }

  function StaleCleanup(): Log {
    [Done(SetPaFilter(PaFilter(7_100_000).value), Receive), Done(SetAmp(false), Receive)]
  }

  lemma StaleWordSurvivesCleanup()
    ensures var (log, cleanup) := (StaleHistory(), StaleCleanup());
            var p := Partial(true, true, false, false, false, false);
            var target := Target(RxWord(7_100_000), PaFilter(7_100_000).value);
            && WellFormed(log + cleanup) && Disciplined(log + cleanup) && AllDone(cleanup)
            && Issued(cleanup) == Planned(Plan(p), target, |ORDER|)
            && Replay(log + cleanup).word == RxWord(14_200_000).value != target.word.value
  {
    hide Planned, Plan;
    var (log, cleanup) := (StaleHistory(), StaleCleanup());
    WordStays(log[..5] + [log[5]], [log[6]] + cleanup);
    assert log + cleanup == log[..5] + [log[5]] + ([log[6]] + cleanup);
    assert (log[..5] + [log[5]])[..5] == log[..5];
    NeverKeyed(log + cleanup);
    IssuedOfTwo(cleanup[0], cleanup[1]);
    assert cleanup == [cleanup[0], cleanup[1]];
    StalePlan(Target(RxWord(7_100_000), PaFilter(7_100_000).value));
  }

  lemma {:induction false} NeverKeyed(log: Log)
    requires forall e <- log :: !e.command.SetTr?
    ensures Disciplined(log) && !InKeyWindow(log)
  {
    if log != [] {
      NeverKeyed(log[..|log| - 1]);
      assert log[|log| - 1] in log;
    }
  }

  lemma ReplayNext(log: Log, run: Log)
    requires run != []
    ensures Replay(log + run) == Apply(Replay(log + run[..|run| - 1]), run[|run| - 1])
  {
    assert (log + run)[..|log + run| - 1] == log + run[..|run| - 1];
  }

  lemma {:induction false} WordStays(log: Log, run: Log)
    requires forall e <- run :: !e.command.SetWord?
    ensures Replay(log + run).word == Replay(log).word
  {
    hide Replay;
    if run == [] {
      assert log + run == log;
    } else {
      var n := |run| - 1;
      WordStays(log, run[..n]);
      ReplayNext(log, run);
      assert run[n] in run;
    }
  }

  lemma IssuedOfTwo(a: Entry, b: Entry)
    requires !a.command.Service? && !b.command.Service?
    ensures Issued([a, b]) == [a.command, b.command]
  {
    assert [a, b][..1] == [a] && [a][..0] == [];
    assert Issued([a]) == Issued([]) + [a.command];
  }

  lemma PlannedNext(plan: set<Action>, target: Target, i: nat)
    requires i < |ORDER|
    ensures var c := Wanted(plan, target, ORDER[i]);
            Planned(plan, target, i + 1) == Planned(plan, target, i) + (if c.Some? then [c.value] else [])
  {
  }

  lemma StalePlan(target: Target)
    ensures Planned(Plan(Partial(true, true, false, false, false, false)), target, |ORDER|) ==
            [SetPaFilter(target.pa), SetAmp(false)]
  {
    var plan := Plan(Partial(true, true, false, false, false, false));
    PlanIs(Partial(true, true, false, false, false, false));
    PlannedNext(plan, target, 0);
    PlannedNext(plan, target, 1);
    PlannedNext(plan, target, 2);
    PlannedNext(plan, target, 3);
    PlannedNext(plan, target, 4);
    PlannedNext(plan, target, 5);
    PlannedNext(plan, target, 6);
  }

  /** A shutdown resets the PA filter only if the host holds one selected. After
      a retune that failed at its PA filter it does not: here the radio stays on
      the old filter although the shutdown's every command succeeds. */
  function UnheldHistory(): Log {
    TunedHistory() +
    [Done(SetWord(RxWord(14_200_000).value), Receive), Done(SetRxFilter(RxFilter(14_200_000).value), Receive),
     NotDone(SetPaFilter(PaFilter(14_200_000).value), false, Receive)]
  }

  lemma UnheldFilterSurvivesShutdown()
    ensures var (log, cleanup) := (UnheldHistory(), [Done(SetAmp(false), Receive)]);
            && WellFormed(log + cleanup) && AllDone(cleanup)
            && Issued(cleanup) ==
                 Planned(Plan(Partial(false, true, false, false, false, false)), Target(RxWord(14_200_000), 0), |ORDER|)
            && Replay(log + cleanup).pa == PaFilter(7_100_000).value != 0
  {
    hide Planned, Plan;
    var (log, cleanup) := (UnheldHistory(), [Done(SetAmp(false), Receive)]);
    var tail := log[5..] + cleanup;
    FilterStays(TunedHistory(), tail);
    assert log + cleanup == TunedHistory() + tail;
    assert cleanup[..0] == [];
    UnheldPlan(Target(RxWord(14_200_000), 0));
  }

  lemma UnheldPlan(target: Target)
    ensures Planned(Plan(Partial(false, true, false, false, false, false)), target, |ORDER|) == [SetAmp(false)]
  {
    var plan := Plan(Partial(false, true, false, false, false, false));
    PlanIs(Partial(false, true, false, false, false, false));
    PlannedNext(plan, target, 0);
    PlannedNext(plan, target, 1);
    PlannedNext(plan, target, 2);
    PlannedNext(plan, target, 3);
    PlannedNext(plan, target, 4);
    PlannedNext(plan, target, 5);
    PlannedNext(plan, target, 6);
  }

  lemma {:induction false} FilterStays(log: Log, run: Log)
    requires forall e <- run :: e.command.SetPaFilter? ==> !e.applied
    ensures Replay(log + run).pa == Replay(log).pa
  {
    hide Replay;
    if run == [] {
      assert log + run == log;
    } else {
      var n := |run| - 1;
      FilterStays(log, run[..n]);
      ReplayNext(log, run);
      assert run[n] in run;
    }
  }
}
