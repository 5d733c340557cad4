/** A concrete history in which a radio is left keyed and the owner machine's
    `cleanup_failed` flag stays false (src/usb_rx.c:1005-1007, src/tx_control.c:74-87). */
module UnreportedFault {
  import opened Protocol
  import opened Trace
  import opened TxLifecycle
  import opened UsbRx
  import opened Calls

  const WITNESS := Carrier(7_100_000)

  /** A Tune start whose SET_TR(1) is reported failed but takes effect. */
  function AmbiguousKeyUp(): Log {
    [Done(SetPaFilter(PaFilter(7_100_000).value), WITNESS), Done(SetAmp(true), WITNESS), Done(StartStream, WITNESS),
     Done(Service, WITNESS), Done(SetMute(true), WITNESS), Done(SetWord(TxWord(7_100_000, TUNE_TONE_HZ).value), WITNESS),
     NotDone(SetTr(true), true, WITNESS)]
  }

  /** Its cleanup, in which only SET_TR(0) fails. */
  function FailedUnkey(): Log {
    [Done(SetMute(true), Receive), NotDone(SetTr(false), false, Receive),
     Done(SetWord(RxWord(7_100_000).value), Receive), Done(Service, Receive), Done(SetMute(false), Receive),
     Done(SetPaFilter(PaFilter(7_100_000).value), Receive), Done(SetAmp(false), Receive), Done(StopStream, Receive)]
  }

  lemma Step(log: Log, run: Log, i: nat)
    requires i < |run|
    ensures Summary(log + run[..i + 1]) == Next(Summary(log + run[..i]), run[i])
  {
    assert log + run[..i + 1] == log + run[..i] + [run[i]];
    SummaryExtend(log + run[..i], run[i]);
  }

  lemma Begin(log: Log, run: Log)
    ensures Summary(log + run[..0]) == Summary(log) && run[..|run|] == run && Summary([]) == EMPTY_DIGEST
  {
    assert log + run[..0] == log;
  }

  /** The commands of a history from its end on, leaving out stream servicing. */
  lemma IssuedNext(run: Log, i: nat)
    requires i < |run|
    ensures Issued(run[..i + 1]) ==
            Issued(run[..i]) + (if run[i].command.Service? then [] else [run[i].command])
    ensures Issued([]) == []
  {
    assert run[..i + 1][..i] == run[..i];
  }

  /** Unkeyed so far, with everything in order. */
  ghost predicate InOrder(d: Digest) {
    d.disciplined && d.keysAllowed && d.wellFormed && !d.inWindow
  }

  lemma TunedDigest()
    ensures InOrder(Summary(TunedHistory()))
  {
    hide KeyReady, JobAllowed, RxWord, RxFilter, PaFilter, Summary, Issued;
    var run := TunedHistory();
    Begin([], run);
    Step([], run, 0);
    Step([], run, 1);
    Step([], run, 2);
    Step([], run, 3);
    Step([], run, 4);
    assert [] + run == run;
  }

  lemma ReadyDigest(log: Log)
    requires InOrder(Summary(log))
    ensures var d := Summary(log + AmbiguousKeyUp()[..6]); InOrder(d) && KeyReady(d.radio, WITNESS)
  {
    hide RxWord, RxFilter, JobAllowed, Summary, Issued;
    PolicyImpliesTunable(7_100_000);
    var run := AmbiguousKeyUp();
    Begin(log, run);
    Step(log, run, 0);
    Step(log, run, 1);
    Step(log, run, 2);
    Step(log, run, 3);
    Step(log, run, 4);
    Step(log, run, 5);
  }

  lemma KeyUpDigest(log: Log)
    requires InOrder(Summary(log))
    ensures Keyed(Summary(log + AmbiguousKeyUp()))
  {
    hide RxWord, RxFilter, KeyReady, Summary, Issued;
    PolicyImpliesTunable(7_100_000);
    var run := AmbiguousKeyUp();
    ReadyDigest(log);
    Begin(log, run);
    Step(log, run, 6);
  }

  /** Keyed, although everything was in order. */
  ghost predicate Keyed(d: Digest) {
    d.disciplined && d.keysAllowed && d.wellFormed && d.mayBeKeyed && d.radio.keyed
  }

  /** Anything but an unkeying that takes effect leaves it so. */
  lemma StaysKeyed(log: Log, run: Log, i: nat)
    requires i < |run| && Keyed(Summary(log + run[..i]))
    requires run[i].ok ==> run[i].applied
    requires run[i].command.SetTr? ==> run[i].command == SetTr(false) && !run[i].applied
    requires Summary(log + run[..i]).inWindow ==> WindowCommand(run[i].command)
    ensures Keyed(Summary(log + run[..i + 1]))
    ensures Summary(log + run[..i + 1]).inWindow ==>
              Summary(log + run[..i]).inWindow && !run[i].command.SetTr?
  {
    hide KeyReady, JobAllowed, RxWord, PaFilter, Summary;
    Step(log, run, i);
  }

  lemma UnkeyDigest(log: Log)
    requires Keyed(Summary(log))
    ensures Keyed(Summary(log + FailedUnkey()))
  {
    hide RxWord, PaFilter, Summary, Keyed;
    var run := FailedUnkey();
    Begin(log, run);
    StaysKeyed(log, run, 0);
    StaysKeyed(log, run, 1);
    StaysKeyed(log, run, 2);
    StaysKeyed(log, run, 3);
    StaysKeyed(log, run, 4);
    StaysKeyed(log, run, 5);
    StaysKeyed(log, run, 6);
    StaysKeyed(log, run, 7);
  }

  lemma KeyUpIssued()
    ensures Issued(AmbiguousKeyUp()) == KeyUpCommands(WITNESS)[..6]
  {
    hide Issued, RxWord;
    var run := AmbiguousKeyUp();
    assert run[..0] == [] && run[..7] == run;
    IssuedNext(run, 0);
    IssuedNext(run, 1);
    IssuedNext(run, 2);
    IssuedNext(run, 3);
    IssuedNext(run, 4);
    IssuedNext(run, 5);
    IssuedNext(run, 6);
  }

  lemma UnkeyIssued()
    ensures Issued(FailedUnkey()) == [
              SetMute(true), SetTr(false), SetWord(RxWord(7_100_000).value), SetMute(false),
              SetPaFilter(PaFilter(7_100_000).value), SetAmp(false), StopStream]
  {
    hide Issued, RxWord, PaFilter;
    var run := FailedUnkey();
    assert run[..0] == [] && run[..8] == run;
    IssuedNext(run, 0);
    IssuedNext(run, 1);
    IssuedNext(run, 2);
    IssuedNext(run, 3);
    IssuedNext(run, 4);
    IssuedNext(run, 5);
    IssuedNext(run, 6);
    IssuedNext(run, 7);
  }

  const ALL := Partial(true, true, true, true, true, true)

  lemma FirstHalf(target: Target)
    requires target.word.Some?
    ensures Planned(Plan(ALL), target, 4) ==
            [SetMute(true), SetTr(false), SetWord(target.word.value), SetMute(false)]
  {
    PlanIs(ALL);
    PlannedNext(Plan(ALL), target, 0);
    PlannedNext(Plan(ALL), target, 1);
    PlannedNext(Plan(ALL), target, 2);
    PlannedNext(Plan(ALL), target, 3);
  }

  lemma FullPlan(target: Target)
    requires target.word.Some?
    ensures Planned(Plan(ALL), target, |ORDER|) == [
              SetMute(true), SetTr(false), SetWord(target.word.value), SetMute(false),
              SetPaFilter(target.pa), SetAmp(false), StopStream]
  {
    hide Plan, Planned;
    PlanIs(ALL);
    FirstHalf(target);
    PlannedNext(Plan(ALL), target, 4);
    PlannedNext(Plan(ALL), target, 5);
    PlannedNext(Plan(ALL), target, 6);
  }

  /** The fault of a failed start need not be reported as a failed cleanup even
      though the radio is left keyed: the commands are those of a Tune start
      that fails at its key-up and of the cleanup that follows, and the owner
      machine's one stop then finds nothing to do. */
  lemma UnreportedKeyedRadio()
    ensures var log := TunedHistory() + AmbiguousKeyUp() + FailedUnkey();
            var target := Target(RxWord(7_100_000), PaFilter(7_100_000).value);
            && WellFormed(log) && Disciplined(log) && KeysAllowed(log)
            && Issued(AmbiguousKeyUp()) == KeyUpCommands(WITNESS)[..6]
            && Issued(FailedUnkey()) == Planned(Plan(ALL), target, |ORDER|)
            && Replay(log).keyed && MayBeKeyed(log)
            && FaultCame([Start(Tune, false), Stop(Tune, false, true)], false)
  {
    hide TunedHistory, AmbiguousKeyUp, FailedUnkey, Summary, Issued, Planned, Plan, KeyUpCommands;
    hide WellFormed, KeysAllowed, Disciplined, MayBeKeyed, Replay;
    TunedDigest();
    KeyUpDigest(TunedHistory());
    UnkeyDigest(TunedHistory() + AmbiguousKeyUp());
    SummaryIs(TunedHistory() + AmbiguousKeyUp() + FailedUnkey());
    FullPlan(Target(RxWord(7_100_000), PaFilter(7_100_000).value));
    KeyUpIssued();
    UnkeyIssued();
  }
}
