/**
 A stop and the resume after it: exactly when that applies an answer the log already has, and exactly when
 it runs a batch's completed calls again.
*/
module RunReapplying {
  import opened Wrappers
  import opened Usage
  import opened RunModel
  import opened RunDispatch
  import opened RunBilling
  import opened RunOnce
  import opened RunApply

  ghost predicate AppliedTwice(messages: seq<Message>) {
    exists i, j :: 0 <= i < j < |messages| && messages[i].AssistantMessage? && messages[j].AssistantMessage?
                   && messages[i].step == messages[j].step
  }

  // ---------- A stop outside a batch ----------

  /** A turn-level stop or a drain, its park, and a bare resume. */
  ghost function StopAndResume(m: Machine, stop: Stop): Machine {
    Next(Next(Next(m, Halt(stop)), Persist(Committed)), Resume)
  }

  /** The recovery that the resume takes, if it takes one. */
  ghost function TakeRecovery(m: Machine, jobs: bool): Machine {
    Next(Next(m, Recover(true)), Proceed(jobs))
  }

  /** Program points at which a stop parks what the session holds. */
  predicate AtBoundary(m: Machine) {
    m.pc.Deciding? || (m.pc.Top? && !m.session.resumeStep && m.session.core.local < m.config.maxSteps)
  }

  lemma UnappliedFrame(s: Session, s': Session)
    requires s'.callsPending == s.callsPending && s'.core.messages == s.core.messages
    requires s'.core.step == s.core.step && s'.core.invocation == s.core.invocation
    ensures Unapplied(s') == Unapplied(s)
  {
  }

  /** The resumed session logs and knows what the stopped one did, and is offered its unapplied call. */
  lemma StopOffers(m: Machine, stop: Stop)
    requires AtBoundary(m) && !stop.RunStop? && !m.session.core.terminal
    ensures var r := StopAndResume(m, stop);
      && r.config == m.config && r.journal == m.journal
      && r.session.core.messages == m.session.core.messages && r.session.core.step == m.session.core.step
      && r.session.callsPending == m.session.callsPending && r.session.resumeStep == m.session.resumeStep
      && r.pc == (match Unapplied(m.session)
                  case None => Top
                  case Some(invocation) => Recovering(Recovery(invocation, false, m.session.callsPending)))
  {
    hide Unapplied;
    var halted := Next(m, Halt(stop));
    StopParks(m, stop);
    hide Next;
    ParkOffers(halted, Unapplied(m.session));
  }

  lemma StopParks(m: Machine, stop: Stop)
    requires AtBoundary(m) && !stop.RunStop? && !m.session.core.terminal
    ensures var halted := Next(m, Halt(stop));
      && halted.pc.Parking? && halted.pc.suspension.reason.InterruptedPark? && !halted.pc.suspension.code.EvidenceUncommitted?
      && halted.pc.suspension.callsPending == m.session.callsPending == halted.session.callsPending
      && halted.config == m.config && halted.journal == m.journal && !halted.session.core.terminal
      && halted.session.core.messages == m.session.core.messages && halted.session.core.step == m.session.core.step
      && halted.session.resumeStep == m.session.resumeStep
      && Unapplied(halted.session) == Unapplied(m.session)
  {
    hide Unapplied;
    var halted := HaltRun(m, m.session, stop);
    assert Next(m, Halt(stop)) == halted;
    UnappliedFrame(m.session, halted.session);
  }

  lemma ParkOffers(m: Machine, unapplied: Option<Invocation>)
    requires m.pc.Parking? && m.pc.suspension.reason.InterruptedPark? && !m.pc.suspension.code.EvidenceUncommitted?
    requires !m.session.core.terminal && Unapplied(m.session) == unapplied
    ensures var r := Next(Next(m, Persist(Committed)), Resume);
      && r.config == m.config && r.journal == m.journal
      && r.session.core == m.session.core && r.session.callsPending == m.session.callsPending
      && r.session.resumeStep == m.session.resumeStep
      && r.pc == (match unapplied
                  case None => Top
                  case Some(invocation) => Recovering(Recovery(invocation, false, m.pc.suspension.callsPending)))
  {
    hide Unapplied;
    UnappliedFrame(m.session, Next(m, Persist(Committed)).session);
  }

  /** The evidence commits, and nothing is charged that the park had charged. */
  lemma EvidenceHolds(m: Machine)
    requires m.pc.Recovering? && (m.pc.recovery.blocks ==> m.config.evidenceRequired)
    requires var invocation := m.pc.recovery.invocation;
      && invocation.entry.Settled? && WellFormed(invocation.entry.receipt)
      && invocation.step in m.journal && m.journal[invocation.step] == invocation.entry
    ensures var recovery := m.pc.recovery;
      Next(m, Recover(true)) == m.(pc := Recovered(recovery, recovery.invocation.entry.receipt, recovery.invocation.entry.outcome))
  {
    var recovery := m.pc.recovery;
    AccountAgain(m.session, recovery.invocation.step, recovery.invocation.entry.receipt);
    CoversItself(recovery.invocation.entry.receipt);
    hide Covers, DeltaOf, Sum, WellFormed, FailRun, FailTurn;
  }

  lemma RefusalLogsNothing(m: Machine, recovery: Recovery, receipt: Usage, recoverable: bool)
    ensures RestoreRefusal(m, recovery, receipt, recoverable).session.core.messages == m.session.core.messages
  {
    hide Account, AccountedUsage;
    AccountLogsNothing(m.session, recovery.invocation.step, receipt, AccountedUsage(recovery));
  }

  lemma AnswerIsLogged(m: Machine, recovery: Recovery, turn: Turn, jobs: bool)
    ensures RestoreAnswer(m, recovery, turn, jobs).session.core.messages
      == m.session.core.messages + if recovery.projected then [] else [AssistantMessage(m.session.core.step, turn)]
  {
    hide ProgressMatches, CompletedCalls;
    assert m.session.core.messages + [] == m.session.core.messages;
  }

  /** A recovered outcome keeps the log, or adds its unprojected answer to it. */
  lemma RecoveryLogs(m: Machine, jobs: bool)
    requires m.pc.Recovered?
    ensures var outcome := m.pc.outcome;
      Next(m, Proceed(jobs)).session.core.messages
        == m.session.core.messages
           + if outcome.Answer? && !m.pc.recovery.projected
             then [AssistantMessage(m.session.core.step, outcome.turn)] else []
  {
    hide RestoreRefusal, RestoreAnswer;
    match m.pc.outcome
    case Refused(recoverable, _) =>
      RefusalLogsNothing(m, m.pc.recovery, m.pc.receipt, recoverable);
      assert m.session.core.messages + [] == m.session.core.messages;
    case Answer(turn) => AnswerIsLogged(m, m.pc.recovery, turn, jobs);
  }

  lemma AccountLogsNothing(s: Session, step: nat, receipt: Usage, accounted: Usage)
    ensures var r := Account(s, step, receipt, accounted); r.Some? ==> r.value.core.messages == s.core.messages
  {
    hide Covers, DeltaOf, Sum;
  }

  lemma CoversItself(receipt: Usage)
    requires WellFormed(receipt)
    ensures Covers(receipt, receipt)
  {
  }

  /** What a call that looks unapplied is known to be. */
  lemma UnappliedFacts(m: Machine)
    requires Inv(m) && !m.pc.Down? && Unapplied(m.session).Some?
    ensures var invocation := Unapplied(m.session).value;
      && invocation.step == m.session.core.step && invocation.entry.Settled? && WellFormed(invocation.entry.receipt)
      && invocation.step in m.journal && m.journal[invocation.step] == invocation.entry
  {
    hide BillsOk, DurableOk, PcOk, DescendsFrom, Cost, WellFormed;
    assert SettledAt(m.journal, m.session.core.step);
  }

  /** One more answer for the current step. */
  lemma OneMoreAnswer(core: Core, journal: Journal, turn: Turn)
    requires LogOk(core.messages, core.step, core.bills, journal, false)
    ensures AppliedTwice(core.messages + [AssistantMessage(core.step, turn)]) <==> Applied(core.messages, core.step)
    ensures !AppliedTwice(core.messages)
  {
    var longer := core.messages + [AssistantMessage(core.step, turn)];
    if Applied(core.messages, core.step) {
      var i :| 0 <= i < |core.messages| && core.messages[i].AssistantMessage? && core.messages[i].step == core.step;
      assert longer[i] == core.messages[i] && longer[|core.messages|].step == core.step;
    }
  }

  lemma BuriedIsUnapplied(m: Machine)
    requires Inv(m) && OnceInv(m, false) && !m.pc.Down?
    ensures Buried(m.session) <==>
      Unapplied(m.session).Some? && !m.session.callsPending && Applied(m.session.core.messages, m.session.core.step)
    ensures Buried(m.session) ==> m.journal[m.session.core.step].outcome.Answer?
  {
    hide Inv, PcOnce, DurableOnce, Charged;
  }

  /**
   The exact condition. Stopped at the loop head or at a decision and then resumed, a run applies an answer
   a second time iff the step's answer is in its log, is no longer last there, and no calls are pending.
  */
  lemma StopReappliesIffBuried(m: Machine, stop: Stop, jobs: bool)
    requires Inv(m) && OnceInv(m, false) && AtBoundary(m) && !stop.RunStop?
    ensures AppliedTwice(TakeRecovery(StopAndResume(m, stop), jobs).session.core.messages) <==> Buried(m.session)
  {
    var core, r := m.session.core, StopAndResume(m, stop);
    assert !core.terminal && LogOk(core.messages, core.step, core.bills, m.journal, false) by {
      hide Inv, DurableOnce, LogOk, Applied, CurrentSettled;
    }
    StopOffers(m, stop);
    BuriedIsUnapplied(m);
    OneMoreAnswer(core, m.journal, Turn([], false, Normal));
    if Unapplied(m.session).Some? {
      UnappliedFacts(m);
      hide Inv, OnceInv, StopAndResume, AppliedTwice, Applied, Buried, LogOk, Unapplied, WellFormed;
      EvidenceHolds(r);
      hide Next;
      RecoveryLogs(Next(r, Recover(true)), jobs);
      var outcome := m.journal[core.step].outcome;
      if outcome.Answer? {
        OneMoreAnswer(core, m.journal, outcome.turn);
      }
    } else {
      hide Inv, OnceInv, StopAndResume, AppliedTwice, Applied, Buried, LogOk, Unapplied;
      NothingRecovered(r, jobs);
    }
  }

  lemma NothingRecovered(m: Machine, jobs: bool)
    requires m.pc.Top?
    ensures TakeRecovery(m, jobs) == m
  {
  }

  // ---------- Evidence that fails while a batch is recovered ----------

  /** From the recovered outcome back into its batch. */
  ghost function ToBatch(m: Machine, jobs: bool): Machine {
    Next(Next(Next(m, Proceed(jobs)), Prepare(0, false)), Proceed(jobs))
  }

  /** A batch under recovery is taken up again, at once or after its evidence has failed and the park is resumed. */
  ghost function TakeUpBatch(m: Machine, evidenceOk: bool, jobs: bool): Machine {
    var recovering := if evidenceOk then m else Next(Next(Next(m, Recover(false)), Persist(Committed)), Resume);
    ToBatch(Next(recovering, Recover(true)), jobs)
  }

  lemma ReachesBatch(m: Machine, turn: Turn, jobs: bool)
    requires m.pc.Recovered? && m.pc.outcome == Answer(turn) && turn.calls != []
    requires m.session.core.replays == [] && m.session.core.input.None?
    requires m.pc.recovery.projected ==> ProgressMatches(turn, m.session.core.observations)
    ensures var r, observations := ToBatch(m, jobs), m.session.core.observations;
      && r.pc == Batch(turn, 0, CompletedCalls(if m.pc.recovery.projected then observations else []))
      && r.session.core.messages
           == m.session.core.messages
              + if m.pc.recovery.projected then [] else [AssistantMessage(m.session.core.step, turn)]
  {
    hide ProgressMatches, CompletedCalls;
    var m1 := Next(m, Proceed(jobs));
    assert m1 == m.(pc := Replaying(Projected(turn)), session := m1.session);
    var m2 := Next(m1, Prepare(0, false));
    assert m2.session.core.messages == m1.session.core.messages;
    assert m.session.core.messages + [] == m.session.core.messages;
  }

  /** The park of the failed evidence offers the logged answer as one still to be projected. */
  lemma OfferedAgain(m: Machine)
    requires m.pc.Recovering? && m.config.evidenceRequired && m.session.callsPending && !m.session.core.terminal
    requires m.pc.recovery.invocation.step in m.journal && m.journal[m.pc.recovery.invocation.step].Settled?
    requires Unapplied(m.session) == Some(m.pc.recovery.invocation)
    ensures var r := Next(Next(Next(m, Recover(false)), Persist(Committed)), Resume);
      && r.pc == Recovering(Recovery(m.pc.recovery.invocation, true, false))
      && r.session.core == m.session.core && r.config == m.config && r.journal == m.journal
  {
    hide Unapplied, Account;
    var failed := Next(m, Recover(false));
    assert failed == m.(pc := Parking(Suspension(TurnFailed, EvidenceUncommitted, false)));
    UnappliedFrame(m.session, Next(failed, Persist(Committed)).session);
  }

  /** The outputs of a prefix of distinct calls match the turn they belong to. */
  lemma PrefixMatches(step: nat, turn: Turn, observations: seq<Observation>)
    requires Progress(step, turn, observations) && DistinctCalls(turn)
    ensures ProgressMatches(turn, observations)
    ensures forall i :: 0 <= i < |turn.calls| ==> (turn.calls[i].id in CompletedCalls(observations) <==> i < |observations|)
  {
    forall i | 0 <= i < |observations|
      ensures exists j :: 0 <= j < |turn.calls| && turn.calls[j] == Call(observations[i].key.call, observations[i].name)
    {
      assert turn.calls[i] == Call(observations[i].key.call, observations[i].name);
    }
    forall i | 0 <= i < |observations|
      ensures turn.calls[i].id in CompletedCalls(observations)
    {
      assert observations[i].key.call == turn.calls[i].id;
    }
  }

  lemma RecoveringBatch(m: Machine)
    requires Inv(m) && OnceInv(m, false) && ApplyInv(m) && m.pc.Recovering? && m.pc.recovery.projected
    ensures var core, invocation := m.session.core, m.pc.recovery.invocation;
      && BatchRuns(core) && m.session.callsPending && !core.terminal && core.replays == []
      && Unapplied(m.session) == Some(invocation)
      && invocation.step in m.journal && m.journal[invocation.step] == invocation.entry
      && invocation.entry.Settled? && WellFormed(invocation.entry.receipt)
      && invocation.entry.outcome == Answer(LastTurn(core))
  {
    RecoveryIsCurrent(m);
    assert SettledAt(m.journal, m.session.core.step);
    hide DurableOk, DurableOnce, DurableApply, BillsOk, Progress, Cost, WellFormed, ParkOnce;
    UnappliedProgress(m.session);
  }

  /**
   The exact condition. A batch recovered with some calls completed comes back to its first call, and each
   completed call runs again, and the answer is logged again, iff its evidence does not commit again.
  */
  lemma BatchRerunsIffEvidenceFails(m: Machine, evidenceOk: bool, jobs: bool)
    requires Inv(m) && OnceInv(m, false) && ApplyInv(m)
    requires m.pc.Recovering? && m.pc.recovery.projected && m.config.evidenceRequired
    requires EndsInBatch(m.session.core) && DistinctCalls(LastTurn(m.session.core))
    ensures var core, turn, r := m.session.core, LastTurn(m.session.core), TakeUpBatch(m, evidenceOk, jobs);
      && r.pc.Batch? && r.pc.turn == turn && r.pc.next == 0
      && (forall i :: 0 <= i < |core.observations| && i < |turn.calls| ==> (turn.calls[i].id in r.pc.done <==> evidenceOk))
      && (forall i :: |core.observations| <= i < |turn.calls| ==> turn.calls[i].id !in r.pc.done)
      && r.session.core.messages == core.messages + if evidenceOk then [] else [AssistantMessage(core.step, turn)]
  {
    RecoveringBatch(m);
    var core, turn, invocation := m.session.core, LastTurn(m.session.core), m.pc.recovery.invocation;
    PrefixMatches(core.step, turn, core.observations);
    hide Inv, OnceInv, ApplyInv, WellFormed, Unapplied, ProgressMatches;
    var again := if evidenceOk then m else Next(Next(Next(m, Recover(false)), Persist(Committed)), Resume);
    if !evidenceOk {
      OfferedAgain(m);
    }
    hide Next;
    EvidenceHolds(again);
    hide ToBatch;
    ReachesBatch(Next(again, Recover(true)), turn, jobs);
  }

  // ---------- A reused answer that a boundary preempts ----------

  /** Careful events, of which none preempts a reused outcome. */
  ghost predicate Paying(m: Machine, e: Event) {
    Careful(m, e) && ReuseIsPaid(m, e)
  }

  /** Some logged answer has cost something and is on no bill. */
  ghost predicate AppliedUnpaid(m: Machine) {
    !m.pc.Down? && exists i :: 0 <= i < |m.session.core.messages| && UnpaidAt(m, m.session.core.messages[i])
  }

  ghost predicate UnpaidAt(m: Machine, message: Message) {
    && message.AssistantMessage? && SettledAt(m.journal, message.step) && m.journal[message.step].receipt != map[]
    && forall k :: 0 <= k < |m.session.core.bills| ==> m.session.core.bills[k].step != message.step
  }

  lemma PaidThroughout(n: Machine)
    requires CarefulInv(n, true)
    ensures forall later :: Leads(Paying, n, later) ==> !AppliedUnpaid(later)
  {
    hide CarefulInv;
    forall later | Leads(Paying, n, later)
      ensures !AppliedUnpaid(later)
    {
      var events: seq<Event> :| Allowed(Paying, n, events) && Run(n, events) == later;
      assert Allowed(Careful, n, events) && Allowed(ReuseIsPaid, n, events) by {
        hide Careful, ReuseIsPaid, Run;
      }
      StaysOnce(n, events, true);
      NothingUnpaid(later);
    }
  }

  lemma NothingUnpaid(m: Machine)
    requires CarefulInv(m, true)
    ensures !AppliedUnpaid(m)
  {
    hide CarefulInv, UnpaidAt;
    if AppliedUnpaid(m) {
      var i :| 0 <= i < |m.session.core.messages| && UnpaidAt(m, m.session.core.messages[i]);
      UnpaidIsBilled(m, i);
    }
  }

  lemma UnpaidIsBilled(m: Machine, i: nat)
    requires CarefulInv(m, true) && !m.pc.Down? && i < |m.session.core.messages|
    ensures !UnpaidAt(m, m.session.core.messages[i])
  {
    if m.session.core.messages[i].AssistantMessage? {
      LoggedIsBilled(m, i);
    }
    hide CarefulInv;
  }

  /** A request is built for a step that has no bill yet, and a settled head's receipt can be charged. */
  lemma UnbilledHere(m: Machine)
    requires Inv(m) && m.pc.Requesting? && SettledAt(m.journal, m.session.core.step)
    ensures forall k :: 0 <= k < |m.session.core.bills| ==> m.session.core.bills[k].step != m.session.core.step
    ensures WellFormed(m.journal[m.session.core.step].receipt) && m.session.core.step >= 1 && !m.session.resumeStep
  {
    hide DurableOk, WellFormed, Cost, TotalOf, InvocationOk, BillsOk;
    LastBillIsLatest(m.session.core, m.journal, m.spends);
    ResumeIsSpent(m);
    assert Open(m.session.core);
  }

  /** The drain wins over the outcome that was found. */
  lemma PreemptsReuse(m: Machine, again: bool)
    requires m.pc.Requesting? && SettledAt(m.journal, m.session.core.step)
    requires m.journal[m.session.core.step].request == m.pc.request
    requires m.session.core.step >= 1 && !LastIsAnswer(m.session.core.messages) && !m.session.callsPending && !m.session.core.terminal
    ensures var step, r := m.session.core.step, Next(m, Probe(true, Some(DrainStop), again));
      && r.pc == Parking(Suspension(InterruptedPark, Draining, false)) && r.config == m.config && r.journal == m.journal
      && r.session.core.step == step && r.session.core.bills == m.session.core.bills
      && r.session.core.messages == m.session.core.messages && !r.session.core.terminal
      && Unapplied(r.session) == Some(Invocation(step, m.journal[step]))
  {
    hide AwaitEvidence, Deliver;
  }

  lemma ParksChargeNothing(m: Machine, s: Session, turn: Turn, jobs: bool)
    ensures FailRun(m, s).session.core.bills == s.core.bills && !FailRun(m, s).pc.Down? && FailRun(m, s).journal == m.journal
    ensures var r := WithoutCalls(m, s, turn, jobs);
      r.session.core.bills == s.core.bills && !r.pc.Down? && r.journal == m.journal
  {
  }

  lemma AnswerChargesNothing(m: Machine, recovery: Recovery, turn: Turn, jobs: bool)
    ensures var r := RestoreAnswer(m, recovery, turn, jobs);
      r.session.core.bills == m.session.core.bills && !r.pc.Down? && r.journal == m.journal
  {
    hide ProgressMatches, CompletedCalls, FailRun, WithoutCalls;
    ParksChargeNothing(m, if recovery.projected then m.session else ProjectTurn(m.session, turn), turn, jobs);
  }

  lemma AnswerKeepsBills(m: Machine, jobs: bool)
    requires m.pc.Recovered? && m.pc.outcome.Answer?
    ensures var r := Next(m, Proceed(jobs));
      r.session.core.bills == m.session.core.bills && r.journal == m.journal && !r.pc.Down?
  {
    hide RestoreRefusal, RestoreAnswer;
    AnswerChargesNothing(m, m.pc.recovery, m.pc.outcome.turn, jobs);
  }

  lemma PreemptedIsUnpaid(m: Machine, again: bool)
    requires CarefulInv(m, true) && m.pc.Requesting? && !m.session.callsPending && SettledAt(m.journal, m.session.core.step)
    requires var head := m.journal[m.session.core.step];
      head.request == m.pc.request && head.outcome.Answer? && head.receipt != map[]
    requires !LastIsAnswer(m.session.core.messages)
    ensures exists later :: Leads(Paying, Next(m, Probe(true, Some(DrainStop), again)), later) && AppliedUnpaid(later)
  {
    var step, head := m.session.core.step, m.journal[m.session.core.step];
    var n := Next(m, Probe(true, Some(DrainStop), again));
    UnbilledHere(m);
    StillAlive(m);
    PreemptsReuse(m, again);
    hide CarefulInv, Next, Leads, Unapplied, AppliedUnpaid, WellFormed;
    ParkOffers(n, Some(Invocation(step, head)));
    var m1 := Next(n, Persist(Committed));
    var m2 := Next(m1, Resume);
    EvidenceHolds(m2);
    var m3 := Next(m2, Recover(true));
    RecoveryLogs(m3, false);
    AnswerKeepsBills(m3, false);
    var later := Next(m3, Proceed(false));
    LeadsNowhere(Paying, n);
    PaysOn(n, n, Persist(Committed));
    PaysOn(n, m1, Resume);
    PaysOn(n, m2, Recover(true));
    PaysOn(n, m3, Proceed(false));
    assert UnpaidAt(later, later.session.core.messages[|m.session.core.messages|]);
    assert AppliedUnpaid(later) by {
      IsUnpaid(later, |m.session.core.messages|);
    }
  }

  lemma IsUnpaid(m: Machine, i: nat)
    requires !m.pc.Down? && i < |m.session.core.messages| && UnpaidAt(m, m.session.core.messages[i])
    ensures AppliedUnpaid(m)
  {
  }

  lemma StillAlive(m: Machine)
    requires CarefulInv(m, true) && m.pc.Requesting?
    ensures !m.session.core.terminal
  {
    hide Inv, JournalInv, OnceCore, DurableOnce, PumpOnce;
  }

  lemma PaysOn(n: Machine, m: Machine, e: Event)
    requires Leads(Paying, n, m)
    requires (e.Persist? && !m.pc.Requesting?) || e.Resume? || (e.Recover? && e.evidenceOk) || e.Proceed?
    ensures Leads(Paying, n, Next(m, e))
  {
    assert Paying(m, e);
    hide Paying;
    LeadsOn(Paying, n, m, e);
  }

  /**
   The exact condition. Where the probe finds the answer to its own request, some later run that preempts no
   other reuse applies an answer it never charges iff a boundary wins before this one is returned.
  */
  lemma ReuseIsUnpaidIffPreempted(m: Machine, halt: Option<Stop>, again: bool)
    requires CarefulInv(m, true) && m.pc.Requesting? && !m.session.callsPending && SettledAt(m.journal, m.session.core.step)
    requires var head := m.journal[m.session.core.step];
      head.request == m.pc.request && head.outcome.Answer? && head.receipt != map[]
    requires !LastIsAnswer(m.session.core.messages) && (halt.None? || halt == Some(DrainStop))
    ensures (exists later :: Leads(Paying, Next(m, Probe(true, halt, again)), later) && AppliedUnpaid(later)) <==> halt.Some?
  {
    if halt.Some? {
      PreemptedIsUnpaid(m, again);
    } else {
      var e := Probe(true, halt, again);
      assert Paying(m, e);
      hide Next, Inv, OnceInv, JournalInv, Careful, ReuseIsPaid, Leads, AppliedUnpaid;
      NextKeeps(m, e) by { OnlyReports(m, e); }
      NextAdvances(m, e);
      NextIsOnce(m, e, true);
      PaidThroughout(Next(m, e));
    }
  }

  lemma OnlyReports(m: Machine, e: Event)
    requires Careful(m, e)
    ensures ReportsAtPark(m, e)
  {
  }
}
