/**
 Tool batches over whole runs: a batch runs each of its calls once, in order, across any number of
 stop-and-resume rounds, and its outputs are always those of a prefix of its calls.
*/
module RunApply {
  import opened Wrappers
  import opened Usage
  import opened RunModel
  import opened RunDispatch
  import opened RunBilling
  import opened RunOnce

  // ---------- Batches ----------

  /** The pending observations are the outputs of the turn's first calls, one each, in order. */
  ghost predicate Progress(step: nat, turn: Turn, observations: seq<Observation>) {
    && |observations| <= |turn.calls|
    && (forall i :: 0 <= i < |observations| ==>
          && observations[i].key == CallOutput(step, turn.calls[i].id)
          && observations[i].name == turn.calls[i].name)
  }

  predicate DistinctCalls(turn: Turn) {
    forall i, j :: 0 <= i < j < |turn.calls| ==> turn.calls[i].id != turn.calls[j].id
  }

  predicate OwnAnswerAt(core: Core, i: int) {
    0 <= i < |core.messages| && core.messages[i].AssistantMessage? && core.messages[i].step == core.step
  }

  /** The log ends in the current step's answer, or in that and a newer user message. */
  predicate EndsInBatch(core: Core) {
    var last := |core.messages| - 1;
    OwnAnswerAt(core, last) || (OwnAnswerAt(core, last - 1) && core.messages[last].UserMessage? && core.input.None?)
  }

  function LastTurn(core: Core): Turn
    requires EndsInBatch(core)
  {
    var last := |core.messages| - 1;
    if OwnAnswerAt(core, last) then core.messages[last].turn else core.messages[last - 1].turn
  }

  /** The current step's answer is at the end of the log with calls to run, and its outputs are what is pending. */
  ghost predicate BatchLog(core: Core) {
    && core.step >= 1
    && EndsInBatch(core)
    && LastTurn(core).calls != []
    && CurrentSettled(core.step, core.invocation)
    && Progress(core.step, LastTurn(core), core.observations)
  }

  /** A batch whose new input, if there was one, is logged behind the answer. */
  ghost predicate BatchRuns(core: Core) {
    BatchLog(core) && core.input.None?
  }

  /** Calls before `next` have their output; later outputs belong to calls an earlier round completed. */
  ghost predicate BatchAt(turn: Turn, next: nat, done: set<nat>, outputs: nat) {
    && next <= outputs <= |turn.calls|
    && (forall i :: next <= i < outputs ==> turn.calls[i].id in done)
    && (forall i :: outputs <= i < |turn.calls| ==> turn.calls[i].id !in done)
  }

  // ---------- Invariant ----------

  /** What a park owes the recovery decision of the next activation. */
  ghost predicate ParkOk(core: Core, suspension: Suspension) {
    suspension.callsPending ==> suspension.reason.InterruptedPark? && BatchRuns(core)
  }

  ghost predicate IdleOk(s: Session) {
    && (!s.core.terminal ==> s.callsPending == (s.suspension.Some? && s.suspension.value.callsPending))
    && (!s.core.terminal && s.suspension.Some? ==> ParkOk(s.core, s.suspension.value))
  }

  /** The current step's answer is projected and its calls are pending. */
  ghost predicate ProjectedAnswer(core: Core, turn: Turn) {
    BatchLog(core) && LastTurn(core) == turn && (core.observations != [] ==> DistinctCalls(turn))
  }

  ghost predicate RecoveryRuns(s: Session, recovery: Recovery) {
    s.callsPending == recovery.projected && (recovery.projected ==> BatchRuns(s.core))
  }

  ghost predicate PumpOk(m: Machine) {
    var s := m.session;
    match m.pc
    case Top => !s.callsPending
    case Recovering(r) => RecoveryRuns(s, r)
    case Recovered(r, _, _) => RecoveryRuns(s, r)
    case Replaying(Projected(turn)) => s.callsPending && ProjectedAnswer(s.core, turn)
    case Answered(turn, projected) =>
      s.core.input.None? && (if projected then s.callsPending && ProjectedAnswer(s.core, turn) else !s.callsPending)
    case Batch(turn, next, done) =>
      s.callsPending && BatchRuns(s.core) && LastTurn(s.core) == turn && BatchAt(turn, next, done, |s.core.observations|)
    case Calling(turn, next, done) =>
      && s.callsPending && BatchRuns(s.core) && LastTurn(s.core) == turn
      && BatchAt(turn, next, done, |s.core.observations|) && next == |s.core.observations| < |turn.calls|
    case Returned(turn, next, done) =>
      && s.callsPending && BatchRuns(s.core) && LastTurn(s.core) == turn
      && BatchAt(turn, next + 1, done, |s.core.observations|) && next + 1 == |s.core.observations|
    case Deciding(_, _) => !s.callsPending && Applied(s.core.messages, s.core.step)
    case Replaying(Fresh(_)) => !s.callsPending
    case Handling(_, _) => !s.callsPending
    case _ => !s.callsPending && s.core.input.None?
  }

  ghost predicate PcApply(m: Machine) {
    var s := m.session;
    if m.pc.Down? then true
    else if m.pc.Idle? then IdleOk(s)
    else if m.pc.Parking? then
      !s.core.terminal ==> ParkOk(s.core, m.pc.suspension) && s.callsPending == m.pc.suspension.callsPending
    else PumpOk(m)
  }

  ghost predicate DurableApply(durable: Option<Checkpoint>) {
    durable.Some? && durable.value.suspension.Some? && !durable.value.core.terminal ==>
      ParkOk(durable.value.core, durable.value.suspension.value)
  }

  ghost predicate ApplyInv(m: Machine) {
    DurableApply(m.durable) && PcApply(m)
  }

  // ---------- Hypotheses ----------

  /** The park of an interrupted batch is committed, or declined by a host that keeps it in memory. */
  predicate BatchParksHold(m: Machine, e: Event) {
    m.pc.Parking? && m.pc.suspension.callsPending && e.Persist? ==> e.commit.Committed? || e.commit.Declined?
  }

  ghost predicate Orderly(m: Machine, e: Event) {
    Careful(m, e) && BatchParksHold(m, e)
  }

  // ---------- Parks ----------

  /** What every transition but a commit owes the invariant. */
  ghost predicate Steps(m: Machine, m': Machine) {
    m'.durable == m.durable && PcApply(m')
  }

  lemma HaltSteps(m: Machine, s: Session, stop: Stop)
    requires stop.RunStop? || ParkOk(s.core, Suspension(InterruptedPark, NoCode, s.callsPending))
    ensures Steps(m, HaltRun(m, s, stop))
  {
    hide Progress;
    if s.callsPending && !stop.RunStop? {
      UnappliedProgress(s);
    }
  }

  /** A projected batch always looks unapplied, so a user stop keeps its journal of outputs. */
  lemma UnappliedProgress(s: Session)
    requires s.callsPending && BatchLog(s.core)
    ensures Unapplied(s).Some?
  {
  }

  lemma FailSteps(m: Machine, s: Session, code: Code)
    ensures Steps(m, FailRun(m, s))
    ensures !s.callsPending ==> Steps(m, FailTurn(m, s, code))
  {
    hide BatchLog;
  }

  lemma SettleSteps(m: Machine, s: Session, reason: Reason, code: Code)
    requires !s.callsPending && !reason.InterruptedPark? && !code.EvidenceUncommitted?
    ensures Steps(m, SettleRun(m, s, reason, code))
  {
    hide BatchLog;
  }

  lemma OpenHalts(m: Machine, s: Session, stop: Stop)
    requires !s.callsPending
    ensures Steps(m, HaltRun(m, s, stop))
  {
    hide BatchLog, HaltRun;
    HaltSteps(m, s, stop);
  }

  lemma BatchHalts(m: Machine, s: Session, stop: Stop)
    requires s.callsPending && BatchRuns(s.core)
    ensures Steps(m, HaltRun(m, s, stop))
  {
    hide BatchLog, HaltRun;
    HaltSteps(m, s, stop);
  }

  // ---------- Every transition keeps the invariant ----------

  /** The recovery a park offers: the rest of a batch, or an answer. */
  lemma OfferedRecovery(s: Session)
    requires IdleOk(s) && !s.core.terminal
    ensures EvidenceRecovery(s).Some? ==> RecoveryRuns(s, EvidenceRecovery(s).value)
    ensures EvidenceRecovery(s).None? ==> !s.callsPending
  {
    hide Progress;
    if s.callsPending {
      UnappliedProgress(s);
    }
  }

  lemma IdleApplies(m: Machine, e: Event)
    requires ApplyInv(m) && m.pc.Idle?
    ensures ApplyInv(FromIdle(m, e))
  {
    hide EvidenceRecovery, BatchLog, DurableApply, ParkOk;
    if !m.session.core.terminal && (e.Submit? || e.Resume?) {
      OfferedRecovery(m.session);
    }
  }

  lemma TopApplies(m: Machine, e: Event)
    requires ApplyInv(m) && m.pc.Top?
    ensures ApplyInv(FromTop(m, e))
  {
    hide DurableApply, HaltRun, SettleRun, TaskObservations, ApprovedTasks, TaskIds, BatchLog;
    var s := m.session;
    if !s.resumeStep {
      if s.core.local >= m.config.maxSteps {
        SettleSteps(m, s.(core := s.core.(status := Limited, code := MaxSteps)), LimitedPark, MaxSteps);
      } else if e.Halt? {
        OpenHalts(m, s, e.stop);
      }
    }
  }

  lemma RecoveringApplies(m: Machine, e: Event)
    requires Inv(m) && ApplyInv(m) && m.pc.Recovering? && BatchEvidenceHolds(m, e)
    ensures ApplyInv(FromRecovering(m, e))
  {
    hide DurableApply, Account, BatchLog, FailRun, FailTurn, LedgerOk, BooksOk, DurableOk;
    if e.Recover? {
      RecoveryIsCurrent(m);
      AccountAgain(m.session, m.pc.recovery.invocation.step, AccountedUsage(m.pc.recovery));
      FailSteps(m, m.session, EvidenceUncommitted);
    }
  }

  // ---------- A recovered outcome ----------

  lemma RefusalApplies(m: Machine, recoverable: bool)
    requires Inv(m) && OnceInv(m, false) && ApplyInv(m) && m.pc.Recovered? && m.pc.outcome.Refused?
    ensures ApplyInv(RestoreRefusal(m, m.pc.recovery, m.pc.receipt, recoverable))
  {
    hide DurableApply, Account, BatchLog, FailRun, FailTurn, LedgerOk, BooksOk, DurableOk, OnceCore, DurableOnce, Applied;
    AccountAgain(m.session, m.pc.recovery.invocation.step, m.pc.receipt);
    FailSteps(m, m.session, NoCode);
  }

  lemma ProjectedIsApplied(s: Session, turn: Turn)
    ensures Applied(ProjectTurn(s, turn).core.messages, s.core.step)
  {
    var messages := ProjectTurn(s, turn).core.messages;
    assert messages[|s.core.messages|] == AssistantMessage(s.core.step, turn);
  }

  lemma ToolFreeAnswer(m: Machine, s: Session, turn: Turn, jobs: bool)
    requires Applied(s.core.messages, s.core.step) && !s.callsPending
    ensures Steps(m, WithoutCalls(m, s, turn, jobs))
  {
    hide BatchLog, FailRun;
    FailSteps(m, s, NoCode);
  }

  /** A batch starts with no output and nothing completed. */
  lemma FreshBatch(core: Core, turn: Turn)
    requires core.step >= 1 && CurrentSettled(core.step, core.invocation) && core.observations == []
    requires core.messages != [] && core.messages[|core.messages| - 1] == AssistantMessage(core.step, turn)
    requires turn.calls != []
    ensures ProjectedAnswer(core, turn)
    ensures BatchAt(turn, 0, CompletedCalls(core.observations), 0)
  {
  }

  /** A recovered batch picks up after the calls that already have an output. */
  lemma ResumedBatch(core: Core, turn: Turn)
    requires ProjectedAnswer(core, turn)
    ensures BatchAt(turn, 0, CompletedCalls(core.observations), |core.observations|)
  {
    var done := CompletedCalls(core.observations);
    forall i | 0 <= i < |core.observations|
      ensures turn.calls[i].id in done
    {
      assert core.observations[i].key == CallOutput(core.step, turn.calls[i].id);
    }
  }

  lemma RestoreFreshAnswer(m: Machine, turn: Turn, jobs: bool)
    requires Inv(m) && OnceInv(m, false) && ApplyInv(m)
    requires m.pc.Recovered? && !m.pc.recovery.projected && m.pc.outcome == Answer(turn)
    ensures ApplyInv(RestoreAnswer(m, m.pc.recovery, turn, jobs))
  {
    RecoveryIsCurrent(m);
    AnswerableStep(m);
    hide Inv, OnceInv, DurableApply, WithoutCalls, ProjectedAnswer;
    var s := ProjectTurn(m.session, turn);
    if turn.calls == [] {
      ProjectedIsApplied(m.session, turn);
      ToolFreeAnswer(m, s, turn, jobs);
    } else {
      FreshBatch(RestoreAnswer(m, m.pc.recovery, turn, jobs).session.core, turn);
    }
  }

  /** A recovered or answered step has been allocated, and its call is known to be settled. */
  lemma AnswerableStep(m: Machine)
    requires Inv(m) && OnceInv(m, false)
    requires (m.pc.Recovered? && !m.pc.recovery.projected) || (m.pc.Answered? && !m.pc.projected)
    ensures m.session.core.step >= 1 && CurrentSettled(m.session.core.step, m.session.core.invocation)
  {
    hide BillsOk, BooksOk, DurableOk, OnceCore, DurableOnce, Applied;
  }

  /** The batch in the log is the stored answer. */
  lemma BatchIsStored(core: Core, journal: Journal, turn: Turn)
    requires OnceCore(core, journal, false) && BatchLog(core)
    requires journal[core.step].outcome == Answer(turn)
    ensures LastTurn(core) == turn && turn.calls != []
  {
  }

  lemma RestoreProjectedAnswer(m: Machine, turn: Turn, jobs: bool)
    requires Inv(m) && OnceInv(m, false) && ApplyInv(m)
    requires m.pc.Recovered? && m.pc.recovery.projected && m.pc.outcome == Answer(turn)
    ensures ApplyInv(RestoreAnswer(m, m.pc.recovery, turn, jobs))
  {
    hide Inv, OnceCore, DurableOnce, DurableApply, FailRun, BatchLog;
    StoredBatch(m, turn);
    FailSteps(m, m.session, NoCode);
  }

  lemma StoredBatch(m: Machine, turn: Turn)
    requires OnceInv(m, false) && ApplyInv(m)
    requires m.pc.Recovered? && m.pc.recovery.projected && m.pc.outcome == Answer(turn)
    ensures BatchLog(m.session.core) && LastTurn(m.session.core) == turn && turn.calls != []
  {
    hide OnceCore, DurableOnce, DurableApply, BatchLog;
    BatchIsStored(m.session.core, m.journal, turn);
  }

  lemma RecoveredApplies(m: Machine, e: Event)
    requires Inv(m) && OnceInv(m, false) && ApplyInv(m) && m.pc.Recovered?
    ensures ApplyInv(FromRecovered(m, e))
  {
    hide Inv, OnceInv, DurableApply, HaltRun, RestoreAnswer, RestoreRefusal, BatchLog;
    match e
    case Halt(stop) =>
      if m.session.callsPending {
        BatchHalts(m, m.session, stop);
      } else {
        OpenHalts(m, m.session, stop);
      }
    case Proceed(jobs) =>
      match m.pc.outcome {
        case Refused(recoverable, _) => RefusalApplies(m, recoverable);
        case Answer(turn) =>
          if m.pc.recovery.projected {
            RestoreProjectedAnswer(m, turn, jobs);
          } else {
            RestoreFreshAnswer(m, turn, jobs);
          }
      }
    case _ =>
  }

  // ---------- From the loop head to the provider ----------

  lemma ReplayingApplies(m: Machine, e: Event)
    requires Inv(m) && OnceInv(m, false) && ApplyInv(m) && m.pc.Replaying?
    ensures ApplyInv(FromReplaying(m, e))
  {
    hide OnceCore, DurableOnce, LedgerOk, BooksOk, DurableOk, BatchLog, LimitRun, ObservationMessages, Applied;
    if m.session.core.replays != [] {
      PumpingFacts(m);
    } else if e.Prepare? {
      match m.pc.mode {
        case Fresh(resumed) =>
          LimitSteps(m, ClearObservations(AppendObservations(AppendInput(m.session))));
        case Projected(turn) =>
          InputFollowsTheAnswer(m.session, turn);
      }
    }
  }

  /** A pending input goes into the log behind the answer whose calls are about to run. */
  lemma InputFollowsTheAnswer(s: Session, turn: Turn)
    requires ProjectedAnswer(s.core, turn)
    ensures var core := AppendInput(s).core; ProjectedAnswer(core, turn) && core.input.None?
  {
  }

  lemma LimitSteps(m: Machine, s: Session)
    requires !s.callsPending
    ensures Steps(m, LimitRun(m, s, SizeLimit))
  {
    SettleSteps(m, s.(core := s.core.(status := Limited, code := SizeLimit)), LimitedPark, SizeLimit);
  }

  lemma HandlingApplies(m: Machine, e: Event)
    requires Inv(m) && ApplyInv(m) && m.pc.Handling?
    ensures ApplyInv(FromHandling(m, e))
  {
    hide DurableApply, HaltRun, LedgerOk, BooksOk, DurableOk, BatchLog;
    if e.Halt? {
      OpenHalts(m, m.session, e.stop);
    }
  }

  // ---------- The paid call ----------

  lemma AccountKeepsInput(s: Session, step: nat, receipt: Usage)
    ensures var r := Account(s, step, receipt, map[]);
      r.Some? ==> r.value.callsPending == s.callsPending && r.value.core.input == s.core.input && r.value.suspension == s.suspension
  {
    hide Covers, DeltaOf, Sum;
  }

  lemma DeliverApplies(m: Machine, s: Session, entry: Entry)
    requires entry.Settled? && !s.callsPending && s.core.input.None?
    ensures Steps(m, Deliver(m, s, entry)) && Steps(m, AwaitEvidence(m, s, entry))
  {
    hide Account, FailRun, FailTurn, BatchLog;
    AccountKeepsInput(s, s.core.step, entry.receipt);
    FailSteps(m, s, NoCode);
    var r := Account(s, s.core.step, entry.receipt, map[]);
    if r.Some? {
      FailSteps(m, r.value, NoCode);
      FailSteps(m, r.value, EvidenceUncommitted);
    }
  }

  lemma PreemptApplies(m: Machine, head: Entry, spent: Usage, stop: Stop)
    requires !m.session.callsPending && m.session.core.input.None?
    ensures Steps(m, PreemptCall(m, head, spent, stop))
  {
    hide Account, FailRun, HaltRun, BatchLog;
    var s := Observe(m.session, m.session.core.step, head);
    AccountKeepsInput(s, s.core.step, spent);
    FailSteps(m, s, NoCode);
    var r := Account(s, s.core.step, spent, map[]);
    if r.Some? {
      OpenHalts(m, r.value, stop);
    }
  }

  lemma RefuseApplies(m: Machine, step: nat, head: Entry)
    ensures Steps(m, RefuseProbe(m, step, head))
  {
    hide BatchLog;
  }

  lemma ReserveApplies(m: Machine, request: Request, resumed: bool, halt: Option<Stop>)
    requires ApplyInv(m) && m.pc.Requesting?
    ensures Steps(m, ReserveDispatch(m, request, resumed, halt))
  {
    hide BatchLog, HaltRun;
    if halt.Some? {
      OpenHalts(m, m.session, halt.value);
    }
  }

  lemma ReuseApplies(m: Machine, entry: Entry, halt: Option<Stop>, again: bool)
    requires ApplyInv(m) && m.pc.Requesting? && entry.Settled?
    ensures Steps(m, ReuseSettled(m, entry, halt, again))
    ensures Steps(m, AwaitEvidence(m, Observe(m.session, m.session.core.step, entry), entry))
  {
    hide BatchLog, HaltRun, Deliver, AwaitEvidence;
    var s := Observe(m.session, m.session.core.step, entry);
    DeliverApplies(m, s, entry);
    if halt.Some? {
      OpenHalts(m, s, halt.value);
    }
  }

  lemma RequestingApplies(m: Machine, e: Event)
    requires ApplyInv(m) && m.pc.Requesting?
    ensures ApplyInv(FromRequesting(m, e))
  {
    hide DurableApply, ReserveDispatch, RefuseProbe, AwaitEvidence, ReuseSettled;
    var step, request := m.session.core.step, m.pc.request;
    if e.Probe? {
      ReserveApplies(m, request, m.pc.resumed, e.halt);
      if step in m.journal {
        var head := m.journal[step];
        RefuseApplies(m, step, head);
        RefuseApplies(m, step, Unknown(request, head.attempt));
        if head.Settled? {
          ReuseApplies(m, head, e.halt, e.again);
        }
      }
    }
  }

  lemma CallApplies(m: Machine, e: Event)
    requires ApplyInv(m) && (m.pc.Ready? || m.pc.Backoff?)
    ensures m.pc.Ready? ==> ApplyInv(FromReady(m, e))
    ensures m.pc.Backoff? ==> ApplyInv(FromBackoff(m, e))
  {
    hide DurableApply, PreemptCall;
    if e.Halt? {
      if m.pc.Ready? {
        PreemptApplies(m, Reserved(m.pc.request, m.pc.attempt), m.pc.spent, e.stop);
      } else if m.session.core.step in m.journal {
        PreemptApplies(m, m.journal[m.session.core.step], m.pc.spent, e.stop);
      }
    }
  }

  lemma SettleApplies(m: Machine, usage: Usage, outcome: Outcome, evidenceOk: bool, again: bool)
    requires ApplyInv(m) && m.pc.InFlight?
    ensures ApplyInv(SettleDispatch(m, usage, outcome, evidenceOk, again))
  {
    hide DurableApply, Deliver, AwaitEvidence, Sum, MayRetry;
    var step, entry := m.session.core.step, Settled(m.pc.request, m.pc.attempt, Sum(m.pc.spent, usage), outcome);
    DeliverApplies(EndAttempt(m, entry, usage), Observe(m.session, step, entry), entry);
  }

  lemma LoseApplies(m: Machine, loss: Loss)
    requires OnceInv(m, false) && ApplyInv(m) && m.pc.InFlight?
    ensures ApplyInv(LoseDispatch(m, loss))
  {
    NoObservation(m, false);
    hide OnceInv, DurableApply, FailRun, Account, Sum;
    var step, head, spent := m.session.core.step, LostHead(m.pc, loss), Sum(m.pc.spent, loss.usage);
    var ended, s := EndAttempt(m, head, loss.usage), Observe(m.session, step, head);
    FailSteps(ended, s, NoCode);
    AccountKeepsInput(s, step, spent);
    var r := Account(s, step, spent, map[]);
    if r.Some? {
      FailSteps(ended, r.value, NoCode);
    }
  }

  lemma InFlightApplies(m: Machine, e: Event)
    requires OnceInv(m, false) && ApplyInv(m) && m.pc.InFlight?
    ensures ApplyInv(FromInFlight(m, e))
  {
    hide OnceInv, ApplyInv, SettleDispatch, LoseDispatch, WellFormed;
    match e
    case Settle(usage, outcome, evidenceOk, again) => SettleApplies(m, usage, outcome, evidenceOk, again);
    case Lose(loss) => LoseApplies(m, loss);
    case _ =>
  }

  // ---------- Applying the answer ----------

  lemma AnsweredApplies(m: Machine, e: Event)
    requires Inv(m) && OnceInv(m, false) && ApplyInv(m) && m.pc.Answered?
    ensures ApplyInv(FromAnswered(m, e))
  {
    if !m.pc.projected {
      AnswerableStep(m);
    }
    hide Inv, OnceInv, DurableApply, HaltRun, WithoutCalls;
    match e
    case Halt(stop) =>
      if m.pc.projected {
        BatchHalts(m, m.session, stop);
      } else {
        OpenHalts(m, m.session, stop);
      }
    case Proceed(jobs) =>
      hide BatchAt, CompletedCalls, ProjectedAnswer;
      AnswerStarts(m, jobs);
    case _ =>
  }

  /** The answer's calls are about to run: nothing is completed, or what an earlier round completed. */
  lemma AnswerStarts(m: Machine, jobs: bool)
    requires ApplyInv(m) && m.pc.Answered?
    requires !m.pc.projected ==> m.session.core.step >= 1 && CurrentSettled(m.session.core.step, m.session.core.invocation)
    ensures ApplyInv(FromAnswered(m, Proceed(jobs)))
  {
    hide DurableApply, WithoutCalls, BatchAt, CompletedCalls;
    var turn, m' := m.pc.turn, FromAnswered(m, Proceed(jobs));
    if turn.calls == [] {
      ProjectedIsApplied(m.session, turn);
      ToolFreeAnswer(m, ProjectTurn(m.session, turn), turn, jobs);
    } else if m.pc.projected {
      ResumedBatch(m.session.core, turn);
    } else {
      FreshBatch(m'.session.core, turn);
    }
  }

  lemma EndBatchApplies(m: Machine, s: Session, turn: Turn)
    requires BatchLog(s.core) && !s.core.code.EvidenceUncommitted?
    ensures Steps(m, EndBatch(m, s, turn))
  {
    hide Progress, SettleRun;
    SettleSteps(m, s.(callsPending := false), LimitedPark, s.core.code);
  }

  /** Counting calls and setting outcomes move nothing of the batch. */
  lemma SameBatch(core: Core, core': Core)
    requires BatchRuns(core)
    requires core' == core.(toolCalls := core'.toolCalls, status := core'.status, code := core'.code)
    ensures BatchRuns(core') && LastTurn(core') == LastTurn(core)
  {
  }

  lemma BatchApplies(m: Machine, e: Event)
    requires OnceInv(m, false) && ApplyInv(m) && m.pc.Batch?
    ensures ApplyInv(FromBatch(m, e))
  {
    hide OnceInv, DurableApply, EndBatch, HaltRun, Progress, EndsInBatch, LastTurn, CurrentSettled;
    CodeIsPlain(m);
    var s, turn, next := m.session, m.pc.turn, m.pc.next;
    if e.Halt? {
      BatchHalts(m, s, e.stop);
    } else if e.Go? {
      var counted := s.(core := s.core.(toolCalls := s.core.toolCalls + 1));
      var limited := counted.(core := counted.core.(status := Limited, code := MaxToolCalls));
      SameBatch(s.core, counted.core);
      SameBatch(s.core, limited.core);
      EndBatchApplies(m, s, turn);
      EndBatchApplies(m, limited, turn);
    }
  }

  lemma CodeIsPlain(m: Machine)
    requires OnceInv(m, false) && !m.pc.Down?
    ensures !m.session.core.code.EvidenceUncommitted?
  {
    hide LogOk, DurableOnce, PcOnce;
  }

  lemma CallingApplies(m: Machine, e: Event)
    requires ApplyInv(m) && (m.pc.Calling? || m.pc.Returned?)
    ensures m.pc.Calling? ==> ApplyInv(FromCalling(m, e))
    ensures m.pc.Returned? ==> ApplyInv(FromReturned(m, e))
  {
    hide DurableApply, HaltRun;
    if e.Halt? {
      BatchHalts(m, m.session, e.stop);
    }
  }

  // ---------- Settling ----------

  lemma LogFinishFrame(s: Session, fromFinish: bool)
    ensures LogFinish(s, fromFinish).callsPending == s.callsPending
  {
    hide ObservationMessages;
  }

  lemma DecidedApplies(m: Machine, s: Session, fromFinish: bool, reason: Reason, code: Code)
    requires !s.callsPending && !reason.InterruptedPark? && !code.EvidenceUncommitted?
    ensures Steps(m, SettleRun(m, LogFinish(s, fromFinish), reason, code))
  {
    LogFinishFrame(s, fromFinish);
    SettleSteps(m, LogFinish(s, fromFinish), reason, code);
    hide *;
  }

  lemma DecidingApplies(m: Machine, e: Event)
    requires ApplyInv(m) && m.pc.Deciding?
    ensures ApplyInv(FromDeciding(m, e))
  {
    hide DurableApply, HaltRun, FailRun, SettleRun, LogFinish, BatchLog;
    var s, fromFinish := m.session, m.pc.fromFinish;
    if e.Halt? {
      OpenHalts(m, s, e.stop);
    } else if e.Decide? {
      FailSteps(m, s, NoCode);
      DecidedApplies(m, WithOutcome(s, Failed, OutputRefused), fromFinish, SettledPark, OutputRefused);
      DecidedApplies(m, WithOutcome(s, Limited, OutputTruncated), fromFinish, LimitedPark, OutputTruncated);
      DecidedApplies(m, s, fromFinish, SettledPark, NoCode);
      DecidedApplies(m, DropFinish(WithOutcome(RecordFailure(s), Limited, ValidatorUnsatisfied), fromFinish), fromFinish,
                     LimitedPark, ValidatorUnsatisfied);
      var recorded := RecordFailure(s);
      LogFinishFrame(DropFinish(recorded.(core := recorded.core.(retries := recorded.core.retries + 1)), fromFinish), fromFinish);
    }
  }

  // ---------- Parks, reports, restores ----------

  /** A park that is neither committed nor declined leaves no observation, and no pending calls to forget. */
  lemma ParkingApplies(m: Machine, e: Event)
    requires OnceInv(m, false) && ApplyInv(m) && m.pc.Parking? && BatchParksHold(m, e)
    ensures ApplyInv(FromParking(m, e))
  {
    NoObservation(m, false);
    hide OnceInv, BatchRuns;
  }

  lemma ReportApplies(m: Machine, task: Task, persist: Option<Commit>)
    requires OnceInv(m, false) && ApplyInv(m) && !m.pc.Down?
    requires persist.Some? ==> AtQuiescentPark(m.session)
    ensures ApplyInv(Reported(m, task, persist))
  {
    if !m.pc.Idle? {
      NoObservation(m, false);
    }
    hide TaskIds, Progress, CurrentSettled, BatchAt, DistinctCalls, OnceInv;
  }

  lemma NextApplies(m: Machine, e: Event)
    requires Inv(m) && OnceInv(m, false) && ApplyInv(m) && Orderly(m, e)
    ensures ApplyInv(Next(m, e))
  {
    hide FromIdle, FromTop, FromRecovering, FromRecovered, FromReplaying, FromHandling, FromRequesting, FromReady,
         FromInFlight, FromBackoff, FromAnswered, FromBatch, FromCalling, FromReturned, FromDeciding, Reported,
         FromParking, Inv, OnceInv, PumpOk, ParkOk, StopsSeeTheAnswer, BatchEvidenceHolds;
    if !m.pc.Down? && !e.Crash? {
      hide ApplyInv;
      if e.Report? {
        ReportApplies(m, e.task, e.persist);
      } else {
        match m.pc
        case Idle => IdleApplies(m, e);
        case Top => TopApplies(m, e);
        case Recovering(_) => RecoveringApplies(m, e);
        case Recovered(_, _, _) => RecoveredApplies(m, e);
        case Replaying(_) => ReplayingApplies(m, e);
        case Handling(_, _) => HandlingApplies(m, e);
        case Requesting(_, _) => RequestingApplies(m, e);
        case Ready(_, _, _) => CallApplies(m, e);
        case Backoff(_, _, _, _) => CallApplies(m, e);
        case InFlight(_, _, _) => InFlightApplies(m, e);
        case Answered(_, _) => AnsweredApplies(m, e);
        case Batch(_, _, _) => BatchApplies(m, e);
        case Calling(_, _, _) => CallingApplies(m, e);
        case Returned(_, _, _) => CallingApplies(m, e);
        case Deciding(_, _) => DecidingApplies(m, e);
        case Parking(_) => ParkingApplies(m, e);
      }
    }
  }

  // ---------- Runs ----------

  /** Everything an orderly event keeps. */
  ghost predicate OrderlyInv(m: Machine) {
    CarefulInv(m, false) && ApplyInv(m)
  }

  lemma NextIsOrderly(m: Machine, e: Event)
    requires OrderlyInv(m) && Orderly(m, e)
    ensures OrderlyInv(Next(m, e))
  {
    hide Inv, Next, ApplyInv, OnceInv, JournalInv, ReportsAtPark, BatchParksHold, BatchEvidenceHolds, StopsSeeTheAnswer;
    NextKeeps(m, e);
    NextAdvances(m, e);
    NextIsOnce(m, e, false);
    NextApplies(m, e);
  }

  lemma {:induction false} StaysOrderly(m: Machine, events: seq<Event>)
    requires OrderlyInv(m) && Allowed(Orderly, m, events)
    ensures OrderlyInv(Run(m, events))
  {
    hide OrderlyInv, Orderly, Next, Allowed;
    if events == [] {
    } else {
      var before := events[..|events| - 1];
      AllowedPrefix(Orderly, m, events);
      StaysOrderly(m, before);
      NextIsOrderly(Run(m, before), events[|events| - 1]);
    }
  }

  lemma StartsOrderly(config: Config)
    ensures OrderlyInv(Initial(config))
  {
    StartsOnce(config, false);
  }

  lemma RunApplies(config: Config, events: seq<Event>)
    requires Allowed(Orderly, Initial(config), events)
    ensures OrderlyInv(Run(Initial(config), events))
  {
    hide OrderlyInv, Allowed, Run;
    StartsOrderly(config);
    StaysOrderly(Initial(config), events);
  }

  // ---------- Main results ----------

  /** A paid answer the log lacks is offered again by an interrupted or evidence park, exactly when the
      log does not already end in an answer. */
  lemma StrandedAnswer(s: Session)
    requires IdleOk(s) && !s.core.terminal && s.suspension.Some?
    requires s.suspension.value.reason.InterruptedPark? || s.suspension.value.code.EvidenceUncommitted?
    requires s.core.step >= 1 && CurrentSettled(s.core.step, s.core.invocation) && !Applied(s.core.messages, s.core.step)
    ensures EvidenceRecovery(s).Some? <==> !LastIsAnswer(s.core.messages)
  {
    hide Progress;
  }

  /** What a batch has produced: one output a call, in order, from the first call on. */
  ghost predicate OutputsOf(step: nat, turn: Turn, count: nat, observations: seq<Observation>) {
    && |observations| == count <= |turn.calls|
    && (forall i :: 0 <= i < count ==>
          observations[i].key == CallOutput(step, turn.calls[i].id) && observations[i].name == turn.calls[i].name)
  }

  /** The batch program points, read off the invariant. */
  lemma BatchOutputs(m: Machine)
    requires ApplyInv(m)
    ensures m.pc.Calling? ==>
      m.pc.next < |m.pc.turn.calls| && OutputsOf(m.session.core.step, m.pc.turn, m.pc.next, m.session.core.observations)
    ensures m.pc.Batch? ==>
      OutputsOf(m.session.core.step, m.pc.turn, |m.session.core.observations|, m.session.core.observations)
    ensures m.pc.Batch? && (m.pc.next >= |m.pc.turn.calls| || m.pc.turn.calls[m.pc.next].id !in m.pc.done) ==>
      |m.session.core.observations| == if m.pc.next >= |m.pc.turn.calls| then |m.pc.turn.calls| else m.pc.next
  {
    hide DurableApply, CurrentSettled;
  }

  lemma ParkedOutputs(s: Session)
    requires IdleOk(s) && !s.core.terminal && s.callsPending
    ensures EndsInBatch(s.core) && OutputsOf(s.core.step, LastTurn(s.core), |s.core.observations|, s.core.observations)
  {
  }

  /**
   The tool batch across stops: a call starts only when exactly the calls before it have outputs, so
   none of them runs again; the batch is over when every call has one output, in order.
   */
  lemma BatchRunsEachCallOnce(config: Config, events: seq<Event>)
    requires Allowed(Orderly, Initial(config), events)
    ensures var m := Run(Initial(config), events);
      && (m.pc.Calling? ==> OutputsOf(m.session.core.step, m.pc.turn, m.pc.next, m.session.core.observations))
      && (m.pc.Batch? && m.pc.next >= |m.pc.turn.calls| ==>
            OutputsOf(m.session.core.step, m.pc.turn, |m.pc.turn.calls|, m.session.core.observations))
  {
    RunApplies(config, events);
    BatchOutputs(Run(Initial(config), events));
    hide *;
  }

  /** Between rounds, what a parked batch keeps is the outputs of a prefix of its calls. */
  lemma ParkedBatchIsAPrefix(config: Config, events: seq<Event>)
    requires Allowed(Orderly, Initial(config), events)
    requires var m := Run(Initial(config), events); m.pc.Idle? && !m.session.core.terminal && m.session.callsPending
    ensures var core := Run(Initial(config), events).session.core;
      EndsInBatch(core) && OutputsOf(core.step, LastTurn(core), |core.observations|, core.observations)
  {
    RunApplies(config, events);
    var m := Run(Initial(config), events);
    assert IdleOk(m.session) by {
      hide Run, Inv, JournalInv, OnceInv, DurableApply, IdleOk;
    }
    ParkedOutputs(m.session);
    hide *;
  }

  /** With distinct call identifiers, the call about to run has no output yet. */
  lemma CompletedCallsAreNotRerun(config: Config, events: seq<Event>, i: nat)
    requires Allowed(Orderly, Initial(config), events)
    requires var m := Run(Initial(config), events);
      && m.pc.Calling? && DistinctCalls(m.pc.turn) && i < |m.session.core.observations|
    ensures var m := Run(Initial(config), events);
      && m.pc.next < |m.pc.turn.calls|
      && m.session.core.observations[i].key != CallOutput(m.session.core.step, m.pc.turn.calls[m.pc.next].id)
  {
    RunApplies(config, events);
    BatchOutputs(Run(Initial(config), events));
    hide Run, Allowed, Inv, ApplyInv, JournalInv;
  }

  lemma LimitKeepsOutputs(m: Machine)
    requires ApplyInv(m) && m.pc.Batch? && m.pc.next < |m.pc.turn.calls| && m.pc.turn.calls[m.pc.next].id !in m.pc.done
    requires m.session.core.toolCalls + 1 > m.config.maxToolCalls
    ensures var m' := FromBatch(m, Go);
      && !m'.pc.Calling? && m'.session.core.observations == m.session.core.observations
      && OutputsOf(m.session.core.step, m.pc.turn, m.pc.next, m.session.core.observations)
  {
    BatchOutputs(m);
    hide ApplyInv, OutputsOf;
  }

  /** At the tool-call limit the batch ends where it stands: the outputs are those before the limit. */
  lemma LimitedBatchIsAPrefix(config: Config, events: seq<Event>)
    requires Allowed(Orderly, Initial(config), events)
    requires var m := Run(Initial(config), events);
      && m.pc.Batch? && m.pc.next < |m.pc.turn.calls| && m.pc.turn.calls[m.pc.next].id !in m.pc.done
      && m.session.core.toolCalls + 1 > m.config.maxToolCalls
    ensures var m := Run(Initial(config), events);
      var m' := FromBatch(m, Go);
      && !m'.pc.Calling? && m'.session.core.observations == m.session.core.observations
      && OutputsOf(m.session.core.step, m.pc.turn, m.pc.next, m'.session.core.observations)
  {
    RunApplies(config, events);
    LimitKeepsOutputs(Run(Initial(config), events));
    hide *;
  }

  // ---------- How a batch ends ----------

  predicate InBatch(pc: Pc, turn: Turn) {
    (pc.Batch? || pc.Calling? || pc.Returned?) && pc.turn == turn
  }

  /** Within a batch a finish is not taken back. */
  lemma FinishIsKept(m: Machine, e: Event, turn: Turn)
    requires InBatch(m.pc, turn) && InBatch(Next(m, e).pc, turn) && m.session.core.finish
    ensures Next(m, e).session.core.finish
  {
    hide FromBatch, FromCalling, FromReturned, Reported;
    if e.Report? {
      ReportKeepsFinish(m, e.task, e.persist);
    } else if m.pc.Batch? && InBatch(FromBatch(m, e).pc, turn) {
      BatchKeepsFinish(m, e);
    } else if m.pc.Calling? && InBatch(FromCalling(m, e).pc, turn) {
      CallKeepsFinish(m, e);
    } else if m.pc.Returned? && InBatch(FromReturned(m, e).pc, turn) {
      ReturnKeepsFinish(m, e);
    }
  }

  lemma CallKeepsFinish(m: Machine, e: Event)
    requires m.pc.Calling? && InBatch(FromCalling(m, e).pc, m.pc.turn) && m.session.core.finish
    ensures FromCalling(m, e).session.core.finish
  {
    hide Unapplied;
  }

  lemma ReturnKeepsFinish(m: Machine, e: Event)
    requires m.pc.Returned? && InBatch(FromReturned(m, e).pc, m.pc.turn)
    ensures FromReturned(m, e).session.core.finish == m.session.core.finish
  {
    hide Unapplied;
  }

  lemma ReportKeepsFinish(m: Machine, task: Task, persist: Option<Commit>)
    ensures Reported(m, task, persist).session.core.finish == m.session.core.finish
  {
    hide TaskIds;
  }

  lemma BatchKeepsFinish(m: Machine, e: Event)
    requires m.pc.Batch? && InBatch(FromBatch(m, e).pc, m.pc.turn)
    ensures FromBatch(m, e).session.core.finish == m.session.core.finish
  {
    hide EndBatch, HaltRun;
    if e.Halt? {
      StopLeavesTheBatch(m, e.stop);
    }
    var s := m.session;
    EndLeavesTheBatch(m, s);
    EndLeavesTheBatch(m, s.(core := s.core.(toolCalls := s.core.toolCalls + 1, status := Limited, code := MaxToolCalls)));
  }

  lemma StopLeavesTheBatch(m: Machine, stop: Stop)
    ensures HaltRun(m, m.session, stop).pc.Parking?
  {
    hide Unapplied;
  }

  lemma EndLeavesTheBatch(m: Machine, s: Session)
    requires m.pc.Batch?
    ensures !InBatch(EndBatch(m, s, m.pc.turn).pc, m.pc.turn)
  {
  }

  lemma {:induction false} FinishStays(m: Machine, events: seq<Event>, turn: Turn)
    requires m.session.core.finish && forall i :: 0 <= i <= |events| ==> InBatch(Run(m, events[..i]).pc, turn)
    ensures Run(m, events).session.core.finish
  {
    hide Next;
    if events == [] {
      assert Run(m, events) == m;
    } else {
      var before := events[..|events| - 1];
      forall i | 0 <= i <= |before|
        ensures InBatch(Run(m, before[..i]).pc, turn)
      {
        assert before[..i] == events[..i];
      }
      FinishStays(m, before, turn);
      assert before[..|before|] == before && events[..|events|] == events && events[..|before|] == before;
      FinishIsKept(Run(m, before), events[|events| - 1], turn);
    }
  }

  /**
   A call that finishes the run is heeded: however the rest of its batch goes, when the batch ends, by running
   every call or at the tool-call budget, the turn goes to its decision, as a finish.
  */
  lemma FinishIsHeeded(m: Machine, output: nat, events: seq<Event>)
    requires m.pc.Calling? && m.pc.next < |m.pc.turn.calls|
    requires var start := Next(m, Complete(output, true));
      forall i :: 0 <= i <= |events| ==> InBatch(Run(start, events[..i]).pc, m.pc.turn)
    ensures var last := Run(Next(m, Complete(output, true)), events);
      && last.session.core.finish
      && (last.pc.Batch? && !Next(last, Go).pc.Batch? && !Next(last, Go).pc.Calling? ==> Next(last, Go).pc == Deciding(m.pc.turn, true))
  {
    hide Next;
    FinishBegins(m, output);
    var start := Next(m, Complete(output, true));
    FinishStays(start, events, m.pc.turn);
    var last := Run(start, events);
    assert events[..|events|] == events && InBatch(last.pc, m.pc.turn);
    hide Run;
    if last.pc.Batch? {
      FinishDecides(last);
    }
  }

  lemma FinishBegins(m: Machine, output: nat)
    requires m.pc.Calling? && m.pc.next < |m.pc.turn.calls|
    ensures Next(m, Complete(output, true)).session.core.finish
  {
  }

  lemma FinishDecides(m: Machine)
    requires m.pc.Batch? && m.session.core.finish
    ensures var m' := Next(m, Go); m'.pc.Batch? || m'.pc.Calling? || m'.pc == Deciding(m.pc.turn, true)
  {
  }

  /** The budget is exact: the next call starts iff fewer than the budget were counted; else the batch ends there. */
  lemma CallStartsIff(m: Machine)
    requires m.pc.Batch? && m.pc.next < |m.pc.turn.calls| && m.pc.turn.calls[m.pc.next].id !in m.pc.done
    ensures var core, m' := m.session.core, Next(m, Go);
      && (m'.pc.Calling? <==> core.toolCalls < m.config.maxToolCalls)
      && m'.session.core.toolCalls == core.toolCalls + 1 && m'.session.core.observations == core.observations
      && (!m'.pc.Calling? && !core.finish ==>
            m'.pc == Parking(Suspension(LimitedPark, MaxToolCalls, false)) && m'.session.core.terminal)
  {
  }
}
