/**
 Applying paid answers over whole runs, whatever becomes of the commits of their parks: each step adds at
 most one assistant message to the log, that message is the step's settled and charged outcome, and no
 recovery is offered to apply an answer that the log already has.
*/
module RunOnce {
  import opened Wrappers
  import opened Usage
  import opened RunModel
  import opened RunDispatch
  import opened RunBilling

  // ---------- The log ----------

  ghost predicate Applied(messages: seq<Message>, step: nat) {
    exists i :: 0 <= i < |messages| && messages[i].AssistantMessage? && messages[i].step == step
  }

  ghost predicate Charged(step: nat, bills: seq<Bill>, journal: Journal) {
    && SettledAt(journal, step)
    && (journal[step].receipt != map[] ==> exists i :: 0 <= i < |bills| && bills[i].step == step)
  }

  /** One assistant message a step, in step order, each the settled (and charged) answer of its step. */
  ghost predicate LogOk(messages: seq<Message>, step: nat, bills: seq<Bill>, journal: Journal, paid: bool) {
    && (forall i, j :: 0 <= i < j < |messages| && messages[i].AssistantMessage? && messages[j].AssistantMessage? ==>
          messages[i].step < messages[j].step)
    && (forall i :: 0 <= i < |messages| && messages[i].AssistantMessage? ==>
          && messages[i].step <= step
          && SettledAt(journal, messages[i].step)
          && journal[messages[i].step].outcome == Answer(messages[i].turn)
          && (paid ==> Charged(messages[i].step, bills, journal)))
  }

  predicate LastIsAnswer(messages: seq<Message>) {
    messages != [] && messages[|messages| - 1].AssistantMessage?
  }

  // ---------- Invariant ----------

  ghost predicate OnceCore(core: Core, journal: Journal, paid: bool) {
    && LogOk(core.messages, core.step, core.bills, journal, paid)
    && !core.code.EvidenceUncommitted?
    && (paid && CurrentSettled(core.step, core.invocation) && !core.terminal ==>
          Charged(core.step, core.bills, journal))
  }

  ghost predicate Unanswered(core: Core) {
    core.step >= 1 && !Applied(core.messages, core.step)
  }

  /** The current step's call is settled, and the log does not end in an answer. */
  ghost predicate MayOffer(core: Core) {
    core.step >= 1 && CurrentSettled(core.step, core.invocation) && !LastIsAnswer(core.messages)
  }

  /** What a park owes the recovery decision of the next activation. */
  ghost predicate ParkOnce(core: Core, suspension: Suspension) {
    && (suspension.code.EvidenceUncommitted? ==> Unanswered(core))
    && (suspension.callsPending ==> suspension.reason.InterruptedPark?)
    && (suspension.reason.InterruptedPark? && !suspension.callsPending && MayOffer(core) ==> Unanswered(core))
  }

  /** A live session agrees with the observation it was parked with on whether calls are pending. */
  predicate PendingAgrees(s: Session, suspension: Suspension) {
    && (suspension.callsPending ==> s.callsPending)
    && (suspension.reason.InterruptedPark? ==> s.callsPending == suspension.callsPending)
  }

  ghost predicate IdleOnce(s: Session) {
    && (!s.core.terminal && s.suspension.Some? ==>
          ParkOnce(s.core, s.suspension.value) && PendingAgrees(s, s.suspension.value))
    && (s.resumeStep ==> Unanswered(s.core))
  }

  /** An answer is at hand for the current step and has not been projected. */
  ghost predicate AtHand(core: Core, turn: Turn, journal: Journal) {
    && Unanswered(core)
    && CurrentSettled(core.step, core.invocation)
    && SettledAt(journal, core.step) && journal[core.step].outcome == Answer(turn)
  }

  ghost predicate PumpOnce(m: Machine) {
    var s := m.session;
    match m.pc
    case Top => s.resumeStep ==> Unanswered(s.core)
    case Recovering(r) => if r.projected then s.callsPending else Unanswered(s.core)
    case Recovered(r, _, outcome) =>
      && (if r.projected then s.callsPending else Unanswered(s.core))
      && SettledAt(m.journal, s.core.step) && m.journal[s.core.step].outcome == outcome
    case Replaying(Projected(_)) => s.callsPending
    case Answered(turn, projected) => if projected then s.callsPending else AtHand(s.core, turn, m.journal)
    case Batch(_, _, _) => s.callsPending
    case Calling(_, _, _) => s.callsPending
    case Returned(_, _, _) => s.callsPending
    case Deciding(_, _) => true
    case _ => Unanswered(s.core)
  }

  ghost predicate PcOnce(m: Machine) {
    var s := m.session;
    if m.pc.Down? then true
    else if m.pc.Idle? then IdleOnce(s)
    else if m.pc.Parking? then
      s.suspension.None? && (!s.core.terminal ==> ParkOnce(s.core, m.pc.suspension) && PendingAgrees(s, m.pc.suspension))
    else s.suspension.None? && !s.core.terminal && PumpOnce(m)
  }

  ghost predicate DurableOnce(durable: Option<Checkpoint>, journal: Journal, paid: bool) {
    durable.Some? ==>
      && OnceCore(durable.value.core, journal, paid)
      && (durable.value.suspension.None? ==> Unanswered(durable.value.core))
      && (durable.value.suspension.Some? && !durable.value.core.terminal ==>
            ParkOnce(durable.value.core, durable.value.suspension.value))
  }

  ghost predicate OnceInv(m: Machine, paid: bool) {
    && DurableOnce(m.durable, m.journal, paid)
    && (!m.pc.Down? ==> OnceCore(m.session.core, m.journal, paid) && PcOnce(m))
  }

  // ---------- Hypotheses ----------

  /** The step's answer is in the log, is no longer last there, and no calls are pending to say so. */
  ghost predicate Buried(s: Session) {
    && s.core.step >= 1 && CurrentSettled(s.core.step, s.core.invocation)
    && Applied(s.core.messages, s.core.step) && !s.callsPending && !LastIsAnswer(s.core.messages)
  }

  /** No turn-level stop and no drain parks a session whose applied answer is buried. */
  ghost predicate StopsSeeTheAnswer(m: Machine, e: Event) {
    (m.pc.Top? || m.pc.Deciding?) && e.Halt? && !e.stop.RunStop? ==> !Buried(m.session)
  }

  /** Required evidence commits again when a half-finished batch is recovered. */
  predicate BatchEvidenceHolds(m: Machine, e: Event) {
    m.pc.Recovering? && m.pc.recovery.projected && e.Recover? && m.config.evidenceRequired ==> e.evidenceOk
  }

  ghost predicate Careful(m: Machine, e: Event) {
    ReportsAtPark(m, e) && StopsSeeTheAnswer(m, e) && BatchEvidenceHolds(m, e)
  }

  /** No boundary wins between finding a settled outcome in the journal and returning it. */
  predicate ReuseIsPaid(m: Machine, e: Event) {
    m.pc.Requesting? && e.Probe? && m.session.core.step in m.journal && m.journal[m.session.core.step].Settled? ==>
      e.halt.None?
  }

  // ---------- How the log changes ----------

  predicate Plain(messages: seq<Message>) {
    forall i :: 0 <= i < |messages| ==> !messages[i].AssistantMessage?
  }

  /** Inputs, observations and repairs never look like an answer. */
  lemma LogAppendsPlain(messages: seq<Message>, extra: seq<Message>, step: nat, bills: seq<Bill>, journal: Journal,
                        paid: bool)
    requires LogOk(messages, step, bills, journal, paid) && Plain(extra)
    ensures LogOk(messages + extra, step, bills, journal, paid)
  {
  }

  lemma PlainApplies(messages: seq<Message>, extra: seq<Message>, step: nat)
    requires Plain(extra)
    ensures Applied(messages + extra, step) <==> Applied(messages, step)
  {
    if i :| 0 <= i < |messages| && messages[i].AssistantMessage? && messages[i].step == step {
      assert (messages + extra)[i] == messages[i];
    }
  }

  lemma LogAppendsAnswer(messages: seq<Message>, step: nat, turn: Turn, bills: seq<Bill>, journal: Journal, paid: bool)
    requires LogOk(messages, step, bills, journal, paid) && !Applied(messages, step)
    requires SettledAt(journal, step) && journal[step].outcome == Answer(turn)
    requires paid ==> Charged(step, bills, journal)
    ensures LogOk(messages + [AssistantMessage(step, turn)], step, bills, journal, paid)
  {
    hide Charged, SettledAt;
  }

  lemma LogNextStep(messages: seq<Message>, step: nat, bills: seq<Bill>, journal: Journal, paid: bool)
    requires LogOk(messages, step, bills, journal, paid)
    ensures LogOk(messages, step + 1, bills, journal, paid) && !Applied(messages, step + 1)
  {
  }

  lemma LogChargesMore(messages: seq<Message>, step: nat, bills: seq<Bill>, more: seq<Bill>, journal: Journal, paid: bool)
    requires LogOk(messages, step, bills, journal, paid)
    ensures LogOk(messages, step, bills + more, journal, paid)
  {
    forall t | Charged(t, bills, journal)
      ensures Charged(t, bills + more, journal)
    {
      ChargedGrows(t, bills, more, journal);
    }
    hide Charged, SettledAt;
  }

  lemma ChargedGrows(step: nat, bills: seq<Bill>, more: seq<Bill>, journal: Journal)
    requires Charged(step, bills, journal)
    ensures Charged(step, bills + more, journal)
  {
    if journal[step].receipt != map[] {
      var i :| 0 <= i < |bills| && bills[i].step == step;
      assert (bills + more)[i] == bills[i];
    }
  }

  lemma LogStable(messages: seq<Message>, step: nat, bills: seq<Bill>, journal: Journal, after: Journal, paid: bool)
    requires LogOk(messages, step, bills, journal, paid) && Advances(journal, after)
    ensures LogOk(messages, step, bills, after, paid)
  {
    forall i | 0 <= i < |messages| && messages[i].AssistantMessage?
      ensures messages[i].step in after && after[messages[i].step] == journal[messages[i].step]
    {
      assert SettledAt(journal, messages[i].step);
      assert Moves(journal[messages[i].step], after[messages[i].step]);
    }
  }

  /** A core that does not know the open step's call as settled survives what moves there. */
  lemma CoreStable(core: Core, journal: Journal, after: Journal, step: nat, paid: bool)
    requires OnceCore(core, journal, paid) && Advances(journal, after)
    requires forall t :: t in journal && t != step ==> after[t] == journal[t]
    requires !(core.step == step && CurrentSettled(core.step, core.invocation))
    ensures OnceCore(core, after, paid)
  {
    hide LogOk;
    LogStable(core.messages, core.step, core.bills, journal, after, paid);
  }

  lemma JournalOnce(m: Machine, after: Journal, paid: bool)
    requires Inv(m) && OnceInv(m, paid) && !m.pc.Down? && Open(m.session.core) && Advances(m.journal, after)
    requires forall t :: t in m.journal && t != m.session.core.step ==> after[t] == m.journal[t]
    ensures OnceCore(m.session.core, after, paid) && DurableOnce(m.durable, after, paid)
  {
    hide OnceCore, PcOnce, Advances, ParkOnce, Unanswered, BooksOk, DurableOk, CoreOk, PcOk;
    var step := m.session.core.step;
    CoreStable(m.session.core, m.journal, after, step, paid);
    if m.durable.Some? {
      CoreStable(m.durable.value.core, m.journal, after, step, paid);
    }
  }

  // ---------- Frames and parks ----------

  /** The core fields the invariant reads. */
  predicate SameLog(before: Core, after: Core) {
    && after.messages == before.messages && after.step == before.step && after.bills == before.bills
    && after.invocation == before.invocation && (before.terminal ==> after.terminal)
    && (after.code == before.code || !after.code.EvidenceUncommitted?)
  }

  lemma SameLogKeeps(before: Core, after: Core, journal: Journal, paid: bool)
    requires OnceCore(before, journal, paid) && SameLog(before, after)
    ensures OnceCore(after, journal, paid)
  {
    hide LogOk, Charged;
  }

  /** A transition that neither logs, charges, learns nor commits. */
  ghost predicate Calm(m: Machine, m': Machine) {
    m'.journal == m.journal && m'.durable == m.durable && SameLog(m.session.core, m'.session.core)
  }

  lemma CalmKeeps(m: Machine, m': Machine, paid: bool)
    requires OnceInv(m, paid) && !m.pc.Down? && Calm(m, m') && PcOnce(m')
    ensures OnceInv(m', paid)
  {
    hide PcOnce, OnceCore, DurableOnce;
    SameLogKeeps(m.session.core, m'.session.core, m.journal, paid);
  }

  /** Once the core has been brought up to date, the rest of the transition is calm. */
  lemma Lands(m: Machine, core: Core, m': Machine, paid: bool)
    requires DurableOnce(m.durable, m.journal, paid) && OnceCore(core, m.journal, paid)
    requires m'.journal == m.journal && m'.durable == m.durable && SameLog(core, m'.session.core) && PcOnce(m')
    ensures OnceInv(m', paid)
  {
    hide OnceCore, DurableOnce, PcOnce;
    SameLogKeeps(core, m'.session.core, m.journal, paid);
  }

  lemma HaltParks(m: Machine, s: Session, stop: Stop)
    requires s.suspension.None?
    requires stop.RunStop? || ParkOnce(s.core, Suspension(InterruptedPark, NoCode, s.callsPending))
    ensures var m' := HaltRun(m, s, stop);
      && PcOnce(m') && SameLog(s.core, m'.session.core) && m'.journal == m.journal && m'.durable == m.durable
  {
    hide Unapplied, CurrentSettled, Applied;
  }

  lemma FailParks(m: Machine, s: Session, code: Code)
    requires s.suspension.None?
    ensures var m' := FailRun(m, s);
      && PcOnce(m') && SameLog(s.core, m'.session.core) && m'.journal == m.journal && m'.durable == m.durable
    ensures (code.EvidenceUncommitted? ==> Unanswered(s.core)) ==>
      var m' := FailTurn(m, s, code);
      && PcOnce(m') && SameLog(s.core, m'.session.core) && m'.journal == m.journal && m'.durable == m.durable
  {
    hide Applied, CurrentSettled;
  }

  lemma SettleParks(m: Machine, s: Session, reason: Reason, code: Code)
    requires s.suspension.None? && !reason.InterruptedPark? && !code.EvidenceUncommitted?
    ensures var m' := SettleRun(m, s, reason, code);
      && PcOnce(m') && SameLog(s.core, m'.session.core) && m'.journal == m.journal && m'.durable == m.durable
  {
    hide Applied, CurrentSettled;
  }

  predicate Running(pc: Pc) {
    !pc.Down? && !pc.Idle?
  }

  lemma NoObservation(m: Machine, paid: bool)
    requires OnceInv(m, paid) && Running(m.pc)
    ensures m.session.suspension.None?
  {
    hide OnceCore, DurableOnce, Applied;
  }

  lemma HaltOnce(m: Machine, stop: Stop, paid: bool)
    requires OnceInv(m, paid) && Running(m.pc)
    requires stop.RunStop? || Unanswered(m.session.core) || m.session.callsPending || !Buried(m.session)
    ensures OnceInv(HaltRun(m, m.session, stop), paid)
  {
    hide OnceCore, DurableOnce, HaltRun, Applied, PcOnce;
    NoObservation(m, paid);
    HaltParks(m, m.session, stop);
    CalmKeeps(m, HaltRun(m, m.session, stop), paid);
  }

  lemma FailOnce(m: Machine, code: Code, paid: bool)
    requires OnceInv(m, paid) && Running(m.pc)
    ensures OnceInv(FailRun(m, m.session), paid)
    ensures (code.EvidenceUncommitted? ==> Unanswered(m.session.core)) ==> OnceInv(FailTurn(m, m.session, code), paid)
  {
    hide OnceCore, DurableOnce, FailRun, FailTurn, Applied, PcOnce, Unanswered;
    NoObservation(m, paid);
    FailParks(m, m.session, code);
    CalmKeeps(m, FailRun(m, m.session), paid);
    if code.EvidenceUncommitted? ==> Unanswered(m.session.core) {
      CalmKeeps(m, FailTurn(m, m.session, code), paid);
    }
  }

  lemma FailsPark(m: Machine, s: Session, code: Code)
    ensures FailRun(m, s).pc.Parking? && FailTurn(m, s, code).pc.Parking?
  {
  }

  // ---------- Idle and the loop head ----------

  /** A recovery that would project an answer is offered only for one the log does not have. */
  lemma OfferIsUnapplied(s: Session)
    requires IdleOnce(s) && !s.core.terminal && EvidenceRecovery(s).Some?
    ensures if EvidenceRecovery(s).value.projected then s.callsPending else Unanswered(s.core)
  {
    hide Applied;
  }

  lemma IdleIsOnce(m: Machine, e: Event, paid: bool)
    requires OnceInv(m, paid) && m.pc.Idle?
    ensures OnceInv(FromIdle(m, e), paid)
  {
    hide OnceCore, DurableOnce, Applied, EvidenceRecovery, ParkOnce;
    if !m.session.core.terminal && EvidenceRecovery(m.session).Some? {
      OfferIsUnapplied(m.session);
    }
    CalmKeeps(m, FromIdle(m, e), paid);
  }

  lemma StepIsOnce(m: Machine, paid: bool)
    requires OnceInv(m, paid) && Inv(m) && m.pc.Top?
    ensures m.session.resumeStep ==> OnceInv(ResumeStep(m), paid)
    ensures !m.session.resumeStep ==> OnceInv(BeginStep(m), paid)
  {
    hide TaskObservations, ApprovedTasks, TaskIds, LogOk, DurableOnce, Applied, Charged, BillsOk, DurableOk, BooksOk;
    var core := m.session.core;
    if m.session.resumeStep {
      hide OnceCore;
      CalmKeeps(m, ResumeStep(m), paid);
    } else {
      LogNextStep(core.messages, core.step, core.bills, m.journal, paid);
      NotYetSettled(core, m.journal, m.spends);
    }
  }

  /** A newly allocated step is one that no bill, no logged answer and no checkpoint has. */
  lemma NewStepIsFresh(m: Machine)
    requires Inv(m) && OnceInv(m, false) && m.pc.Top? && !m.session.resumeStep
    ensures var core := BeginStep(m).session.core;
      && Open(core) && Unanswered(core)
      && (forall i :: 0 <= i < |core.bills| ==> core.bills[i].step < core.step)
      && (forall i :: 0 <= i < |core.messages| && core.messages[i].AssistantMessage? ==> core.messages[i].step < core.step)
      && (m.durable.Some? ==> m.durable.value.core.step < core.step)
  {
    hide DurableOk, DurableOnce, BooksOk, PcOnce, TaskObservations, ApprovedTasks, TaskIds, Cost, TotalOf, Amounts;
    var core := m.session.core;
    NotYetSettled(core, m.journal, m.spends);
    LogNextStep(core.messages, core.step, core.bills, m.journal, false);
    LastBillIsLatest(core, m.journal, m.spends);
  }

  lemma NotYetSettled(core: Core, journal: Journal, spends: seq<Spend>)
    requires CoreOk(core, journal, spends)
    ensures !CurrentSettled(core.step + 1, core.invocation)
  {
    hide BillsOk;
  }

  lemma TopIsOnce(m: Machine, e: Event, paid: bool)
    requires Inv(m) && OnceInv(m, paid) && m.pc.Top? && StopsSeeTheAnswer(m, e)
    ensures OnceInv(FromTop(m, e), paid)
  {
    hide Inv, ResumeStep, BeginStep, HaltRun, SettleRun, OnceCore, DurableOnce, Buried, Applied;
    StepIsOnce(m, paid);
    if !m.session.resumeStep {
      if m.session.core.local >= m.config.maxSteps {
        var limited := m.session.(core := m.session.core.(status := Limited, code := MaxSteps));
        SettleParks(m, limited, LimitedPark, MaxSteps);
        CalmKeeps(m, LimitRun(m, m.session, MaxSteps), paid);
      } else if e.Halt? {
        HaltOnce(m, e.stop, paid);
      } else if e.Pause? {
        CalmKeeps(m, FromTop(m, e), paid);
      }
    }
  }

  // ---------- A recovered outcome ----------

  lemma RecoveringIsOnce(m: Machine, e: Event, paid: bool)
    requires Inv(m) && OnceInv(m, paid) && m.pc.Recovering? && BatchEvidenceHolds(m, e)
    ensures OnceInv(FromRecovering(m, e), paid)
  {
    hide Account, FailRun, FailTurn, LedgerOk, BooksOk, DurableOk, OnceCore, DurableOnce, Applied;
    if e.Recover? {
      var recovery := m.pc.recovery;
      RecoveryIsCurrent(m);
      AccountAgain(m.session, recovery.invocation.step, AccountedUsage(recovery));
      FailOnce(m, EvidenceUncommitted, paid);
      FailsPark(m, m.session, EvidenceUncommitted);
      if FromRecovering(m, e).pc.Recovered? {
        CalmKeeps(m, FromRecovering(m, e), paid);
      }
    }
  }

  lemma RecoveryIsCurrent(m: Machine)
    requires Inv(m) && (m.pc.Recovering? || m.pc.Recovered?)
    ensures var recovery := m.pc.recovery;
      && recovery.invocation.step == m.session.core.step && recovery.invocation.entry.Settled?
      && recovery.invocation.step in m.journal && m.journal[recovery.invocation.step] == recovery.invocation.entry
  {
    hide BillsOk, BooksOk, DurableOk;
  }

  lemma RefusalIsOnce(m: Machine, recoverable: bool, paid: bool)
    requires Inv(m) && OnceInv(m, paid) && m.pc.Recovered?
    ensures OnceInv(RestoreRefusal(m, m.pc.recovery, m.pc.receipt, recoverable), paid)
  {
    hide Account, FailRun, FailTurn, LedgerOk, BooksOk, DurableOk, OnceCore, DurableOnce, PcOnce;
    AccountAgain(m.session, m.pc.recovery.invocation.step, m.pc.receipt);
    FailOnce(m, NoCode, paid);
  }

  /** Projecting the answer at hand. */
  lemma Projects(m: Machine, turn: Turn, paid: bool)
    requires OnceCore(m.session.core, m.journal, paid) && !m.session.core.terminal && AtHand(m.session.core, turn, m.journal)
    ensures OnceCore(ProjectTurn(m.session, turn).core, m.journal, paid)
  {
    hide LogOk, Charged, Applied;
    var core := m.session.core;
    LogAppendsAnswer(core.messages, core.step, turn, core.bills, m.journal, paid);
  }

  /** From here on the answer is in the log: a tool-free turn parks or is decided. */
  lemma ToolFreeIsOnce(m: Machine, s: Session, turn: Turn, jobs: bool, paid: bool)
    requires s.suspension.None?
    requires DurableOnce(m.durable, m.journal, paid) && OnceCore(s.core, m.journal, paid) && !s.core.terminal
    ensures OnceInv(WithoutCalls(m, s, turn, jobs), paid)
  {
    hide OnceCore, DurableOnce, Applied, CurrentSettled, OnceInv;
    Lands(m, s.core, WithoutCalls(m, s, turn, jobs), paid);
  }

  lemma AnswerIsOnce(m: Machine, turn: Turn, jobs: bool, paid: bool)
    requires Inv(m) && OnceInv(m, paid) && m.pc.Recovered? && m.pc.outcome == Answer(turn)
    ensures OnceInv(RestoreAnswer(m, m.pc.recovery, turn, jobs), paid)
  {
    hide LedgerOk, BooksOk, DurableOk, OnceCore, DurableOnce, ProgressMatches, FailRun, WithoutCalls, Applied;
    FailOnce(m, NoCode, paid);
    FailsPark(m, m.session, NoCode);
    var m' := RestoreAnswer(m, m.pc.recovery, turn, jobs);
    if m.pc.recovery.projected {
      if m'.pc.Replaying? {
        CalmKeeps(m, m', paid);
      }
    } else {
      RecoveryIsCurrent(m);
      Projects(m, turn, paid);
      var s := ProjectTurn(m.session, turn);
      if turn.calls == [] {
        ToolFreeIsOnce(m, s, turn, jobs, paid);
      } else {
        Lands(m, s.core, m', paid);
      }
    }
  }

  lemma RecoveredIsOnce(m: Machine, e: Event, paid: bool)
    requires Inv(m) && OnceInv(m, paid) && m.pc.Recovered?
    ensures OnceInv(FromRecovered(m, e), paid)
  {
    hide Inv, HaltRun, RestoreRefusal, RestoreAnswer, OnceCore, DurableOnce, Buried, Applied;
    match e
    case Halt(stop) => HaltOnce(m, stop, paid);
    case Proceed(jobs) =>
      match m.pc.outcome {
        case Refused(recoverable, _) => RefusalIsOnce(m, recoverable, paid);
        case Answer(turn) => AnswerIsOnce(m, turn, jobs, paid);
      }
    case _ =>
  }

  // ---------- From the loop head to the provider ----------

  lemma InputsArePlain(s: Session)
    ensures Plain(InputMessages(s.core.input)) && Plain(ObservationMessages(s.core.observations))
  {
  }

  /** Logging inputs adds no answer. */
  lemma InputsKeep(s: Session, journal: Journal, paid: bool)
    requires OnceCore(s.core, journal, paid)
    ensures OnceCore(AppendInput(s).core, journal, paid) && OnceCore(AppendObservations(s).core, journal, paid)
    ensures Unanswered(AppendInput(s).core) <==> Unanswered(s.core)
    ensures Unanswered(AppendObservations(s).core) <==> Unanswered(s.core)
  {
    hide LogOk, Applied, Charged, Plain, InputMessages, ObservationMessages;
    var core := s.core;
    InputsArePlain(s);
    LogAppendsPlain(core.messages, InputMessages(core.input), core.step, core.bills, journal, paid);
    LogAppendsPlain(core.messages, ObservationMessages(core.observations), core.step, core.bills, journal, paid);
    PlainApplies(core.messages, InputMessages(core.input), core.step);
    PlainApplies(core.messages, ObservationMessages(core.observations), core.step);
  }

  lemma PrepareIsOnce(m: Machine, resumed: bool, config: nat, over: bool, paid: bool)
    requires OnceInv(m, paid) && m.pc.Replaying? && m.pc.mode.Fresh?
    ensures OnceInv(PrepareRequest(m, resumed, config, over), paid)
  {
    hide OnceCore, DurableOnce, Applied, InputMessages, ObservationMessages;
    InputsKeep(m.session, m.journal, paid);
    InputsKeep(AppendInput(m.session), m.journal, paid);
    Lands(m, AppendObservations(AppendInput(m.session)).core, PrepareRequest(m, resumed, config, over), paid);
  }

  lemma ConsumeIsOnce(m: Machine, commit: Commit, paid: bool)
    requires Inv(m) && OnceInv(m, paid) && m.pc.Replaying? && m.session.core.replays != []
    ensures OnceInv(ConsumeHead(m, m.pc.mode, commit), paid)
  {
    hide OnceCore, Applied, BillsOk, BooksOk, DurableOk, ParkOnce;
    var taken := m.session.core.(replays := m.session.core.replays[1..]);
    SameLogKeeps(m.session.core, taken, m.journal, paid);
    PumpingFacts(m);
  }

  /** While a pump runs, an approval is replayed only in an open step, and the resume flag is spent. */
  lemma PumpingFacts(m: Machine)
    requires Inv(m) && m.pc.Replaying? && m.session.core.replays != []
    ensures m.pc.mode.Fresh? && !m.session.resumeStep
  {
    hide BillsOk, BooksOk, DurableOk;
  }

  lemma ReplayingIsOnce(m: Machine, e: Event, paid: bool)
    requires Inv(m) && OnceInv(m, paid) && m.pc.Replaying?
    ensures OnceInv(FromReplaying(m, e), paid)
  {
    hide Inv, ConsumeHead, PrepareRequest, OnceCore, DurableOnce, Applied;
    if m.session.core.replays != [] {
      if e.Consume? {
        ConsumeIsOnce(m, e.commit, paid);
      }
    } else if e.Prepare? {
      match m.pc.mode {
        case Fresh(resumed) => PrepareIsOnce(m, resumed, e.config, e.over, paid);
        case Projected(_) =>
          InputsKeep(m.session, m.journal, paid);
          Lands(m, AppendInput(m.session).core, FromReplaying(m, e), paid);
      }
    }
  }

  lemma HandlingIsOnce(m: Machine, e: Event, paid: bool)
    requires Inv(m) && OnceInv(m, paid) && m.pc.Handling?
    ensures OnceInv(FromHandling(m, e), paid)
  {
    hide OnceCore, DurableOnce, Applied, HaltRun, LedgerOk, BooksOk, DurableOk, Buried;
    match e
    case Halt(stop) => HaltOnce(m, stop, paid);
    case Handled(_) => CalmKeeps(m, FromHandling(m, e), paid);
    case _ =>
  }

  // ---------- The paid call ----------

  /** The open step's call has a new head, and the session has just learned it; nothing is charged yet. */
  ghost predicate Learned(m: Machine, s: Session, spent: Usage, paid: bool) {
    && Chargeable(m, s, spent)
    && DurableOnce(m.durable, m.journal, paid)
    && LogOk(s.core.messages, s.core.step, s.core.bills, m.journal, paid)
    && Unanswered(s.core) && !s.core.code.EvidenceUncommitted? && !s.core.terminal && s.suspension.None?
    && (CurrentSettled(s.core.step, s.core.invocation) ==>
          SettledAt(m.journal, s.core.step) && m.journal[s.core.step].receipt == spent)
  }

  lemma ChargeIsOnce(m: Machine, s: Session, spent: Usage, paid: bool)
    requires Learned(m, s, spent, paid)
    ensures var r := Account(s, s.core.step, spent, map[]);
      r.Some? ==>
        && OnceCore(r.value.core, m.journal, paid) && Unanswered(r.value.core)
        && r.value == s.(core := r.value.core)
        && r.value.core == s.core.(usage := r.value.core.usage, bills := r.value.core.bills)
  {
    hide LogOk, Applied, Sum, DeltaOf, Covers, DurableOnce, CoreOk, BooksOk, DurableOk, Cost;
    DeltaOfEmpty(spent);
    var core := s.core;
    var more := [Bill(core.step, spent)];
    if Covers(spent, map[]) && spent != map[] {
      LogChargesMore(core.messages, core.step, core.bills, more, m.journal, paid);
      assert (core.bills + more)[|core.bills|].step == core.step;
    }
  }

  /** A terminal park asks nothing of the charge. */
  lemma FailsUncharged(m: Machine, s: Session, spent: Usage, paid: bool)
    requires Learned(m, s, spent, paid)
    ensures OnceInv(FailRun(m, s), paid)
  {
    hide LogOk, DurableOnce, Applied, Charged, CoreOk, BooksOk, DurableOk, Cost;
  }

  /** Every park after the charge; the step is still unanswered. */
  lemma ParksCharged(m: Machine, s: Session, code: Code, stop: Stop, paid: bool)
    requires OnceCore(s.core, m.journal, paid) && DurableOnce(m.durable, m.journal, paid) && Unanswered(s.core)
    requires s.suspension.None?
    ensures OnceInv(FailTurn(m, s, code), paid) && OnceInv(FailRun(m, s), paid) && OnceInv(HaltRun(m, s, stop), paid)
  {
    hide OnceCore, DurableOnce, Applied, FailTurn, FailRun, HaltRun, PcOnce;
    FailParks(m, s, code);
    HaltParks(m, s, stop);
    Lands(m, s.core, FailTurn(m, s, code), paid);
    Lands(m, s.core, FailRun(m, s), paid);
    Lands(m, s.core, HaltRun(m, s, stop), paid);
  }

  lemma DeliverIsOnce(m: Machine, s: Session, entry: Entry, paid: bool)
    requires SettledHere(m, s, entry) && Learned(m, s, entry.receipt, paid) && CurrentSettled(s.core.step, s.core.invocation)
    ensures OnceInv(Deliver(m, s, entry), paid) && OnceInv(AwaitEvidence(m, s, entry), paid)
  {
    hide OnceCore, DurableOnce, LogOk, Applied, Account, FailRun, FailTurn, Chargeable;
    ChargeIsOnce(m, s, entry.receipt, paid);
    FailsUncharged(m, s, entry.receipt, paid);
    match Account(s, s.core.step, entry.receipt, map[])
    case None =>
    case Some(s') =>
      ParksCharged(m, s', NoCode, UserStop, paid);
      ParksCharged(m, s', EvidenceUncommitted, UserStop, paid);
  }

  lemma PreemptIsOnce(m: Machine, head: Entry, spent: Usage, stop: Stop, paid: bool)
    requires Inv(m) && OnceInv(m, paid) && (m.pc.Ready? || m.pc.Backoff?)
    requires DispatchOpen(m.session.core, m.journal, m.spends, head, spent)
    requires head.Settled? ==> head.receipt == spent
    ensures OnceInv(PreemptCall(m, head, spent, stop), paid)
  {
    var s := Observe(m.session, m.session.core.step, head);
    Observes(m, head);
    ResumeIsSpent(m);
    hide OnceCore, DurableOnce, Applied, Account, FailRun, HaltRun, CoreOk, BooksOk, DurableOk, Cost, DescendsFrom;
    LearnsHead(m, head, spent, paid);
    ChargeIsOnce(m, s, spent, paid);
    FailsUncharged(m, s, spent, paid);
    match Account(s, s.core.step, spent, map[])
    case None =>
    case Some(s') => ParksCharged(m, s', NoCode, stop, paid);
  }

  lemma LearnsHead(m: Machine, head: Entry, spent: Usage, paid: bool)
    requires Inv(m) && OnceInv(m, paid) && (m.pc.Requesting? || m.pc.Ready? || m.pc.Backoff?)
    requires m.session.core.step in m.journal && m.journal[m.session.core.step] == head
    requires head.Settled? ==> head.receipt == spent
    requires Chargeable(m, Observe(m.session, m.session.core.step, head), spent)
    ensures Learned(m, Observe(m.session, m.session.core.step, head), spent, paid)
  {
    hide LogOk, DurableOnce, Applied, Charged, Chargeable, Inv;
  }

  lemma RefuseIsOnce(m: Machine, head: Entry, paid: bool)
    requires Inv(m) && OnceInv(m, paid) && JournalInv(m) && m.pc.Requesting? && m.session.core.step in m.journal
    requires head == m.journal[m.session.core.step] ||
             (m.journal[m.session.core.step].Started?
              && head == Unknown(m.journal[m.session.core.step].request, m.journal[m.session.core.step].attempt))
    ensures OnceInv(RefuseProbe(m, m.session.core.step, head), paid)
  {
    hide Inv, JournalInv, Advances, OnceCore, DurableOnce, Applied, FailRun;
    var journal, step := m.journal[m.session.core.step := head], m.session.core.step;
    RefuseAdvances(m, step, head);
    StepIsOpen(m);
    var m', s := m.(journal := journal), Observe(m.session, step, head);
    RefuseMoves(m, step, head);
    FailsAtOnce(m', s);
    JournalOnce(m, journal, paid);
    NoObservation(m, paid);
    FailParks(m', s, NoCode);
    TerminalIsOnce(m.session.core, FailRun(m', s).session.core, journal, paid);
  }

  lemma RefuseMoves(m: Machine, step: nat, head: Entry)
    ensures RefuseProbe(m, step, head) == FailRun(m.(journal := m.journal[step := head]), Observe(m.session, step, head))
  {
    hide FailRun;
  }

  lemma FailsAtOnce(m: Machine, s: Session)
    ensures var m' := FailRun(m, s);
      && m'.pc.Parking? && m'.journal == m.journal && m'.durable == m.durable
      && m'.session.core == s.core.(terminal := true, status := Failed, code := RunError)
  {
  }

  /** A terminal core owes its own step no charge. */
  lemma TerminalIsOnce(core: Core, after: Core, journal: Journal, paid: bool)
    requires OnceCore(core, journal, paid) && after.terminal && !after.code.EvidenceUncommitted?
    requires after.messages == core.messages && after.step == core.step && after.bills == core.bills
    ensures OnceCore(after, journal, paid)
  {
    hide LogOk, Charged;
  }

  lemma StepIsOpen(m: Machine)
    requires Inv(m) && (m.pc.Requesting? || m.pc.Ready? || m.pc.InFlight? || m.pc.Backoff?)
    ensures Open(m.session.core)
  {
    hide BooksOk, DurableOk, CoreOk;
  }

  lemma ReserveIsOnce(m: Machine, request: Request, resumed: bool, halt: Option<Stop>, paid: bool)
    requires Inv(m) && OnceInv(m, paid) && JournalInv(m) && m.pc.Requesting?
    requires m.session.core.step in m.journal ==>
      m.journal[m.session.core.step].Reserved? && m.journal[m.session.core.step].request == request
    requires halt.None? && m.session.core.step in m.journal ==> m.journal[m.session.core.step].attempt == 1
    ensures OnceInv(ReserveDispatch(m, request, resumed, halt), paid)
  {
    if halt.Some? {
      hide OnceCore, DurableOnce, Inv, JournalInv, HaltRun, Applied, Buried;
      HaltOnce(m, halt.value, paid);
    } else {
      ReserveAdvances(m, request, resumed, halt);
      JournalOnce(m, ReserveDispatch(m, request, resumed, halt).journal, paid);
      hide LogOk, DurableOnce, Applied, Charged, Inv, JournalInv, Advances;
    }
  }

  lemma ReuseIsOnce(m: Machine, entry: Entry, halt: Option<Stop>, again: bool, paid: bool)
    requires Inv(m) && OnceInv(m, paid) && m.pc.Requesting? && entry.Settled?
    requires m.session.core.step in m.journal && m.journal[m.session.core.step] == entry
    requires paid ==> halt.None?
    ensures OnceInv(ReuseSettled(m, entry, halt, again), paid)
  {
    var s := Observe(m.session, m.session.core.step, entry);
    NowSettled(m, entry);
    LearnsHead(m, entry, entry.receipt, paid);
    hide Inv, OnceCore, DurableOnce, Deliver, AwaitEvidence, HaltRun, Applied, SettledHere, MayRetry;
    DeliverIsOnce(m, s, entry, paid);
    if halt.Some? {
      UnpaidHalt(m, s, entry, halt.value);
    } else {
      hide Learned;
      CalmKeeps(m, m.(pc := Backoff(entry.request, entry.attempt, entry.receipt, m.pc.resumed)), paid);
    }
  }

  lemma UnpaidHalt(m: Machine, s: Session, entry: Entry, stop: Stop)
    requires entry.Settled? && Learned(m, s, entry.receipt, false)
    ensures OnceInv(HaltRun(m, s, stop), false)
  {
    hide DurableOnce, LogOk, Applied, HaltRun, Chargeable, PcOnce;
    HaltParks(m, s, stop);
    Lands(m, s.core, HaltRun(m, s, stop), false);
  }

  lemma AwaitIsOnce(m: Machine, entry: Entry, paid: bool)
    requires Inv(m) && OnceInv(m, paid) && m.pc.Requesting? && entry.Settled?
    requires m.session.core.step in m.journal && m.journal[m.session.core.step] == entry
    ensures OnceInv(AwaitEvidence(m, Observe(m.session, m.session.core.step, entry), entry), paid)
  {
    NowSettled(m, entry);
    LearnsHead(m, entry, entry.receipt, paid);
    hide Inv, OnceCore, DurableOnce, AwaitEvidence, Applied, SettledHere, Learned;
    DeliverIsOnce(m, Observe(m.session, m.session.core.step, entry), entry, paid);
  }

  lemma RequestingIsOnce(m: Machine, e: Event, paid: bool)
    requires Inv(m) && OnceInv(m, paid) && JournalInv(m) && m.pc.Requesting?
    requires paid ==> ReuseIsPaid(m, e)
    ensures OnceInv(FromRequesting(m, e), paid)
  {
    hide Inv, OnceInv, JournalInv, ReserveDispatch, RefuseProbe, AwaitEvidence, ReuseSettled;
    var step, request := m.session.core.step, m.pc.request;
    if e.Probe? {
      if step !in m.journal {
        ReserveIsOnce(m, request, m.pc.resumed, e.halt, paid);
      } else {
        var head := m.journal[step];
        RefuseIsOnce(m, head, paid);
        match head {
          case Reserved(_, attempt) =>
            if head.request == request && (attempt == 1 || e.halt.Some?) {
              ReserveIsOnce(m, request, m.pc.resumed, e.halt, paid);
            }
          case Started(_, attempt) =>
            if head.request == request {
              RefuseIsOnce(m, Unknown(request, attempt), paid);
            }
          case Unknown(_, _) =>
          case Settled(_, _, _, _) =>
            AwaitIsOnce(m, head, paid);
            ReuseIsOnce(m, head, e.halt, e.again, paid);
        }
      }
    }
  }

  lemma ReadyIsOnce(m: Machine, e: Event, paid: bool)
    requires Inv(m) && OnceInv(m, paid) && JournalInv(m) && m.pc.Ready?
    ensures OnceInv(FromReady(m, e), paid)
  {
    hide LogOk, DurableOnce, Applied, Charged, Advances, PreemptCall;
    match e
    case Dispatch =>
      ReadyAdvances(m, e);
      JournalOnce(m, FromReady(m, e).journal, paid);
      hide Inv, JournalInv;
    case Halt(stop) =>
      PreemptIsOnce(m, Reserved(m.pc.request, m.pc.attempt), m.pc.spent, stop, paid);
      hide OnceInv, Inv, JournalInv, PreemptCall;
    case _ =>
  }

  lemma BackoffIsOnce(m: Machine, e: Event, paid: bool)
    requires Inv(m) && OnceInv(m, paid) && JournalInv(m) && m.pc.Backoff?
    ensures OnceInv(FromBackoff(m, e), paid)
  {
    hide LogOk, DurableOnce, Applied, Charged, Advances, PreemptCall;
    match e
    case Go =>
      BackoffAdvances(m, e);
      JournalOnce(m, FromBackoff(m, e).journal, paid);
      hide Inv, JournalInv;
    case Halt(stop) =>
      PreemptIsOnce(m, m.journal[m.session.core.step], m.pc.spent, stop, paid);
      hide OnceInv, Inv, JournalInv, PreemptCall;
    case _ =>
  }

  /** The attempt in flight has ended with this head. */
  lemma EndedIsOnce(m: Machine, head: Entry, usage: Usage, paid: bool)
    requires Inv(m) && OnceInv(m, paid) && JournalInv(m) && m.pc.InFlight? && WellFormed(usage) && !head.Reserved?
    requires head.attempt == m.pc.attempt && head.request == m.pc.request
    requires head.Settled? ==> head.receipt == Sum(m.pc.spent, usage)
    ensures var ended := EndAttempt(m, head, usage);
      && Learned(ended, Observe(m.session, m.session.core.step, head), Sum(m.pc.spent, usage), paid)
      && OnceCore(m.session.core, ended.journal, paid) && DurableOnce(m.durable, ended.journal, paid)
  {
    Ended(m, head, usage);
    Ending(m, head, usage);
    JournalOnce(m, EndAttempt(m, head, usage).journal, paid);
    hide Chargeable, LogOk, DurableOnce, Applied, Charged, Inv, JournalInv, Advances, Sum, WellFormed, DispatchOk, SpendsOk, HeadsOk;
  }

  lemma SettleIsOnce(m: Machine, usage: Usage, outcome: Outcome, evidenceOk: bool, again: bool, paid: bool)
    requires Inv(m) && OnceInv(m, paid) && JournalInv(m) && m.pc.InFlight? && WellFormed(usage)
    ensures OnceInv(SettleDispatch(m, usage, outcome, evidenceOk, again), paid)
  {
    hide Inv, JournalInv, OnceCore, DurableOnce, Deliver, AwaitEvidence, Applied, Chargeable, Sum, WellFormed, MayRetry;
    var entry := Settled(m.pc.request, m.pc.attempt, Sum(m.pc.spent, usage), outcome);
    var ended := EndAttempt(m, entry, usage);
    EndedIsOnce(m, entry, usage, paid);
    DeliverIsOnce(ended, Observe(m.session, m.session.core.step, entry), entry, paid);
  }

  lemma LossIsOnce(m: Machine, loss: Loss, paid: bool)
    requires Inv(m) && OnceInv(m, paid) && JournalInv(m) && m.pc.InFlight? && WellFormed(loss.usage)
    ensures OnceInv(LoseDispatch(m, loss), paid)
  {
    var head, spent := LostHead(m.pc, loss), Sum(m.pc.spent, loss.usage);
    var ended := EndAttempt(m, head, loss.usage);
    var s := Observe(m.session, m.session.core.step, head);
    ResumeIsSpent(m);
    EndedIsOnce(m, head, loss.usage, paid);
    hide Inv, JournalInv, OnceCore, DurableOnce, FailRun, Account, Applied, Chargeable, Sum, WellFormed;
    ChargeIsOnce(ended, s, spent, paid);
    FailsUncharged(ended, s, spent, paid);
    match Account(s, s.core.step, spent, map[])
    case None =>
    case Some(s') => ParksCharged(ended, s', NoCode, UserStop, paid);
  }

  lemma InFlightIsOnce(m: Machine, e: Event, paid: bool)
    requires Inv(m) && OnceInv(m, paid) && JournalInv(m) && m.pc.InFlight?
    ensures OnceInv(FromInFlight(m, e), paid)
  {
    hide Inv, OnceInv, JournalInv, SettleDispatch, LoseDispatch, WellFormed;
    match e
    case Settle(usage, outcome, evidenceOk, again) =>
      if WellFormed(usage) {
        SettleIsOnce(m, usage, outcome, evidenceOk, again, paid);
      }
    case Lose(loss) =>
      if WellFormed(loss.usage) {
        LossIsOnce(m, loss, paid);
      }
    case _ =>
  }

  // ---------- Applying the answer ----------

  lemma AnsweredIsOnce(m: Machine, e: Event, paid: bool)
    requires OnceInv(m, paid) && m.pc.Answered?
    ensures OnceInv(FromAnswered(m, e), paid)
  {
    hide OnceCore, DurableOnce, HaltRun, WithoutCalls, CompletedCalls, Applied, Buried;
    var turn := m.pc.turn;
    match e
    case Halt(stop) => HaltOnce(m, stop, paid);
    case Proceed(jobs) =>
      var s := if m.pc.projected then m.session else ProjectTurn(m.session, turn);
      if !m.pc.projected {
        Projects(m, turn, paid);
      }
      if turn.calls == [] {
        ToolFreeIsOnce(m, s, turn, jobs, paid);
      } else {
        Lands(m, s.core, FromAnswered(m, e), paid);
      }
    case _ =>
  }

  lemma EndBatchIsOnce(m: Machine, s: Session, turn: Turn, paid: bool)
    requires OnceInv(m, paid) && m.pc.Batch? && Calm(m, m.(session := s)) && s.suspension.None? && !s.core.terminal
    requires !s.resumeStep
    ensures OnceInv(EndBatch(m, s, turn), paid)
  {
    hide OnceCore, DurableOnce, SettleRun, Applied, PcOnce;
    var s' := s.(callsPending := false);
    if s.core.finish || s.core.status != Limited {
      EndsOpen(m, s, turn);
    } else {
      assert !s.core.code.EvidenceUncommitted? by {
        CodesStay(m.session.core, s.core, m.journal, paid);
      }
      SettleParks(m, s', LimitedPark, s.core.code);
    }
    CalmKeeps(m, EndBatch(m, s, turn), paid);
  }

  lemma CodesStay(before: Core, after: Core, journal: Journal, paid: bool)
    requires OnceCore(before, journal, paid) && SameLog(before, after)
    ensures !after.code.EvidenceUncommitted?
  {
    hide LogOk, Charged;
  }

  lemma EndsOpen(m: Machine, s: Session, turn: Turn)
    requires s.core.finish || s.core.status != Limited
    requires s.suspension.None? && !s.core.terminal && !s.resumeStep
    ensures PcOnce(EndBatch(m, s, turn))
  {
    hide Applied;
  }

  lemma BatchIsOnce(m: Machine, e: Event, paid: bool)
    requires Inv(m) && OnceInv(m, paid) && m.pc.Batch?
    ensures OnceInv(FromBatch(m, e), paid)
  {
    ResumeIsSpent(m);
    hide Inv, OnceCore, DurableOnce, HaltRun, EndBatch, Applied, Buried;
    var s, turn, next := m.session, m.pc.turn, m.pc.next;
    if e.Halt? {
      HaltOnce(m, e.stop, paid);
    } else if e.Go? {
      var counted := s.(core := s.core.(toolCalls := s.core.toolCalls + 1));
      if next >= |turn.calls| {
        EndBatchIsOnce(m, s, turn, paid);
      } else if turn.calls[next].id !in m.pc.done && counted.core.toolCalls > m.config.maxToolCalls {
        EndBatchIsOnce(m, counted.(core := counted.core.(status := Limited, code := MaxToolCalls)), turn, paid);
      } else {
        CalmKeeps(m, FromBatch(m, e), paid);
      }
    }
  }

  lemma CallIsOnce(m: Machine, e: Event, paid: bool)
    requires OnceInv(m, paid) && (m.pc.Calling? || m.pc.Returned?)
    ensures m.pc.Calling? ==> OnceInv(FromCalling(m, e), paid)
    ensures m.pc.Returned? ==> OnceInv(FromReturned(m, e), paid)
  {
    hide OnceCore, DurableOnce, HaltRun, Applied, Buried;
    if e.Halt? {
      HaltOnce(m, e.stop, paid);
    } else if m.pc.Calling? {
      CalmKeeps(m, FromCalling(m, e), paid);
    } else {
      CalmKeeps(m, FromReturned(m, e), paid);
    }
  }

  // ---------- Settling ----------

  lemma LogFinishIsOnce(s: Session, fromFinish: bool, journal: Journal, paid: bool)
    requires OnceCore(s.core, journal, paid)
    ensures OnceCore(LogFinish(s, fromFinish).core, journal, paid)
    ensures LogFinish(s, fromFinish).suspension == s.suspension && LogFinish(s, fromFinish).core.terminal == s.core.terminal
    ensures LogFinish(s, fromFinish).resumeStep == s.resumeStep
  {
    hide OnceCore, ObservationMessages;
    InputsKeep(s, journal, paid);
    var logged := AppendObservations(s).core;
    assert LogFinish(s, true).core == logged.(observations := []);
    SameLogKeeps(logged, logged.(observations := []), journal, paid);
  }

  /** A verdict that parks, after logging the finish observations. */
  lemma DecidedIsOnce(m: Machine, s: Session, reason: Reason, code: Code, paid: bool)
    requires OnceInv(m, paid) && m.pc.Deciding? && SameLog(m.session.core, s.core) && s.suspension.None?
    requires !reason.InterruptedPark? && !code.EvidenceUncommitted?
    ensures OnceInv(SettleRun(m, LogFinish(s, m.pc.fromFinish), reason, code), paid)
  {
    hide OnceCore, DurableOnce, LogFinish, SettleRun, PcOnce, SameLog;
    var s' := LogFinish(s, m.pc.fromFinish);
    SameLogKeeps(m.session.core, s.core, m.journal, paid);
    LogFinishIsOnce(s, m.pc.fromFinish, m.journal, paid);
    SettleParks(m, s', reason, code);
    Lands(m, s'.core, SettleRun(m, s', reason, code), paid);
  }

  lemma RepromptIsOnce(m: Machine, paid: bool)
    requires Inv(m) && OnceInv(m, paid) && m.pc.Deciding?
    ensures OnceInv(Reprompt(m, m.pc.fromFinish), paid)
  {
    ResumeIsSpent(m);
    hide Inv, LogOk, DurableOnce, Applied, Charged, LogFinish;
    var m', fromFinish := Reprompt(m, m.pc.fromFinish), m.pc.fromFinish;
    var recorded := RecordFailure(m.session);
    var s := DropFinish(recorded.(core := recorded.core.(retries := recorded.core.retries + 1)), fromFinish);
    SameLogKeeps(m.session.core, s.core, m.journal, paid);
    LogFinishIsOnce(s, fromFinish, m.journal, paid);
    var logged := LogFinish(s, fromFinish).core;
    LogAppendsPlain(logged.messages, [RepairMessage], logged.step, logged.bills, m.journal, paid);
    LogFrame(s, fromFinish);
  }

  lemma LogFrame(s: Session, fromFinish: bool)
    ensures var core, core' := s.core, LogFinish(s, fromFinish).core;
      core'.step == core.step && core'.bills == core.bills && core'.invocation == core.invocation && core'.code == core.code
  {
    hide ObservationMessages;
  }

  lemma VerdictIsOnce(m: Machine, verdict: Verdict, paid: bool)
    requires Inv(m) && OnceInv(m, paid) && m.pc.Deciding?
    ensures OnceInv(FromDeciding(m, Decide(verdict)), paid)
  {
    hide Inv, OnceCore, DurableOnce, FailRun, SettleRun, Reprompt, LogFinish, Applied;
    var s := m.session;
    if m.pc.turn.stop == Refusal {
      DecidedIsOnce(m, WithOutcome(s, Failed, OutputRefused), SettledPark, OutputRefused, paid);
    } else if m.pc.turn.stop == Length {
      DecidedIsOnce(m, WithOutcome(s, Limited, OutputTruncated), LimitedPark, OutputTruncated, paid);
    } else {
      match verdict {
        case Passed => DecidedIsOnce(m, s, SettledPark, NoCode, paid);
        case Defect => FailOnce(m, NoCode, paid);
        case Rejected =>
          RepromptIsOnce(m, paid);
          DecidedIsOnce(m, DropFinish(WithOutcome(RecordFailure(s), Limited, ValidatorUnsatisfied), m.pc.fromFinish),
                        LimitedPark, ValidatorUnsatisfied, paid);
      }
    }
  }

  lemma DecidingIsOnce(m: Machine, e: Event, paid: bool)
    requires Inv(m) && OnceInv(m, paid) && m.pc.Deciding? && StopsSeeTheAnswer(m, e)
    ensures OnceInv(FromDeciding(m, e), paid)
  {
    if e.Halt? {
      HaltOnce(m, e.stop, paid);
      hide OnceInv, Inv, HaltRun, Buried;
    } else if e.Decide? {
      VerdictIsOnce(m, e.verdict, paid);
      hide OnceInv, Inv, FromDeciding;
    }
  }

  // ---------- Parks, reports, restores ----------

  /** Whatever becomes of the commit: only an accepted park leaves an observation. */
  lemma ParkingIsOnce(m: Machine, e: Event, paid: bool)
    requires Inv(m) && OnceInv(m, paid) && m.pc.Parking?
    ensures OnceInv(FromParking(m, e), paid)
  {
    ResumeIsSpent(m);
    hide OnceCore, ParkOnce, Unanswered, Inv;
  }

  lemma ReportIsOnce(m: Machine, task: Task, persist: Option<Commit>, paid: bool)
    requires OnceInv(m, paid) && !m.pc.Down?
    requires persist.Some? ==> AtQuiescentPark(m.session)
    ensures OnceInv(Reported(m, task, persist), paid)
  {
    hide OnceCore, Applied, TaskIds, CurrentSettled;
    var core := m.session.core.(ready := m.session.core.ready + [task]);
    SameLogKeeps(m.session.core, core, m.journal, paid);
    if persist.Some? {
      assert m.pc.Idle?;
    }
  }

  lemma RestoreIsOnce(m: Machine, paid: bool)
    requires OnceInv(m, paid) && m.pc.Down?
    ensures OnceInv(m.(pc := Idle, session := Rehydrate(m.durable)), paid)
  {
    hide LogOk, Applied, ParkOnce, Charged;
    EmptyLog(m.journal, paid);
  }

  lemma EmptyLog(journal: Journal, paid: bool)
    ensures LogOk([], 0, [], journal, paid)
  {
  }

  lemma NextIsOnce(m: Machine, e: Event, paid: bool)
    requires Inv(m) && JournalInv(m) && OnceInv(m, paid) && Careful(m, e)
    requires paid ==> ReuseIsPaid(m, e)
    ensures OnceInv(Next(m, e), paid)
  {
    hide FromIdle, FromTop, FromRecovering, FromRecovered, FromReplaying, FromHandling, FromRequesting, FromReady,
         FromInFlight, FromBackoff, FromAnswered, FromBatch, FromCalling, FromReturned, FromDeciding, FromParking,
         Reported, Rehydrate, PcOnce, OnceCore, JournalInv, ReuseIsPaid, DurableOnce, StopsSeeTheAnswer, BatchEvidenceHolds;
    if m.pc.Down? {
      RestoreIsOnce(m, paid);
    } else if e.Crash? {
    } else if e.Report? {
      ReportIsOnce(m, e.task, e.persist, paid);
    } else {
      hide Inv, OnceInv;
      match m.pc
      case Idle => IdleIsOnce(m, e, paid);
      case Top => TopIsOnce(m, e, paid);
      case Recovering(_) => RecoveringIsOnce(m, e, paid);
      case Recovered(_, _, _) => RecoveredIsOnce(m, e, paid);
      case Replaying(_) => ReplayingIsOnce(m, e, paid);
      case Handling(_, _) => HandlingIsOnce(m, e, paid);
      case Requesting(_, _) => RequestingIsOnce(m, e, paid);
      case Ready(_, _, _) => ReadyIsOnce(m, e, paid);
      case InFlight(_, _, _) => InFlightIsOnce(m, e, paid);
      case Backoff(_, _, _, _) => BackoffIsOnce(m, e, paid);
      case Answered(_, _) => AnsweredIsOnce(m, e, paid);
      case Batch(_, _, _) => BatchIsOnce(m, e, paid);
      case Calling(_, _, _) => CallIsOnce(m, e, paid);
      case Returned(_, _, _) => CallIsOnce(m, e, paid);
      case Deciding(_, _) => DecidingIsOnce(m, e, paid);
      case Parking(_) => ParkingIsOnce(m, e, paid);
    }
  }

  // ---------- Runs ----------

  /** Everything a careful event keeps. */
  ghost predicate CarefulInv(m: Machine, paid: bool) {
    Inv(m) && JournalInv(m) && OnceInv(m, paid)
  }

  lemma {:induction false} StaysOnce(m: Machine, events: seq<Event>, paid: bool)
    requires CarefulInv(m, paid) && Allowed(Careful, m, events) && (paid ==> Allowed(ReuseIsPaid, m, events))
    ensures CarefulInv(Run(m, events), paid)
  {
    if events == [] {
    } else {
      var before, last := events[..|events| - 1], events[|events| - 1];
      AllowedPrefix(Careful, m, events);
      if paid {
        AllowedPrefix(ReuseIsPaid, m, events);
      }
      StaysOnce(m, before, paid);
      hide Inv, Next, OnceInv, JournalInv, Allowed, ReuseIsPaid, StopsSeeTheAnswer, BatchEvidenceHolds, ReportsAtPark;
      NextKeeps(Run(m, before), last);
      NextAdvances(Run(m, before), last);
      NextIsOnce(Run(m, before), last, paid);
    }
  }

  lemma StartsOnce(config: Config, paid: bool)
    ensures CarefulInv(Initial(config), paid)
  {
    assert Amounts([]) == [];
    EmptyLog(map[], paid);
  }

  lemma RunIsOnce(config: Config, events: seq<Event>, paid: bool)
    requires Allowed(Careful, Initial(config), events) && (paid ==> Allowed(ReuseIsPaid, Initial(config), events))
    ensures CarefulInv(Run(Initial(config), events), paid)
  {
    hide CarefulInv, Allowed, Run;
    StartsOnce(config, paid);
    StaysOnce(Initial(config), events, paid);
  }

  // ---------- Main results ----------

  /** Every answer in the log is the settled outcome of its own step, and no step has two. */
  ghost predicate AnswersOnce(messages: seq<Message>, journal: Journal) {
    && (forall i, j :: 0 <= i < j < |messages| && messages[i].AssistantMessage? && messages[j].AssistantMessage? ==>
          messages[i].step != messages[j].step)
    && (forall i :: 0 <= i < |messages| && messages[i].AssistantMessage? ==>
          SettledAt(journal, messages[i].step) && journal[messages[i].step].outcome == Answer(messages[i].turn))
  }

  /**
   Recovery soundness, on the log: whatever becomes of the commits of a run's parks, no paid answer is
   applied twice, live or in the checkpoint.
  */
  lemma AnswersAppliedAtMostOnce(config: Config, events: seq<Event>)
    requires Allowed(Careful, Initial(config), events)
    ensures var m := Run(Initial(config), events);
      && (!m.pc.Down? ==> AnswersOnce(m.session.core.messages, m.journal))
      && (m.durable.Some? ==> AnswersOnce(m.durable.value.core.messages, m.journal))
  {
    RunIsOnce(config, events, false);
    hide Run, Allowed, Inv, PcOnce, JournalInv;
  }

  /** The same run bills every answer it applies, when no boundary preempts a reused outcome. */
  lemma AnswersAreCharged(config: Config, events: seq<Event>, i: nat)
    requires Allowed(Careful, Initial(config), events) && Allowed(ReuseIsPaid, Initial(config), events)
    requires var m := Run(Initial(config), events);
      !m.pc.Down? && i < |m.session.core.messages| && m.session.core.messages[i].AssistantMessage?
    ensures var m := Run(Initial(config), events);
      var step := m.session.core.messages[i].step;
      step in m.journal && m.journal[step].Settled? &&
      (m.journal[step].receipt != map[] ==> Bill(step, m.journal[step].receipt) in m.session.core.bills)
  {
    RunIsOnce(config, events, true);
    hide Run, Allowed;
    LoggedIsBilled(Run(Initial(config), events), i);
  }

  lemma LoggedIsBilled(m: Machine, i: nat)
    requires Inv(m) && OnceInv(m, true) && !m.pc.Down?
    requires i < |m.session.core.messages| && m.session.core.messages[i].AssistantMessage?
    ensures var step := m.session.core.messages[i].step;
      step in m.journal && m.journal[step].Settled? &&
      (m.journal[step].receipt != map[] ==> Bill(step, m.journal[step].receipt) in m.session.core.bills)
  {
    hide PcOnce, DurableOnce, DurableOk, PcOk, Cost, WellFormed;
    var core := m.session.core;
    var step := core.messages[i].step;
    assert Charged(step, core.bills, m.journal);
    if m.journal[step].receipt != map[] {
      var k :| 0 <= k < |core.bills| && core.bills[k].step == step;
      assert core.bills[k] == Bill(step, m.journal[step].receipt);
    }
  }

  /**
   Recovery soundness, on the offer: only the current step's settled call is offered, and where applying it
   would add its answer to the log, the log does not have it.
  */
  lemma RecoveryOffersOnlyUnappliedWork(config: Config, events: seq<Event>)
    requires Allowed(Careful, Initial(config), events)
    requires var m := Run(Initial(config), events);
      m.pc.Idle? && !m.session.core.terminal && EvidenceRecovery(m.session).Some?
    ensures var m := Run(Initial(config), events);
      var core, recovery := m.session.core, EvidenceRecovery(m.session).value;
      && recovery.invocation.step == core.step && recovery.invocation.entry.Settled?
      && core.step in m.journal && m.journal[core.step] == recovery.invocation.entry
      && (if recovery.projected then m.session.callsPending else !Applied(core.messages, core.step))
  {
    RunIsOnce(config, events, false);
    hide Run, Allowed;
    OfferIsSound(Run(Initial(config), events));
  }

  lemma OfferIsSound(m: Machine)
    requires Inv(m) && OnceInv(m, false) && m.pc.Idle? && !m.session.core.terminal && EvidenceRecovery(m.session).Some?
    ensures var core, recovery := m.session.core, EvidenceRecovery(m.session).value;
      && recovery.invocation.step == core.step && recovery.invocation.entry.Settled?
      && core.step in m.journal && m.journal[core.step] == recovery.invocation.entry
      && (if recovery.projected then m.session.callsPending else !Applied(core.messages, core.step))
  {
    OfferIsUnapplied(m.session);
    hide Applied, DurableOnce, DurableOk, BillsOk, BooksOk, ParkOnce, OpenStep, LogOk;
  }
}
