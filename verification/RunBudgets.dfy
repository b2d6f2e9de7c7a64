/**
 Budgets and termination of a pump: a submit allocates at most `maxSteps` steps across parks and restores,
 output retries never exceed their limit, the failure history is numbered without gaps, and no driver can
 keep one pump going forever.
*/
module RunBudgets {
  import opened Wrappers
  import opened Usage
  import opened RunModel
  import opened RunDispatch

  // ---------- Budgets ----------

  ghost predicate Numbered(failures: seq<nat>) {
    forall i :: 0 <= i < |failures| ==> failures[i] == i + 1
  }

  ghost predicate Budgeted(config: Config, core: Core) {
    && core.local <= config.maxSteps
    && core.local <= core.step
    && core.retries <= config.maxRetries
    && Numbered(core.failures)
    && core.retries <= |core.failures|
  }

  ghost predicate BudgetInv(m: Machine) {
    && (m.pc.Backoff? ==> m.pc.attempt < m.config.maxAttempts)
    && (!m.pc.Down? ==> Budgeted(m.config, m.session.core))
    && (m.durable.Some? ==> Budgeted(m.config, m.durable.value.core))
  }

  predicate SameBudget(before: Core, after: Core) {
    && after.local == before.local && after.step == before.step
    && after.retries == before.retries && after.failures == before.failures
  }

  ghost predicate BudgetQuiet(m: Machine, m': Machine) {
    && m'.config == m.config && m'.durable == m.durable && !m'.pc.Down?
    && (m'.pc.Backoff? ==> m' == m || m'.pc.attempt < m.config.maxAttempts)
    && SameBudget(m.session.core, m'.session.core)
  }

  // ---------- The measure of a pump ----------

  predicate Pumping(pc: Pc) {
    !pc.Down? && !pc.Idle?
  }

  /** Stages of a step, last first. */
  function Stage(pc: Pc): nat {
    match pc
    case Down => 0
    case Idle => 0
    case Parking(_) => 1
    case Top => 2
    case Deciding(_, _) => 3
    case Batch(_, _, _) => 4
    case Calling(_, _, _) => 4
    case Returned(_, _, _) => 4
    case Answered(_, _) => 5
    case InFlight(_, _, _) => 6
    case Ready(_, _, _) => 6
    case Backoff(_, _, _, _) => 6
    case Requesting(_, _) => 7
    case Handling(_, _) => 8
    case Replaying(_) => 8
    case Recovered(_, _, _) => 9
    case Recovering(_) => 10
  }

  function Left(turn: Turn, next: nat): nat {
    if next <= |turn.calls| then |turn.calls| - next else 0
  }

  function AttemptsLeft(config: Config, attempt: nat): nat {
    if attempt <= config.maxAttempts then config.maxAttempts - attempt else 0
  }

  /** Work left in the replay, retry and tool loops. */
  function Work(m: Machine): nat {
    match m.pc
    case Replaying(_) => 2 * |m.session.core.replays| + 1
    case Handling(_, _) => 2 * |m.session.core.replays| + 2
    case Ready(_, attempt, _) => 3 * AttemptsLeft(m.config, attempt) + 2
    case InFlight(_, attempt, _) => 3 * AttemptsLeft(m.config, attempt) + 1
    case Backoff(_, attempt, _, _) => 3 * AttemptsLeft(m.config, attempt)
    case Batch(turn, next, _) => 3 * Left(turn, next) + 3
    case Calling(turn, next, _) => 3 * Left(turn, next) + 2
    case Returned(turn, next, _) => if next < |turn.calls| then 3 * Left(turn, next) + 1 else 4
    case _ => 0
  }

  function RecoveryPending(pc: Pc): nat {
    if pc.Recovering? || pc.Recovered? then 1 else 0
  }

  function ResumePending(s: Session): nat {
    if s.resumeStep then 1 else 0
  }

  function StepsLeft(m: Machine): nat {
    if m.session.core.local <= m.config.maxSteps then m.config.maxSteps - m.session.core.local else 0
  }

  /** Lexicographically less: a recovery is behind, the resume flag is spent, a step is used, or a stage is done. */
  predicate Closer(m': Machine, m: Machine) {
    || RecoveryPending(m'.pc) < RecoveryPending(m.pc)
    || (RecoveryPending(m'.pc) == RecoveryPending(m.pc) &&
        (|| ResumePending(m'.session) < ResumePending(m.session)
         || (ResumePending(m'.session) == ResumePending(m.session) &&
             (|| StepsLeft(m') < StepsLeft(m)
              || (StepsLeft(m') == StepsLeft(m) &&
                  (Stage(m'.pc) < Stage(m.pc) || (Stage(m'.pc) == Stage(m.pc) && Work(m') < Work(m))))))))
  }

  // ---------- One transition at a time ----------

  /** The pump stands still, ends, or comes closer to its end. */
  ghost predicate Nearer(m: Machine, m': Machine) {
    m' == m || !Pumping(m'.pc) || Closer(m', m)
  }

  /** What most transitions inside the pump do to the budgets and to the measure. */
  ghost predicate Progresses(m: Machine, m': Machine) {
    BudgetQuiet(m, m') && Nearer(m, m')
  }

  lemma ParkProgresses(m: Machine, s: Session, suspension: Suspension)
    requires Pumping(m.pc) && !m.pc.Parking? && SameBudget(m.session.core, s.core) && s.resumeStep == m.session.resumeStep
    ensures Progresses(m, Park(m, s, suspension))
  {
  }

  lemma HaltProgresses(m: Machine, s: Session, stop: Stop)
    requires Pumping(m.pc) && !m.pc.Parking? && SameBudget(m.session.core, s.core) && s.resumeStep == m.session.resumeStep
    ensures Progresses(m, HaltRun(m, s, stop))
  {
    hide Progresses, Unapplied, Park;
    var cleared := if Unapplied(s).None? then ClearObservations(s) else s;
    ParkProgresses(m, cleared, Suspension(InterruptedPark, NoCode, s.callsPending));
    ParkProgresses(m, s.(core := s.core.(code := Draining)), Suspension(InterruptedPark, Draining, s.callsPending));
    ParkProgresses(m, s.(core := s.core.(terminal := true, status := Limited, code := Cancelled)),
                   Suspension(TerminalPark, Cancelled, false));
  }

  lemma FailProgresses(m: Machine, s: Session, code: Code)
    requires Pumping(m.pc) && !m.pc.Parking? && SameBudget(m.session.core, s.core) && s.resumeStep == m.session.resumeStep
    ensures Progresses(m, FailRun(m, s)) && Progresses(m, FailTurn(m, s, code))
  {
    hide Progresses, Park;
    ParkProgresses(m, s.(core := s.core.(terminal := true, status := Failed, code := RunError)),
                   Suspension(TerminalPark, RunError, false));
    ParkProgresses(m, if code == EvidenceUncommitted then s else ClearObservations(s), Suspension(TurnFailed, code, false));
  }

  lemma SettleProgresses(m: Machine, s: Session, reason: Reason, code: Code)
    requires Pumping(m.pc) && !m.pc.Parking? && SameBudget(m.session.core, s.core) && s.resumeStep == m.session.resumeStep
    ensures Progresses(m, SettleRun(m, s, reason, code)) && Progresses(m, LimitRun(m, s, code))
  {
    hide Progresses, Park;
    ParkProgresses(m, if s.core.code == MaxToolCalls then s.(core := s.core.(terminal := true)) else s,
                   Suspension(reason, code, false));
    var limited := s.(core := s.core.(status := Limited, code := code));
    ParkProgresses(m, if code == MaxToolCalls then limited.(core := limited.core.(terminal := true)) else limited,
                   Suspension(LimitedPark, code, false));
  }

  lemma AccountKeepsBudget(s: Session, step: nat, receipt: Usage, accounted: Usage)
    ensures var r := Account(s, step, receipt, accounted);
      r.Some? ==> SameBudget(s.core, r.value.core) && r.value.resumeStep == s.resumeStep
  {
    hide Covers, DeltaOf, Sum;
  }

  lemma RecoveringProgresses(m: Machine, e: Event)
    requires m.pc.Recovering?
    ensures Progresses(m, FromRecovering(m, e))
  {
    var s, recovery := m.session, m.pc.recovery;
    FailProgresses(m, s, EvidenceUncommitted);
    if recovery.invocation.step in m.journal && m.journal[recovery.invocation.step].Settled? {
      AccountKeepsBudget(s, recovery.invocation.step, m.journal[recovery.invocation.step].receipt, AccountedUsage(recovery));
    }
    hide FailRun, FailTurn, Account, AccountedUsage;
  }

  lemma ToolFreeProgresses(m: Machine, s: Session, turn: Turn, jobs: bool)
    requires (m.pc.Recovered? || m.pc.Answered?) && SameBudget(m.session.core, s.core) && s.resumeStep == m.session.resumeStep
    ensures Progresses(m, WithoutCalls(m, s, turn, jobs))
  {
    FailProgresses(m, s, NoCode);
    hide FailRun;
  }

  lemma RecoveredProgresses(m: Machine, e: Event)
    requires m.pc.Recovered?
    ensures Progresses(m, FromRecovered(m, e))
  {
    match e
    case Halt(stop) =>
      HaltProgresses(m, m.session, stop);
      hide HaltRun, Progresses;
    case Proceed(jobs) =>
      match m.pc.outcome {
        case Refused(recoverable, _) => RefusalProgresses(m, recoverable);
        case Answer(turn) => AnswerProgresses(m, turn, jobs);
      }
      hide RestoreRefusal, RestoreAnswer, Progresses;
    case _ =>
  }

  lemma RefusalProgresses(m: Machine, recoverable: bool)
    requires m.pc.Recovered?
    ensures Progresses(m, RestoreRefusal(m, m.pc.recovery, m.pc.receipt, recoverable))
  {
    var r := Account(m.session, m.pc.recovery.invocation.step, m.pc.receipt, AccountedUsage(m.pc.recovery));
    AccountKeepsBudget(m.session, m.pc.recovery.invocation.step, m.pc.receipt, AccountedUsage(m.pc.recovery));
    FailProgresses(m, m.session, NoCode);
    hide Progresses, Account, FailRun, FailTurn;
    if r.Some? {
      FailProgresses(m, r.value, NoCode);
    }
  }

  lemma AnswerProgresses(m: Machine, turn: Turn, jobs: bool)
    requires m.pc.Recovered?
    ensures Progresses(m, RestoreAnswer(m, m.pc.recovery, turn, jobs))
  {
    var s := if m.pc.recovery.projected then m.session else ProjectTurn(m.session, turn);
    FailProgresses(m, s, NoCode);
    ToolFreeProgresses(m, s, turn, jobs);
    hide FailRun, WithoutCalls, ProgressMatches;
  }

  lemma PrepareProgresses(m: Machine, e: Event)
    requires m.pc.Replaying? && !e.Consume?
    ensures Progresses(m, FromReplaying(m, e))
  {
    hide ObservationMessages, InputMessages, LimitRun;
    if e.Prepare? && m.session.core.replays == [] && m.pc.mode.Fresh? && e.over {
      var s := ClearObservations(AppendObservations(AppendInput(m.session)));
      SettleProgresses(m, s, LimitedPark, SizeLimit);
    }
  }

  lemma HandlingProgresses(m: Machine, e: Event)
    requires m.pc.Handling?
    ensures Progresses(m, FromHandling(m, e))
  {
    if e.Halt? {
      HaltProgresses(m, m.session, e.stop);
    }
    hide HaltRun;
  }

  lemma DeliverProgresses(m: Machine, s: Session, entry: Entry)
    requires (m.pc.Requesting? || m.pc.InFlight?) && entry.Settled?
    requires SameBudget(m.session.core, s.core) && s.resumeStep == m.session.resumeStep
    ensures Progresses(m, Deliver(m, s, entry)) && Progresses(m, AwaitEvidence(m, s, entry))
  {
    hide Account, FailRun, FailTurn;
    var r := Account(s, s.core.step, entry.receipt, map[]);
    AccountKeepsBudget(s, s.core.step, entry.receipt, map[]);
    FailProgresses(m, s, NoCode);
    if r.Some? {
      FailProgresses(m, r.value, NoCode);
      FailProgresses(m, r.value, EvidenceUncommitted);
      hide SameBudget;
    }
  }

  lemma PreemptProgresses(m: Machine, head: Entry, spent: Usage, stop: Stop)
    requires m.pc.Ready? || m.pc.Backoff?
    ensures Progresses(m, PreemptCall(m, head, spent, stop))
  {
    hide Account, FailRun, HaltRun, Progresses;
    var s := Observe(m.session, m.session.core.step, head);
    AccountKeepsBudget(s, s.core.step, spent, map[]);
    FailProgresses(m, s, NoCode);
    var r := Account(s, s.core.step, spent, map[]);
    if r.Some? {
      HaltProgresses(m, r.value, stop);
    }
  }

  /** The journal and the history are no part of the measure. */
  lemma BooksAreIrrelevant(m: Machine, journal: Journal, spends: seq<Spend>, m': Machine)
    requires Progresses(m.(journal := journal, spends := spends), m') && m'.pc != m.pc
    ensures Progresses(m, m')
  {
  }

  lemma ReuseProgresses(m: Machine, entry: Entry, halt: Option<Stop>, again: bool)
    requires m.pc.Requesting? && entry.Settled?
    ensures Progresses(m, ReuseSettled(m, entry, halt, again))
    ensures Progresses(m, AwaitEvidence(m, Observe(m.session, m.session.core.step, entry), entry))
  {
    hide HaltRun, Deliver, AwaitEvidence;
    var s := Observe(m.session, m.session.core.step, entry);
    DeliverProgresses(m, s, entry);
    if halt.Some? {
      HaltProgresses(m, s, halt.value);
    }
  }

  lemma ReserveProgresses(m: Machine, request: Request, resumed: bool, halt: Option<Stop>)
    requires m.pc.Requesting?
    ensures Progresses(m, ReserveDispatch(m, request, resumed, halt))
  {
    if halt.Some? {
      HaltProgresses(m, m.session, halt.value);
    }
    hide HaltRun;
  }

  lemma FailureParks(m: Machine, s: Session, code: Code)
    ensures FailRun(m, s).pc.Parking? && FailTurn(m, s, code).pc.Parking?
  {
  }

  lemma RefuseProgresses(m: Machine, step: nat, head: Entry)
    requires m.pc.Requesting?
    ensures Progresses(m, RefuseProbe(m, step, head))
  {
    hide FailRun, Progresses;
    var m', s := m.(journal := m.journal[step := head]), Observe(m.session, step, head);
    FailProgresses(m', s, NoCode);
    FailureParks(m', s, NoCode);
    BooksAreIrrelevant(m, m'.journal, m.spends, FailRun(m', s));
  }

  lemma RequestingProgresses(m: Machine, e: Event)
    requires m.pc.Requesting?
    ensures Progresses(m, FromRequesting(m, e))
  {
    var step, request := m.session.core.step, m.pc.request;
    if e.Probe? {
      ReserveProgresses(m, request, m.pc.resumed, e.halt);
      if step in m.journal {
        RefuseProgresses(m, step, m.journal[step]);
        RefuseProgresses(m, step, Unknown(request, m.journal[step].attempt));
        if m.journal[step].Settled? {
          ReuseProgresses(m, m.journal[step], e.halt, e.again);
        }
      }
      hide ReserveDispatch, RefuseProbe, AwaitEvidence, ReuseSettled, Progresses;
    }
  }

  lemma CallProgresses(m: Machine, e: Event)
    requires (m.pc.Ready? || m.pc.Backoff?) && BudgetInv(m)
    ensures m.pc.Ready? ==> Progresses(m, FromReady(m, e))
    ensures m.pc.Backoff? ==> Progresses(m, FromBackoff(m, e))
  {
    hide PreemptCall, Numbered;
    if e.Halt? {
      if m.pc.Ready? {
        PreemptProgresses(m, Reserved(m.pc.request, m.pc.attempt), m.pc.spent, e.stop);
      } else if m.session.core.step in m.journal {
        PreemptProgresses(m, m.journal[m.session.core.step], m.pc.spent, e.stop);
      }
    }
  }

  lemma SettleDispatchProgresses(m: Machine, usage: Usage, outcome: Outcome, evidenceOk: bool, again: bool)
    requires m.pc.InFlight?
    ensures Progresses(m, SettleDispatch(m, usage, outcome, evidenceOk, again))
  {
    hide Deliver, AwaitEvidence, Sum;
    var step := m.session.core.step;
    var entry := Settled(m.pc.request, m.pc.attempt, Sum(m.pc.spent, usage), outcome);
    var m', s := EndAttempt(m, entry, usage), Observe(m.session, step, entry);
    DeliverProgresses(m', s, entry);
    DeliveryLeaves(m', s, entry);
    BooksAreIrrelevant(m, m'.journal, m'.spends, Deliver(m', s, entry));
    BooksAreIrrelevant(m, m'.journal, m'.spends, AwaitEvidence(m', s, entry));
  }

  /** A delivery leaves the in-flight point. */
  lemma DeliveryLeaves(m: Machine, s: Session, entry: Entry)
    requires entry.Settled?
    ensures !Deliver(m, s, entry).pc.InFlight? && !AwaitEvidence(m, s, entry).pc.InFlight?
  {
    hide Account;
  }

  lemma LossProgresses(m: Machine, loss: Loss)
    requires m.pc.InFlight?
    ensures Progresses(m, LoseDispatch(m, loss))
  {
    hide FailRun, Account, Sum, Nearer;
    var head := LostHead(m.pc, loss);
    var m', s := EndAttempt(m, head, loss.usage), Observe(m.session, m.session.core.step, head);
    AccountKeepsBudget(s, s.core.step, Sum(m.pc.spent, loss.usage), map[]);
    LossEnds(m, m', s, NoCode);
    var r := Account(s, s.core.step, Sum(m.pc.spent, loss.usage), map[]);
    if r.Some? {
      LossEnds(m, m', r.value, NoCode);
      assert Nearer(m, m'.(pc := Idle, session := r.value)) by {
        IdleIsNear(m, m'.(pc := Idle, session := r.value));
      }
    }
  }

  lemma IdleIsNear(m: Machine, m': Machine)
    requires m'.pc.Idle?
    ensures Nearer(m, m')
  {
  }

  lemma LossEnds(m: Machine, ended: Machine, s: Session, code: Code)
    requires m.pc.InFlight? && ended == m.(journal := ended.journal, spends := ended.spends)
    requires SameBudget(m.session.core, s.core) && s.resumeStep == m.session.resumeStep
    ensures Progresses(m, FailRun(ended, s))
  {
    hide FailRun, Progresses;
    FailProgresses(ended, s, code);
    FailureParks(ended, s, code);
    BooksAreIrrelevant(m, ended.journal, ended.spends, FailRun(ended, s));
  }

  lemma InFlightProgresses(m: Machine, e: Event)
    requires m.pc.InFlight?
    ensures Progresses(m, FromInFlight(m, e))
  {
    hide SettleDispatch, LoseDispatch, WellFormed;
    match e
    case Settle(usage, outcome, evidenceOk, again) => SettleDispatchProgresses(m, usage, outcome, evidenceOk, again);
    case Lose(loss) => LossProgresses(m, loss);
    case _ =>
  }

  lemma AnsweredProgresses(m: Machine, e: Event)
    requires m.pc.Answered?
    ensures Progresses(m, FromAnswered(m, e))
  {
    var turn := m.pc.turn;
    if e.Halt? {
      HaltProgresses(m, m.session, e.stop);
    }
    ToolFreeProgresses(m, if m.pc.projected then m.session else ProjectTurn(m.session, turn), turn,
                       if e.Proceed? then e.jobs else false);
    hide HaltRun, WithoutCalls, CompletedCalls;
  }

  lemma EndBatchProgresses(m: Machine, s: Session, turn: Turn)
    requires m.pc.Batch? && SameBudget(m.session.core, s.core) && s.resumeStep == m.session.resumeStep
    ensures Progresses(m, EndBatch(m, s, turn))
  {
    SettleProgresses(m, s.(callsPending := false), LimitedPark, s.core.code);
    hide SettleRun, LimitRun;
  }

  lemma BatchProgresses(m: Machine, e: Event)
    requires m.pc.Batch?
    ensures Progresses(m, FromBatch(m, e))
  {
    hide EndBatch, HaltRun;
    if e.Halt? {
      HaltProgresses(m, m.session, e.stop);
    } else if e.Go? {
      var s, next := m.session, m.pc.next;
      var counted := s.(core := s.core.(toolCalls := s.core.toolCalls + 1));
      if next >= |m.pc.turn.calls| {
        EndBatchProgresses(m, s, m.pc.turn);
      } else if m.pc.turn.calls[next].id !in m.pc.done && counted.core.toolCalls > m.config.maxToolCalls {
        EndBatchProgresses(m, counted.(core := counted.core.(status := Limited, code := MaxToolCalls)), m.pc.turn);
      }
    }
  }

  lemma CallingProgresses(m: Machine, e: Event)
    requires m.pc.Calling? || m.pc.Returned?
    ensures m.pc.Calling? ==> Progresses(m, FromCalling(m, e))
    ensures m.pc.Returned? ==> Progresses(m, FromReturned(m, e))
  {
    if e.Halt? {
      HaltProgresses(m, m.session, e.stop);
    }
    hide HaltRun;
  }

  // ---------- Transitions that move a budget ----------

  /** The step number at which the current submit began. */
  function Root(core: Core): int {
    core.step - core.local
  }

  /** The submit goes on: its root stays, and a checkpoint taken meanwhile has the same root. */
  ghost predicate Rooted(m: Machine, m': Machine) {
    && m'.config == m.config
    && Root(m'.session.core) == Root(m.session.core)
    && (m'.durable == m.durable ||
        (m'.durable.Some? && Root(m'.durable.value.core) == Root(m.session.core)))
  }

  /** A step is taken only while the submit has steps left. */
  lemma TopProgresses(m: Machine, e: Event)
    requires m.pc.Top? && BudgetInv(m)
    ensures Nearer(m, FromTop(m, e)) && BudgetInv(FromTop(m, e)) && Rooted(m, FromTop(m, e))
  {
    hide HaltRun, LimitRun, Numbered, TaskIds, TaskObservations, ApprovedTasks;
    if e.Go? {
      SettleProgresses(m, m.session, LimitedPark, MaxSteps);
    } else if e.Halt? {
      HaltProgresses(m, m.session, e.stop);
    }
  }

  lemma ConsumeProgresses(m: Machine, commit: Commit)
    requires m.pc.Replaying? && m.session.core.replays != [] && BudgetInv(m)
    ensures var m' := ConsumeHead(m, m.pc.mode, commit); Nearer(m, m') && BudgetInv(m') && Rooted(m, m')
  {
    hide Numbered;
  }

  lemma FinishKeepsBudget(s: Session, fromFinish: bool)
    ensures SameBudget(s.core, LogFinish(s, fromFinish).core) && LogFinish(s, fromFinish).resumeStep == s.resumeStep
  {
    hide ObservationMessages;
  }

  lemma NextFailure(core: Core)
    requires Numbered(core.failures)
    ensures Numbered(core.failures + [|core.failures| + 1])
  {
  }

  lemma QuietBudget(m: Machine, m': Machine)
    requires BudgetInv(m) && !m.pc.Down? && Progresses(m, m')
    ensures BudgetInv(m') && Nearer(m, m') && Rooted(m, m')
  {
    hide Numbered, Nearer;
  }

  /** A rejection is numbered; it is retried only while retries remain. */
  lemma RepromptProgresses(m: Machine)
    requires m.pc.Deciding? && BudgetInv(m) && m.session.core.retries < m.config.maxRetries
    ensures var m' := Reprompt(m, m.pc.fromFinish); Nearer(m, m') && BudgetInv(m') && Rooted(m, m')
  {
    NextFailure(m.session.core);
    hide Numbered, ObservationMessages;
  }

  lemma ExhaustProgresses(m: Machine)
    requires m.pc.Deciding? && BudgetInv(m)
    ensures var m' := Exhaust(m, m.pc.fromFinish); Nearer(m, m') && BudgetInv(m') && Rooted(m, m')
  {
    NextFailure(m.session.core);
    hide Numbered, ObservationMessages;
  }

  lemma FinishProgresses(m: Machine, s: Session, reason: Reason, code: Code)
    requires m.pc.Deciding? && SameBudget(m.session.core, s.core) && s.resumeStep == m.session.resumeStep
    ensures Progresses(m, SettleRun(m, LogFinish(s, m.pc.fromFinish), reason, code))
  {
    FinishKeepsBudget(s, m.pc.fromFinish);
    hide LogFinish, SettleRun, LimitRun, Progresses;
    SettleProgresses(m, LogFinish(s, m.pc.fromFinish), reason, code);
  }

  lemma DecidingProgresses(m: Machine, e: Event)
    requires m.pc.Deciding? && BudgetInv(m)
    ensures var m' := FromDeciding(m, e); Nearer(m, m') && BudgetInv(m') && Rooted(m, m')
  {
    var s, turn := m.session, m.pc.turn;
    hide HaltRun, FailRun, SettleRun, Exhaust, Reprompt, LogFinish, BudgetInv, Progresses, Closer, Rooted;
    match e
    case Halt(stop) =>
      HaltProgresses(m, s, stop);
      QuietBudget(m, FromDeciding(m, e));
    case Decide(verdict) =>
      if turn.stop.Normal? && verdict.Rejected? {
        ExhaustProgresses(m);
        if s.core.retries < m.config.maxRetries {
          RepromptProgresses(m);
        }
      } else {
        VerdictProgresses(m, verdict);
        QuietBudget(m, FromDeciding(m, e));
      }
    case _ =>
  }

  /** Every decision but an ordinary rejection only parks. */
  lemma VerdictProgresses(m: Machine, verdict: Verdict)
    requires m.pc.Deciding? && !(m.pc.turn.stop.Normal? && verdict.Rejected?)
    ensures Progresses(m, FromDeciding(m, Decide(verdict)))
  {
    var s := m.session;
    hide FailRun, SettleRun, LogFinish, Progresses;
    if m.pc.turn.stop.Refusal? {
      FinishProgresses(m, WithOutcome(s, Failed, OutputRefused), SettledPark, OutputRefused);
    } else if m.pc.turn.stop.Length? {
      FinishProgresses(m, WithOutcome(s, Limited, OutputTruncated), LimitedPark, OutputTruncated);
    } else {
      FinishProgresses(m, s, SettledPark, NoCode);
      FailProgresses(m, s, NoCode);
    }
  }

  /** Every event inside a pump brings its end closer, unless the program point does not offer it. */
  lemma PumpComesCloser(m: Machine, e: Event)
    requires Pumping(m.pc) && BudgetInv(m) && !e.Crash? && !e.Report?
    ensures Nearer(m, Next(m, e)) && BudgetInv(Next(m, e)) && Rooted(m, Next(m, e))
  {
    hide FromRecovering, FromRecovered, FromHandling, FromRequesting, FromReady, FromReplaying, FromParking,
         FromInFlight, FromBackoff, FromAnswered, FromBatch, FromCalling, FromReturned, FromDeciding, FromTop, Nearer, BudgetInv, Progresses, Rooted;
    match m.pc
    case Top => TopProgresses(m, e);
    case Replaying(_) => ReplayingProgresses(m, e);
    case Deciding(_, _) => DecidingProgresses(m, e);
    case Parking(_) => ParkingProgresses(m, e);
    case _ =>
      match m.pc {
        case Recovering(_) => RecoveringProgresses(m, e);
        case Recovered(_, _, _) => RecoveredProgresses(m, e);
        case Handling(_, _) => HandlingProgresses(m, e);
        case Requesting(_, _) => RequestingProgresses(m, e);
        case Ready(_, _, _) => CallProgresses(m, e);
        case InFlight(_, _, _) => InFlightProgresses(m, e);
        case Backoff(_, _, _, _) => CallProgresses(m, e);
        case Answered(_, _) => AnsweredProgresses(m, e);
        case Batch(_, _, _) => BatchProgresses(m, e);
        case Calling(_, _, _) => CallingProgresses(m, e);
        case Returned(_, _, _) => CallingProgresses(m, e);
      }
      QuietBudget(m, Next(m, e));
  }

  lemma ReplayingProgresses(m: Machine, e: Event)
    requires m.pc.Replaying? && BudgetInv(m)
    ensures var m' := FromReplaying(m, e); Nearer(m, m') && BudgetInv(m') && Rooted(m, m')
  {
    if e.Consume? {
      if m.session.core.replays != [] {
        ConsumeProgresses(m, e.commit);
      }
      hide ConsumeHead, BudgetInv, Rooted;
    } else {
      PrepareProgresses(m, e);
      hide FromReplaying, BudgetInv, Progresses, Rooted;
      QuietBudget(m, FromReplaying(m, e));
    }
  }

  lemma ParkingProgresses(m: Machine, e: Event)
    requires m.pc.Parking? && BudgetInv(m)
    ensures var m' := FromParking(m, e); Nearer(m, m') && BudgetInv(m') && Rooted(m, m')
  {
    hide Numbered;
  }

  // ---------- Main results ----------

  /**
   Whatever the host, the provider and the tools do, a pump reaches its park: this recursion follows any
   driver until the pump ends, or the driver offers an event the program point does not take.
   */
  ghost function Drive(m: Machine, driver: Machine -> Event): (r: Machine)
    requires Pumping(m.pc) && BudgetInv(m)
    ensures Pumping(r.pc) ==> driver(r).Crash? || driver(r).Report? || Next(r, driver(r)) == r
    ensures BudgetInv(r)
    decreases RecoveryPending(m.pc), ResumePending(m.session), StepsLeft(m), Stage(m.pc), Work(m)
  {
    var e := driver(m);
    if e.Crash? || e.Report? then m
    else
      PumpComesCloser(m, e);
      var m' := Next(m, e);
      if m' == m || !Pumping(m'.pc) then m' else Drive(m', driver)
  }

  lemma IdleBudget(m: Machine, e: Event)
    requires m.pc.Idle? && BudgetInv(m)
    ensures BudgetInv(FromIdle(m, e)) && FromIdle(m, e).config == m.config
    ensures !e.Submit? ==> Rooted(m, FromIdle(m, e))
  {
    hide EvidenceRecovery;
  }

  lemma ReportBudget(m: Machine, task: Task, persist: Option<Commit>)
    requires BudgetInv(m) && !m.pc.Down?
    ensures BudgetInv(Reported(m, task, persist)) && Rooted(m, Reported(m, task, persist))
  {
    hide Numbered, TaskIds;
  }

  lemma NextKeepsBudgets(m: Machine, e: Event)
    requires BudgetInv(m)
    ensures BudgetInv(Next(m, e)) && Next(m, e).config == m.config
    ensures !m.pc.Down? && !e.Submit? ==> Rooted(m, Next(m, e))
  {
    if Pumping(m.pc) && !e.Crash? && !e.Report? {
      PumpComesCloser(m, e);
      hide Next;
    } else if e.Report? && !m.pc.Down? {
      ReportBudget(m, e.task, e.persist);
      hide Reported;
    } else if m.pc.Idle? && !e.Crash? {
      IdleBudget(m, e);
      hide FromIdle;
    }
  }

  lemma {:induction false} RunKeepsBudgets(config: Config, events: seq<Event>)
    ensures var m := Run(Initial(config), events); BudgetInv(m) && m.config == config
  {
    if events != [] {
      RunKeepsBudgets(config, events[..|events| - 1]);
      hide Next, BudgetInv;
      NextKeepsBudgets(Run(Initial(config), events[..|events| - 1]), events[|events| - 1]);
    }
  }

  /** Over any run, in memory and in the checkpoint, a submit stays within its budgets. */
  lemma BudgetsHold(config: Config, events: seq<Event>)
    ensures var m := Run(Initial(config), events);
      && (!m.pc.Down? ==> Budgeted(config, m.session.core))
      && (m.durable.Some? ==> Budgeted(config, m.durable.value.core))
  {
    RunKeepsBudgets(config, events);
    hide Run, Budgeted;
  }

  /** Every core a restore could reach, and the live one, belong to the submit rooted at `root`. */
  ghost predicate WithinSubmit(m: Machine, root: int) {
    && m.durable.Some? && Root(m.durable.value.core) == root
    && (!m.pc.Down? ==> Root(m.session.core) == root)
  }

  /**
   Once a submit's own checkpoint is committed, every later step number, through any parks, crashes and
   restores before the next submit, is one of the `maxSteps` numbers after the submit's root.
   */
  lemma {:induction false} SubmitAllocatesWithinItsBudget(m: Machine, events: seq<Event>, root: int)
    requires BudgetInv(m) && WithinSubmit(m, root)
    requires forall i :: 0 <= i < |events| ==> !events[i].Submit?
    ensures var m' := Run(m, events);
      && BudgetInv(m') && m'.config == m.config && WithinSubmit(m', root)
      && (!m'.pc.Down? ==> root <= m'.session.core.step <= root + m.config.maxSteps)
  {
    if events != [] {
      var before, last := events[..|events| - 1], events[|events| - 1];
      SubmitAllocatesWithinItsBudget(m, before, root);
      hide Next, Numbered;
      NextKeepsBudgets(Run(m, before), last);
      if Run(m, before).pc.Down? {
        RestoreStaysWithin(Run(m, before), last, root);
      }
    } else {
      hide Numbered;
    }
  }

  lemma RestoreStaysWithin(m: Machine, e: Event, root: int)
    requires m.pc.Down? && WithinSubmit(m, root)
    ensures WithinSubmit(Next(m, e), root)
  {
  }
}
