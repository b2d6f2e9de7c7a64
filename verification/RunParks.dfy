/**
 Parks over whole runs: what a crash at a park changes, and what closing a parked run makes of it, before
 and after a restart. No assumption is made on how the other parks and reports of the run were committed.
*/
module RunParks {
  import opened Wrappers
  import opened Usage
  import opened RunModel
  import opened RunDispatch
  import opened RunBilling
  import Parks = Park

  // ---------- The engine with its close markers ----------

  /** `unrecovered_turn_failure` and `midturn_park` live beside the machine's session and are never committed. */
  datatype Engine = Engine(m: Machine, failure: Option<Code>, midturn: Option<Reason>)

  /** `_unrecovered_turn_failure`. */
  function LostTurn(observation: Option<Suspension>): Option<Code> {
    if observation.Some? && observation.value.reason.TurnFailed? then Some(observation.value.code) else None
  }

  /** `_midturn_park`. */
  function Unsettled(observation: Option<Suspension>): Option<Reason> {
    if observation.Some? && (observation.value.reason.InterruptedPark? || observation.value.reason.PausedPark?)
    then Some(observation.value.reason) else None
  }

  /** A pump entry clears the markers, a park sets its own before it persists, a restore reads them back. */
  ghost function Follow(engine: Engine, e: Event): Engine {
    var m, m' := engine.m, Next(engine.m, e);
    if m.pc.Down? then
      if e.Restore? then Engine(m', LostTurn(m'.session.suspension), Unsettled(m'.session.suspension)) else engine
    else if m.pc.Idle? && (m'.pc.Top? || m'.pc.Recovering?) then Engine(m', None, None)
    else if m'.pc.Parking? && !m.pc.Parking? then
      Engine(m',
             if LostTurn(Some(m'.pc.suspension)).Some? then LostTurn(Some(m'.pc.suspension)) else engine.failure,
             if Unsettled(Some(m'.pc.suspension)).Some? then Unsettled(Some(m'.pc.suspension)) else engine.midturn)
    else engine.(m := m')
  }

  ghost function FollowAll(engine: Engine, events: seq<Event>): Engine {
    if events == [] then engine else Follow(FollowAll(engine, events[..|events| - 1]), events[|events| - 1])
  }

  function Opened(config: Config): Engine {
    Engine(Initial(config), None, None)
  }

  // ---------- What a park says of the session it leaves ----------

  predicate LeavesTurnOpen(reason: Reason) {
    reason.TurnFailed? || reason.InterruptedPark? || reason.PausedPark?
  }

  /** A limit, a refusal, a drain and a terminal park carry their verdict; an open turn leaves the run alive. */
  predicate ParkSays(core: Core, suspension: Suspension) {
    && (suspension.reason.LimitedPark? ==> core.status == Limited && core.code == suspension.code)
    && (suspension.reason.TerminalPark? ==> core.terminal && core.status == (if core.code.Cancelled? then Limited else Failed) && core.code == suspension.code)
    && (suspension.reason.SettledPark? && suspension.code.OutputRefused? ==> core.status == Failed && core.code.OutputRefused?)
    && (suspension.reason.InterruptedPark? && suspension.code.Draining? ==> core.code.Draining?)
    && (LeavesTurnOpen(suspension.reason) ==> !core.terminal)
  }

  /** Parks that leave a verdict on the run; any other leaves its status and code as they are. */
  predicate Marking(suspension: Suspension) {
    suspension.reason.LimitedPark? || suspension.reason.TerminalPark? || suspension.code.OutputRefused? || suspension.code.Draining?
  }

  predicate SameVerdict(before: Core, after: Core) {
    after.status == before.status && after.code == before.code && after.submits == before.submits
  }

  /** The step has counted a call beyond the tool-call budget. */
  predicate Exceeds(m: Machine, core: Core) {
    core.toolCalls != m.session.core.toolCalls && core.toolCalls > m.config.maxToolCalls
  }

  predicate Marks(engine: Engine, observation: Option<Suspension>) {
    engine.failure == LostTurn(observation) && engine.midturn == Unsettled(observation)
  }

  ghost predicate EngineOk(engine: Engine) {
    var m := engine.m;
    && (m.durable.Some? && m.durable.value.suspension.Some? ==>
          ParkSays(m.durable.value.core, m.durable.value.suspension.value))
    && match m.pc
       case Down => true
       case Idle =>
         m.session.suspension.Some? ==>
           && ParkSays(m.session.core, m.session.suspension.value) && Marks(engine, m.session.suspension)
           && !m.session.resumeStep
       case Parking(suspension) =>
         && m.session.suspension.None? && !m.session.resumeStep
         && ParkSays(m.session.core, suspension) && Marks(engine, Some(suspension))
         && (suspension.callsPending <==> suspension.reason.InterruptedPark? && m.session.callsPending)
       case _ =>
         && m.session.suspension.None? && Marks(engine, None) && !m.session.core.terminal
         && (m.session.resumeStep ==> m.pc.Top?)
  }

  /** One step of a pump: no observation, no checkpoint of one, and a park that says what it must. */
  ghost predicate Pumps(m: Machine, m': Machine) {
    && m'.session.suspension == m.session.suspension
    && (m'.durable != m.durable ==>
          && m'.durable.Some? && m'.durable.value.suspension == m.session.suspension
          && m'.durable.value.core == m'.session.core
          && m'.durable.value.seq_ == m'.session.seq_ > m.session.seq_)
    && !m'.pc.Down?
    && m'.session.seq_ >= m.session.seq_
    && m'.session.core.submits == m.session.core.submits
    && (!Exceeds(m, m'.session.core) && !(m'.pc.Parking? && Marking(m'.pc.suspension)) ==>
          SameVerdict(m.session.core, m'.session.core))
    && (m'.session.resumeStep ==> m.session.resumeStep && (m.pc.Top? ==> m'.pc.Top?))
    && (m'.session.core.terminal ==> m'.pc.Parking? || m.session.core.terminal)
    && (m'.pc.Parking? && !m.session.core.terminal ==>
          && ParkSays(m'.session.core, m'.pc.suspension)
          && (m'.pc.suspension.callsPending <==> m'.pc.suspension.reason.InterruptedPark? && m'.session.callsPending))
  }

  predicate StillPumping(m: Machine, s: Session) {
    && s.suspension == m.session.suspension && s.core.terminal == m.session.core.terminal
    && s.core.submits == m.session.core.submits && s.seq_ == m.session.seq_
    && (s.resumeStep ==> m.session.resumeStep && !m.pc.Top?)
  }

  predicate SameFlags(s: Session, s': Session) {
    && s'.suspension == s.suspension && s'.resumeStep == s.resumeStep && s'.core.terminal == s.core.terminal
    && s'.seq_ == s.seq_
  }

  predicate SameButReady(core: Core, other: Core) {
    other == core.(ready := other.ready)
  }

  lemma FailPumps(m: Machine, s: Session, code: Code)
    requires StillPumping(m, s) && SameVerdict(m.session.core, s.core) && !code.OutputRefused? && !code.Draining?
    ensures Pumps(m, FailRun(m, s)) && Pumps(m, FailTurn(m, s, code))
  {
  }

  lemma HaltPumps(m: Machine, s: Session, stop: Stop)
    requires StillPumping(m, s) && SameVerdict(m.session.core, s.core)
    ensures Pumps(m, HaltRun(m, s, stop))
  {
    hide Unapplied;
  }

  lemma SettlePumps(m: Machine, s: Session, reason: Reason, code: Code)
    requires StillPumping(m, s) && (reason.SettledPark? || reason.LimitedPark?)
    requires reason.LimitedPark? ==> s.core.status == Limited && s.core.code == code
    requires reason.SettledPark? && !code.OutputRefused? ==> SameVerdict(m.session.core, s.core)
    requires reason.SettledPark? && code.OutputRefused? ==> s.core.status == Failed && s.core.code == code
    ensures Pumps(m, SettleRun(m, s, reason, code))
  {
  }

  lemma LimitPumps(m: Machine, s: Session, code: Code)
    requires StillPumping(m, s)
    ensures Pumps(m, LimitRun(m, s, code))
  {
  }

  lemma AccountKeepsObservation(s: Session, step: nat, receipt: Usage, accounted: Usage)
    ensures var r := Account(s, step, receipt, accounted); r.Some? ==> SameFlags(s, r.value) && SameVerdict(s.core, r.value.core)
  {
    hide Covers, DeltaOf, Sum;
  }

  // ---------- Every pump step ----------

  lemma TopPumps(m: Machine, e: Event)
    requires m.pc.Top?
    ensures Pumps(m, FromTop(m, e))
  {
    hide HaltRun, LimitRun, TaskObservations, ApprovedTasks, TaskIds;
    if !m.session.resumeStep {
      LimitPumps(m, m.session, MaxSteps);
    }
    if e.Halt? && !m.session.resumeStep {
      HaltPumps(m, m.session, e.stop);
    }
  }

  lemma RecoveringPumps(m: Machine, e: Event)
    requires m.pc.Recovering?
    ensures Pumps(m, FromRecovering(m, e))
  {
    hide Account, AccountedUsage, FailRun, FailTurn;
    FailPumps(m, m.session, EvidenceUncommitted);
    if e.Recover? && m.pc.recovery.invocation.step in m.journal && m.journal[m.pc.recovery.invocation.step].Settled? {
      AccountKeepsObservation(m.session, m.pc.recovery.invocation.step,
                              m.journal[m.pc.recovery.invocation.step].receipt, AccountedUsage(m.pc.recovery));
    }
  }

  lemma ToolFreePumps(m: Machine, s: Session, turn: Turn, jobs: bool)
    requires StillPumping(m, s) && SameVerdict(m.session.core, s.core)
    ensures Pumps(m, WithoutCalls(m, s, turn, jobs))
  {
    hide FailRun;
    FailPumps(m, s, NoCode);
  }

  lemma RefusalPumps(m: Machine, recovery: Recovery, receipt: Usage, recoverable: bool)
    requires !m.pc.Top?
    ensures Pumps(m, RestoreRefusal(m, recovery, receipt, recoverable))
  {
    hide Account, AccountedUsage, FailRun, FailTurn, Pumps;
    var r := Account(m.session, recovery.invocation.step, receipt, AccountedUsage(recovery));
    AccountKeepsObservation(m.session, recovery.invocation.step, receipt, AccountedUsage(recovery));
    FailPumps(m, m.session, NoCode);
    if r.Some? {
      FailPumps(m, r.value, NoCode);
    }
  }

  lemma AnswerPumps(m: Machine, recovery: Recovery, turn: Turn, jobs: bool)
    requires !m.pc.Top?
    ensures Pumps(m, RestoreAnswer(m, recovery, turn, jobs))
  {
    hide FailRun, WithoutCalls, ProgressMatches;
    var s := if recovery.projected then m.session else ProjectTurn(m.session, turn);
    FailPumps(m, s, NoCode);
    ToolFreePumps(m, s, turn, jobs);
  }

  lemma RecoveredPumps(m: Machine, e: Event)
    requires m.pc.Recovered?
    ensures Pumps(m, FromRecovered(m, e))
  {
    hide HaltRun, RestoreRefusal, RestoreAnswer;
    match e
    case Halt(stop) => HaltPumps(m, m.session, stop);
    case Proceed(jobs) =>
      match m.pc.outcome {
        case Refused(recoverable, _) => RefusalPumps(m, m.pc.recovery, m.pc.receipt, recoverable);
        case Answer(turn) => AnswerPumps(m, m.pc.recovery, turn, jobs);
      }
    case _ =>
  }

  lemma ReplayingPumps(m: Machine, e: Event)
    requires m.pc.Replaying?
    ensures Pumps(m, FromReplaying(m, e))
  {
    hide LimitRun, ObservationMessages, InputMessages;
    if e.Prepare? && m.session.core.replays == [] {
      LimitPumps(m, ClearObservations(AppendObservations(AppendInput(m.session))), SizeLimit);
    }
  }

  lemma HandlingPumps(m: Machine, e: Event)
    requires m.pc.Handling?
    ensures Pumps(m, FromHandling(m, e))
  {
    hide HaltRun;
    if e.Halt? {
      HaltPumps(m, m.session, e.stop);
    }
  }

  lemma DeliverPumps(m: Machine, s: Session, entry: Entry)
    requires entry.Settled? && StillPumping(m, s) && SameVerdict(m.session.core, s.core)
    ensures Pumps(m, Deliver(m, s, entry)) && Pumps(m, AwaitEvidence(m, s, entry))
  {
    hide Account, FailRun, FailTurn;
    var r := Account(s, s.core.step, entry.receipt, map[]);
    AccountKeepsObservation(s, s.core.step, entry.receipt, map[]);
    FailPumps(m, s, NoCode);
    if r.Some? {
      FailPumps(m, r.value, NoCode);
      FailPumps(m, r.value, EvidenceUncommitted);
    }
  }

  lemma ReservePumps(m: Machine, request: Request, resumed: bool, halt: Option<Stop>)
    requires m.pc.Requesting?
    ensures Pumps(m, ReserveDispatch(m, request, resumed, halt))
  {
    hide HaltRun;
    if halt.Some? {
      HaltPumps(m, m.session, halt.value);
    }
  }

  lemma PreemptPumps(m: Machine, head: Entry, spent: Usage, stop: Stop)
    requires m.pc.Ready? || m.pc.Backoff?
    ensures Pumps(m, PreemptCall(m, head, spent, stop))
  {
    hide Account, FailRun, HaltRun;
    var s := Observe(m.session, m.session.core.step, head);
    AccountKeepsObservation(s, s.core.step, spent, map[]);
    FailPumps(m, s, NoCode);
    var r := Account(s, s.core.step, spent, map[]);
    if r.Some? {
      HaltPumps(m, r.value, stop);
    }
  }

  lemma ReusePumps(m: Machine, entry: Entry, halt: Option<Stop>, again: bool)
    requires m.pc.Requesting? && entry.Settled?
    ensures Pumps(m, ReuseSettled(m, entry, halt, again))
  {
    hide HaltRun, Deliver, MayRetry;
    var s := Observe(m.session, m.session.core.step, entry);
    DeliverPumps(m, s, entry);
    if halt.Some? {
      HaltPumps(m, s, halt.value);
    }
  }

  lemma RequestingPumps(m: Machine, e: Event)
    requires m.pc.Requesting?
    ensures Pumps(m, FromRequesting(m, e))
  {
    hide ReserveDispatch, ReuseSettled, AwaitEvidence, FailRun;
    var step, request := m.session.core.step, m.pc.request;
    if e.Probe? {
      ReservePumps(m, request, m.pc.resumed, e.halt);
      if step in m.journal {
        var head := m.journal[step];
        RefusePumps(m, step, head);
        RefusePumps(m, step, Unknown(request, head.attempt));
        hide RefuseProbe;
        if head.Settled? {
          DeliverPumps(m, Observe(m.session, step, head), head);
          ReusePumps(m, head, e.halt, e.again);
        }
      }
    }
  }

  lemma RefusePumps(m: Machine, step: nat, head: Entry)
    requires !m.pc.Top?
    ensures Pumps(m, RefuseProbe(m, step, head))
  {
  }

  lemma CallPumps(m: Machine, e: Event)
    requires m.pc.Ready? || m.pc.Backoff?
    ensures m.pc.Ready? ==> Pumps(m, FromReady(m, e))
    ensures m.pc.Backoff? ==> Pumps(m, FromBackoff(m, e))
  {
    hide PreemptCall;
    if e.Halt? {
      if m.pc.Ready? {
        PreemptPumps(m, Reserved(m.pc.request, m.pc.attempt), m.pc.spent, e.stop);
      } else if m.session.core.step in m.journal {
        PreemptPumps(m, m.journal[m.session.core.step], m.pc.spent, e.stop);
      }
    }
  }

  lemma SettlementPumps(m: Machine, usage: Usage, outcome: Outcome, evidenceOk: bool, again: bool)
    requires m.pc.InFlight?
    ensures Pumps(m, SettleDispatch(m, usage, outcome, evidenceOk, again))
  {
    hide Deliver, AwaitEvidence, Sum, MayRetry;
    var entry := Settled(m.pc.request, m.pc.attempt, Sum(m.pc.spent, usage), outcome);
    DeliverPumps(EndAttempt(m, entry, usage), Observe(m.session, m.session.core.step, entry), entry);
  }

  lemma LossPumps(m: Machine, loss: Loss)
    requires m.pc.InFlight?
    ensures Pumps(m, LoseDispatch(m, loss))
  {
    hide FailRun, Account, Sum;
    var head := LostHead(m.pc, loss);
    var ended, s := EndAttempt(m, head, loss.usage), Observe(m.session, m.session.core.step, head);
    FailPumps(ended, s, NoCode);
    AccountKeepsObservation(s, s.core.step, Sum(m.pc.spent, loss.usage), map[]);
    var r := Account(s, s.core.step, Sum(m.pc.spent, loss.usage), map[]);
    if r.Some? {
      FailPumps(ended, r.value, NoCode);
    }
  }

  lemma InFlightPumps(m: Machine, e: Event)
    requires m.pc.InFlight?
    ensures Pumps(m, FromInFlight(m, e))
  {
    hide SettleDispatch, LoseDispatch, WellFormed;
    match e
    case Settle(usage, outcome, evidenceOk, again) => SettlementPumps(m, usage, outcome, evidenceOk, again);
    case Lose(loss) => LossPumps(m, loss);
    case _ =>
  }

  lemma AnsweredPumps(m: Machine, e: Event)
    requires m.pc.Answered?
    ensures Pumps(m, FromAnswered(m, e))
  {
    hide HaltRun, WithoutCalls, CompletedCalls;
    if e.Halt? {
      HaltPumps(m, m.session, e.stop);
    } else if e.Proceed? {
      ToolFreePumps(m, if m.pc.projected then m.session else ProjectTurn(m.session, m.pc.turn), m.pc.turn, e.jobs);
    }
  }

  lemma EndBatchPumps(m: Machine, s: Session, turn: Turn)
    requires StillPumping(m, s) && !m.pc.Parking? && (Exceeds(m, s.core) || SameVerdict(m.session.core, s.core))
    ensures Pumps(m, EndBatch(m, s, turn))
  {
    hide SettleRun;
    if s.core.status == Limited {
      SettlePumps(m, s.(callsPending := false), LimitedPark, s.core.code);
    }
  }

  lemma CompleteKeepsObservation(s: Session, call: Call, output: nat, finishes: bool)
    ensures var s' := CompleteCall(s, call, output, finishes); SameFlags(s, s') && SameVerdict(s.core, s'.core)
  {
  }

  lemma BatchPumps(m: Machine, e: Event)
    requires m.pc.Batch?
    ensures Pumps(m, FromBatch(m, e))
  {
    hide HaltRun, EndBatch;
    if e.Halt? {
      HaltPumps(m, m.session, e.stop);
    } else if e.Go? {
      EndBatchPumps(m, m.session, m.pc.turn);
      var s := m.session.(core := m.session.core.(toolCalls := m.session.core.toolCalls + 1));
      if s.core.toolCalls > m.config.maxToolCalls {
        EndBatchPumps(m, s.(core := s.core.(status := Limited, code := MaxToolCalls)), m.pc.turn);
      }
    }
  }

  lemma CallingPumps(m: Machine, e: Event)
    requires m.pc.Calling?
    ensures Pumps(m, FromCalling(m, e))
  {
    hide HaltRun, CompleteCall;
    if e.Halt? {
      HaltPumps(m, m.session, e.stop);
    } else if e.Complete? && m.pc.next < |m.pc.turn.calls| {
      CompleteKeepsObservation(m.session, m.pc.turn.calls[m.pc.next], e.output, e.finishes);
    }
  }

  lemma ReturnedPumps(m: Machine, e: Event)
    requires m.pc.Returned?
    ensures Pumps(m, FromReturned(m, e))
  {
    hide HaltRun;
    if e.Halt? {
      HaltPumps(m, m.session, e.stop);
    }
  }

  lemma DecidingPumps(m: Machine, e: Event)
    requires m.pc.Deciding?
    ensures Pumps(m, FromDeciding(m, e))
  {
    hide HaltRun, Exhaust, Reprompt, FailRun, SettleRun, LogFinish, Pumps;
    var s, fromFinish := m.session, m.pc.fromFinish;
    if e.Halt? {
      HaltPumps(m, s, e.stop);
    } else if e.Decide? {
      FailPumps(m, s, NoCode);
      LogKeepsVerdict(s, fromFinish);
      LogKeepsVerdict(WithOutcome(s, Failed, OutputRefused), fromFinish);
      LogKeepsVerdict(WithOutcome(s, Limited, OutputTruncated), fromFinish);
      SettlePumps(m, LogFinish(s, fromFinish), SettledPark, NoCode);
      SettlePumps(m, LogFinish(WithOutcome(s, Failed, OutputRefused), fromFinish), SettledPark, OutputRefused);
      SettlePumps(m, LogFinish(WithOutcome(s, Limited, OutputTruncated), fromFinish), LimitedPark, OutputTruncated);
      RejectPumps(m, fromFinish);
    } else {
      StandsStill(m);
    }
  }

  lemma StandsStill(m: Machine)
    requires m.pc.Deciding?
    ensures Pumps(m, m)
  {
  }

  lemma LogKeepsVerdict(s: Session, fromFinish: bool)
    ensures var s' := LogFinish(s, fromFinish);
      SameFlags(s, s') && SameVerdict(s.core, s'.core) && s'.callsPending == s.callsPending
  {
  }

  lemma RejectPumps(m: Machine, fromFinish: bool)
    requires m.pc.Deciding?
    ensures Pumps(m, Exhaust(m, fromFinish)) && Pumps(m, Reprompt(m, fromFinish))
  {
    hide SettleRun, LogFinish;
    var recorded := RecordFailure(m.session);
    var s := DropFinish(WithOutcome(recorded, Limited, ValidatorUnsatisfied), fromFinish);
    LogKeepsVerdict(s, fromFinish);
    SettlePumps(m, LogFinish(s, fromFinish), LimitedPark, ValidatorUnsatisfied);
    LogKeepsVerdict(DropFinish(recorded.(core := recorded.core.(retries := recorded.core.retries + 1)), fromFinish), fromFinish);
  }

  lemma EveryStepPumps(m: Machine, e: Event)
    requires !m.pc.Idle? && !m.pc.Down? && !m.pc.Parking? && !e.Report? && !e.Crash?
    ensures Pumps(m, Next(m, e))
  {
    hide Pumps, FromTop, FromRecovering, FromRecovered, FromReplaying, FromHandling, FromRequesting, FromReady,
         FromInFlight, FromBackoff, FromAnswered, FromBatch, FromCalling, FromReturned, FromDeciding;
    match m.pc
    case Top => TopPumps(m, e);
    case Recovering(_) => RecoveringPumps(m, e);
    case Recovered(_, _, _) => RecoveredPumps(m, e);
    case Replaying(_) => ReplayingPumps(m, e);
    case Handling(_, _) => HandlingPumps(m, e);
    case Requesting(_, _) => RequestingPumps(m, e);
    case Ready(_, _, _) => CallPumps(m, e);
    case InFlight(_, _, _) => InFlightPumps(m, e);
    case Backoff(_, _, _, _) => CallPumps(m, e);
    case Answered(_, _) => AnsweredPumps(m, e);
    case Deciding(_, _) => DecidingPumps(m, e);
    case Batch(_, _, _) => BatchPumps(m, e);
    case Calling(_, _, _) => CallingPumps(m, e);
    case Returned(_, _, _) => ReturnedPumps(m, e);
  }

  // ---------- The invariant ----------

  lemma PumpKeepsEngine(engine: Engine, e: Event)
    requires EngineOk(engine)
    requires var pc := engine.m.pc; !pc.Idle? && !pc.Down? && !pc.Parking? && !e.Report? && !e.Crash?
    ensures EngineOk(Follow(engine, e))
  {
    hide Next, ParkSays;
    EveryStepPumps(engine.m, e);
  }

  lemma ReportStep(m: Machine, e: Event)
    requires e.Report? && !m.pc.Down?
    ensures Next(m, e) == Reported(m, e.task, e.persist)
  {
    hide Reported;
  }

  lemma ReportLeaves(m: Machine, task: Task, persist: Option<Commit>)
    ensures var m' := Reported(m, task, persist);
      && m'.pc == m.pc && m'.session.suspension == m.session.suspension && m'.session.resumeStep == m.session.resumeStep
      && m'.session.core.terminal == m.session.core.terminal && m'.session.callsPending == m.session.callsPending
      && SameButReady(m.session.core, m'.session.core)
      && (m'.durable != m.durable ==>
            && m'.durable.Some? && m'.durable.value.suspension == m.session.suspension
            && m'.durable.value.core == m'.session.core)
  {
    hide TaskIds;
  }

  lemma ReportKeepsEngine(engine: Engine, e: Event)
    requires EngineOk(engine) && !engine.m.pc.Down? && e.Report?
    ensures EngineOk(Follow(engine, e))
  {
    hide Reported, LostTurn, Unsettled, Next;
    ReportStep(engine.m, e);
    ReportLeaves(engine.m, e.task, e.persist);
  }

  lemma ParkKeepsEngine(engine: Engine, e: Event)
    requires EngineOk(engine) && engine.m.pc.Parking? && !e.Report? && !e.Crash?
    ensures EngineOk(Follow(engine, e))
  {
    hide ParkSays;
    assert Next(engine.m, e) == FromParking(engine.m, e);
  }

  lemma IdleKeepsEngine(engine: Engine, e: Event)
    requires EngineOk(engine) && (engine.m.pc.Idle? || engine.m.pc.Down? || e.Crash?) && (e.Report? ==> engine.m.pc.Down?)
    ensures EngineOk(Follow(engine, e))
  {
    hide ParkSays, EvidenceRecovery, AcceptInput, AbandonRecovery;
    if engine.m.pc.Idle? && !e.Crash? {
      AcceptKeepsObservation(engine.m.session);
      RecoveryNeedsObservation(engine.m.session);
    }
  }

  lemma RecoveryNeedsObservation(s: Session)
    ensures EvidenceRecovery(s).Some? ==> s.suspension.Some?
  {
    hide Unapplied;
  }

  lemma AcceptKeepsObservation(s: Session)
    ensures forall text: nat :: SameFlags(EnterPump(s), AcceptInput(EnterPump(s), text))
    ensures forall text: nat :: SameFlags(EnterPump(s), AcceptInput(EnterPump(AbandonRecovery(s)), text))
  {
  }

  lemma FollowKeeps(engine: Engine, e: Event)
    requires EngineOk(engine)
    ensures EngineOk(Follow(engine, e))
  {
    hide EngineOk, Follow;
    if e.Report? && !engine.m.pc.Down? {
      ReportKeepsEngine(engine, e);
    } else if engine.m.pc.Idle? || engine.m.pc.Down? || e.Crash? {
      IdleKeepsEngine(engine, e);
    } else if engine.m.pc.Parking? {
      ParkKeepsEngine(engine, e);
    } else {
      PumpKeepsEngine(engine, e);
    }
  }

  lemma {:induction false} FollowAllKeeps(engine: Engine, events: seq<Event>)
    requires EngineOk(engine)
    ensures EngineOk(FollowAll(engine, events))
    ensures FollowAll(engine, events).m == Run(engine.m, events)
  {
    hide EngineOk, Next, Follow;
    if events != [] {
      FollowAllKeeps(engine, events[..|events| - 1]);
      FollowKeeps(FollowAll(engine, events[..|events| - 1]), events[|events| - 1]);
      FollowIsNext(FollowAll(engine, events[..|events| - 1]), events[|events| - 1]);
    }
  }

  lemma FollowIsNext(engine: Engine, e: Event)
    ensures Follow(engine, e).m == Next(engine.m, e)
  {
    hide FromIdle, FromTop, FromRecovering, FromRecovered, FromReplaying, FromHandling, FromRequesting, FromReady,
         FromInFlight, FromBackoff, FromAnswered, FromBatch, FromCalling, FromReturned, FromDeciding, FromParking, Reported, Rehydrate,
         LostTurn, Unsettled;
  }

  lemma Follows(config: Config, events: seq<Event>)
    ensures EngineOk(FollowAll(Opened(config), events))
    ensures FollowAll(Opened(config), events).m == Run(Initial(config), events)
  {
    hide FollowAll, Run;
    FollowAllKeeps(Opened(config), events);
  }

  // ---------- Checkpoint numbers ----------

  ghost predicate Numbered(m: Machine) {
    m.durable.Some? && !m.pc.Down? ==> m.durable.value.seq_ <= m.session.seq_
  }

  /** A step that replaces the checkpoint gives the new one a higher number. */
  predicate NumberGrows(m: Machine, m': Machine) {
    m'.durable != m.durable ==> m'.durable.Some? && (m.durable.Some? ==> m.durable.value.seq_ < m'.durable.value.seq_)
  }

  lemma NextIsNumbered(m: Machine, e: Event)
    requires Numbered(m)
    ensures Numbered(Next(m, e)) && NumberGrows(m, Next(m, e))
  {
    if m.pc.Down? || e.Crash? {
    } else if e.Report? {
      ReportStep(m, e);
      hide Next, TaskIds;
    } else if m.pc.Idle? {
      hide EvidenceRecovery;
    } else if m.pc.Parking? {
      ParkingStep(m, if e.Persist? then e.commit else Skipped);
    } else {
      EveryStepPumps(m, e);
      hide Next, ParkSays, Marking, SameVerdict, Exceeds;
    }
  }

  lemma {:induction false} RunIsNumbered(config: Config, events: seq<Event>)
    ensures Numbered(Run(Initial(config), events))
  {
    hide Next, Numbered, NumberGrows;
    if events == [] {
      assert Numbered(Initial(config)) by {
        NothingIsNumbered(config);
      }
    } else {
      RunIsNumbered(config, events[..|events| - 1]);
      NextIsNumbered(Run(Initial(config), events[..|events| - 1]), events[|events| - 1]);
    }
  }

  lemma NothingIsNumbered(config: Config)
    ensures Numbered(Initial(config))
  {
  }

  /** Over any run, across crashes and restores, every checkpoint has a higher number than all that were stored before it. */
  lemma {:induction false} CheckpointNumbersIncrease(config: Config, events: seq<Event>, i: nat)
    requires i <= |events|
    ensures var earlier, later := Run(Initial(config), events[..i]).durable, Run(Initial(config), events).durable;
      earlier != later ==>
        later.Some? && (earlier.Some? ==> earlier.value.seq_ < later.value.seq_)
    decreases |events|
  {
    hide Next;
    if i < |events| {
      var before, e := events[..|events| - 1], events[|events| - 1];
      assert before[..i] == events[..i];
      CheckpointNumbersIncrease(config, before, i);
      RunIsNumbered(config, before);
      NextIsNumbered(Run(Initial(config), before), e);
    } else {
      assert events[..i] == events;
    }
  }

  // ---------- The parked run as `close` sees it ----------

  function CodeValue(code: Code): string {
    match code
    case NoCode => ""
    case EvidenceUncommitted => "evidence_uncommitted"
    case MaxToolCalls => "max_tool_calls_exceeded"
    case MaxSteps => "max_steps_exceeded"
    case SizeLimit => "size_limit"
    case Draining => "graceful_drain"
    case Cancelled => "cancelled"
    case OutputRefused => "output_refused"
    case OutputTruncated => "output_truncated"
    case ValidatorUnsatisfied => "output_validator_unsatisfied"
    case RunError => "run_error"
  }

  function NoteOf(observation: Option<Suspension>): Option<Parks.Note> {
    match observation
    case None => None
    case Some(s) => Some(Parks.Note(s.reason, "", CodeValue(s.code), false, false, s.callsPending))
  }

  function FailureOf(code: Option<Code>): Option<Parks.TurnFailure> {
    match code
    case None => None
    case Some(c) => Some(Parks.TurnFailure("", CodeValue(c)))
  }

  // What the machine does not carry (texts, clocks, a pending cancellation) is left at its default.
  function AsLive(engine: Engine, started: real): Parks.Live {
    var s := engine.m.session;
    Parks.Live(0, s.core.status, "", CodeValue(s.core.code), "", s.core.usage, [], s.core.step, s.core.terminal,
               NoteOf(s.suspension), s.seq_, None, false, false, FailureOf(engine.failure), engine.midturn, None,
               started, None, false, s.callsPending, s.resumeStep)
  }

  function Closing(engine: Engine): Parks.Verdict {
    Parks.VerdictOf(AsLive(engine, 0.0))
  }

  // ---------- A crash at a park ----------

  ghost function Restarted(engine: Engine): Engine {
    Follow(Follow(engine, Crash), Restore)
  }

  predicate Observed(commit: Commit) {
    commit.Committed? || commit.Declined?
  }

  predicate Stores(commit: Commit) {
    commit.Committed? || commit.RaisedStored?
  }

  /** Reports that come in while parked; a checkpoint is made of one only over an observation. */
  predicate ReportsOver(commit: Commit, reports: seq<Event>) {
    forall i :: 0 <= i < |reports| ==> reports[i].Report? && (reports[i].persist.Some? ==> Observed(commit))
  }

  predicate ParkIsStored(commit: Commit, reports: seq<Event>) {
    Stores(commit) || exists i :: 0 <= i < |reports| && reports[i].Report? && reports[i].persist.Some? && Stores(reports[i].persist.value)
  }

  /** The park of `engine` has been persisted as `commit` says and the reports have come in. */
  ghost function AtRest(engine: Engine, commit: Commit, reports: seq<Event>): Engine {
    FollowAll(Follow(engine, Persist(commit)), reports)
  }

  /** Reports change nothing about the park; what is stored of it, if anything is, is the park itself. */
  ghost predicate Resting(engine: Engine, rest: Engine, commit: Commit, stored: bool)
    requires engine.m.pc.Parking?
  {
    && rest.m.pc.Idle? && rest.failure == engine.failure && rest.midturn == engine.midturn
    && SameButReady(engine.m.session.core, rest.m.session.core)
    && rest.m.session.suspension == (if Observed(commit) then Some(engine.m.pc.suspension) else None)
    && rest.m.session.callsPending == engine.m.session.callsPending && !rest.m.session.resumeStep
    && (stored ==>
          && rest.m.durable.Some?
          && rest.m.durable.value.suspension == Some(engine.m.pc.suspension)
          && SameButReady(engine.m.session.core, rest.m.durable.value.core))
    && (!stored ==> rest.m.durable == engine.m.durable)
  }

  lemma ParkRests(engine: Engine, commit: Commit)
    requires EngineOk(engine) && engine.m.pc.Parking?
    ensures Resting(engine, AtRest(engine, commit, []), commit, ParkIsStored(commit, []))
  {
    hide ParkSays, LostTurn, Unsettled, Next;
    ParkingStep(engine.m, commit);
  }

  lemma {:induction false} ReportsRest(engine: Engine, commit: Commit, reports: seq<Event>)
    requires EngineOk(engine) && engine.m.pc.Parking? && ReportsOver(commit, reports)
    ensures Resting(engine, AtRest(engine, commit, reports), commit, ParkIsStored(commit, reports))
  {
    hide EngineOk, ParkIsStored, Resting, Follow;
    if reports == [] {
      ParkRests(engine, commit);
    } else {
      var before, last := reports[..|reports| - 1], reports[|reports| - 1];
      ReportsRest(engine, commit, before);
      StoredSoFar(commit, reports);
      OneMoreReport(engine, AtRest(engine, commit, before), commit, ParkIsStored(commit, before), last);
    }
  }

  lemma ParkingStep(m: Machine, commit: Commit)
    requires m.pc.Parking?
    ensures Next(m, Persist(commit)) == FromParking(m, Persist(commit))
  {
    hide FromParking;
  }

  lemma StoredSoFar(commit: Commit, reports: seq<Event>)
    requires reports != [] && forall i :: 0 <= i < |reports| ==> reports[i].Report?
    ensures var last := reports[|reports| - 1];
      ParkIsStored(commit, reports) <==>
      ParkIsStored(commit, reports[..|reports| - 1]) || (last.persist.Some? && Stores(last.persist.value))
  {
    hide Stores;
    var before := reports[..|reports| - 1];
    assert forall i :: 0 <= i < |before| ==> reports[i] == before[i];
  }

  lemma OneMoreReport(engine: Engine, rest: Engine, commit: Commit, stored: bool, e: Event)
    requires engine.m.pc.Parking? && Resting(engine, rest, commit, stored)
    requires e.Report? && (e.persist.Some? ==> Observed(commit))
    ensures Resting(engine, Follow(rest, e), commit, stored || (e.persist.Some? && Stores(e.persist.value)))
  {
    hide TaskIds, LostTurn, Unsettled, Next;
    ReportStep(rest.m, e);
  }

  /**
   Closing a parked run gives the same verdict in process and after a crash and a restart once the park, or
   a later report over it, is stored; otherwise the restart is that of the checkpoint stored before.
  */
  lemma ClosingSurvivesRestart(config: Config, events: seq<Event>, commit: Commit, reports: seq<Event>)
    requires FollowAll(Opened(config), events).m.pc.Parking? && ReportsOver(commit, reports)
    ensures var engine := FollowAll(Opened(config), events);
      var rest := AtRest(engine, commit, reports);
      && rest.m.pc.Idle? && Restarted(rest).m.pc.Idle?
      && (ParkIsStored(commit, reports) ==> Closing(Restarted(rest)) == Closing(rest))
      && (!ParkIsStored(commit, reports) ==> Restarted(rest).m.session == Rehydrate(engine.m.durable))
  {
    hide FollowAll, ParkIsStored;
    Follows(config, events);
    var engine := FollowAll(Opened(config), events);
    ReportsRest(engine, commit, reports);
    hide AtRest;
    RestartReads(engine, AtRest(engine, commit, reports), commit, ParkIsStored(commit, reports));
  }

  lemma RestartReads(engine: Engine, rest: Engine, commit: Commit, stored: bool)
    requires EngineOk(engine) && engine.m.pc.Parking? && Resting(engine, rest, commit, stored)
    ensures Restarted(rest).m.pc.Idle?
    ensures Restarted(rest).m.session == Rehydrate(rest.m.durable)
    ensures stored ==> Closing(Restarted(rest)) == Closing(rest)
  {
    hide ParkSays, Next, Closing, LostTurn, Unsettled;
    RestoreStep(rest.m);
    if stored {
      ClosesAlike(Restarted(rest), rest);
    }
  }

  lemma ClosesAlike(a: Engine, b: Engine)
    requires a.failure == b.failure && a.midturn == b.midturn
    requires var x, y := a.m.session.core, b.m.session.core; x.status == y.status && x.code == y.code && x.terminal == y.terminal
    ensures Closing(a) == Closing(b)
  {
    hide CodeValue, NoteOf, FailureOf, Parks.CauseValue, Parks.ReasonValue;
  }

  /** Only a settled run, or one that waits for its tasks, can close as completed; every other close keeps its checkpoints. */
  lemma CompletedMeansSettled(config: Config, events: seq<Event>)
    requires var engine := FollowAll(Opened(config), events);
      && engine.m.pc.Idle? && engine.m.session.suspension.Some?
      && !engine.m.session.suspension.value.reason.SettledPark? && !engine.m.session.suspension.value.reason.AwaitingTasks?
    ensures var verdict := Closing(FollowAll(Opened(config), events));
      verdict.status != Completed && verdict.keepsCheckpoints
  {
    hide FollowAll, CodeValue;
    Follows(config, events);
    hide EngineOk;
    var engine := FollowAll(Opened(config), events);
    Unfinished(engine);
    NotCompleted(engine, engine.m.session.suspension.value);
  }

  /** That holds in process however the park's own commit went, and whatever is reported after it. */
  lemma UnfinishedParkNeverCompletes(config: Config, events: seq<Event>, commit: Commit, reports: seq<Event>)
    requires var engine := FollowAll(Opened(config), events);
      && engine.m.pc.Parking? && !engine.m.pc.suspension.reason.SettledPark? && !engine.m.pc.suspension.reason.AwaitingTasks?
    requires ReportsOver(commit, reports)
    ensures var verdict := Closing(AtRest(FollowAll(Opened(config), events), commit, reports));
      verdict.status != Completed && verdict.keepsCheckpoints
  {
    hide FollowAll, ParkIsStored;
    Follows(config, events);
    var engine := FollowAll(Opened(config), events);
    ReportsRest(engine, commit, reports);
    hide AtRest;
    NotCompleted(AtRest(engine, commit, reports), engine.m.pc.suspension);
  }

  /** What was stored last is nothing, or a run with its outcome complete and no turn left open. */
  predicate SettledBefore(durable: Option<Checkpoint>) {
    match durable
    case None => true
    case Some(cp) =>
      cp.core.status.Completed? && (cp.core.terminal || cp.suspension.None? || !LeavesTurnOpen(cp.suspension.value.reason))
  }

  /**
   The exact condition, for a park that is not stored: a restart closes the run as completed iff what was
   stored before it was settled; in process an unfinished park never does.
  */
  lemma UnstoredParkClosesCompletedIff(config: Config, events: seq<Event>, commit: Commit, reports: seq<Event>)
    requires FollowAll(Opened(config), events).m.pc.Parking?
    requires ReportsOver(commit, reports) && !ParkIsStored(commit, reports)
    ensures var engine := FollowAll(Opened(config), events);
      var reason, rest := engine.m.pc.suspension.reason, AtRest(engine, commit, reports);
      && (!reason.SettledPark? && !reason.AwaitingTasks? ==> Closing(rest).status != Completed)
      && (Closing(Restarted(rest)).status == Completed <==> SettledBefore(engine.m.durable))
  {
    hide FollowAll, ParkIsStored;
    Follows(config, events);
    var engine := FollowAll(Opened(config), events);
    ReportsRest(engine, commit, reports);
    hide AtRest;
    var rest := AtRest(engine, commit, reports);
    if !engine.m.pc.suspension.reason.SettledPark? && !engine.m.pc.suspension.reason.AwaitingTasks? {
      NotCompleted(rest, engine.m.pc.suspension);
    }
    RestartCloses(rest);
  }

  /** A restart closes as what it reads back. */
  lemma RestartCloses(engine: Engine)
    requires !engine.m.pc.Down?
    ensures Closing(Restarted(engine)).status == Completed <==> SettledBefore(engine.m.durable)
  {
    hide Next, CodeValue, Parks.CauseValue, Parks.ReasonValue;
    RestoreStep(engine.m);
  }

  lemma Unfinished(engine: Engine)
    requires EngineOk(engine) && engine.m.pc.Idle? && engine.m.session.suspension.Some?
    ensures ParkSays(engine.m.session.core, engine.m.session.suspension.value) && Marks(engine, engine.m.session.suspension)
  {
    hide ParkSays, Marks;
  }

  lemma NotCompleted(engine: Engine, suspension: Suspension)
    requires ParkSays(engine.m.session.core, suspension) && Marks(engine, Some(suspension))
    requires !suspension.reason.SettledPark? && !suspension.reason.AwaitingTasks?
    ensures Closing(engine).status != Completed && Closing(engine).keepsCheckpoints
  {
    hide CodeValue, Parks.CauseValue, Parks.ReasonValue;
  }

  /** At a park the markers are the ones its observation reads back as: the hypothesis of `Park.CloseSurvivesRestart`. */
  lemma ObservedParksAreClassified(config: Config, events: seq<Event>)
    requires var m := FollowAll(Opened(config), events).m; m.pc.Idle? && m.session.suspension.Some?
    ensures Parks.ParkIsCommitted(AsLive(FollowAll(Opened(config), events), 0.0))
  {
    hide FollowAll, CodeValue;
    Follows(config, events);
    hide EngineOk;
    var engine := FollowAll(Opened(config), events);
    Unfinished(engine);
    MarkedIsCommitted(engine);
  }

  lemma MarkedIsCommitted(engine: Engine)
    requires Marks(engine, engine.m.session.suspension)
    ensures Parks.ParkIsCommitted(AsLive(engine, 0.0))
  {
    hide CodeValue;
    var note := NoteOf(engine.m.session.suspension);
    assert AsLive(engine, 0.0).note == note;
    assert Parks.FailureOf(note) == FailureOf(LostTurn(engine.m.session.suspension));
    assert Parks.MidturnOf(note) == Unsettled(engine.m.session.suspension);
  }

  /**
   A crash at a committed park changes nothing at all, iff no tool calls are pending there or the park is an
   interruption; otherwise the restored session forgets the pending calls and nothing else.
  */
  lemma CrashAtParkIsInvisibleIff(config: Config, events: seq<Event>, reports: seq<Event>)
    requires FollowAll(Opened(config), events).m.pc.Parking?
    requires forall i :: 0 <= i < |reports| ==> reports[i].Report? && reports[i].persist == Some(Committed)
    ensures var engine := FollowAll(Opened(config), events);
      var rest := AtRest(engine, Committed, reports);
      && (Restarted(rest) == rest <==>
            (engine.m.session.callsPending ==> engine.m.pc.suspension.reason.InterruptedPark?))
      && Restarted(rest) == rest.(m := rest.m.(session := rest.m.session.(callsPending := engine.m.pc.suspension.callsPending)))
  {
    hide FollowAll, ParkIsStored, AtRest;
    Follows(config, events);
    var engine := FollowAll(Opened(config), events);
    ReportsRest(engine, Committed, reports);
    StoredByItself(reports);
    LastStoreIsLive(engine, reports);
    CommittedRestart(engine, AtRest(engine, Committed, reports));
  }

  lemma CommittedRestart(engine: Engine, rest: Engine)
    requires EngineOk(engine) && engine.m.pc.Parking? && Resting(engine, rest, Committed, true)
    requires rest.m.durable == Some(RunModel.Checkpoint(rest.m.session.core, rest.m.session.suspension, rest.m.session.seq_))
    ensures Restarted(rest) == rest <==>
      (engine.m.session.callsPending ==> engine.m.pc.suspension.reason.InterruptedPark?)
    ensures Restarted(rest) == rest.(m := rest.m.(session := rest.m.session.(callsPending := engine.m.pc.suspension.callsPending)))
  {
    hide ParkSays, SameButReady, Next;
    RestoreStep(rest.m);
  }

  lemma RestoreStep(m: Machine)
    requires !m.pc.Down?
    ensures Next(m, Crash) == m.(pc := Down)
    ensures Next(m.(pc := Down), Restore) == m.(pc := Idle, session := Rehydrate(m.durable))
  {
    hide Rehydrate;
  }

  lemma StoredByItself(reports: seq<Event>)
    ensures ParkIsStored(Committed, reports)
  {
  }

  lemma {:induction false} LastStoreIsLive(engine: Engine, reports: seq<Event>)
    requires EngineOk(engine) && engine.m.pc.Parking?
    requires forall i :: 0 <= i < |reports| ==> reports[i].Report? && reports[i].persist == Some(Committed)
    ensures var m := AtRest(engine, Committed, reports).m;
      m.pc.Idle? && m.session.suspension.Some?
      && m.durable == Some(RunModel.Checkpoint(m.session.core, m.session.suspension, m.session.seq_))
  {
    if reports == [] {
      hide Next;
      ParkingStep(engine.m, Committed);
    } else {
      var before, last := reports[..|reports| - 1], reports[|reports| - 1];
      LastStoreIsLive(engine, before);
      hide EngineOk, TaskIds, Next, LostTurn, Unsettled;
      ReportStep(AtRest(engine, Committed, before).m, last);
    }
  }

  // ---------- The restored session, field by field ----------

  lemma {:induction false} TotalsAreNeverEmpty(amounts: seq<Usage>)
    ensures InputTokens in TotalOf(amounts)
  {
    if amounts != [] {
      TotalsAreNeverEmpty(amounts[..|amounts| - 1]);
    }
  }

  /** At a committed park the machine's crash and restore are `Park`'s snapshot and reopening. */
  lemma RestartIsReopen(config: Config, events: seq<Event>, before: real, parkedAt: real, after: real)
    requires Allowed(ReportsAtPark, Initial(config), events) && FollowAll(Opened(config), events).m.pc.Parking?
    ensures var parked := Follow(FollowAll(Opened(config), events), Persist(Committed));
      Parks.Reopen(Parks.TakeSnapshot(AsLive(parked, before), parkedAt).value, [], after, None, true)
        == Success(AsLive(Restarted(parked), after))
  {
    hide FollowAll, Inv, Run, Allowed;
    Follows(config, events);
    RunKeeps(config, events);
    hide EngineOk, Follow, Restarted, AsLive, Parks.Reopen, Parks.TakeSnapshot;
    ParkReopens(FollowAll(Opened(config), events), before, parkedAt, after);
  }

  lemma ParkReopens(engine: Engine, before: real, parkedAt: real, after: real)
    requires EngineOk(engine) && Inv(engine.m) && engine.m.pc.Parking?
    ensures var parked := Follow(engine, Persist(Committed));
      Parks.Reopen(Parks.TakeSnapshot(AsLive(parked, before), parkedAt).value, [], after, None, true)
        == Success(AsLive(Restarted(parked), after))
  {
    hide Next, ParkSays, CodeValue, LiveOk;
    UsageIsNeverEmpty(engine.m);
    hide Inv;
    ParkingStep(engine.m, Committed);
    RestoreStep(Follow(engine, Persist(Committed)).m);
    var nothing: seq<Parks.Output> := [];
    assert nothing + [] == nothing;
  }

  lemma UsageIsNeverEmpty(m: Machine)
    requires Inv(m) && !m.pc.Down?
    ensures m.session.core.usage != map[]
  {
    hide PcOk, DurableOk, InvocationOk;
    TotalsAreNeverEmpty(Amounts(m.session.core.bills));
  }
}
