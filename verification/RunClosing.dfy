/**
 Where turns begin and end: when a submit is accepted and what it forgets, which stop, loss, refusal or decision
 leads to which park, and what a run that came to a park closes as, in process and after a restart.
*/
module RunClosing {
  import opened Wrappers
  import opened RunModel
  import opened RunParks
  import Parks = Park
  import Usages = Usage

  // ---------- A submit ----------

  /** The fields that describe the outcome of a turn. */
  predicate SameButOutcome(m: Machine, other: Machine) {
    var core := other.session.core;
    other == m.(session := m.session.(core := m.session.core.(
      status := core.status, code := core.code, retries := core.retries, failures := core.failures,
      finish := core.finish, local := core.local)))
  }

  /** However the turn before went, an accepted submit begins the same turn, with nothing on its record. */
  lemma SubmitForgets(m: Machine, other: Machine, text: nat)
    requires m.pc.Idle? && SameButOutcome(m, other)
    ensures Next(m, Submit(text)).pc.Top? <==> Next(other, Submit(text)).pc.Top?
    ensures Next(m, Submit(text)).pc.Top? ==> Next(m, Submit(text)) == Next(other, Submit(text))
    ensures Next(m, Submit(text)).pc.Top? ==>
      var core := Next(m, Submit(text)).session.core;
      && core.status == Completed && core.code == NoCode && core.retries == 0 && core.failures == [] && core.local == 0
      && !core.finish && core.input == Some(Input(m.session.core.submits + 1, text))
  {
    assert EvidenceRecovery(m.session) == EvidenceRecovery(other.session) by {
      hide ProjectedToolTurn;
    }
    hide EvidenceRecovery;
  }

  /**
   A submit is refused, and changes nothing, exactly where it would abandon work that must be finished first: a
   paid answer that waits for its required evidence, or a batch stopped half-way. Over an interrupted answer it
   is accepted, and gives up what was kept for it.
  */
  lemma SubmitIsRefusedIff(m: Machine, text: nat)
    requires m.pc.Idle?
    ensures var m', s := Next(m, Submit(text)), m.session;
      var waits := s.suspension.Some? && Unapplied(s).Some?;
      && (m'.pc.Top? || m' == m)
      && (m' == m <==>
            || s.core.terminal
            || (waits && s.suspension.value.code.EvidenceUncommitted?)
            || (waits && s.suspension.value.reason.InterruptedPark? && s.suspension.value.callsPending))
      && (m'.pc.Top? ==>
            if waits && s.suspension.value.reason.InterruptedPark? then m'.session.core.observations == [] && !m'.session.callsPending
            else m'.session.core.observations == s.core.observations && m'.session.callsPending == s.callsPending)
  {
    hide Unapplied;
  }

  /**
   A pause is no more than a pause: parked at the loop head, however its checkpoint is committed, and resumed, the
   run is where it was, with nothing changed but its checkpoint and the number of that.
  */
  lemma PausedRunGoesOn(m: Machine, commit: Commit)
    requires m.pc.Top? && !m.session.resumeStep && m.session.core.local < m.config.maxSteps
    requires m.session.suspension.None? && !m.session.core.terminal
    ensures var paused, r := Next(m, Pause), Next(Next(Next(m, Pause), Persist(commit)), Resume);
      && paused.pc == Parking(Suspension(PausedPark, NoCode, false))
      && r == m.(session := m.session.(seq_ := r.session.seq_), durable := r.durable)
      && (commit.Committed? ==>
            r.durable == Some(Checkpoint(m.session.core, Some(Suspension(PausedPark, NoCode, false)), r.session.seq_)))
  {
    hide Unapplied;
    var paused := m.(pc := Parking(Suspension(PausedPark, NoCode, false)));
    assert Next(m, Pause) == paused;
    PauseIsTakenUp(paused, commit);
    hide Next;
  }

  lemma PauseIsTakenUp(m: Machine, commit: Commit)
    requires m.pc == Parking(Suspension(PausedPark, NoCode, false)) && m.session.suspension.None? && !m.session.core.terminal
    ensures var r := Next(Next(m, Persist(commit)), Resume);
      && r == m.(pc := Top, session := m.session.(seq_ := r.session.seq_), durable := r.durable)
      && (commit.Committed? ==>
            r.durable == Some(Checkpoint(m.session.core, Some(Suspension(PausedPark, NoCode, false)), r.session.seq_)))
  {
    hide Unapplied;
  }

  /** Program points between two pieces of work, where every stop is seen. */
  predicate SeesStops(m: Machine) {
    match m.pc
    case Top => !m.session.resumeStep && m.session.core.local < m.config.maxSteps
    case Batch(turn, next, done) => next < |turn.calls| && turn.calls[next].id !in done
    case _ =>
      m.pc.Recovered? || m.pc.Handling? || m.pc.Answered? || m.pc.Calling? || m.pc.Returned? || m.pc.Deciding?
  }

  /** The park a stop means: a user's and a drain leave the turn open, with its pending calls on record; a run's own ends it. */
  function StoppedPark(m: Machine, stop: Stop): Suspension {
    match stop
    case UserStop => Suspension(InterruptedPark, NoCode, m.session.callsPending)
    case DrainStop => Suspension(InterruptedPark, Draining, m.session.callsPending)
    case RunStop => Suspension(TerminalPark, Cancelled, false)
  }

  lemma StopsAreHeeded(m: Machine, stop: Stop)
    requires SeesStops(m)
    ensures Next(m, Halt(stop)).pc == Parking(StoppedPark(m, stop))
    ensures Next(m, Halt(stop)).session.core.terminal <==> stop.RunStop? || m.session.core.terminal
    ensures Next(m, Halt(stop)).session.core.messages == m.session.core.messages
  {
    hide Next;
    HaltStep(m, stop);
    hide Unapplied;
  }

  lemma HaltStep(m: Machine, stop: Stop)
    requires SeesStops(m)
    ensures Next(m, Halt(stop)) == HaltRun(m, m.session, stop)
  {
    hide HaltRun;
  }

  /** A call whose outcome is lost fails the run; a cancelled driver leaves it open, unparked, to be taken up again. */
  lemma LostCallEnds(m: Machine, loss: Loss)
    requires m.pc.InFlight? && Usages.WellFormed(loss.usage)
    ensures var m' := Next(m, Lose(loss));
      && m'.session.core.messages == m.session.core.messages
      && (!loss.TaskCancelled? ==> m'.pc == Parking(Suspension(TerminalPark, RunError, false)) && m'.session.core.terminal)
      && (loss.TaskCancelled? ==>
            m'.pc.Parking? || (m'.pc.Idle? && m'.session.suspension == m.session.suspension
                               && m'.session.core.terminal == m.session.core.terminal))
  {
    hide Next;
    LoseStep(m, loss);
    var head := LostHead(m.pc, loss);
    AccountKeepsObservation(Observe(m.session, m.session.core.step, head), m.session.core.step,
                            Usages.Sum(m.pc.spent, loss.usage), map[]);
    AccountLogsNothing(Observe(m.session, m.session.core.step, head), m.session.core.step, Usages.Sum(m.pc.spent, loss.usage));
    hide Account, Usages.Sum;
  }

  lemma AccountLogsNothing(s: Session, step: nat, receipt: Usages.Usage)
    ensures var r := Account(s, step, receipt, map[]); r.Some? ==> r.value.core.messages == s.core.messages
  {
    hide Usages.Covers, Usages.DeltaOf, Usages.Sum;
  }

  lemma LoseStep(m: Machine, loss: Loss)
    requires m.pc.InFlight? && Usages.WellFormed(loss.usage)
    ensures Next(m, Lose(loss)) == LoseDispatch(m, loss)
  {
    hide LoseDispatch;
  }

  /**
   A refusal that settled is absorbed and tried again exactly when its evidence is in order, it may be retried, the
   plan has an attempt left and nothing stops the driver; else it fails the turn, or the run if it is not recoverable.
  */
  lemma RefusalGoes(m: Machine, usage: Usages.Usage, recoverable: bool, retryable: bool, evidenceOk: bool, again: bool)
    requires m.pc.InFlight? && Usages.WellFormed(usage) && Usages.WellFormed(m.pc.spent)
    ensures var m' := Next(m, Settle(usage, Refused(recoverable, retryable), evidenceOk, again));
      var waits := m.config.evidenceRequired && !evidenceOk;
      && (m'.pc.Backoff? <==> !waits && again && retryable && m.pc.attempt < m.config.maxAttempts)
      && (waits ==> m'.pc == Parking(Suspension(TurnFailed, EvidenceUncommitted, false)))
      && (!waits && !m'.pc.Backoff? ==>
            m'.pc == Parking(if recoverable then Suspension(TurnFailed, NoCode, false) else Suspension(TerminalPark, RunError, false)))
  {
    hide Next;
    SettleStep(m, usage, Refused(recoverable, retryable), evidenceOk, again);
    AnyReceiptCovers(Usages.Sum(m.pc.spent, usage)) by {
      SumIsWellFormed(m.pc.spent, usage);
    }
    hide Usages.Sum, Usages.Covers, Usages.DeltaOf;
  }

  lemma SumIsWellFormed(a: Usages.Usage, b: Usages.Usage)
    requires Usages.WellFormed(a) && Usages.WellFormed(b)
    ensures Usages.WellFormed(Usages.Sum(a, b))
  {
  }

  lemma AnyReceiptCovers(receipt: Usages.Usage)
    requires Usages.WellFormed(receipt)
    ensures Usages.Covers(receipt, map[])
  {
  }

  lemma SettleStep(m: Machine, usage: Usages.Usage, outcome: Outcome, evidenceOk: bool, again: bool)
    requires m.pc.InFlight? && Usages.WellFormed(usage)
    ensures Next(m, Settle(usage, outcome, evidenceOk, again)) == SettleDispatch(m, usage, outcome, evidenceOk, again)
  {
    hide SettleDispatch;
  }

  // ---------- The verdict of a park ----------

  /** What closing makes of a park whose reason is not that the turn settled or waits for its tasks. */
  predicate ClosesAs(suspension: Suspension, verdict: Parks.Verdict) {
    var code := CodeValue(suspension.code);
    match suspension.reason
    case TurnFailed => verdict.status == Failed && verdict.errorCode == if code == "" then "model_error" else code
    case InterruptedPark => verdict.status == Limited && verdict.errorCode == "closed_unsettled"
    case PausedPark => verdict.status == Limited && verdict.errorCode == "closed_unsettled"
    case LimitedPark => verdict.status == Limited && verdict.errorCode == code
    case TerminalPark => verdict.status == (if suspension.code.Cancelled? then Limited else Failed) && verdict.errorCode == code
    case _ => suspension.code.OutputRefused? && suspension.reason.SettledPark? ==>
        verdict.status == Failed && verdict.errorCode == "output_refused"
  }

  lemma ParkDecides(engine: Engine, suspension: Suspension)
    requires ParkSays(engine.m.session.core, suspension) && Marks(engine, Some(suspension))
    ensures !engine.m.session.core.terminal || !LeavesTurnOpen(suspension.reason)
    ensures ClosesAs(suspension, Closing(engine))
  {
    hide Parks.CauseValue, Parks.ReasonValue;
  }

  /**
   Over any run: closed in process, whatever became of its park's own commit and whatever was reported since, a
   run closes as the park it came to says.
  */
  lemma ClosesAsItParked(config: Config, events: seq<Event>, commit: Commit, reports: seq<Event>)
    requires FollowAll(Opened(config), events).m.pc.Parking? && ReportsOver(commit, reports)
    ensures var engine := FollowAll(Opened(config), events);
      ClosesAs(engine.m.pc.suspension, Closing(AtRest(engine, commit, reports)))
  {
    hide FollowAll, ParkIsStored;
    Follows(config, events);
    var engine := FollowAll(Opened(config), events);
    ReportsRest(engine, commit, reports);
    hide AtRest, ClosesAs, Closing, CodeValue;
    ParkDecides(AtRest(engine, commit, reports), engine.m.pc.suspension);
  }

  // ---------- The verdict of a decision ----------

  /** The park a decided turn comes to, unless it is asked again. */
  function DecidedPark(m: Machine, verdict: RunModel.Verdict): Option<Suspension>
    requires m.pc.Deciding?
  {
    match m.pc.turn.stop
    case Refusal => Some(Suspension(SettledPark, OutputRefused, false))
    case Length => Some(Suspension(LimitedPark, OutputTruncated, false))
    case Normal =>
      match verdict
      case Passed => Some(Suspension(SettledPark, NoCode, false))
      case Defect => Some(Suspension(TerminalPark, RunError, false))
      case Rejected =>
        if m.session.core.retries >= m.config.maxRetries then Some(Suspension(LimitedPark, ValidatorUnsatisfied, false)) else None
  }

  lemma DecisionParks(m: Machine, verdict: RunModel.Verdict)
    requires m.pc.Deciding? && DecidedPark(m, verdict).Some?
    ensures Next(m, Decide(verdict)).pc == Parking(DecidedPark(m, verdict).value)
  {
    hide AppendObservations;
  }

  /** A rejected answer that may be repaired: asked again, with the repair message last and a retry on record. */
  lemma RejectedIsAskedAgain(m: Machine)
    requires m.pc.Deciding? && DecidedPark(m, Rejected).None?
    ensures var m', core := Next(m, Decide(Rejected)), m.session.core;
      var messages := m'.session.core.messages;
      && m'.pc.Top? && m'.session.core.retries == core.retries + 1 && core.messages < messages
      && messages[|messages| - 1] == RepairMessage && m'.session.core.observations == []
      && (m.pc.fromFinish ==> !m'.session.core.finish)
  {
    hide ObservationMessages;
    assert Next(m, Decide(Rejected)) == Reprompt(m, m.pc.fromFinish);
    hide Next;
  }

  /**
   Over any run: a refused turn closes as failed and a truncated one as limited, whatever its validators say; a
   defect of theirs closes as failed, and an answer they reject once too often as limited.
  */
  lemma DecidedTurnClosesAs(config: Config, events: seq<Event>, verdict: RunModel.Verdict, commit: Commit, reports: seq<Event>)
    requires var m := FollowAll(Opened(config), events).m;
      m.pc.Deciding? && DecidedPark(m, verdict).Some? && !(m.pc.turn.stop.Normal? && verdict.Passed?)
    requires ReportsOver(commit, reports)
    ensures var engine := FollowAll(Opened(config), events);
      var closing := Closing(AtRest(Follow(engine, Decide(verdict)), commit, reports));
      && closing.keepsCheckpoints
      && match engine.m.pc.turn.stop
         case Refusal => closing.status == Failed && closing.errorCode == "output_refused"
         case Length => closing.status == Limited && closing.errorCode == "output_truncated"
         case Normal =>
           if verdict.Defect? then closing.status == Failed && closing.errorCode == "run_error"
           else closing.status == Limited && closing.errorCode == "output_validator_unsatisfied"
  {
    hide Follow, AtRest, ParkIsStored, Closing, Next, DecidedPark;
    var engine := FollowAll(Opened(config), events);
    OneMore(Opened(config), events, Decide(verdict));
    hide FollowAll;
    DecisionParks(engine.m, verdict);
    FollowIsNext(engine, Decide(verdict));
    ClosesAsItParked(config, events + [Decide(verdict)], commit, reports);
    var parked := Follow(engine, Decide(verdict));
    DecisionCloses(engine.m, verdict, Closing(AtRest(parked, commit, reports)));
    KeepsUnlessCompleted(AtRest(parked, commit, reports));
  }

  lemma OneMore(engine: Engine, events: seq<Event>, e: Event)
    ensures FollowAll(engine, events + [e]) == Follow(FollowAll(engine, events), e)
  {
    hide Follow;
    var all := events + [e];
    assert all[..|all| - 1] == events;
  }

  lemma DecisionCloses(m: Machine, verdict: RunModel.Verdict, closing: Parks.Verdict)
    requires m.pc.Deciding? && DecidedPark(m, verdict).Some? && !(m.pc.turn.stop.Normal? && verdict.Passed?)
    requires ClosesAs(DecidedPark(m, verdict).value, closing)
    ensures closing.status != Completed
    ensures match m.pc.turn.stop
      case Refusal => closing.status == Failed && closing.errorCode == "output_refused"
      case Length => closing.status == Limited && closing.errorCode == "output_truncated"
      case Normal =>
        if verdict.Defect? then closing.status == Failed && closing.errorCode == "run_error"
        else closing.status == Limited && closing.errorCode == "output_validator_unsatisfied"
  {
  }

  lemma KeepsUnlessCompleted(engine: Engine)
    ensures Closing(engine).status != Completed ==> Closing(engine).keepsCheckpoints
  {
    hide CodeValue, Parks.CauseValue, Parks.ReasonValue;
  }

  /** A tool-free answer waits for outstanding tasks before anything else; without them it is decided or is no answer. */
  lemma ToolFreeAnswerGoes(m: Machine, jobs: bool)
    requires m.pc.Answered? && m.pc.turn.calls == []
    ensures var m', turn := Next(m, Proceed(jobs)), m.pc.turn;
      && m'.session.core.messages == m.session.core.messages + (if m.pc.projected then [] else [AssistantMessage(m.session.core.step, turn)])
      && (jobs ==> m'.pc == Parking(Suspension(AwaitingTasks, NoCode, false)))
      && (!jobs && (turn.hasText || !turn.stop.Normal?) ==> m'.pc == Deciding(turn, false))
      && (!jobs && !turn.hasText && turn.stop.Normal? ==> m'.pc == Parking(Suspension(TerminalPark, RunError, false)))
  {
    hide Next;
    AnsweredStep(m, jobs);
    assert m.session.core.messages + [] == m.session.core.messages;
  }

  lemma AnsweredStep(m: Machine, jobs: bool)
    requires m.pc.Answered?
    ensures Next(m, Proceed(jobs)) == FromAnswered(m, Proceed(jobs))
  {
    hide FromAnswered;
  }

  // ---------- A turn that nothing disturbs ----------

  predicate Clean(core: Core) {
    core.status == Completed && core.code == NoCode
  }

  /** The checkpoint was made since the last submit. */
  predicate StoredSince(m: Machine) {
    m.durable.Some? && m.durable.value.core.submits == m.session.core.submits
  }

  ghost predicate CleanInv(m: Machine) {
    if m.pc.Down? then m.durable.Some? && Clean(m.durable.value.core)
    else
      && Clean(m.session.core)
      && (m.durable.Some? ==> m.durable.value.core.submits <= m.session.core.submits)
      && (StoredSince(m) ==> Clean(m.durable.value.core))
  }

  /** No limit, refusal, drain or cancellation, no call beyond the tool budget, and no crash back to before the submit. */
  ghost predicate Undisturbed(m: Machine, e: Event) {
    var m' := Next(m, e);
    && (m'.pc.Parking? && !m.pc.Parking? ==> !Marking(m'.pc.suspension))
    && !Exceeds(m, m'.session.core)
    && (e.Crash? && !m.pc.Down? ==> StoredSince(m))
  }

  /** In any run the checkpoint is of this submit or an earlier one. */
  ghost predicate Older(m: Machine) {
    m.durable.Some? && !m.pc.Down? ==> m.durable.value.core.submits <= m.session.core.submits
  }

  /** Parked or down: the step by itself. */
  lemma RestingStep(m: Machine, e: Event)
    requires m.pc.Idle? || m.pc.Down? || m.pc.Parking? || e.Crash? || e.Report?
    ensures var m', core := Next(m, e), m.session.core;
      && (m.pc.Down? ==> m'.durable == m.durable && (m' == m || (m'.pc.Idle? && m'.session == Rehydrate(m.durable))))
      && (!m.pc.Down? && e.Crash? ==> m' == m.(pc := Down))
      && (!m.pc.Down? && !e.Crash? ==>
            && !m'.pc.Down?
            && (m'.durable == m.durable || (m'.durable.Some? && m'.durable.value.core == m'.session.core))
            && (m'.session.core.submits == core.submits || m'.session.core.submits == core.submits + 1)
            && (SameVerdict(core, m'.session.core) || Clean(m'.session.core))
            && (m'.session.core.submits != core.submits ==> m'.durable == m.durable && Clean(m'.session.core))
            && m'.session.core.terminal == core.terminal)
  {
    if m.pc.Down? || e.Crash? {
      hide Rehydrate;
    } else if e.Report? {
      ReportStep(m, e);
      ReportLeaves(m, e.task, e.persist);
      hide Next, Reported;
    } else if m.pc.Idle? {
      hide EvidenceRecovery;
    } else {
      assert Next(m, e) == FromParking(m, e);
      hide Next;
    }
  }

  lemma NextOlder(m: Machine, e: Event)
    requires Older(m)
    ensures Older(Next(m, e))
  {
    hide Next, SameVerdict, Clean, Marking, ParkSays;
    if m.pc.Idle? || m.pc.Down? || m.pc.Parking? || e.Crash? || e.Report? {
      RestingStep(m, e);
    } else {
      EveryStepPumps(m, e);
    }
  }

  lemma {:induction false} RunIsOlder(config: Config, events: seq<Event>)
    ensures Older(Run(Initial(config), events))
  {
    hide Next, Older;
    if events == [] {
      NothingStored(config);
    } else {
      RunIsOlder(config, events[..|events| - 1]);
      NextOlder(Run(Initial(config), events[..|events| - 1]), events[|events| - 1]);
    }
  }

  lemma NothingStored(config: Config)
    ensures Older(Initial(config))
  {
  }

  lemma NextIsClean(m: Machine, e: Event)
    requires CleanInv(m) && Undisturbed(m, e)
    ensures CleanInv(Next(m, e))
  {
    hide Next, Marking, ParkSays, Exceeds;
    if m.pc.Idle? || m.pc.Down? || m.pc.Parking? || e.Crash? || e.Report? {
      RestingStep(m, e);
    } else {
      EveryStepPumps(m, e);
    }
  }

  lemma {:induction false} StaysClean(m: Machine, events: seq<Event>)
    requires CleanInv(m) && Allowed(Undisturbed, m, events)
    ensures CleanInv(Run(m, events))
  {
    hide CleanInv, Undisturbed, Next, Allowed;
    if events != [] {
      AllowedPrefix(Undisturbed, m, events);
      StaysClean(m, events[..|events| - 1]);
      NextIsClean(Run(m, events[..|events| - 1]), events[|events| - 1]);
    }
  }

  /** The engine right after an accepted submit. */
  lemma SubmitIsClean(engine: Engine, text: nat)
    requires EngineOk(engine) && engine.m.pc.Idle? && Older(engine.m) && Next(engine.m, Submit(text)).pc.Top?
    ensures var begun := Follow(engine, Submit(text)); EngineOk(begun) && begun.m.pc.Top? && CleanInv(begun.m)
  {
    FollowKeeps(engine, Submit(text));
    FollowIsNext(engine, Submit(text));
    hide EngineOk, Follow, EvidenceRecovery;
  }

  /** The answer passes: the park it comes to. */
  lemma PassedParks(engine: Engine)
    requires EngineOk(engine) && CleanInv(engine.m) && engine.m.pc.Deciding? && engine.m.pc.turn.stop.Normal?
    ensures var parked := Follow(engine, Decide(Passed));
      && EngineOk(parked) && parked.m.pc == Parking(Suspension(SettledPark, NoCode, false))
      && parked.m.session.core.status == Completed && parked.m.session.core.code == NoCode && !parked.m.session.core.terminal
  {
    FollowKeeps(engine, Decide(Passed));
    FollowIsNext(engine, Decide(Passed));
    assert !engine.m.session.core.terminal;
    hide EngineOk, Follow, CleanInv, AppendObservations;
    assert Next(engine.m, Decide(Passed)) == FromDeciding(engine.m, Decide(Passed));
  }

  lemma SettledCloses(engine: Engine)
    requires Marks(engine, Some(Suspension(SettledPark, NoCode, false)))
    requires engine.m.session.core.status == Completed && engine.m.session.core.code == NoCode
    ensures Closing(engine) == Parks.Verdict(Completed, "", "", false)
  {
    hide Parks.CauseValue, Parks.ReasonValue;
  }

  /**
   A submitted turn whose answer passes with nothing in between to mark it closes as completed, without a code,
   whatever the run was before the submit, across parks, resumes and restarts on the way, and however the last
   park is committed; once that park is stored, after a restart too.
  */
  lemma PassedTurnClosesCompleted(config: Config, before: seq<Event>, text: nat, after: seq<Event>,
                                  commit: Commit, reports: seq<Event>)
    requires var engine := FollowAll(Opened(config), before); engine.m.pc.Idle? && Next(engine.m, Submit(text)).pc.Top?
    requires var begun := Follow(FollowAll(Opened(config), before), Submit(text));
      && Allowed(Undisturbed, begun.m, after)
      && FollowAll(begun, after).m.pc.Deciding? && FollowAll(begun, after).m.pc.turn.stop.Normal?
    requires ReportsOver(commit, reports)
    ensures var begun := Follow(FollowAll(Opened(config), before), Submit(text));
      var rest := AtRest(Follow(FollowAll(begun, after), Decide(Passed)), commit, reports);
      && Closing(rest) == Parks.Verdict(Completed, "", "", false)
      && (ParkIsStored(commit, reports) ==> Closing(Restarted(rest)) == Parks.Verdict(Completed, "", "", false))
  {
    hide FollowAll, Follow, Run, Allowed, Undisturbed, CleanInv, Older, EngineOk, ParkIsStored, AtRest, Closing, Restarted, Next;
    Follows(config, before);
    RunIsOlder(config, before);
    SubmitIsClean(FollowAll(Opened(config), before), text);
    var begun := Follow(FollowAll(Opened(config), before), Submit(text));
    FollowAllKeeps(begun, after);
    StaysClean(begun.m, after);
    PassedParks(FollowAll(begun, after));
    var parked := Follow(FollowAll(begun, after), Decide(Passed));
    ReportsRest(parked, commit, reports);
    var rest := AtRest(parked, commit, reports);
    assert Marks(parked, Some(parked.m.pc.suspension)) by {
      ParkMarks(parked);
    }
    SettledCloses(rest);
    RestartReads(parked, rest, commit, ParkIsStored(commit, reports));
  }

  lemma ParkMarks(engine: Engine)
    requires EngineOk(engine) && engine.m.pc.Parking?
    ensures Marks(engine, Some(engine.m.pc.suspension))
  {
    hide ParkSays, Marks;
  }
}
