/**
 A host checkpoint taken in the middle of a pump: exactly when a later activation can charge its step a
 second time.
*/
module RunRebilling {
  import opened Wrappers
  import opened Usage
  import opened RunModel
  import opened RunDispatch
  import opened RunBilling
  import opened RunReplays

  // ---------- Steps that a bill can be added to ----------

  predicate Unbilled(core: Core) {
    core.bills != [] ==> core.bills[|core.bills| - 1].step < core.step
  }

  /** A head that no new call can reuse, and none can dispatch again. */
  ghost predicate Stuck(journal: Journal, step: nat) {
    step in journal && !journal[step].Settled? && (journal[step].Reserved? ==> journal[step].attempt != 1)
  }

  /** This step can be taken up again and yet be charged at most once. */
  ghost predicate Reenters(core: Core, journal: Journal) {
    Unbilled(core) || Stuck(journal, core.step)
  }

  /** The outcome the session knows of is in the journal, unless a later attempt has taken its place. */
  ghost predicate KnownOutcome(step: nat, invocation: Option<Invocation>, journal: Journal) {
    invocation.Some? ==>
      && invocation.value.step <= step
      && (invocation.value.entry.Settled? ==>
            && invocation.value.step in journal
            && (journal[invocation.value.step] == invocation.value.entry
                || invocation.value.entry.attempt < journal[invocation.value.step].attempt))
  }

  /** No call has two bills; a settled step with replays to run is one that can be taken up again. */
  ghost predicate StepsOk(core: Core, journal: Journal) {
    && (forall i, j :: 0 <= i < j < |core.bills| ==> core.bills[i].step < core.bills[j].step)
    && (core.bills != [] ==> core.bills[|core.bills| - 1].step <= core.step)
    && KnownOutcome(core.step, core.invocation, journal)
    && (CurrentSettled(core.step, core.invocation) && core.replays != [] ==> Reenters(core, journal))
  }

  ghost predicate Uncharged(core: Core) {
    Unbilled(core) && core.replays == []
  }

  ghost predicate PcStays(m: Machine) {
    var core := m.session.core;
    match m.pc
    case Recovering(recovery) => Current(core, recovery)
    case Recovered(recovery, receipt, _) => Current(core, recovery) && receipt == AccountedUsage(recovery)
    case Replaying(mode) => InReplay(core, m.journal, mode)
    case Handling(_, mode) => InReplay(core, m.journal, mode)
    case Requesting(_, _) => Reenters(core, m.journal) && core.replays == []
    case Ready(_, _, _) => Uncharged(core)
    case InFlight(_, _, _) => Uncharged(core)
    case Backoff(_, _, _, _) => Uncharged(core)
    case _ => true
  }

  ghost predicate Current(core: Core, recovery: Recovery) {
    CurrentSettled(core.step, core.invocation) && recovery.invocation == core.invocation.value
  }

  ghost predicate InReplay(core: Core, journal: Journal, mode: Mode) {
    if mode.Fresh? then Reenters(core, journal)
    else core.replays != [] ==> CurrentSettled(core.step, core.invocation)
  }

  ghost predicate StoredStays(durable: Option<Checkpoint>, journal: Journal) {
    durable.Some? ==>
      && StepsOk(durable.value.core, journal)
      && (durable.value.suspension.None? && !durable.value.core.terminal ==> Reenters(durable.value.core, journal))
  }

  /** The live bills have grown from the stored ones. */
  ghost predicate GrowsFrom(durable: Option<Checkpoint>, live: Core) {
    durable.Some? ==> durable.value.core.bills <= live.bills && durable.value.core.step <= live.step
  }

  /** The billing invariant, as far as it keeps a step from having two bills. */
  ghost predicate Stays(m: Machine) {
    && StoredStays(m.durable, m.journal)
    && (!m.pc.Down? ==>
          && StepsOk(m.session.core, m.journal) && GrowsFrom(m.durable, m.session.core)
          && (m.session.resumeStep ==> ResumesSafely(m))
          && PcStays(m))
  }

  ghost predicate ResumesSafely(m: Machine) {
    && m.session.suspension.None?
    && if m.pc.Idle? then m.session.core.terminal || Reenters(m.session.core, m.journal)
       else m.pc.Top? && Reenters(m.session.core, m.journal)
  }

  // ---------- Landing in a park or a hand-over ----------

  /** A session the transition may leave behind at any program point that asks nothing of the ledger. */
  ghost predicate Landed(m: Machine, s: Session) {
    && StoredStays(m.durable, m.journal)
    && StepsOk(s.core, m.journal) && GrowsFrom(m.durable, s.core) && !s.resumeStep
  }

  lemma LandsStay(m: Machine, s: Session, m': Machine)
    requires Landed(m, s) && Unconstrained(m'.pc)
    requires m'.config == m.config && m'.durable == m.durable && m'.journal == m.journal && !m'.session.resumeStep
    requires var core, core' := s.core, m'.session.core;
      core'.step == core.step && core'.bills == core.bills && core'.invocation == core.invocation && core'.replays == core.replays
    ensures Stays(m')
  {
    hide KnownOutcome, Stuck;
  }

  lemma LandedIsSpent(m: Machine, s: Session)
    requires Landed(m, s)
    ensures !s.resumeStep
  {
  }

  lemma ParksLand(m: Machine, s: Session, stop: Stop, code: Code)
    requires Landed(m, s)
    ensures Stays(HaltRun(m, s, stop)) && Stays(FailRun(m, s)) && Stays(FailTurn(m, s, code))
  {
    LandedIsSpent(m, s);
    hide Landed, Stays, Unapplied;
    LandsStay(m, s, HaltRun(m, s, stop));
    LandsStay(m, s, FailRun(m, s));
    LandsStay(m, s, FailTurn(m, s, code));
  }

  lemma QuietStays(m: Machine, m': Machine)
    requires Stays(m) && !m.pc.Down? && Quiet(m, m')
    ensures Stays(m')
  {
    hide StepsOk, StoredStays, Stays;
    assert Landed(m, m.session) by { StaysLanded(m); }
    hide Landed;
    LandsStay(m, m.session, m');
  }

  lemma StaysLanded(m: Machine)
    requires Stays(m) && !m.pc.Down? && !m.session.resumeStep
    ensures Landed(m, m.session)
  {
    hide StepsOk, StoredStays, GrowsFrom, PcStays;
  }

  /** The one bill of a step that has none. */
  lemma ChargeLands(m: Machine, s: Session, spent: Usage)
    requires Landed(m, s) && Unbilled(s.core) && s.core.replays == []
    ensures var r := Account(s, s.core.step, spent, map[]); r.Some? ==> Landed(m, r.value)
  {
    hide StoredStays, KnownOutcome, Sum, DeltaOf, Covers, Stuck;
  }

  lemma DeliverLands(m: Machine, s: Session, entry: Entry)
    requires Landed(m, s) && Unbilled(s.core) && s.core.replays == [] && entry.Settled?
    ensures Stays(Deliver(m, s, entry)) && Stays(AwaitEvidence(m, s, entry))
  {
    hide Landed, Stays, Account, FailRun, FailTurn, Unbilled;
    ChargeLands(m, s, entry.receipt);
    ParksLand(m, s, UserStop, NoCode);
    var r := Account(s, s.core.step, entry.receipt, map[]);
    if r.Some? {
      ParksLand(m, r.value, UserStop, NoCode);
      ParksLand(m, r.value, UserStop, EvidenceUncommitted);
      if entry.outcome.Answer? {
        LandsAt(m, r.value, Answered(entry.outcome.turn, false));
      }
    }
  }

  lemma LandsAt(m: Machine, s: Session, pc: Pc)
    requires Landed(m, s) && Unconstrained(pc)
    ensures Stays(m.(pc := pc, session := s))
  {
    hide Landed, Stays;
    LandedIsSpent(m, s);
    LandsStay(m, s, m.(pc := pc, session := s));
  }

  // ---------- The journal moves ----------

  /** The head of an uncharged step moves on, or that of a stuck one does: every session known of survives it. */
  lemma HeadStays(m: Machine, entry: Entry)
    requires Stays(m) && !m.pc.Down?
    requires m.session.core.step in m.journal ==> Moves(m.journal[m.session.core.step], entry)
    requires var step := m.session.core.step;
      Unbilled(m.session.core) || (Stuck(m.journal, step) && Stuck(m.journal[step := entry], step))
    ensures var journal := m.journal[m.session.core.step := entry];
      StoredStays(m.durable, journal) && StepsOk(m.session.core, journal)
  {
    hide PcStays;
    var journal := m.journal[m.session.core.step := entry];
    if m.durable.Some? {
      var stored, live := m.durable.value.core, m.session.core;
      if stored.step == live.step && stored.bills != [] {
        assert stored.bills[|stored.bills| - 1] == live.bills[|stored.bills| - 1];
      }
    }
  }

  /** The session learns the head of its step. */
  lemma Observed(m: Machine, head: Entry, journal: Journal)
    requires Stays(m) && !m.pc.Down? && !m.session.resumeStep && m.session.core.replays == []
    requires StoredStays(m.durable, journal) && StepsOk(m.session.core, journal)
    requires m.session.core.step in journal && journal[m.session.core.step] == head
    ensures Landed(m.(journal := journal), Observe(m.session, m.session.core.step, head))
  {
    hide StoredStays, PcStays, Stuck;
  }

  // ---------- Every transition keeps it ----------

  lemma SpentResume(m: Machine)
    requires Stays(m) && !m.pc.Down? && !m.pc.Idle? && !m.pc.Top?
    ensures !m.session.resumeStep
  {
    hide StepsOk, StoredStays, PcStays;
  }

  lemma IdleStays(m: Machine, e: Event)
    requires Stays(m) && m.pc.Idle?
    ensures Stays(FromIdle(m, e))
  {
    hide StoredStays, Stuck;
  }

  lemma TopStays(m: Machine, e: Event)
    requires Stays(m) && m.pc.Top?
    ensures Stays(FromTop(m, e))
  {
    hide Stays, HaltRun, LimitRun, ResumeStep, BeginStep;
    var s := m.session;
    if s.resumeStep {
      ResumeStays(m);
    } else {
      RunBilling.LimitIsQuiet(m, s, MaxSteps);
      StepBegins(m);
      if e.Halt? {
        HaltIsQuiet(m, s, e.stop);
      }
      if e.Go? && s.core.local < m.config.maxSteps {
      } else {
        hide Quiet;
        assert Quiet(m, m) && Quiet(m, Park(m, m.session, Suspension(PausedPark, NoCode, false))) by { QuietHere(m); }
        QuietStays(m, FromTop(m, e));
      }
    }
  }

  lemma QuietHere(m: Machine)
    requires m.pc.Top? && !m.session.resumeStep
    ensures Quiet(m, m) && Quiet(m, Park(m, m.session, Suspension(PausedPark, NoCode, false)))
  {
  }

  lemma ResumeStays(m: Machine)
    requires Stays(m) && m.pc.Top? && m.session.resumeStep
    ensures Stays(ResumeStep(m))
  {
    hide StoredStays, KnownOutcome, Stuck, TaskObservations, ApprovedTasks, TaskIds;
  }

  lemma StepBegins(m: Machine)
    requires Stays(m) && m.pc.Top? && !m.session.resumeStep
    ensures Stays(BeginStep(m))
  {
    hide StoredStays, Stuck, TaskObservations, ApprovedTasks, TaskIds;
  }

  /** An outcome whose dispatch is still the journal's own is the one the session knows. */
  lemma SameOutcome(m: Machine)
    requires Stays(m) && m.pc.Recovering?
    ensures var invocation := m.pc.recovery.invocation;
      && invocation.step in m.journal && invocation.entry.Settled?
      && (SameDispatch(m.journal[invocation.step], invocation.entry) ==> m.journal[invocation.step] == invocation.entry)
  {
    hide StoredStays, Stuck;
  }

  lemma RecoveringStays(m: Machine, e: Event)
    requires Stays(m) && m.pc.Recovering?
    ensures Stays(FromRecovering(m, e))
  {
    SpentResume(m);
    StaysLanded(m);
    SameOutcome(m);
    var recovery := m.pc.recovery;
    AccountAgain(m.session, recovery.invocation.step, AccountedUsage(recovery));
    ParksLand(m, m.session, UserStop, EvidenceUncommitted);
    hide Landed, StoredStays, StepsOk, Account, FailRun, FailTurn;
  }

  lemma RecoveredStays(m: Machine, e: Event)
    requires Stays(m) && m.pc.Recovered?
    ensures Stays(FromRecovered(m, e))
  {
    SpentResume(m);
    StaysLanded(m);
    hide HaltRun, RestoreRefusal, RestoreAnswer, StoredStays, StepsOk;
    match e
    case Halt(stop) => ParksLand(m, m.session, stop, NoCode);
    case Proceed(jobs) =>
      match m.pc.outcome {
        case Refused(recoverable, _) => RefusalStays(m, recoverable);
        case Answer(turn) => AnswerStays(m, turn, jobs);
      }
    case _ =>
  }

  lemma RefusalStays(m: Machine, recoverable: bool)
    requires Stays(m) && m.pc.Recovered? && Landed(m, m.session)
    ensures Stays(RestoreRefusal(m, m.pc.recovery, m.pc.receipt, recoverable))
  {
    AccountAgain(m.session, m.pc.recovery.invocation.step, m.pc.receipt);
    ParksLand(m, m.session, UserStop, NoCode);
    hide Landed, StoredStays, StepsOk, Account, FailRun, FailTurn;
  }

  lemma AnswerStays(m: Machine, turn: Turn, jobs: bool)
    requires Stays(m) && m.pc.Recovered? && Landed(m, m.session)
    ensures Stays(RestoreAnswer(m, m.pc.recovery, turn, jobs))
  {
    hide ProgressMatches, FailRun, WithoutCalls, StoredStays, KnownOutcome, Stuck;
    var s := if m.pc.recovery.projected then m.session else ProjectTurn(m.session, turn);
    assert Landed(m, s);
    ParksLand(m, s, UserStop, NoCode);
    WithoutCallsIsQuiet(m, s, turn, jobs);
    var m' := RestoreAnswer(m, m.pc.recovery, turn, jobs);
    if turn.calls == [] && !m.pc.recovery.projected {
      hide Stays, Quiet;
      QuietStays(m, m');
    }
  }

  lemma ConsumeStays(m: Machine, commit: Commit)
    requires Stays(m) && m.pc.Replaying? && m.session.core.replays != []
    ensures Stays(ConsumeHead(m, m.pc.mode, commit))
  {
    SpentResume(m);
    hide KnownOutcome, Stuck;
  }

  lemma ReplayingStays(m: Machine, e: Event)
    requires Stays(m) && m.pc.Replaying?
    ensures Stays(FromReplaying(m, e))
  {
    SpentResume(m);
    if m.session.core.replays != [] {
      if e.Consume? {
        ConsumeStays(m, e.commit);
      }
      hide Stays, ConsumeHead;
    } else if e.Prepare? {
      PrepareStays(m, e.config, e.over);
      StaysLanded(m);
      hide Stays, PrepareRequest;
      if m.pc.mode.Projected? {
        LandsStay(m, m.session, FromReplaying(m, e)) by { hide Landed; }
      }
    }
  }

  lemma OverIsQuiet(m: Machine)
    requires m.pc.Replaying? && !m.session.resumeStep
    ensures Quiet(m, LimitRun(m, ClearObservations(AppendObservations(AppendInput(m.session))), SizeLimit))
  {
    hide LimitRun, ObservationMessages, InputMessages;
    RunBilling.LimitIsQuiet(m, ClearObservations(AppendObservations(AppendInput(m.session))), SizeLimit);
  }

  lemma PrepareStays(m: Machine, config: nat, over: bool)
    requires Stays(m) && m.pc.Replaying? && m.session.core.replays == []
    ensures m.pc.mode.Fresh? ==> Stays(PrepareRequest(m, m.pc.mode.resumed, config, over))
  {
    hide StoredStays, KnownOutcome, Stuck, LimitRun, ObservationMessages, InputMessages;
    SpentResume(m);
    if over {
      OverIsQuiet(m);
      hide Stays, Quiet;
      QuietStays(m, LimitRun(m, ClearObservations(AppendObservations(AppendInput(m.session))), SizeLimit));
    }
  }

  lemma HandlingStays(m: Machine, e: Event)
    requires Stays(m) && m.pc.Handling?
    ensures Stays(FromHandling(m, e))
  {
    hide Stays, HaltRun, CompleteReplay;
    SpentResume(m);
    match e
    case Halt(stop) =>
      StaysLanded(m);
      ParksLand(m, m.session, stop, NoCode);
    case Handled(output) => OutputStays(m, output);
    case _ =>
  }

  lemma OutputStays(m: Machine, output: Option<nat>)
    requires Stays(m) && m.pc.Handling? && !m.session.resumeStep
    ensures Stays(m.(pc := Replaying(m.pc.mode), session := CompleteReplay(m.session, m.pc.head, output)))
  {
    hide StoredStays, KnownOutcome, Stuck;
  }

  // ---------- The paid call ----------

  lemma ReserveStays(m: Machine, request: Request, resumed: bool, halt: Option<Stop>)
    requires Stays(m) && m.pc.Requesting?
    requires m.session.core.step in m.journal ==>
      m.journal[m.session.core.step].Reserved? && (halt.None? ==> m.journal[m.session.core.step] == Reserved(request, 1))
    ensures Stays(ReserveDispatch(m, request, resumed, halt))
  {
    SpentResume(m);
    if halt.Some? {
      StaysLanded(m);
      ParksLand(m, m.session, halt.value, NoCode);
      hide Stays, HaltRun;
    } else {
      var core, head := m.session.core, Reserved(request, 1);
      assert Unbilled(core) by { hide StoredStays; }
      HeadStays(m, head);
      Observed(m, head, m.journal[core.step := head]);
      hide StoredStays, StepsOk;
    }
  }

  lemma RefuseStays(m: Machine, head: Entry)
    requires Stays(m) && m.pc.Requesting? && m.session.core.step in m.journal
    requires var before := m.journal[m.session.core.step];
      before == head || (before.Started? && head == Unknown(before.request, before.attempt))
    ensures Stays(RefuseProbe(m, m.session.core.step, head))
  {
    SpentResume(m);
    var core := m.session.core;
    var journal := m.journal[core.step := head];
    if m.journal[core.step] == head {
      assert journal == m.journal;
    } else {
      HeadStays(m, head);
    }
    Observed(m, head, journal);
    hide StoredStays, StepsOk, FailRun, Landed;
    ParksLand(m.(journal := journal), Observe(m.session, core.step, head), UserStop, NoCode);
  }

  lemma ReuseStays(m: Machine, halt: Option<Stop>, again: bool)
    requires Stays(m) && m.pc.Requesting? && SettledAt(m.journal, m.session.core.step)
    ensures var head := m.journal[m.session.core.step];
      && Stays(ReuseSettled(m, head, halt, again))
      && Stays(AwaitEvidence(m, Observe(m.session, m.session.core.step, head), head))
  {
    SpentResume(m);
    var step, head := m.session.core.step, m.journal[m.session.core.step];
    var s := Observe(m.session, step, head);
    assert Unbilled(m.session.core);
    Observed(m, head, m.journal);
    DeliverLands(m, s, head);
    if halt.Some? {
      ParksLand(m, s, halt.value, NoCode);
    }
    AbsorbStays(m);
    hide Stays, Landed, Deliver, AwaitEvidence, HaltRun, MayRetry;
  }

  lemma AbsorbStays(m: Machine)
    requires Stays(m) && m.pc.Requesting? && SettledAt(m.journal, m.session.core.step)
    ensures var head := m.journal[m.session.core.step];
      Stays(m.(pc := Backoff(head.request, head.attempt, head.receipt, m.pc.resumed)))
  {
    hide StoredStays;
    SpentResume(m);
  }

  lemma RequestingStays(m: Machine, e: Event)
    requires Stays(m) && m.pc.Requesting?
    ensures Stays(FromRequesting(m, e))
  {
    hide Stays, AwaitEvidence, RefuseProbe, ReuseSettled, ReserveDispatch;
    var step := m.session.core.step;
    if e.Probe? {
      if step !in m.journal {
        ReserveStays(m, m.pc.request, m.pc.resumed, e.halt);
      } else {
        var head := m.journal[step];
        RefuseStays(m, head);
        match head {
          case Reserved(_, attempt) =>
            if head.request == m.pc.request && (attempt == 1 || e.halt.Some?) {
              ReserveStays(m, m.pc.request, m.pc.resumed, e.halt);
            }
          case Started(request, attempt) => RefuseStays(m, Unknown(request, attempt));
          case Unknown(_, _) =>
          case Settled(_, _, _, _) => ReuseStays(m, e.halt, e.again);
        }
      }
    }
  }

  /** Between two dispatches: the head is what the session was told, or is told now. */
  lemma PreemptStays(m: Machine, head: Entry, spent: Usage, stop: Stop)
    requires Stays(m) && (m.pc.Ready? || m.pc.Backoff?)
    requires m.session.core.step in m.journal && m.journal[m.session.core.step] == head
    ensures Stays(PreemptCall(m, head, spent, stop))
  {
    SpentResume(m);
    Observed(m, head, m.journal);
    var s := Observe(m.session, m.session.core.step, head);
    assert Unbilled(s.core);
    hide Stays, Landed, Account, FailRun, HaltRun, Unbilled;
    ChargeLands(m, s, spent);
    ParksLand(m, s, stop, NoCode);
    var r := Account(s, s.core.step, spent, map[]);
    if r.Some? {
      ParksLand(m, r.value, stop, NoCode);
    }
  }

  /** The next head of an uncharged step is written and learned. */
  lemma WriteStays(m: Machine, head: Entry)
    requires Stays(m) && (m.pc.Ready? || m.pc.InFlight? || m.pc.Backoff?)
    requires m.session.core.step in m.journal ==> Moves(m.journal[m.session.core.step], head)
    ensures var journal := m.journal[m.session.core.step := head];
      var s := Observe(m.session, m.session.core.step, head);
      Landed(m.(journal := journal), s) && Unbilled(s.core) && s.core.replays == []
  {
    SpentResume(m);
    HeadStays(m, head);
    hide StoredStays, StepsOk;
    Observed(m, head, m.journal[m.session.core.step := head]);
  }

  lemma CallStays(m: Machine, e: Event)
    requires Stays(m) && JournalInv(m) && (m.pc.Ready? || m.pc.Backoff?)
    ensures m.pc.Ready? ==> Stays(FromReady(m, e))
    ensures m.pc.Backoff? ==> Stays(FromBackoff(m, e))
  {
    hide StoredStays, StepsOk, DispatchOk, SpendsOk, HeadsOk, PreemptCall, Unspent;
    var request, attempt := m.pc.request, m.pc.attempt;
    if m.pc.Ready? {
      if e.Dispatch? {
        WriteStays(m, Started(request, attempt));
      } else if e.Halt? {
        PreemptStays(m, Reserved(request, attempt), m.pc.spent, e.stop);
        hide Stays;
      }
    } else {
      if e.Go? {
        WriteStays(m, Reserved(request, attempt + 1));
      } else if e.Halt? {
        PreemptStays(m, m.journal[m.session.core.step], m.pc.spent, e.stop);
        hide Stays;
      }
    }
  }

  lemma SettleStays(m: Machine, usage: Usage, outcome: Outcome, evidenceOk: bool, again: bool)
    requires Stays(m) && JournalInv(m) && m.pc.InFlight?
    ensures Stays(SettleDispatch(m, usage, outcome, evidenceOk, again))
  {
    var entry := Settled(m.pc.request, m.pc.attempt, Sum(m.pc.spent, usage), outcome);
    WriteStays(m, entry);
    var ended, s := EndAttempt(m, entry, usage), Observe(m.session, m.session.core.step, entry);
    assert Landed(ended, s);
    DeliverLands(ended, s, entry);
    AbsorbedStays(m, entry, usage);
    hide Stays, Landed, Deliver, AwaitEvidence, Sum, MayRetry;
  }

  lemma AbsorbedStays(m: Machine, head: Entry, usage: Usage)
    requires Stays(m) && JournalInv(m) && m.pc.InFlight? && head.Settled?
    requires head.request == m.pc.request && head.attempt == m.pc.attempt
    ensures Stays(EndAttempt(m, head, usage).(pc := Backoff(head.request, head.attempt, head.receipt, false)))
  {
    SpentResume(m);
    HeadStays(m, head);
    hide StoredStays, StepsOk;
  }

  lemma LossStays(m: Machine, loss: Loss)
    requires Stays(m) && JournalInv(m) && m.pc.InFlight?
    ensures Stays(LoseDispatch(m, loss))
  {
    var head := LostHead(m.pc, loss);
    WriteStays(m, head);
    var ended, s := EndAttempt(m, head, loss.usage), Observe(m.session, m.session.core.step, head);
    assert Landed(ended, s);
    hide Stays, Landed, FailRun, Account, Sum, Unbilled;
    ChargeLands(ended, s, Sum(m.pc.spent, loss.usage));
    ParksLand(ended, s, UserStop, NoCode);
    var r := Account(s, s.core.step, Sum(m.pc.spent, loss.usage), map[]);
    if r.Some? {
      ParksLand(ended, r.value, UserStop, NoCode);
      LandsAt(ended, r.value, Idle);
    }
  }

  lemma InFlightStays(m: Machine, e: Event)
    requires Stays(m) && JournalInv(m) && m.pc.InFlight?
    ensures Stays(FromInFlight(m, e))
  {
    hide Stays, SettleDispatch, LoseDispatch, WellFormed;
    if e.Settle? {
      SettleStays(m, e.usage, e.outcome, e.evidenceOk, e.again);
    } else if e.Lose? {
      LossStays(m, e.loss);
    }
  }

  lemma ParkingStays(m: Machine, e: Event)
    requires Stays(m) && m.pc.Parking?
    ensures Stays(FromParking(m, e))
  {
    hide KnownOutcome, Reenters;
  }

  lemma ReportStays(m: Machine, task: Task, persist: Option<Commit>)
    requires Stays(m) && !m.pc.Down? && (persist.Some? ==> AtQuiescentPark(m.session))
    ensures Stays(Reported(m, task, persist))
  {
    hide KnownOutcome, TaskIds, Stuck;
    var queued := m.(session := m.session.(core := m.session.core.(ready := m.session.core.ready + [task])));
    assert Stays(queued) by { hide StoredStays; }
  }

  lemma RestoreStays(m: Machine)
    requires Stays(m) && m.pc.Down?
    ensures Stays(m.(pc := Idle, session := Rehydrate(m.durable)))
  {
    hide Stuck;
  }

  lemma NextStays(m: Machine, e: Event)
    requires Stays(m) && JournalInv(m) && ReportsAtPark(m, e)
    ensures Stays(Next(m, e))
  {
    hide FromIdle, FromTop, FromRecovering, FromRecovered, FromReplaying, FromHandling, FromRequesting, FromReady,
         FromInFlight, FromBackoff, FromAnswered, FromBatch, FromCalling, FromReturned, FromDeciding, FromParking,
         Reported, Rehydrate, StepsOk, StoredStays, PcStays, JournalInv;
    if m.pc.Down? {
      hide Stays;
      RestoreStays(m);
    } else if e.Crash? {
    } else if e.Report? {
      hide Stays;
      ReportStays(m, e.task, e.persist);
    } else if Applying(m.pc) {
      hide Stays, Next, Quiet;
      SpentResume(m);
      TurnLeavesLedger(m, e);
      QuietStays(m, Next(m, e));
    } else {
      hide Stays;
      match m.pc
      case Idle => IdleStays(m, e);
      case Top => TopStays(m, e);
      case Recovering(_) => RecoveringStays(m, e);
      case Recovered(_, _, _) => RecoveredStays(m, e);
      case Replaying(_) => ReplayingStays(m, e);
      case Handling(_, _) => HandlingStays(m, e);
      case Requesting(_, _) => RequestingStays(m, e);
      case InFlight(_, _, _) => InFlightStays(m, e);
      case Parking(_) => ParkingStays(m, e);
      case _ => CallStays(m, e);
    }
  }

  lemma {:induction false} RunStays(m: Machine, events: seq<Event>)
    requires Stays(m) && JournalInv(m) && Allowed(ReportsAtPark, m, events)
    ensures Stays(Run(m, events))
  {
    if events != [] {
      var before := events[..|events| - 1];
      AllowedPrefix(ReportsAtPark, m, events);
      RunStays(m, before);
      RunAdvances(m, before);
      hide Stays, JournalInv, Next, Allowed, ReportsAtPark;
      NextStays(Run(m, before), events[|events| - 1]);
    }
  }

  // ---------- A checkpoint that can be charged again ----------

  /** Some later run, with every report checkpointed at a quiescent park, leads from one machine to the other. */
  ghost predicate Continues(from: Machine, to: Machine) {
    Leads(ReportsAtPark, from, to)
  }

  lemma GoesOn(from: Machine, to: Machine, e: Event)
    requires Continues(from, to) && ReportsAtPark(to, e)
    ensures Continues(from, Next(to, e))
  {
    LeadsOn(ReportsAtPark, from, to, e);
  }

  predicate Billed(core: Core) {
    core.bills != [] && core.bills[|core.bills| - 1].step == core.step
  }

  ghost predicate TwiceBilled(m: Machine) {
    !m.pc.Down? && exists i, j :: 0 <= i < j < |m.session.core.bills| && m.session.core.bills[i].step == m.session.core.bills[j].step
  }

  /** The request a bare resume of this checkpoint builds, when no replayed handler has an output. */
  function RebuiltMessages(core: Core): seq<Message> {
    core.messages + InputMessages(core.input) + ObservationMessages(core.observations + TaskObservations(core.ready))
  }

  /** The probe can reach the settled head again: evidence is looked up by step alone, an outcome by its request. */
  predicate FoundAgain(config: Config, core: Core, head: Entry) {
    config.evidenceRequired || RebuiltMessages(core) == head.request.messages
  }

  /** Crash, Restore, Resume, Go. */
  lemma TakesUp(n: Machine)
    requires !n.pc.Down? && n.durable.Some? && n.durable.value.suspension.None?
    requires n.durable.value.core.step >= 1 && !n.durable.value.core.terminal
    ensures var core := n.durable.value.core;
      exists m ::
        && Continues(n, m) && m.pc == Replaying(Fresh(true)) && m.config == n.config && m.journal == n.journal
        && !m.session.resumeStep
        && m.session.core == DeliverReady(Rehydrate(n.durable)).core
  {
    var m1 := Next(n, Crash);
    var m2 := Next(m1, Restore);
    var m3 := Next(m2, Resume);
    var m4 := Next(m3, Go);
    LeadsNowhere(ReportsAtPark, n);
    assert Continues(n, n);
    hide DeliverReady, Continues;
    assert m4.session.core == DeliverReady(Rehydrate(n.durable)).core by {
      DeliversAlike(m3.session, Rehydrate(n.durable));
    }
    assert m4.pc == Replaying(Fresh(true)) && m4.config == n.config && m4.journal == n.journal && !m4.session.resumeStep by {
      DeliversAlike(m3.session, Rehydrate(n.durable));
    }
    hide Next, Rehydrate;
    GoesOn(n, n, Crash);
    GoesOn(n, m1, Restore);
    GoesOn(n, m2, Resume);
    GoesOn(n, m3, Go);
  }

  lemma DeliversAlike(s: Session, s': Session)
    requires s.core == s'.core
    ensures DeliverReady(s.(resumeStep := false)).core == DeliverReady(s').core
    ensures !DeliverReady(s.(resumeStep := false)).resumeStep
  {
  }

  /** The probe of the rebuilt request: its evidence fails, or its outcome is reused. */
  function Reprobe(config: Config): Event {
    Probe(!config.evidenceRequired, None, false)
  }

  /** A charge on top of a bill of the same step. */
  lemma ChargesTwice(m: Machine, s: Session, head: Entry)
    requires Billed(s.core) && !m.pc.Down? && head.Settled? && WellFormed(head.receipt) && head.receipt != map[]
    ensures TwiceBilled(Deliver(m, s, head)) && TwiceBilled(AwaitEvidence(m, s, head))
  {
    hide Account, WellFormed, FailRun, FailTurn;
    ChargesWhole(s, head.receipt);
    var s' := Account(s, s.core.step, head.receipt, map[]).value;
    ParksKeepBills(m, s', UserStop, NoCode);
    ParksKeepBills(m, s', UserStop, EvidenceUncommitted);
    NeverDown(m, s', NoCode);
    NeverDown(m, s', EvidenceUncommitted);
    var last := |s.core.bills| - 1;
    assert s'.core.bills[last].step == s'.core.bills[last + 1].step;
  }

  lemma ProbesAgain(m: Machine)
    requires m.pc.Requesting? && Billed(m.session.core) && SettledAt(m.journal, m.session.core.step)
    requires var head := m.journal[m.session.core.step];
      && WellFormed(head.receipt) && head.receipt != map[] && (m.config.evidenceRequired || head.request == m.pc.request)
    ensures TwiceBilled(Next(m, Reprobe(m.config)))
  {
    hide Deliver, AwaitEvidence, TwiceBilled, WellFormed, MayRetry;
    var step, head := m.session.core.step, m.journal[m.session.core.step];
    ChargesTwice(m, Observe(m.session, step, head), head);
  }

  lemma NeverDown(m: Machine, s: Session, code: Code)
    ensures !FailRun(m, s).pc.Down? && !FailTurn(m, s, code).pc.Down?
  {
  }

  /** The stored checkpoint is charged again by some later run. */
  lemma ChargedAgain(n: Machine)
    requires !n.pc.Down? && n.durable.Some? && n.durable.value.suspension.None?
    requires var core := n.durable.value.core;
      && !core.terminal && core.step >= 1 && Billed(core) && SettledAt(n.journal, core.step)
      && WellFormed(n.journal[core.step].receipt) && n.journal[core.step].receipt != map[]
      && FoundAgain(n.config, core, n.journal[core.step])
    ensures exists m :: Continues(n, m) && TwiceBilled(m)
  {
    var core := n.durable.value.core;
    var head := n.journal[core.step];
    TakesUp(n);
    var m1 :|
      && Continues(n, m1) && m1.pc == Replaying(Fresh(true)) && m1.config == n.config && m1.journal == n.journal
      && !m1.session.resumeStep && m1.session.core == DeliverReady(Rehydrate(n.durable)).core;
    var m2 := Drains(ReportsAtPark, n, m1);
    var prepare := Prepare(head.request.config, false);
    var m3 := Next(m2, prepare);
    Rebuilds(m2, core, head.request.config);
    hide Next, Continues, TwiceBilled, DeliverReady, RebuiltMessages;
    GoesOn(n, m2, prepare);
    ProbesAgain(m3);
    GoesOn(n, m3, Reprobe(n.config));
  }

  lemma Rebuilds(m: Machine, core: Core, config: nat)
    requires m.pc == Replaying(Fresh(true)) && !core.terminal
    requires m.session.core == DeliverReady(InitialSession.(core := core)).core.(replays := [])
    ensures var m' := Next(m, Prepare(config, false));
      && m'.pc == Requesting(Request(RebuiltMessages(core), config), true) && m'.config == m.config && m'.journal == m.journal
      && m'.session.core.step == core.step && m'.session.core.bills == core.bills
  {
    hide ObservationMessages, InputMessages, TaskObservations, ApprovedTasks, TaskIds;
  }

  // ---------- Main results ----------

  lemma LedgerStays(core: Core, journal: Journal, spends: seq<Spend>)
    requires CoreOk(core, journal, spends)
    ensures StepsOk(core, journal)
    ensures Open(core) ==> Reenters(core, journal)
  {
    hide Cost, TotalOf, Amounts, Stuck;
  }

  /** The billing invariant is the stronger one. */
  lemma InvStays(m: Machine)
    requires Inv(m) && !m.pc.Down?
    ensures Stays(m)
  {
    hide LedgerOk, StepsOk, Reenters, BooksOk, DispatchOpen;
    LedgerStays(m.session.core, m.journal, m.spends);
    if m.durable.Some? {
      LedgerStays(m.durable.value.core, m.journal, m.spends);
    }
    PcOkStays(m);
  }

  lemma PcOkStays(m: Machine)
    requires Inv(m) && !m.pc.Down?
    ensures PcStays(m)
  {
    hide LedgerOk, BooksOk, DurableOk, DescendsFrom;
    LedgerStays(m.session.core, m.journal, m.spends);
    hide StepsOk, Reenters;
  }

  /** A charged call whose head is not settled can be neither reused nor dispatched again. */
  lemma JoiningCore(m: Machine)
    requires Inv(m) && !m.pc.Down?
    requires !Billed(m.session.core) || !SettledAt(m.journal, m.session.core.step)
    ensures Reenters(m.session.core, m.journal)
  {
    hide DurableOk, Cost, TotalOf, Amounts, PcOk, DescendsFrom, WellFormed;
    var core := m.session.core;
    if Billed(core) {
      assert core.bills[|core.bills| - 1].amount == Cost(m.spends, core.step) != map[];
    }
  }

  /** Otherwise the stored checkpoint joins the invariant, and no later run bills any step twice. */
  lemma ReportJoins(m: Machine, task: Task, commit: Commit)
    requires Inv(m) && !m.pc.Down? && (commit.Committed? || commit.RaisedStored?)
    requires var core := m.session.core;
      core.terminal || m.session.suspension.Some? || !Billed(core) || !SettledAt(m.journal, core.step)
    ensures Stays(Next(m, Report(task, Some(commit))))
  {
    InvStays(m);
    if !Billed(m.session.core) || !SettledAt(m.journal, m.session.core.step) {
      JoiningCore(m);
    }
    hide Inv, CurrentSettled, Billed, SettledAt;
    Joins(m, task, commit);
  }

  lemma Joins(m: Machine, task: Task, commit: Commit)
    requires Stays(m) && !m.pc.Down? && (commit.Committed? || commit.RaisedStored?)
    requires m.session.core.terminal || m.session.suspension.Some? || Reenters(m.session.core, m.journal)
    ensures Stays(Next(m, Report(task, Some(commit))))
  {
    hide KnownOutcome, TaskIds, Stuck, StoredStays;
    var queued := m.(session := m.session.(core := m.session.core.(ready := m.session.core.ready + [task])));
    assert Stays(queued);
    hide Stays, Reenters;
    Stores(m, commit);
    Stores(queued, commit);
  }

  lemma Stores(m: Machine, commit: Commit)
    requires Stays(m) && !m.pc.Down? && (commit.Committed? || commit.RaisedStored?)
    requires m.session.core.terminal || m.session.suspension.Some? || Reenters(m.session.core, m.journal)
    ensures Stays(PersistAs(m, None, commit))
  {
    hide KnownOutcome, Stuck;
  }

  /** No second charge, whatever the configuration, when the checkpoint is not of a live, charged and settled step. */
  lemma RebilledOnlyIf(m: Machine, task: Task, commit: Commit)
    requires Inv(m) && JournalInv(m) && !m.pc.Down? && (commit.Committed? || commit.RaisedStored?)
    requires var core := m.session.core;
      core.terminal || m.session.suspension.Some? || !Billed(core) || !SettledAt(m.journal, core.step)
    ensures forall later :: Continues(Next(m, Report(task, Some(commit))), later) ==> !TwiceBilled(later)
  {
    var n := Next(m, Report(task, Some(commit)));
    ReportJoins(m, task, commit);
    NextAdvances(m, Report(task, Some(commit)));
    hide Next, Inv, JournalInv, CurrentSettled, SettledAt, Billed;
    forall later | Continues(n, later)
      ensures !TwiceBilled(later)
    {
      var events: seq<Event> :| Allowed(ReportsAtPark, n, events) && Run(n, events) == later;
      RunStays(n, events);
      hide Continues, Allowed, Run, StoredStays, PcStays, KnownOutcome, Reenters;
    }
  }

  /** A second charge wherever the probe finds the head again; without required evidence that takes the same request. */
  lemma RebilledWhenFound(m: Machine, task: Task, commit: Commit)
    requires Inv(m) && !m.pc.Down? && (commit.Committed? || commit.RaisedStored?)
    requires var core := m.session.core;
      !core.terminal && m.session.suspension.None? && Billed(core) && SettledAt(m.journal, core.step)
    requires var n := Next(m, Report(task, Some(commit)));
      n.durable.Some? && FoundAgain(m.config, n.durable.value.core, m.journal[m.session.core.step])
    ensures exists later :: Continues(Next(m, Report(task, Some(commit))), later) && TwiceBilled(later)
  {
    var n, core := Next(m, Report(task, Some(commit))), m.session.core;
    ChargedReceipt(m);
    StoresReport(m, task, commit);
    hide Next, Inv, Continues, TwiceBilled, WellFormed, FoundAgain;
    ChargedAgain(n);
  }

  lemma ChargedReceipt(m: Machine)
    requires Inv(m) && !m.pc.Down? && Billed(m.session.core) && SettledAt(m.journal, m.session.core.step)
    ensures var receipt := m.journal[m.session.core.step].receipt; WellFormed(receipt) && receipt != map[]
    ensures m.session.core.step >= 1
  {
    hide DurableOk, Cost, TotalOf, Amounts, WellFormed, PcOk, DescendsFrom, KnownOutcome;
    var bills := m.session.core.bills;
    assert bills[|bills| - 1].amount == Cost(m.spends, m.session.core.step) != map[];
  }

  lemma StoresReport(m: Machine, task: Task, commit: Commit)
    requires !m.pc.Down? && (commit.Committed? || commit.RaisedStored?)
    ensures var n := Next(m, Report(task, Some(commit)));
      && n.pc == m.pc && n.config == m.config && n.journal == m.journal && n.durable.Some?
      && n.durable.value.suspension == m.session.suspension
      && n.durable.value.core == m.session.core.(ready := n.durable.value.core.ready)
  {
    hide TaskIds;
  }

  /**
   The exact condition. A task reported at any point of a run is checkpointed there and then; a later
   activation charges some call a second time iff that checkpoint is of a live run, has no suspension,
   and its current step is charged and settled in the journal.
  */
  lemma ReportIsRebilledIff(m: Machine, task: Task, commit: Commit)
    requires Inv(m) && JournalInv(m) && !m.pc.Down? && m.config.evidenceRequired
    requires commit.Committed? || commit.RaisedStored?
    ensures var n, core := Next(m, Report(task, Some(commit))), m.session.core;
      (exists later :: Continues(n, later) && TwiceBilled(later)) <==>
      !core.terminal && m.session.suspension.None? && Billed(core) && SettledAt(m.journal, core.step)
  {
    var n, core := Next(m, Report(task, Some(commit))), m.session.core;
    if !core.terminal && m.session.suspension.None? && Billed(core) && SettledAt(m.journal, core.step) {
      RebilledWhenFound(m, task, commit);
    } else {
      RebilledOnlyIf(m, task, commit);
    }
  }
}
