/**
 Nothing is lost: what a run has taken in (a user message, a task's result, an approval, the output of a
 completed call) waits, is in the log or is started, until the next request carries it, over stops, resumes
 and, from the first checkpoint that has it, crashes.
*/
module RunKeeping {
  import opened Wrappers
  import opened Usage
  import opened RunModel
  import opened RunDispatch
  import opened RunBilling
  import opened RunOnce
  import opened RunApply

  // ---------- What a step keeps ----------

  /** Every pending observation is in the log. */
  ghost predicate AllLogged(core: Core) {
    forall o :: o in core.observations ==> ObservationMessage(o) in core.messages
  }

  /** A user stop where no paid call waits to be applied gives up the pending observations. */
  predicate Drops(m: Machine, e: Event) {
    e == Halt(UserStop) && (m.pc.Top? || m.pc.Handling? || m.pc.Deciding?)
  }

  /** The log grows, and whatever waited still waits or is in the log; only a new submit replaces an unsent one. */
  ghost predicate Keeps(before: Core, after: Core, dropping: bool, submitting: bool) {
    && before.messages <= after.messages
    && (!dropping ==>
          forall o :: o in before.observations ==> o in after.observations || ObservationMessage(o) in after.messages)
    && (!submitting && before.input.Some? ==>
          after.input == before.input || UserMessage(before.input.value.number, before.input.value.text) in after.messages)
    && (forall t :: t in before.ready ==>
          || t in after.ready
          || (&& (Result(t) in after.observations || ObservationMessage(Result(t)) in after.messages)
              && (t.approved ==> t.id in after.replays)))
  }

  /** A finished task as the model sees it. */
  function Result(t: Task): Observation {
    Observation(TaskOutput(t.id), 0, 0)
  }

  predicate TakesHeads(before: seq<nat>, after: seq<nat>, started: seq<nat>) {
    forall id :: id in before ==> id in after || id in started
  }

  // ---------- Invariant ----------

  /** Until a settled answer is applied, the inputs of its request are in the log. */
  ghost predicate SentCore(core: Core) {
    CurrentSettled(core.step, core.invocation) && !Applied(core.messages, core.step) ==> AllLogged(core)
  }

  /** During a call its inputs are in the log, and the request is the log; tool-free turns have nothing pending. */
  ghost predicate SentPc(m: Machine) {
    var core := m.session.core;
    match m.pc
    case Requesting(request, _) => AllLogged(core) && core.input.None? && request.messages == core.messages
    case Ready(request, _, _) => AllLogged(core) && core.input.None? && request.messages == core.messages
    case InFlight(request, _, _) => AllLogged(core) && core.input.None? && request.messages == core.messages
    case Backoff(request, _, _, _) => AllLogged(core) && core.input.None? && request.messages == core.messages
    case Deciding(_, fromFinish) => !fromFinish ==> core.observations == []
    case Down => false
    case _ => true
  }

  ghost predicate SentInv(m: Machine) {
    && (m.durable.Some? ==> SentCore(m.durable.value.core))
    && (!m.pc.Down? ==> SentCore(m.session.core) && SentPc(m))
  }

  /** One step of a live machine: it keeps what it had, and a checkpoint it makes is of what it then has. */
  ghost predicate Goes(m: Machine, m': Machine, dropping: bool, submitting: bool) {
    && Keeps(m.session.core, m'.session.core, dropping, submitting)
    && m.started <= m'.started
    // A consumption whose checkpoint raises has left the queue and ends the pump.
    && (TakesHeads(m.session.core.replays, m'.session.core.replays, m'.started) || (m.pc.Replaying? && m'.pc.Idle?))
    && SentCore(m'.session.core) && SentPc(m')
    && (m'.durable == m.durable || (m'.durable.Some? && m'.durable.value.core == m'.session.core))
  }

  // ---------- Frames ----------

  /** Inputs and log stay; the pending observations stay or go. */
  predicate Same(before: Core, after: Core) {
    && after.messages == before.messages && after.input == before.input && after.step == before.step
    && after.ready == before.ready && after.replays == before.replays && after.invocation == before.invocation
    && (after.observations == before.observations || after.observations == [])
  }

  /** Observations may go once they are logged, or where the event gives them up. */
  lemma SameGoes(m: Machine, m': Machine, dropping: bool)
    requires SentCore(m.session.core) && Same(m.session.core, m'.session.core) && m'.durable == m.durable
    requires m'.started == m.started && SentPc(m')
    requires m'.session.core.observations == m.session.core.observations || AllLogged(m.session.core) || dropping
    ensures Goes(m, m', dropping, false)
  {
    hide Applied, SentPc;
  }

  lemma HaltKeeps(m: Machine, s: Session, stop: Stop)
    ensures var m' := HaltRun(m, s, stop);
      && Same(s.core, m'.session.core) && m'.durable == m.durable && m'.started == m.started && SentPc(m')
      && (!stop.UserStop? || Unapplied(s).Some? ==> m'.session.core.observations == s.core.observations)
  {
    hide Unapplied;
  }

  lemma FailKeeps(m: Machine, s: Session, code: Code)
    ensures var m' := FailRun(m, s);
      && Same(s.core, m'.session.core) && m'.durable == m.durable && m'.started == m.started && SentPc(m')
      && m'.session.core.observations == s.core.observations
    ensures var m' := FailTurn(m, s, code);
      && Same(s.core, m'.session.core) && m'.durable == m.durable && m'.started == m.started && SentPc(m')
      && (code.EvidenceUncommitted? ==> m'.session.core.observations == s.core.observations)
  {
  }

  lemma SettleKeeps(m: Machine, s: Session, reason: Reason, code: Code)
    ensures var m' := SettleRun(m, s, reason, code);
      && Same(s.core, m'.session.core) && m'.durable == m.durable && m'.started == m.started && SentPc(m')
      && m'.session.core.observations == s.core.observations
  {
  }

  lemma AccountKeeps(s: Session, step: nat, receipt: Usage, accounted: Usage)
    ensures var r := Account(s, step, receipt, accounted);
      r.Some? ==> Same(s.core, r.value.core) && r.value.core.observations == s.core.observations
  {
    hide Covers, DeltaOf, Sum;
  }

  lemma AppliedStays(messages: seq<Message>, more: seq<Message>, step: nat)
    requires messages <= more && Applied(messages, step)
    ensures Applied(more, step)
  {
    var i :| 0 <= i < |messages| && messages[i].AssistantMessage? && messages[i].step == step;
    assert more[i] == messages[i];
  }

  /** A waiting answer of the current step: its inputs are logged. */
  lemma WaitingIsLogged(core: Core)
    requires SentCore(core) && CurrentSettled(core.step, core.invocation) && Unanswered(core)
    ensures AllLogged(core)
  {
  }

  // ---------- Parked, and the head of the loop ----------

  lemma IdleKeeps(m: Machine, e: Event)
    requires OnceInv(m, false) && SentInv(m) && m.pc.Idle?
    ensures Goes(m, FromIdle(m, e), false, e.Submit?)
  {
    var s := m.session;
    if !s.core.terminal && e.Submit? && EvidenceRecovery(s).Some? && !EvidenceRecovery(s).value.projected && !EvidenceRecovery(s).value.blocks {
      assert CurrentSettled(s.core.step, s.core.invocation) && Unanswered(s.core) by {
        hide LogOk, Applied, DurableOnce;
      }
      WaitingIsLogged(s.core);
    }
    hide OnceInv, EvidenceRecovery, Applied;
  }

  lemma DeliveryKeeps(s: Session)
    requires !CurrentSettled(s.core.step, s.core.invocation)
    ensures var core := DeliverReady(s).core;
      && Keeps(s.core, core, false, false) && TakesHeads(s.core.replays, core.replays, [])
      && !CurrentSettled(core.step, core.invocation)
  {
    var core, more := DeliverReady(s).core, TaskObservations(s.core.ready);
    forall t | t in s.core.ready
      ensures Result(t) in core.observations && (t.approved ==> t.id in core.replays)
    {
      var i :| 0 <= i < |s.core.ready| && s.core.ready[i] == t;
      assert more[i] == Observation(TaskOutput(t.id), 0, 0);
      ApprovedAreTaken(s.core.ready, i);
    }
    hide TaskObservations, ApprovedTasks, TaskIds;
  }

  lemma {:induction false} ApprovedAreTaken(tasks: seq<Task>, i: nat)
    requires i < |tasks|
    ensures tasks[i].approved ==> tasks[i].id in ApprovedTasks(tasks)
  {
    if i > 0 {
      ApprovedAreTaken(tasks[1..], i - 1);
    }
  }

  lemma TopKeeps(m: Machine, e: Event)
    requires Inv(m) && SentInv(m) && m.pc.Top?
    ensures Goes(m, FromTop(m, e), Drops(m, e), false)
  {
    hide Inv, SentCore, DeliverReady, HaltRun, SettleRun, AllLogged, Goes;
    var s := m.session;
    StepIsOpen(m);
    if e.Go? && s.resumeStep {
      DeliveryKeeps(s.(resumeStep := false));
      DeliveredGoes(m, s.(resumeStep := false), FromTop(m, e));
    } else if s.resumeStep {
      SameGoes(m, m, Drops(m, e));
    } else if s.core.local >= m.config.maxSteps {
      if e.Go? {
        SettleKeeps(m, s.(core := s.core.(status := Limited, code := MaxSteps)), LimitedPark, MaxSteps);
        SameGoes(m, FromTop(m, e), false);
      }
      if !e.Go? {
        SameGoes(m, m, Drops(m, e));
      }
    } else if e.Go? {
      DeliveryKeeps(AllocateStep(s));
      DeliveredGoes(m, AllocateStep(s), FromTop(m, e));
    } else {
      if e.Halt? {
        HaltKeeps(m, s, e.stop);
      }
      SameGoes(m, FromTop(m, e), e == Halt(UserStop));
    }
  }

  lemma StepIsOpen(m: Machine)
    requires Inv(m) && m.pc.Top?
    ensures var core := m.session.core;
      && (core.invocation.Some? ==> core.invocation.value.step <= core.step)
      && (m.session.resumeStep ==> !CurrentSettled(core.step, core.invocation))
  {
    hide BillsOk, BooksOk, DurableOk, DescendsFrom;
  }

  /** A step begins, or is taken up again, with what is delivered to it. */
  lemma DeliveredGoes(m: Machine, s: Session, m': Machine)
    requires !m.pc.Down? && m'.pc.Replaying? && m'.durable == m.durable && m'.started == m.started
    requires m'.session == DeliverReady(s)
    requires s.core == m.session.core.(local := s.core.local, step := s.core.step)
    requires Keeps(s.core, DeliverReady(s).core, false, false) && TakesHeads(s.core.replays, DeliverReady(s).core.replays, [])
    requires !CurrentSettled(DeliverReady(s).core.step, DeliverReady(s).core.invocation)
    ensures Goes(m, m', false, false)
  {
    hide DeliverReady, Applied;
  }

  // ---------- A recovered outcome ----------

  lemma RecoveringKeeps(m: Machine, e: Event)
    requires SentInv(m) && m.pc.Recovering?
    ensures Goes(m, FromRecovering(m, e), false, false)
  {
    hide Applied, Account, FailRun, FailTurn;
    var s, recovery := m.session, m.pc.recovery;
    FailKeeps(m, s, EvidenceUncommitted);
    if e.Recover? && recovery.invocation.step in m.journal && m.journal[recovery.invocation.step].Settled? {
      AccountKeeps(s, recovery.invocation.step, m.journal[recovery.invocation.step].receipt, AccountedUsage(recovery));
    }
    SameGoes(m, FromRecovering(m, e), false);
  }

  /** An unprojected recovery waits with its inputs logged; a projected one is a batch that still looks unapplied. */
  lemma RecoveryWaits(m: Machine)
    requires Inv(m) && OnceInv(m, false) && ApplyInv(m) && SentInv(m) && m.pc.Recovered?
    ensures m.pc.recovery.projected ==> m.session.callsPending && Unapplied(m.session).Some?
    ensures !m.pc.recovery.projected ==> AllLogged(m.session.core)
  {
    assert RecoveryOk(m.session.core, m.pc.recovery) by {
      hide CoreOk, BooksOk, DurableOk, DescendsFrom;
    }
    if m.pc.recovery.projected {
      UnappliedProgress(m.session);
    } else {
      WaitingIsLogged(m.session.core);
    }
  }

  /** The log has grown, or a checkpoint-free field has changed; the rest of the step moves no input. */
  lemma ThenGoes(m: Machine, core: Core, m': Machine)
    requires Keeps(m.session.core, core, false, false) && core.replays == m.session.core.replays && SentCore(core)
    requires Same(core, m'.session.core) && (m'.session.core.observations == core.observations || AllLogged(core))
    requires m'.durable == m.durable && m'.started == m.started && SentPc(m')
    ensures Goes(m, m', false, false)
  {
    hide Applied, SentPc;
  }

  lemma ProjectionKeeps(s: Session, turn: Turn)
    ensures Keeps(s.core, ProjectTurn(s, turn).core, false, false)
    ensures Applied(ProjectTurn(s, turn).core.messages, s.core.step) && SentCore(ProjectTurn(s, turn).core)
    ensures AllLogged(s.core) ==> AllLogged(ProjectTurn(s, turn).core)
  {
    ProjectedIsApplied(s, turn);
  }

  /** Leaving a tool-free answer: its inputs were logged with its request. */
  lemma WithoutCallsKeeps(m: Machine, turn: Turn, jobs: bool)
    requires AllLogged(m.session.core)
    ensures Goes(m, WithoutCalls(m, ProjectTurn(m.session, turn), turn, jobs), false, false)
  {
    hide Applied, FailRun, Keeps, AllLogged, Goes;
    ProjectionKeeps(m.session, turn);
    var s := ProjectTurn(m.session, turn);
    FailKeeps(m, s, NoCode);
    ThenGoes(m, s.core, WithoutCalls(m, s, turn, jobs));
  }

  lemma RestoreRefusalKeeps(m: Machine, recoverable: bool)
    requires SentCore(m.session.core) && m.pc.Recovered? && (!m.pc.recovery.projected ==> AllLogged(m.session.core))
    ensures Goes(m, RestoreRefusal(m, m.pc.recovery, m.pc.receipt, recoverable), false, false)
  {
    hide SentCore, Account, FailRun, FailTurn, Goes, AllLogged;
    var s, recovery := m.session, m.pc.recovery;
    AccountKeeps(s, recovery.invocation.step, m.pc.receipt, AccountedUsage(recovery));
    var r := Account(s, recovery.invocation.step, m.pc.receipt, AccountedUsage(recovery));
    FailKeeps(m, s, NoCode);
    if r.Some? {
      FailKeeps(m, r.value, NoCode);
    }
    SameGoes(m, RestoreRefusal(m, recovery, m.pc.receipt, recoverable), false);
  }

  lemma RestoreAnswerKeeps(m: Machine, turn: Turn, jobs: bool)
    requires SentCore(m.session.core) && m.pc.Recovered? && (!m.pc.recovery.projected ==> AllLogged(m.session.core))
    ensures Goes(m, RestoreAnswer(m, m.pc.recovery, turn, jobs), false, false)
  {
    hide SentCore, FailRun, WithoutCalls, ProgressMatches, Goes, Keeps, AllLogged;
    var s, recovery := m.session, m.pc.recovery;
    var m' := RestoreAnswer(m, recovery, turn, jobs);
    if recovery.projected {
      FailKeeps(m, s, NoCode);
      SameGoes(m, m', false);
    } else if turn.calls == [] {
      WithoutCallsKeeps(m, turn, jobs);
    } else {
      ProjectionKeeps(s, turn);
      ThenGoes(m, ProjectTurn(s, turn).core, m');
    }
  }

  lemma RestoreKeeps(m: Machine, jobs: bool)
    requires Inv(m) && OnceInv(m, false) && ApplyInv(m) && SentInv(m) && m.pc.Recovered?
    ensures m.pc.outcome.Refused? ==>
      Goes(m, RestoreRefusal(m, m.pc.recovery, m.pc.receipt, m.pc.outcome.recoverable), false, false)
    ensures m.pc.outcome.Answer? ==> Goes(m, RestoreAnswer(m, m.pc.recovery, m.pc.outcome.turn, jobs), false, false)
  {
    hide Inv, OnceInv, ApplyInv, SentCore, AllLogged, Unapplied, Goes, RestoreRefusal, RestoreAnswer;
    RecoveryWaits(m);
    match m.pc.outcome
    case Refused(recoverable, _) => RestoreRefusalKeeps(m, recoverable);
    case Answer(turn) => RestoreAnswerKeeps(m, turn, jobs);
  }

  lemma RecoveredKeeps(m: Machine, e: Event)
    requires Inv(m) && OnceInv(m, false) && ApplyInv(m) && SentInv(m) && m.pc.Recovered?
    ensures Goes(m, FromRecovered(m, e), false, false)
  {
    match e
    case Halt(stop) =>
      RecoveryWaits(m);
      HaltKeeps(m, m.session, stop);
      hide Inv, OnceInv, ApplyInv, Applied, HaltRun, Unapplied;
      SameGoes(m, FromRecovered(m, e), false);
    case Proceed(jobs) =>
      RestoreKeeps(m, jobs);
      hide Inv, OnceInv, ApplyInv, SentInv, Goes, RestoreRefusal, RestoreAnswer;
    case _ =>
      hide Inv, OnceInv, ApplyInv, Applied;
  }

  // ---------- Replays and the request ----------

  lemma LoggedObservations(observations: seq<Observation>, o: Observation)
    requires o in observations
    ensures ObservationMessage(o) in ObservationMessages(observations)
  {
    var i :| 0 <= i < |observations| && observations[i] == o;
    assert ObservationMessages(observations)[i] == ObservationMessage(o);
  }

  /** The inputs are logged: the user message, then every pending observation. */
  lemma PreparedIsLogged(s: Session)
    ensures var core := AppendObservations(AppendInput(s)).core;
      && AllLogged(core) && core.input.None? && Keeps(s.core, core, false, false)
  {
    forall o | o in s.core.observations
      ensures ObservationMessage(o) in AppendObservations(AppendInput(s)).core.messages
    {
      LoggedObservations(s.core.observations, o);
    }
    hide ObservationMessages;
    if s.core.input.Some? {
      assert InputMessages(s.core.input)[0] == UserMessage(s.core.input.value.number, s.core.input.value.text);
    }
  }

  lemma PrepareKeeps(m: Machine, resumed: bool, config: nat, over: bool)
    requires SentInv(m) && !m.pc.Down?
    ensures Goes(m, PrepareRequest(m, resumed, config, over), false, false)
  {
    PreparedIsLogged(m.session);
    var s := AppendObservations(AppendInput(m.session));
    SettleKeeps(m, ClearObservations(s).(core := ClearObservations(s).core.(status := Limited, code := SizeLimit)), LimitedPark, SizeLimit);
    hide Applied, SettleRun, AppendInput, AppendObservations, Keeps;
    assert SentCore(s.core);
    if over {
      ClearLogged(m.session.core, s.core, LimitRun(m, ClearObservations(s), SizeLimit).session.core);
    } else {
      assert s.core.replays == m.session.core.replays by {
        PreparedHeads(m.session);
      }
    }
    PreparedHeads(m.session);
  }

  lemma PreparedHeads(s: Session)
    ensures AppendObservations(AppendInput(s)).core.replays == s.core.replays
  {
  }

  /** What is logged may be cleared. */
  lemma ClearLogged(before: Core, core: Core, after: Core)
    requires Keeps(before, core, false, false) && AllLogged(core) && Same(core, after)
    ensures Keeps(before, after, false, false) && SentCore(after)
  {
  }

  lemma ConsumeKeeps(m: Machine, commit: Commit)
    requires Inv(m) && SentInv(m) && m.pc.Replaying? && m.session.core.replays != []
    ensures Goes(m, ConsumeHead(m, m.pc.mode, commit), false, false)
  {
    var replays := m.session.core.replays;
    assert replays == [replays[0]] + replays[1..];
    assert m.pc.mode.Fresh? && Open(m.session.core) by {
      hide CoreOk, BooksOk, DurableOk, DescendsFrom;
    }
    hide Inv, Applied;
  }

  lemma ReplayingKeeps(m: Machine, e: Event)
    requires Inv(m) && ApplyInv(m) && SentInv(m) && m.pc.Replaying?
    ensures Goes(m, FromReplaying(m, e), false, false)
  {
    hide PrepareRequest, ConsumeHead, Applied;
    if m.session.core.replays != [] {
      if e.Consume? {
        ConsumeKeeps(m, e.commit);
      }
      hide Inv, ApplyInv;
    } else if e.Prepare? {
      match m.pc.mode
      case Projected(turn) =>
        hide Inv;
        ProjectedInput(m, turn);
      case Fresh(resumed) =>
        hide Inv, ApplyInv, Goes;
        PrepareKeeps(m, resumed, e.config, e.over);
    }
  }

  lemma ProjectedInput(m: Machine, turn: Turn)
    requires ApplyInv(m) && SentInv(m) && m.pc == Replaying(Projected(turn))
    ensures Goes(m, m.(pc := Answered(turn, true), session := AppendInput(m.session)), false, false)
  {
    var s := m.session;
    ProjectedIsInLog(s.core);
    if s.core.input.Some? {
      assert InputMessages(s.core.input)[0] == UserMessage(s.core.input.value.number, s.core.input.value.text);
    }
    AppliedStays(s.core.messages, AppendInput(s).core.messages, s.core.step);
    hide ApplyInv, Applied;
  }

  lemma ProjectedIsInLog(core: Core)
    requires EndsInBatch(core)
    ensures Applied(core.messages, core.step)
  {
    var last := |core.messages| - 1;
    if OwnAnswerAt(core, last) {
    } else {
      assert OwnAnswerAt(core, last - 1);
    }
  }

  lemma HandlesFresh(m: Machine)
    requires Inv(m) && m.pc.Handling?
    ensures !CurrentSettled(m.session.core.step, m.session.core.invocation)
  {
    hide CoreOk, BooksOk, DurableOk, DescendsFrom;
  }

  /** An output joins the pending ones of a step whose call is not settled, or whose answer is applied. */
  lemma OutputJoins(m: Machine, m': Machine, o: Observation)
    requires !(CurrentSettled(m.session.core.step, m.session.core.invocation) && !Applied(m.session.core.messages, m.session.core.step))
    requires var core, core' := m.session.core, m'.session.core;
      && core'.observations == core.observations + [o] && core'.messages == core.messages && core'.input == core.input
      && core'.step == core.step && core'.ready == core.ready && core'.replays == core.replays && core'.invocation == core.invocation
    requires m'.durable == m.durable && m'.started == m.started && SentPc(m')
    ensures Goes(m, m', false, false)
  {
    hide Applied, SentPc;
  }

  lemma HandlingKeeps(m: Machine, e: Event)
    requires Inv(m) && SentInv(m) && m.pc.Handling?
    ensures Goes(m, FromHandling(m, e), Drops(m, e), false)
  {
    HandlesFresh(m);
    hide Inv, SentCore, HaltRun, AllLogged, Goes, CurrentSettled;
    var m' := FromHandling(m, e);
    match e
    case Halt(stop) =>
      HaltKeeps(m, m.session, stop);
      SameGoes(m, m', stop.UserStop?);
    case Handled(Some(output)) => OutputJoins(m, m', Observation(ReplayOutput(m.pc.head), 0, output));
    case _ => SameGoes(m, m', false);
  }

  // ---------- The paid call ----------

  lemma DeliverGoes(m: Machine, ended: Machine, s: Session, entry: Entry)
    requires entry.Settled? && SentPc(m) && AllLogged(m.session.core)
    requires ended == m.(journal := ended.journal, spends := ended.spends)
    requires s == Observe(m.session, m.session.core.step, entry)
    ensures Goes(m, Deliver(ended, s, entry), false, false)
    ensures Goes(m, AwaitEvidence(ended, s, entry), false, false)
  {
    hide Account, FailRun, FailTurn, Goes, SentPc;
    AccountKeeps(s, s.core.step, entry.receipt, map[]);
    FailKeeps(ended, s, NoCode);
    var r := Account(s, s.core.step, entry.receipt, map[]);
    if r.Some? {
      FailKeeps(ended, r.value, NoCode);
      FailKeeps(ended, r.value, EvidenceUncommitted);
      if entry.outcome.Answer? {
        Free(Deliver(ended, s, entry));
      }
    }
    LearntGoes(m, s.core, Deliver(ended, s, entry));
    LearntGoes(m, s.core, AwaitEvidence(ended, s, entry));
  }

  lemma Free(m: Machine)
    requires m.pc.Answered?
    ensures SentPc(m)
  {
  }

  /** What becomes known of the call, and what is charged for it, moves no input. */
  lemma LearntGoes(m: Machine, core: Core, m': Machine)
    requires AllLogged(m.session.core) && core == m.session.core.(invocation := core.invocation)
    requires Same(core, m'.session.core) && m'.durable == m.durable && m'.started == m.started && SentPc(m')
    ensures Goes(m, m', false, false)
  {
    hide Applied, SentPc;
  }

  lemma PreemptGoes(m: Machine, head: Entry, spent: Usage, stop: Stop)
    requires AllLogged(m.session.core)
    ensures Goes(m, PreemptCall(m, head, spent, stop), false, false)
  {
    hide Account, FailRun, HaltRun, Goes, SentPc, AllLogged;
    var s := Observe(m.session, m.session.core.step, head);
    AccountKeeps(s, s.core.step, spent, map[]);
    FailKeeps(m, s, NoCode);
    var r := Account(s, s.core.step, spent, map[]);
    if r.Some? {
      HaltKeeps(m, r.value, stop);
    }
    LearntGoes(m, s.core, PreemptCall(m, head, spent, stop));
  }

  /** Within the call: the program point moves on, the log and the request do not. */
  lemma CallGoes(m: Machine, m': Machine)
    requires SentInv(m) && (m.pc.Requesting? || m.pc.Ready? || m.pc.InFlight? || m.pc.Backoff?)
    requires m'.durable == m.durable && m'.started == m.started
    requires m'.session.core == m.session.core.(invocation := m'.session.core.invocation)
    requires m'.pc == m.pc || (m'.pc.Ready? && m'.pc.request == m.pc.request)
             || (m'.pc.InFlight? && m'.pc.request == m.pc.request) || (m'.pc.Backoff? && m'.pc.request == m.pc.request)
    ensures Goes(m, m', false, false)
  {
    hide Applied;
  }

  lemma ProbeGoes(m: Machine, e: Event)
    requires SentInv(m) && m.pc.Requesting? && e.Probe? && m.session.core.step in m.journal
    ensures var head := m.journal[m.session.core.step];
      && Goes(m, RefuseProbe(m, m.session.core.step, head), false, false)
      && Goes(m, RefuseProbe(m, m.session.core.step, Unknown(m.pc.request, head.attempt)), false, false)
      && (head.Settled? && head.request == m.pc.request ==> Goes(m, ReuseSettled(m, head, e.halt, e.again), false, false))
  {
    hide FailRun, HaltRun, Deliver, Goes, AllLogged, SentCore;
    var step, head := m.session.core.step, m.journal[m.session.core.step];
    RefuseGoes(m, step, head);
    RefuseGoes(m, step, Unknown(m.pc.request, head.attempt));
    if head.Settled? && head.request == m.pc.request {
      var s := Observe(m.session, step, head);
      match e.halt {
        case None =>
          DeliverGoes(m, m, s, head);
          if e.again && MayRetry(m.config, head) {
            CallGoes(m, ReuseSettled(m, head, e.halt, e.again));
          }
        case Some(stop) =>
          HaltKeeps(m, s, stop);
          CallGoes(m, m);
          if !stop.UserStop? {
            LearntGoes(m, s.core, HaltRun(m, s, stop));
          }
      }
    }
  }

  lemma RefuseGoes(m: Machine, step: nat, head: Entry)
    requires AllLogged(m.session.core)
    ensures Goes(m, RefuseProbe(m, step, head), false, false)
  {
    hide FailRun, Goes, AllLogged;
    var s := Observe(m.session, step, head);
    FailKeeps(m.(journal := m.journal[step := head]), s, NoCode);
    LearntGoes(m, s.core, RefuseProbe(m, step, head));
  }

  lemma RequestingKeeps(m: Machine, e: Event)
    requires SentInv(m) && m.pc.Requesting?
    ensures Goes(m, FromRequesting(m, e), false, false)
  {
    hide RefuseProbe, ReuseSettled, AwaitEvidence, Goes, HaltRun, AllLogged, SentCore;
    CallGoes(m, m);
    if e.Probe? {
      var step := m.session.core.step;
      ReserveGoes(m, e.halt);
      if step in m.journal {
        ProbeGoes(m, e);
        if m.journal[step].Settled? {
          DeliverGoes(m, m, Observe(m.session, step, m.journal[step]), m.journal[step]);
        }
      }
      hide ReserveDispatch;
    }
  }

  lemma ReserveGoes(m: Machine, halt: Option<Stop>)
    requires SentInv(m) && m.pc.Requesting?
    ensures Goes(m, ReserveDispatch(m, m.pc.request, m.pc.resumed, halt), false, false)
  {
    hide Goes, HaltRun, AllLogged, SentCore;
    var m' := ReserveDispatch(m, m.pc.request, m.pc.resumed, halt);
    match halt
    case None => CallGoes(m, m');
    case Some(stop) =>
      HaltKeeps(m, m.session, stop);
      CallGoes(m, m);
      LearntGoes(m, m.session.core, HaltRun(m, m.session, stop));
  }

  lemma CallKeeps(m: Machine, e: Event)
    requires SentInv(m) && (m.pc.Ready? || m.pc.Backoff?)
    ensures m.pc.Ready? ==> Goes(m, FromReady(m, e), false, false)
    ensures m.pc.Backoff? ==> Goes(m, FromBackoff(m, e), false, false)
  {
    hide PreemptCall, Goes, AllLogged, SentCore;
    CallGoes(m, m);
    if e.Halt? {
      if m.pc.Ready? {
        PreemptGoes(m, Reserved(m.pc.request, m.pc.attempt), m.pc.spent, e.stop);
      } else if m.session.core.step in m.journal {
        PreemptGoes(m, m.journal[m.session.core.step], m.pc.spent, e.stop);
      }
    } else if e.Dispatch? && m.pc.Ready? {
      CallGoes(m, FromReady(m, e));
    } else if e.Go? && m.pc.Backoff? {
      CallGoes(m, FromBackoff(m, e));
    }
  }

  lemma SettleGoes(m: Machine, usage: Usage, outcome: Outcome, evidenceOk: bool, again: bool)
    requires SentInv(m) && m.pc.InFlight?
    ensures Goes(m, SettleDispatch(m, usage, outcome, evidenceOk, again), false, false)
  {
    hide Deliver, AwaitEvidence, Goes, AllLogged, SentCore, Sum, MayRetry;
    var step := m.session.core.step;
    var entry := Settled(m.pc.request, m.pc.attempt, Sum(m.pc.spent, usage), outcome);
    var ended := EndAttempt(m, entry, usage);
    DeliverGoes(m, ended, Observe(m.session, step, entry), entry);
    CallGoes(m, ended.(pc := Backoff(entry.request, entry.attempt, entry.receipt, false)));
  }

  lemma LoseGoes(m: Machine, loss: Loss)
    requires SentInv(m) && m.pc.InFlight?
    ensures Goes(m, LoseDispatch(m, loss), false, false)
  {
    hide Account, FailRun, Goes, AllLogged, SentCore, Sum;
    var head := LostHead(m.pc, loss);
    var ended, s := EndAttempt(m, head, loss.usage), Observe(m.session, m.session.core.step, head);
    AccountKeeps(s, s.core.step, Sum(m.pc.spent, loss.usage), map[]);
    var r := Account(s, s.core.step, Sum(m.pc.spent, loss.usage), map[]);
    FailKeeps(ended, s, NoCode);
    if r.Some? {
      FailKeeps(ended, r.value, NoCode);
    }
    LearntGoes(m, s.core, LoseDispatch(m, loss));
  }

  lemma InFlightKeeps(m: Machine, e: Event)
    requires SentInv(m) && m.pc.InFlight?
    ensures Goes(m, FromInFlight(m, e), false, false)
  {
    hide SettleDispatch, LoseDispatch, WellFormed, Goes, AllLogged, SentCore;
    CallGoes(m, m);
    match e
    case Settle(usage, outcome, evidenceOk, again) => SettleGoes(m, usage, outcome, evidenceOk, again);
    case Lose(loss) => LoseGoes(m, loss);
    case _ =>
  }

  // ---------- Applying the answer ----------

  /** A live answer waits with its inputs logged; a projected one is a batch that still looks unapplied. */
  lemma AnswerWaits(m: Machine)
    requires OnceInv(m, false) && ApplyInv(m) && SentInv(m) && m.pc.Answered?
    ensures m.pc.projected ==> m.session.callsPending && Unapplied(m.session).Some? && Applied(m.session.core.messages, m.session.core.step)
    ensures !m.pc.projected ==> AllLogged(m.session.core)
  {
    if m.pc.projected {
      UnappliedProgress(m.session);
      ProjectedIsInLog(m.session.core);
    } else {
      WaitingIsLogged(m.session.core);
    }
  }

  lemma AnsweredKeeps(m: Machine, e: Event)
    requires OnceInv(m, false) && ApplyInv(m) && SentInv(m) && m.pc.Answered?
    ensures Goes(m, FromAnswered(m, e), false, false)
  {
    hide OnceInv, ApplyInv, SentCore, AllLogged, Goes, HaltRun, WithoutCalls, Unapplied, Applied, Keeps, CompletedCalls;
    AnswerWaits(m);
    var s, turn, m' := m.session, m.pc.turn, FromAnswered(m, e);
    match e
    case Halt(stop) =>
      HaltKeeps(m, s, stop);
      SameGoes(m, m', false);
    case Proceed(jobs) =>
      if m.pc.projected {
        ProjectedProceeds(m, jobs);
      } else {
        AnswerProceeds(m, jobs);
      }
    case _ => SameGoes(m, m', false);
  }

  lemma AnswerProceeds(m: Machine, jobs: bool)
    requires AllLogged(m.session.core) && m.pc.Answered? && !m.pc.projected
    ensures Goes(m, FromAnswered(m, Proceed(jobs)), false, false)
  {
    hide SentCore, AllLogged, Goes, WithoutCalls, Keeps, CompletedCalls;
    var s, turn := m.session, m.pc.turn;
    if turn.calls == [] {
      WithoutCallsKeeps(m, turn, jobs);
    } else {
      ProjectionKeeps(s, turn);
      ThenGoes(m, ProjectTurn(s, turn).core, FromAnswered(m, Proceed(jobs)));
    }
  }

  /** The calls of a projected answer go on. */
  lemma ProjectedProceeds(m: Machine, jobs: bool)
    requires ApplyInv(m) && SentCore(m.session.core) && m.pc.Answered? && m.pc.projected
    ensures Goes(m, FromAnswered(m, Proceed(jobs)), false, false)
  {
    hide Goes, SentCore, CompletedCalls, AllLogged, WithoutCalls;
    assert m.pc.turn.calls != [] by {
      hide Progress;
    }
    hide ApplyInv;
    SameGoes(m, FromAnswered(m, Proceed(jobs)), false);
  }

  // ---------- The tool batch ----------

  lemma BatchIsApplied(m: Machine)
    requires ApplyInv(m) && (m.pc.Batch? || m.pc.Calling? || m.pc.Returned?)
    ensures Applied(m.session.core.messages, m.session.core.step) && m.session.callsPending && Unapplied(m.session).Some?
  {
    UnappliedProgress(m.session);
    ProjectedIsInLog(m.session.core);
  }

  /** The end of a batch keeps the outputs pending: the next request, or the log behind a finish, takes them. */
  lemma EndBatchKeeps(m: Machine, s: Session, turn: Turn)
    requires SentCore(m.session.core) && Same(m.session.core, s.core) && s.core.observations == m.session.core.observations
    ensures Goes(m, EndBatch(m, s, turn), false, false)
  {
    hide Goes, SentCore, AllLogged, SettleRun;
    SettleKeeps(m, s.(callsPending := false), LimitedPark, s.core.code);
    SameGoes(m, EndBatch(m, s, turn), false);
  }

  lemma BatchKeeps(m: Machine, e: Event)
    requires ApplyInv(m) && SentInv(m) && m.pc.Batch?
    ensures Goes(m, FromBatch(m, e), false, false)
  {
    hide ApplyInv, SentCore, Goes, FromBatch, Unapplied;
    BatchIsApplied(m);
    BatchGoesOn(m, e);
  }

  lemma BatchGoesOn(m: Machine, e: Event)
    requires SentCore(m.session.core) && m.pc.Batch? && Unapplied(m.session).Some?
    ensures Goes(m, FromBatch(m, e), false, false)
  {
    hide SentCore, AllLogged, Goes, HaltRun, EndBatch, Unapplied;
    var s, turn, next := m.session, m.pc.turn, m.pc.next;
    if e.Go? && next >= |turn.calls| {
      EndBatchKeeps(m, s, turn);
    } else if e.Go? && turn.calls[next].id !in m.pc.done && s.core.toolCalls + 1 > m.config.maxToolCalls {
      EndBatchKeeps(m, s.(core := s.core.(toolCalls := s.core.toolCalls + 1, status := Limited, code := MaxToolCalls)), turn);
    } else {
      if e.Halt? {
        HaltKeeps(m, s, e.stop);
      }
      SameGoes(m, FromBatch(m, e), false);
    }
  }

  lemma ReturnedKeeps(m: Machine, e: Event)
    requires ApplyInv(m) && SentInv(m) && m.pc.Returned?
    ensures Goes(m, FromReturned(m, e), false, false)
  {
    BatchIsApplied(m);
    hide ApplyInv, SentCore, AllLogged, Goes, HaltRun, Unapplied, Applied;
    if e.Halt? {
      HaltKeeps(m, m.session, e.stop);
    }
    SameGoes(m, FromReturned(m, e), false);
  }

  lemma CallingKeeps(m: Machine, e: Event)
    requires ApplyInv(m) && SentInv(m) && m.pc.Calling?
    ensures Goes(m, FromCalling(m, e), false, false)
  {
    BatchIsApplied(m);
    hide ApplyInv, SentCore, AllLogged, Goes, HaltRun, Unapplied, Applied;
    var m', turn, next := FromCalling(m, e), m.pc.turn, m.pc.next;
    if e.Complete? && next < |turn.calls| {
      OutputJoins(m, m', Observation(CallOutput(m.session.core.step, turn.calls[next].id), turn.calls[next].name, e.output));
    } else {
      if e.Halt? {
        HaltKeeps(m, m.session, e.stop);
      }
      SameGoes(m, m', false);
    }
  }

  // ---------- The decision ----------

  /** The outputs behind a finish are logged before they are cleared. */
  lemma FinishKeeps(s: Session, fromFinish: bool)
    requires SentCore(s.core)
    ensures var core := LogFinish(s, fromFinish).core;
      && Keeps(s.core, core, false, false) && SentCore(core) && core.replays == s.core.replays && core.invocation == s.core.invocation
      && core.input == s.core.input && core.ready == s.core.ready && core.step == s.core.step
      && (fromFinish ==> core.observations == []) && (!fromFinish ==> core == s.core)
  {
    forall o | o in s.core.observations
      ensures ObservationMessage(o) in AppendObservations(s).core.messages
    {
      LoggedObservations(s.core.observations, o);
    }
    hide ObservationMessages, Applied;
  }

  lemma DecidedGoes(m: Machine, s: Session, fromFinish: bool, m': Machine)
    requires SentInv(m) && m.pc.Deciding? && Same(m.session.core, s.core) && s.core.observations == m.session.core.observations
    requires Same(LogFinish(s, fromFinish).core, m'.session.core)
    requires m'.session.core.observations == LogFinish(s, fromFinish).core.observations
    requires m'.durable == m.durable && m'.started == m.started && SentPc(m')
    ensures Goes(m, m', false, false)
  {
    assert SentCore(s.core) by {
      hide Applied;
    }
    FinishKeeps(s, fromFinish);
    hide LogFinish, SentCore, AllLogged;
    ThenGoes(m, LogFinish(s, fromFinish).core, m') by {
      assert Keeps(m.session.core, LogFinish(s, fromFinish).core, false, false);
    }
  }

  lemma DecidingKeeps(m: Machine, e: Event)
    requires SentInv(m) && m.pc.Deciding?
    ensures Goes(m, FromDeciding(m, e), Drops(m, e), false)
  {
    hide Goes, HaltRun, SentCore, AllLogged, LogFinish, SettleRun, FailRun, Exhaust, Reprompt;
    var s, turn, fromFinish, m' := m.session, m.pc.turn, m.pc.fromFinish, FromDeciding(m, e);
    match e
    case Halt(stop) =>
      HaltKeeps(m, s, stop);
      SameGoes(m, m', stop.UserStop?);
    case Decide(verdict) =>
      if turn.stop == Normal && verdict.Defect? {
        FailKeeps(m, s, NoCode);
        SameGoes(m, m', false);
      } else if turn.stop == Normal && verdict.Rejected? {
        RejectedKeeps(m);
      } else {
        var outcome := if turn.stop == Refusal then WithOutcome(s, Failed, OutputRefused)
                       else if turn.stop == Length then WithOutcome(s, Limited, OutputTruncated) else s;
        var reason := if turn.stop == Length then LimitedPark else SettledPark;
        var code := if turn.stop == Refusal then OutputRefused else if turn.stop == Length then OutputTruncated else NoCode;
        SettleKeeps(m, LogFinish(outcome, fromFinish), reason, code);
        DecidedGoes(m, outcome, fromFinish, m');
      }
    case _ => SameGoes(m, m', false);
  }

  lemma RejectedKeeps(m: Machine)
    requires SentInv(m) && m.pc.Deciding?
    ensures Goes(m, Exhaust(m, m.pc.fromFinish), false, false)
    ensures Goes(m, Reprompt(m, m.pc.fromFinish), false, false)
  {
    var fromFinish := m.pc.fromFinish;
    hide Goes, SentCore, AllLogged, LogFinish, SettleRun;
    var limited := DropFinish(WithOutcome(RecordFailure(m.session), Limited, ValidatorUnsatisfied), fromFinish);
    SettleKeeps(m, LogFinish(limited, fromFinish), LimitedPark, ValidatorUnsatisfied);
    DecidedGoes(m, limited, fromFinish, Exhaust(m, fromFinish));
    RepromptKeeps(m);
  }

  lemma RepromptKeeps(m: Machine)
    requires SentInv(m) && m.pc.Deciding?
    ensures Goes(m, Reprompt(m, m.pc.fromFinish), false, false)
  {
    var fromFinish := m.pc.fromFinish;
    var recorded := RecordFailure(m.session);
    var s := DropFinish(recorded.(core := recorded.core.(retries := recorded.core.retries + 1)), fromFinish);
    assert SentCore(s.core) by {
      hide Applied;
    }
    FinishKeeps(s, fromFinish);
    hide LogFinish, Applied;
    assert ClearObservations(LogFinish(s, fromFinish)).core.observations == [];
    Reprompted(LogFinish(s, fromFinish).core, Reprompt(m, fromFinish).session.core);
  }

  lemma Reprompted(core: Core, core': Core)
    requires core.observations == [] && core'.observations == []
    requires core'.messages == core.messages + [RepairMessage]
    requires core'.input == core.input && core'.ready == core.ready && core'.replays == core.replays
    ensures Keeps(core, core', false, false) && SentCore(core')
  {
  }

  // ---------- Commits and reports ----------

  lemma ParkingKeeps(m: Machine, e: Event)
    requires SentInv(m) && m.pc.Parking?
    ensures Goes(m, FromParking(m, e), false, false)
  {
    hide Applied;
  }

  lemma ReportKeeps(m: Machine, task: Task, persist: Option<Commit>)
    requires SentInv(m) && !m.pc.Down?
    ensures Goes(m, Reported(m, task, persist), false, false)
  {
    ReportFrame(m, task, persist);
    hide Reported, Applied, SentPc;
    var m', core := Reported(m, task, persist), m.session.core;
    assert forall t :: t in core.ready ==> t in core.ready + [task];
    PcIgnoresReady(m, m');
  }

  lemma ReportFrame(m: Machine, task: Task, persist: Option<Commit>)
    ensures var m', core := Reported(m, task, persist), m.session.core;
      && m'.pc == m.pc && m'.started == m.started
      && m'.session.core == core.(ready := m'.session.core.ready)
      && (m'.session.core.ready == core.ready || m'.session.core.ready == core.ready + [task])
      && (m'.durable == m.durable || (m'.durable.Some? && m'.durable.value.core == m'.session.core))
  {
    hide TaskIds;
  }

  lemma PcIgnoresReady(m: Machine, m': Machine)
    requires SentPc(m) && m'.pc == m.pc && m'.session.core == m.session.core.(ready := m'.session.core.ready)
    ensures SentPc(m')
  {
  }

  // ---------- Every step ----------

  lemma NextGoes(m: Machine, e: Event)
    requires OrderlyInv(m) && SentInv(m) && !m.pc.Down? && !e.Crash?
    ensures Goes(m, Next(m, e), Drops(m, e), e.Submit?)
  {
    hide FromIdle, FromTop, FromRecovering, FromRecovered, FromReplaying, FromHandling, FromRequesting, FromReady,
         FromInFlight, FromBackoff, FromAnswered, FromBatch, FromCalling, FromReturned, FromDeciding, Reported,
         FromParking, Inv, OnceInv, ApplyInv, JournalInv, SentInv, SentCore, SentPc, TakesHeads;
    if e.Report? {
      ReportKeeps(m, e.task, e.persist);
    } else {
      match m.pc
      case Idle => IdleKeeps(m, e);
      case Top => TopKeeps(m, e);
      case Recovering(_) => RecoveringKeeps(m, e);
      case Recovered(_, _, _) => RecoveredKeeps(m, e);
      case Replaying(_) => ReplayingKeeps(m, e);
      case Handling(_, _) => HandlingKeeps(m, e);
      case Requesting(_, _) => RequestingKeeps(m, e);
      case Ready(_, _, _) => CallKeeps(m, e);
      case InFlight(_, _, _) => InFlightKeeps(m, e);
      case Backoff(_, _, _, _) => CallKeeps(m, e);
      case Answered(_, _) => AnsweredKeeps(m, e);
      case Batch(_, _, _) => BatchKeeps(m, e);
      case Calling(_, _, _) => CallingKeeps(m, e);
      case Returned(_, _, _) => ReturnedKeeps(m, e);
      case Deciding(_, _) => DecidingKeeps(m, e);
      case Parking(_) => ParkingKeeps(m, e);
    }
  }

  /** A crash keeps the checkpoint, and a restore is of it. */
  lemma CrashStep(m: Machine, e: Event)
    requires m.pc.Down? || e.Crash?
    ensures var m' := Next(m, e);
      && m'.durable == m.durable && m'.started == m.started
      && (m'.pc.Down? || (m.pc.Down? && m'.pc.Idle? && m'.session == Rehydrate(m.durable)))
  {
    hide Rehydrate;
  }

  lemma NextIsSent(m: Machine, e: Event)
    requires OrderlyInv(m) && SentInv(m)
    ensures SentInv(Next(m, e))
  {
    hide OrderlyInv, Next, Keeps, TakesHeads, Applied, AllLogged, CurrentSettled;
    if m.pc.Down? || e.Crash? {
      CrashStep(m, e);
      assert SentCore(InitialCore) by {
        NothingToSend();
      }
    } else {
      NextGoes(m, e);
    }
  }

  lemma NothingToSend()
    ensures SentCore(InitialCore)
  {
  }

  ghost predicate KeepingInv(m: Machine) {
    OrderlyInv(m) && SentInv(m)
  }

  lemma StartsKeeping(config: Config)
    ensures KeepingInv(Initial(config))
  {
    StartsOrderly(config);
    NothingToSend();
    hide OrderlyInv;
  }

  lemma {:induction false} StaysKeeping(m: Machine, events: seq<Event>)
    requires KeepingInv(m) && Allowed(Orderly, m, events)
    ensures KeepingInv(Run(m, events))
  {
    hide OrderlyInv, SentInv, Orderly, Next, Allowed;
    if events != [] {
      var before, e := events[..|events| - 1], events[|events| - 1];
      AllowedPrefix(Orderly, m, events);
      StaysKeeping(m, before);
      NextIsOrderly(Run(m, before), e);
      NextIsSent(Run(m, before), e);
    }
  }

  // ---------- What a run takes in ----------

  datatype Item = AnInput(input: Input) | AnOutput(observation: Observation) | ATask(task: Task) | AnApproval(id: nat)

  /** The item waits or has reached the log; an approval waits, in whichever queue, or its handler has been started. */
  ghost predicate Has(core: Core, started: seq<nat>, item: Item) {
    match item
    case AnInput(input) => core.input == Some(input) || UserMessage(input.number, input.text) in core.messages
    case AnOutput(o) => o in core.observations || ObservationMessage(o) in core.messages
    case ATask(t) => t in core.ready || Result(t) in core.observations || ObservationMessage(Result(t)) in core.messages
    case AnApproval(id) => Task(id, true) in core.ready || id in core.replays || id in started
  }

  ghost predicate Stored(m: Machine, item: Item) {
    m.durable.Some? && Has(m.durable.value.core, m.started, item)
  }

  ghost predicate Held(m: Machine, item: Item) {
    if m.pc.Down? then Stored(m, item) else Has(m.session.core, m.started, item)
  }

  /**
   The only events that may lose it: a newer input replaces an unsent one; a user stop with no paid call to
   apply gives up unsent observations; an approval whose consumption checkpoint raises is not started.
  */
  predicate Loses(m: Machine, e: Event, item: Item) {
    match item
    case AnInput(_) => e.Submit?
    case AnOutput(_) => Drops(m, e)
    case ATask(_) => Drops(m, e)
    case AnApproval(_) => m.pc.Replaying? && e.Consume? && Raised(e.commit)
  }

  /** A crash spares what is in the checkpoint. */
  ghost predicate Spares(m: Machine, e: Event, item: Item) {
    !Loses(m, e, item) && (e.Crash? && !m.pc.Down? ==> Stored(m, item))
  }

  lemma OnlyRaisedConsumptionsStop(m: Machine, e: Event)
    requires m.pc.Replaying? && Next(m, e).pc.Idle?
    ensures e.Consume? && Raised(e.commit)
  {
    hide DeliverReady;
  }

  lemma GoesHas(m: Machine, m': Machine, dropping: bool, submitting: bool, item: Item)
    requires Goes(m, m', dropping, submitting) && Has(m.session.core, m.started, item)
    requires dropping ==> !item.AnOutput? && !item.ATask?
    requires submitting ==> !item.AnInput?
    requires m.pc.Replaying? && m'.pc.Idle? ==> !item.AnApproval?
    ensures Has(m'.session.core, m'.started, item)
  {
    hide SentCore, SentPc;
    forall i | 0 <= i < |m.session.core.messages|
      ensures m.session.core.messages[i] in m'.session.core.messages
    {
      assert m'.session.core.messages[i] == m.session.core.messages[i];
    }
    forall i | 0 <= i < |m.started|
      ensures m.started[i] in m'.started
    {
      assert m'.started[i] == m.started[i];
    }
  }

  /** One event keeps what is held, and what is stored stays stored. */
  lemma NextHolds(m: Machine, e: Event, item: Item)
    requires KeepingInv(m) && Held(m, item) && Spares(m, e, item)
    ensures Held(Next(m, e), item) && (Stored(m, item) ==> Stored(Next(m, e), item))
  {
    hide OrderlyInv, SentInv, Next, Has, Keeps, TakesHeads, SentCore, SentPc;
    if m.pc.Down? || e.Crash? {
      CrashStep(m, e);
    } else {
      NextGoes(m, e);
      if m.pc.Replaying? && Next(m, e).pc.Idle? {
        OnlyRaisedConsumptionsStop(m, e);
      }
      var m' := Next(m, e);
      GoesHas(m, m', Drops(m, e), e.Submit?, item);
      if Stored(m, item) {
        StartedGrows(m.durable.value.core, m.started, m'.started, item);
      }
      assert !m'.pc.Down? by {
        StillUp(m');
      }
    }
  }

  lemma StillUp(m: Machine)
    requires SentPc(m)
    ensures !m.pc.Down?
  {
    hide AllLogged;
  }

  lemma StartedGrows(core: Core, started: seq<nat>, more: seq<nat>, item: Item)
    requires started <= more && Has(core, started, item)
    ensures Has(core, more, item)
  {
    forall i | 0 <= i < |started|
      ensures started[i] in more
    {
      assert more[i] == started[i];
    }
  }

  // ---------- Main results ----------

  /**
   Over any orderly run, through parks, stops, refused commits and restarts: what the run holds it keeps, until
   one of the events named in `Loses`, or a crash before any checkpoint has it.
  */
  lemma {:induction false} NothingIsLost(m: Machine, events: seq<Event>, item: Item)
    requires KeepingInv(m) && Allowed(Orderly, m, events) && Held(m, item)
    requires Allowed((x, e) => Spares(x, e, item), m, events)
    ensures Held(Run(m, events), item) && (Stored(m, item) ==> Stored(Run(m, events), item))
  {
    hide KeepingInv, Orderly, Next, Allowed, Held, Stored, Spares;
    if events != [] {
      var before, e := events[..|events| - 1], events[|events| - 1];
      AllowedPrefix(Orderly, m, events);
      AllowedPrefix((x, e) => Spares(x, e, item), m, events);
      NothingIsLost(m, before, item);
      StaysKeeping(m, before);
      NextHolds(Run(m, before), e, item);
    }
  }

  /** What each event takes in is held from then on. */
  lemma TakenIn(m: Machine, e: Event)
    ensures m.pc.Idle? && e.Submit? && Next(m, e).pc.Top? ==>
      Held(Next(m, e), AnInput(Input(m.session.core.submits + 1, e.text)))
    ensures m.pc.Calling? && m.pc.next < |m.pc.turn.calls| && e.Complete? ==>
      var call := m.pc.turn.calls[m.pc.next];
      Held(Next(m, e), AnOutput(Observation(CallOutput(m.session.core.step, call.id), call.name, e.output)))
    ensures m.pc.Handling? && e.Handled? && e.result.Some? ==>
      Held(Next(m, e), AnOutput(Observation(ReplayOutput(m.pc.head), 0, e.result.value)))
    ensures !m.pc.Down? && e.Report? && e.task.id !in m.session.core.delivered && e.task.id !in TaskIds(m.session.core.ready) ==>
      Held(Next(m, e), ATask(e.task)) && (e.task.approved ==> Held(Next(m, e), AnApproval(e.task.id)))
  {
    hide Held, Next, TaskIds;
    if m.pc.Idle? && e.Submit? {
      SubmitTakesIn(m, e.text);
    } else if m.pc.Calling? && m.pc.next < |m.pc.turn.calls| && e.Complete? {
      CallTakesIn(m, e.output, e.finishes);
    } else if m.pc.Handling? && e.Handled? && e.result.Some? {
      HandlerTakesIn(m, e.result.value);
    }
    if !m.pc.Down? && e.Report? && e.task.id !in m.session.core.delivered && e.task.id !in TaskIds(m.session.core.ready) {
      ReportTakesIn(m, e.task, e.persist);
    }
  }

  lemma SubmitTakesIn(m: Machine, text: nat)
    requires m.pc.Idle?
    ensures Next(m, Submit(text)).pc.Top? ==> Held(Next(m, Submit(text)), AnInput(Input(m.session.core.submits + 1, text)))
  {
    hide EvidenceRecovery;
  }

  lemma CallTakesIn(m: Machine, output: nat, finishes: bool)
    requires m.pc.Calling? && m.pc.next < |m.pc.turn.calls|
    ensures var call := m.pc.turn.calls[m.pc.next];
      Held(Next(m, Complete(output, finishes)), AnOutput(Observation(CallOutput(m.session.core.step, call.id), call.name, output)))
  {
    var core, core' := m.session.core, Next(m, Complete(output, finishes)).session.core;
    assert core'.observations[|core.observations|].output == output;
  }

  lemma HandlerTakesIn(m: Machine, value: nat)
    requires m.pc.Handling?
    ensures Held(Next(m, Handled(Some(value))), AnOutput(Observation(ReplayOutput(m.pc.head), 0, value)))
  {
    var core, core' := m.session.core, Next(m, Handled(Some(value))).session.core;
    assert core'.observations[|core.observations|].output == value;
  }

  lemma ReportTakesIn(m: Machine, task: Task, persist: Option<Commit>)
    requires !m.pc.Down? && task.id !in m.session.core.delivered && task.id !in TaskIds(m.session.core.ready)
    ensures var m' := Next(m, Report(task, persist));
      Held(m', ATask(task)) && (task.approved ==> Held(m', AnApproval(task.id)))
  {
    hide TaskIds;
    var core, core' := m.session.core, Next(m, Report(task, persist)).session.core;
    assert core'.ready[|core.ready|] == task;
  }

  /** A park that commits stores all that its session holds. */
  lemma ParksAreStored(m: Machine, item: Item)
    requires m.pc.Parking? && Held(m, item)
    ensures Stored(Next(m, Persist(Committed)), item) && Held(Next(m, Persist(Committed)), item)
  {
    hide Has;
  }

  /** The log carries the item. */
  ghost predicate Carries(messages: seq<Message>, item: Item) {
    match item
    case AnInput(input) => UserMessage(input.number, input.text) in messages
    case AnOutput(o) => ObservationMessage(o) in messages
    case ATask(t) => ObservationMessage(Result(t)) in messages
    case AnApproval(_) => true
  }

  predicate Calls(pc: Pc) {
    pc.Requesting? || pc.Ready? || pc.InFlight? || pc.Backoff?
  }

  /** Every request carries all that is held, but for tasks reported while it was being made. */
  lemma RequestCarries(m: Machine, item: Item)
    requires SentInv(m) && Calls(m.pc) && Held(m, item)
    ensures Carries(m.pc.request.messages, item) || (item.ATask? && item.task in m.session.core.ready)
  {
    hide SentCore;
  }

  /**
   Whatever an orderly run has taken in is in every later request, unless it was lost to an event of `Loses` or
   to a crash before any checkpoint had it.
  */
  lemma WhatIsTakenInReachesTheModel(config: Config, before: seq<Event>, after: seq<Event>, item: Item)
    requires Allowed(Orderly, Initial(config), before) && Allowed(Orderly, Run(Initial(config), before), after)
    requires Held(Run(Initial(config), before), item)
    requires Allowed((x, e) => Spares(x, e, item), Run(Initial(config), before), after)
    ensures var m := Run(Run(Initial(config), before), after);
      && Held(m, item)
      && (Calls(m.pc) ==> Carries(m.pc.request.messages, item) || (item.ATask? && item.task in m.session.core.ready))
  {
    hide KeepingInv, Orderly, Allowed, Run, Held, Spares, Carries;
    StartsKeeping(config);
    StaysKeeping(Initial(config), before);
    var m := Run(Initial(config), before);
    NothingIsLost(m, after, item);
    StaysKeeping(m, after);
    assert SentInv(Run(m, after)) by {
      IsSent(Run(m, after));
    }
    hide SentInv;
    if Calls(Run(m, after).pc) {
      RequestCarries(Run(m, after), item);
    }
  }

  lemma IsSent(m: Machine)
    requires KeepingInv(m)
    ensures SentInv(m)
  {
    hide OrderlyInv, SentInv;
  }

  /**
   A finished batch, below the limits and without a finish call: the very next request has, right behind the log
   so far, the output of each of its calls, in the order of the calls, and then the results of finished tasks.
  */
  lemma FinishedBatchIsSent(m: Machine, config: nat)
    requires OrderlyInv(m) && m.pc.Batch? && m.pc.next >= |m.pc.turn.calls|
    requires !m.session.core.finish && m.session.core.status != Limited && m.session.core.local < m.config.maxSteps
    requires forall t :: t in m.session.core.ready ==> !t.approved
    ensures var core, r := m.session.core, Next(Next(Next(m, Go), Go), Prepare(config, false));
      && r.pc.Requesting? && r.session.core.step == core.step + 1
      && core.messages <= r.pc.request.messages
      && |r.pc.request.messages| == |core.messages| + |m.pc.turn.calls| + |core.ready|
    ensures var core, calls, sent := m.session.core, m.pc.turn.calls,
                                     Next(Next(Next(m, Go), Go), Prepare(config, false)).pc.request.messages;
      && |core.observations| == |calls|
      && forall i :: 0 <= i < |calls| ==>
           && sent[|core.messages| + i] == ObservationMessage(core.observations[i])
           && core.observations[i].key == CallOutput(core.step, calls[i].id) && core.observations[i].name == calls[i].name
  {
    hide OrderlyInv, Next;
    FinishedFacts(m);
    BatchLeadsOn(m);
    NothingApproved(m.session.core.ready);
    hide ApprovedTasks, TaskObservations, TaskIds;
    var core, begun := m.session.core, Next(Next(m, Go), Go);
    RequestIsInOrder(begun, config);
    assert begun.session.core.observations == core.observations + TaskObservations(core.ready);
    var sent := Next(begun, Prepare(config, false)).pc.request.messages;
    assert |sent| == |core.messages| + |m.pc.turn.calls| + |core.ready| && core.messages <= sent;
    forall i | 0 <= i < |m.pc.turn.calls|
      ensures sent[|core.messages| + i] == ObservationMessage(core.observations[i])
    {
      assert begun.session.core.observations[i] == core.observations[i];
    }
  }

  /** Go, Go: the next step begins, with the outputs and the results of finished tasks pending. */
  lemma BatchLeadsOn(m: Machine)
    requires m.pc.Batch? && m.pc.next >= |m.pc.turn.calls| && !m.session.resumeStep
    requires !m.session.core.finish && m.session.core.status != Limited && m.session.core.local < m.config.maxSteps
    ensures Next(Next(m, Go), Go)
      == m.(pc := Replaying(Fresh(false)), session := DeliverReady(AllocateStep(m.session.(callsPending := false))))
  {
    hide DeliverReady;
    assert Next(m, Go) == m.(pc := Top, session := m.session.(callsPending := false));
  }

  lemma FinishedFacts(m: Machine)
    requires OrderlyInv(m) && m.pc.Batch? && m.pc.next >= |m.pc.turn.calls|
    ensures !m.session.resumeStep && m.session.core.input.None? && m.session.core.replays == []
    ensures OutputsOf(m.session.core.step, m.pc.turn, |m.pc.turn.calls|, m.session.core.observations)
  {
    BatchOutputs(m);
    hide OutputsOf;
    var core := m.session.core;
    assert core.input.None? && CurrentSettled(core.step, core.invocation) by {
      hide Progress, CarefulInv, DurableApply;
    }
    hide BillsOk, BooksOk, DurableOk, DescendsFrom, ApplyInv, OnceInv, JournalInv;
  }

  lemma {:induction false} NothingApproved(tasks: seq<Task>)
    requires forall t :: t in tasks ==> !t.approved
    ensures ApprovedTasks(tasks) == [] && |TaskObservations(tasks)| == |tasks|
  {
    if tasks != [] {
      assert tasks[0] in tasks;
      NothingApproved(tasks[1..]);
    }
  }

  /** Every fresh request is the log so far, then the new user message if there is one, then what is pending, in order. */
  lemma RequestIsInOrder(m: Machine, config: nat)
    requires m.pc.Replaying? && m.pc.mode.Fresh? && m.session.core.replays == []
    ensures var core, r := m.session.core, Next(m, Prepare(config, false));
      && r.pc.Requesting? && r.pc.request.config == config && r.session.core.input.None?
      && r.session.core.observations == core.observations && r.session.core.step == core.step
      && var sent, start := r.pc.request.messages, |core.messages| + if core.input.Some? then 1 else 0;
         && sent == r.session.core.messages && |sent| == start + |core.observations| && core.messages <= sent
         && (core.input.Some? ==> sent[|core.messages|] == UserMessage(core.input.value.number, core.input.value.text))
         && forall i :: 0 <= i < |core.observations| ==> sent[start + i] == ObservationMessage(core.observations[i])
  {
    LoggedInOrder(m.session.core.observations);
    hide ObservationMessages;
  }

  lemma LoggedInOrder(observations: seq<Observation>)
    ensures |ObservationMessages(observations)| == |observations|
    ensures forall i :: 0 <= i < |observations| ==> ObservationMessages(observations)[i] == ObservationMessage(observations[i])
  {
  }

  /** The other side of the exception: a user stop at such a point gives up what is pending iff no paid call waits to be applied. */
  lemma StopsGiveUpIff(m: Machine)
    requires Drops(m, Halt(UserStop)) && Next(m, Halt(UserStop)).pc.Parking?
    requires m.pc.Top? ==> !m.session.resumeStep && m.session.core.local < m.config.maxSteps
    ensures Next(m, Halt(UserStop)).session.core.observations
      == if Unapplied(m.session).Some? then m.session.core.observations else []
  {
    hide Unapplied;
  }
}
