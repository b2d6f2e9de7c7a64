/**
 Approved tool calls under crashes: each approved call's handler starts at most once over all
 activations, heads start in the order they were queued, the checkpoint a head runs under holds every
 earlier head's output, and a crash loses at most the head that was running.
*/
module RunReplays {
  import opened Wrappers
  import opened Usage
  import opened RunModel
  import opened RunDispatch
  import opened RunInputs

  // ---------- Invariant ----------

  /** Each task is queued, delivered and replayed at most once in this core. */
  ghost predicate QueuesOk(core: Core) {
    SourcesOk({}, core.ready, core.delivered, core.replays)
  }

  /** A started head cannot come back: it is delivered and waits nowhere. */
  ghost predicate Spent(started: seq<nat>, core: Core) {
    forall i :: 0 <= i < |started| ==>
      started[i] in core.delivered && started[i] !in core.replays && started[i] !in TaskIds(core.ready)
  }

  ghost predicate StartedOnce(started: seq<nat>) {
    forall i, j :: 0 <= i < j < |started| ==> started[i] != started[j]
  }

  /** The live queues have grown from the stored ones. */
  ghost predicate GrownFrom(stored: Core, live: Core) {
    && stored.delivered <= live.delivered
    && (forall i :: 0 <= i < |live.replays| && live.replays[i] in stored.delivered ==> live.replays[i] in stored.replays)
    && Agrees(stored, live)
  }

  /** What the stored queue still holds, the live queues have as it was reported. */
  ghost predicate Agrees(stored: Core, live: Core) {
    && TaskIds(stored.ready) <= live.delivered + TaskIds(live.ready)
    && (forall i :: 0 <= i < |live.ready| && live.ready[i].id in TaskIds(stored.ready) ==> live.ready[i] in stored.ready)
    && (forall i :: 0 <= i < |live.replays| && live.replays[i] in TaskIds(stored.ready) ==>
          Task(live.replays[i], true) in stored.ready)
  }

  /** The session that has just been stored, or restored. */
  lemma GrownFromItself(core: Core)
    requires QueuesOk(core)
    ensures GrownFrom(core, core)
  {
    forall i | 0 <= i < |core.replays|
      ensures core.replays[i] !in TaskIds(core.ready)
    {
    }
  }

  ghost predicate StoredOk(m: Machine) {
    match m.durable
    case None => m.started == []
    case Some(cp) => QueuesOk(cp.core) && Spent(m.started, cp.core)
  }

  ghost predicate QueuesLive(m: Machine) {
    && QueuesOk(m.session.core) && Spent(m.started, m.session.core)
    && (m.durable.Some? ==> GrownFrom(m.durable.value.core, m.session.core))
  }

  ghost predicate ReplayInv(m: Machine) {
    StartedOnce(m.started) && StoredOk(m) && (!m.pc.Down? ==> QueuesLive(m))
  }

  /** Each consumption checkpoint commits, or its exception keeps the handler from running. */
  predicate ConsumptionCommits(m: Machine, e: Event) {
    m.pc.Replaying? && e.Consume? ==> e.commit.Committed? || Raised(e.commit)
  }

  // ---------- Frame ----------

  ghost predicate SameQueues(before: Core, after: Core) {
    after.ready == before.ready && after.delivered == before.delivered && after.replays == before.replays
  }

  ghost predicate QueueQuiet(m: Machine, m': Machine) {
    && m'.started == m.started && m'.durable == m.durable && !m'.pc.Down?
    && SameQueues(m.session.core, m'.session.core)
  }

  lemma QuietQueues(m: Machine, m': Machine)
    requires ReplayInv(m) && !m.pc.Down? && QueueQuiet(m, m')
    ensures ReplayInv(m')
  {
    hide SourcesOk, StartedOnce;
  }

  lemma HaltKeepsQueues(m: Machine, s: Session, stop: Stop)
    requires SameQueues(m.session.core, s.core)
    ensures QueueQuiet(m, HaltRun(m, s, stop))
  {
    hide Unapplied;
  }

  lemma FailKeepsQueues(m: Machine, s: Session, code: Code)
    requires SameQueues(m.session.core, s.core)
    ensures QueueQuiet(m, FailRun(m, s)) && QueueQuiet(m, FailTurn(m, s, code))
  {
  }

  lemma SettleKeepsQueues(m: Machine, s: Session, reason: Reason, code: Code)
    requires SameQueues(m.session.core, s.core)
    ensures QueueQuiet(m, SettleRun(m, s, reason, code))
  {
  }

  lemma IdleKeepsQueues(m: Machine, e: Event)
    requires m.pc.Idle?
    ensures QueueQuiet(m, FromIdle(m, e))
  {
    hide EvidenceRecovery;
  }

  lemma AccountKeepsQueues(s: Session, step: nat, receipt: Usage, accounted: Usage)
    ensures var r := Account(s, step, receipt, accounted); r.Some? ==> SameQueues(s.core, r.value.core)
  {
    hide Covers, DeltaOf, Sum;
  }

  lemma RecoveryKeepsQueues(m: Machine, e: Event)
    requires m.pc.Recovering? || m.pc.Recovered?
    ensures m.pc.Recovering? ==> QueueQuiet(m, FromRecovering(m, e))
    ensures m.pc.Recovered? ==> QueueQuiet(m, FromRecovered(m, e))
  {
    var s := m.session;
    var recovery := m.pc.recovery;
    FailKeepsQueues(m, s, EvidenceUncommitted);
    if e.Halt? {
      HaltKeepsQueues(m, s, e.stop);
    }
    if m.pc.Recovering? {
      if recovery.invocation.step in m.journal && m.journal[recovery.invocation.step].Settled? {
        AccountKeepsQueues(s, recovery.invocation.step, m.journal[recovery.invocation.step].receipt, AccountedUsage(recovery));
      }
      hide HaltRun, FailRun, FailTurn, Account, AccountedUsage;
    } else if e.Proceed? {
      RecoveredOutcomeKeepsQueues(m, e.jobs);
      hide RestoreRefusal, RestoreAnswer;
    } else {
      hide HaltRun;
    }
  }

  lemma RecoveredOutcomeKeepsQueues(m: Machine, jobs: bool)
    requires m.pc.Recovered?
    ensures m.pc.outcome.Refused? ==> QueueQuiet(m, RestoreRefusal(m, m.pc.recovery, m.pc.receipt, m.pc.outcome.recoverable))
    ensures m.pc.outcome.Answer? ==> QueueQuiet(m, RestoreAnswer(m, m.pc.recovery, m.pc.outcome.turn, jobs))
  {
    hide Account, AccountedUsage, ProgressMatches;
    AccountKeepsQueues(m.session, m.pc.recovery.invocation.step, m.pc.receipt, AccountedUsage(m.pc.recovery));
  }

  lemma PrepareKeepsQueues(m: Machine, e: Event)
    requires m.pc.Replaying? && !e.Consume?
    ensures QueueQuiet(m, FromReplaying(m, e))
  {
    hide ObservationMessages, InputMessages;
  }

  lemma HandlingKeepsQueues(m: Machine, e: Event)
    requires m.pc.Handling?
    ensures QueueQuiet(m, FromHandling(m, e))
  {
    if e.Halt? {
      HaltKeepsQueues(m, m.session, e.stop);
    }
    hide HaltRun;
  }

  lemma DeliveryKeepsQueues(m: Machine, s: Session, entry: Entry)
    requires entry.Settled? && SameQueues(m.session.core, s.core)
    ensures QueueQuiet(m, Deliver(m, s, entry)) && QueueQuiet(m, AwaitEvidence(m, s, entry))
  {
    hide Account, FailRun, FailTurn;
    var r := Account(s, s.core.step, entry.receipt, map[]);
    AccountKeepsQueues(s, s.core.step, entry.receipt, map[]);
    match r
    case None => FailKeepsQueues(m, s, NoCode);
    case Some(s') =>
      FailKeepsQueues(m, s', NoCode);
      FailKeepsQueues(m, s', EvidenceUncommitted);
  }

  lemma PreemptKeepsQueues(m: Machine, head: Entry, spent: Usage, stop: Stop)
    ensures QueueQuiet(m, PreemptCall(m, head, spent, stop))
  {
    hide Account, FailRun, HaltRun;
    var s := Observe(m.session, m.session.core.step, head);
    AccountKeepsQueues(s, s.core.step, spent, map[]);
    match Account(s, s.core.step, spent, map[])
    case None => FailKeepsQueues(m, s, NoCode);
    case Some(s') => HaltKeepsQueues(m, s', stop);
  }

  lemma ReuseKeepsQueues(m: Machine, entry: Entry, halt: Option<Stop>, again: bool)
    requires entry.Settled? && m.pc.Requesting?
    ensures QueueQuiet(m, ReuseSettled(m, entry, halt, again))
    ensures QueueQuiet(m, AwaitEvidence(m, Observe(m.session, m.session.core.step, entry), entry))
  {
    hide HaltRun, Deliver, AwaitEvidence, MayRetry;
    var s := Observe(m.session, m.session.core.step, entry);
    DeliveryKeepsQueues(m, s, entry);
    if halt.Some? {
      HaltKeepsQueues(m, s, halt.value);
    }
  }

  lemma ReserveKeepsQueues(m: Machine, request: Request, resumed: bool, halt: Option<Stop>)
    requires !m.pc.Down?
    ensures QueueQuiet(m, ReserveDispatch(m, request, resumed, halt))
  {
    if halt.Some? {
      HaltKeepsQueues(m, m.session, halt.value);
    }
    hide HaltRun;
  }

  lemma RefuseKeepsQueues(m: Machine, step: nat, head: Entry)
    ensures QueueQuiet(m, RefuseProbe(m, step, head))
  {
    var m' := m.(journal := m.journal[step := head]);
    FailKeepsQueues(m', Observe(m.session, step, head), NoCode);
    hide FailRun;
  }

  lemma RequestingKeepsQueues(m: Machine, e: Event)
    requires m.pc.Requesting?
    ensures QueueQuiet(m, FromRequesting(m, e))
  {
    var step, request := m.session.core.step, m.pc.request;
    hide ReserveDispatch, RefuseProbe, AwaitEvidence, ReuseSettled;
    if e.Probe? {
      ReserveKeepsQueues(m, request, m.pc.resumed, e.halt);
      if step in m.journal {
        RefuseKeepsQueues(m, step, m.journal[step]);
        RefuseKeepsQueues(m, step, Unknown(request, m.journal[step].attempt));
        if m.journal[step].Settled? {
          ReuseKeepsQueues(m, m.journal[step], e.halt, e.again);
        }
      }
    }
  }

  lemma CallKeepsQueues(m: Machine, e: Event)
    requires m.pc.Ready? || m.pc.Backoff?
    ensures m.pc.Ready? ==> QueueQuiet(m, FromReady(m, e))
    ensures m.pc.Backoff? ==> QueueQuiet(m, FromBackoff(m, e))
  {
    hide PreemptCall;
    if e.Halt? {
      if m.pc.Ready? {
        PreemptKeepsQueues(m, Reserved(m.pc.request, m.pc.attempt), m.pc.spent, e.stop);
      } else if m.session.core.step in m.journal {
        PreemptKeepsQueues(m, m.journal[m.session.core.step], m.pc.spent, e.stop);
      }
    }
  }

  lemma SettleKeepsTheQueues(m: Machine, usage: Usage, outcome: Outcome, evidenceOk: bool, again: bool)
    requires m.pc.InFlight?
    ensures QueueQuiet(m, SettleDispatch(m, usage, outcome, evidenceOk, again))
  {
    hide Deliver, AwaitEvidence, Sum, MayRetry;
    var entry := Settled(m.pc.request, m.pc.attempt, Sum(m.pc.spent, usage), outcome);
    DeliveryKeepsQueues(EndAttempt(m, entry, usage), Observe(m.session, m.session.core.step, entry), entry);
  }

  lemma LossKeepsQueues(m: Machine, loss: Loss)
    requires m.pc.InFlight?
    ensures QueueQuiet(m, LoseDispatch(m, loss))
  {
    hide FailRun, Account, Sum;
    var head := LostHead(m.pc, loss);
    var ended, s := EndAttempt(m, head, loss.usage), Observe(m.session, m.session.core.step, head);
    FailKeepsQueues(ended, s, NoCode);
    AccountKeepsQueues(s, s.core.step, Sum(m.pc.spent, loss.usage), map[]);
    var r := Account(s, s.core.step, Sum(m.pc.spent, loss.usage), map[]);
    if r.Some? {
      FailKeepsQueues(ended, r.value, NoCode);
    }
  }

  lemma InFlightKeepsQueues(m: Machine, e: Event)
    requires m.pc.InFlight?
    ensures QueueQuiet(m, FromInFlight(m, e))
  {
    hide SettleDispatch, LoseDispatch, WellFormed;
    match e
    case Settle(usage, outcome, evidenceOk, again) => SettleKeepsTheQueues(m, usage, outcome, evidenceOk, again);
    case Lose(loss) => LossKeepsQueues(m, loss);
    case _ =>
  }

  lemma AnsweredKeepsQueues(m: Machine, e: Event)
    requires m.pc.Answered?
    ensures QueueQuiet(m, FromAnswered(m, e))
  {
    if e.Halt? {
      HaltKeepsQueues(m, m.session, e.stop);
    } else if e.Proceed? {
      var s := if m.pc.projected then m.session else ProjectTurn(m.session, m.pc.turn);
      FailKeepsQueues(m, s, NoCode);
    }
    hide HaltRun, FailRun, CompletedCalls;
  }

  lemma BatchKeepsQueues(m: Machine, e: Event)
    requires m.pc.Batch?
    ensures QueueQuiet(m, FromBatch(m, e))
  {
    hide HaltRun, EndBatch;
    var s := m.session;
    if e.Halt? {
      HaltKeepsQueues(m, s, e.stop);
    } else {
      var counted := s.(core := s.core.(toolCalls := s.core.toolCalls + 1));
      EndBatchKeepsQueues(m, s, m.pc.turn);
      EndBatchKeepsQueues(m, counted.(core := counted.core.(status := Limited, code := MaxToolCalls)), m.pc.turn);
    }
  }

  lemma EndBatchKeepsQueues(m: Machine, s: Session, turn: Turn)
    requires SameQueues(m.session.core, s.core)
    ensures QueueQuiet(m, EndBatch(m, s, turn))
  {
    SettleKeepsQueues(m, s.(callsPending := false), LimitedPark, s.core.code);
    hide SettleRun;
  }

  lemma CallingKeepsQueues(m: Machine, e: Event)
    requires m.pc.Calling? || m.pc.Returned?
    ensures m.pc.Calling? ==> QueueQuiet(m, FromCalling(m, e))
    ensures m.pc.Returned? ==> QueueQuiet(m, FromReturned(m, e))
  {
    if e.Halt? {
      HaltKeepsQueues(m, m.session, e.stop);
    }
    hide HaltRun;
  }

  lemma FinishKeepsQueues(m: Machine, s: Session, reason: Reason, code: Code)
    requires m.pc.Deciding? && SameQueues(m.session.core, s.core)
    ensures QueueQuiet(m, SettleRun(m, LogFinish(s, m.pc.fromFinish), reason, code))
  {
    SettleKeepsQueues(m, LogFinish(s, m.pc.fromFinish), reason, code);
    hide SettleRun, ObservationMessages;
  }

  lemma RejectedKeepsQueues(m: Machine)
    requires m.pc.Deciding?
    ensures QueueQuiet(m, Exhaust(m, m.pc.fromFinish)) && QueueQuiet(m, Reprompt(m, m.pc.fromFinish))
  {
    var s := DropFinish(WithOutcome(RecordFailure(m.session), Limited, ValidatorUnsatisfied), m.pc.fromFinish);
    FinishKeepsQueues(m, s, LimitedPark, ValidatorUnsatisfied);
    hide SettleRun, ObservationMessages;
  }

  lemma DecidingKeepsQueues(m: Machine, e: Event)
    requires m.pc.Deciding?
    ensures QueueQuiet(m, FromDeciding(m, e))
  {
    hide HaltRun, FailRun, SettleRun, Exhaust, Reprompt, LogFinish, QueueQuiet;
    var s := m.session;
    if e.Halt? {
      HaltKeepsQueues(m, s, e.stop);
    }
    FinishKeepsQueues(m, s, SettledPark, NoCode);
    FinishKeepsQueues(m, WithOutcome(s, Failed, OutputRefused), SettledPark, OutputRefused);
    FinishKeepsQueues(m, WithOutcome(s, Limited, OutputTruncated), LimitedPark, OutputTruncated);
    FailKeepsQueues(m, s, NoCode);
    RejectedKeepsQueues(m);
    hide WithOutcome;
    QuietSelf(m);
  }

  lemma QuietSelf(m: Machine)
    requires !m.pc.Down?
    ensures QueueQuiet(m, m)
  {
  }

  // ---------- The transitions that move a queue ----------

  lemma DeliveryGrows(core: Core, core': Core, started: seq<nat>)
    requires QueuesOk(core) && Spent(started, core)
    requires SameQueues(DeliverReady(InitialSession.(core := core)).core, core')
    ensures QueuesOk(core') && Spent(started, core')
  {
    ApprovedAreReady(core.ready);
    forall id | id in TaskIds(core.ready)
      ensures id !in core.delivered
    {
      var i :| 0 <= i < |core.ready| && core.ready[i].id == id;
    }
    hide TaskIds, ApprovedTasks, TaskObservations;
    Joins(core.replays, ApprovedTasks(core.ready), core.delivered, TaskIds(core.ready));
    assert TaskIds([]) == {} by {
      EmptyTasks();
    }
    assert core'.replays == core.replays + ApprovedTasks(core.ready);
  }

  lemma EmptyTasks()
    ensures TaskIds([]) == {}
  {
  }

  lemma {:induction false} ApprovedWereReported(tasks: seq<Task>)
    ensures forall id :: id in ApprovedTasks(tasks) <==> Task(id, true) in tasks
  {
    if tasks != [] {
      ApprovedWereReported(tasks[1..]);
      assert tasks == [tasks[0]] + tasks[1..];
    }
  }

  lemma DeliveryAgrees(stored: Core, core: Core, core': Core)
    requires Agrees(stored, core) && core'.ready == [] && core'.delivered == core.delivered + TaskIds(core.ready)
    requires core'.replays == core.replays + ApprovedTasks(core.ready)
    ensures Agrees(stored, core')
  {
    ApprovedWereReported(core.ready);
    hide TaskIds, ApprovedTasks;
    forall i | 0 <= i < |core'.replays| && core'.replays[i] in TaskIds(stored.ready)
      ensures Task(core'.replays[i], true) in stored.ready
    {
      if i < |core.replays| {
        assert core'.replays[i] == core.replays[i];
      } else {
        assert core'.replays[i] == ApprovedTasks(core.ready)[i - |core.replays|];
        var k :| 0 <= k < |core.ready| && core.ready[k] == Task(core'.replays[i], true);
      }
    }
  }

  lemma DeliveryGrowsFrom(stored: Core, core: Core, core': Core)
    requires QueuesOk(core) && GrownFrom(stored, core)
    requires SameQueues(DeliverReady(InitialSession.(core := core)).core, core')
    ensures GrownFrom(stored, core')
  {
    ApprovedAreReady(core.ready);
    forall id | id in TaskIds(core.ready)
      ensures id !in stored.delivered
    {
      var i :| 0 <= i < |core.ready| && core.ready[i].id == id;
    }
    hide TaskIds, ApprovedTasks, TaskObservations, SourcesOk;
    assert core'.replays == core.replays + ApprovedTasks(core.ready);
    DeliveryAgrees(stored, core, core');
    hide Agrees;
    forall i | 0 <= i < |core'.replays| && core'.replays[i] in stored.delivered
      ensures core'.replays[i] in stored.replays
    {
    }
  }

  lemma StepKeepsReplays(m: Machine, s: Session)
    requires ReplayInv(m) && m.pc.Top? && SameQueues(m.session.core, s.core)
    ensures ReplayInv(m.(pc := Replaying(Fresh(true)), session := DeliverReady(s)))
    ensures ReplayInv(m.(pc := Replaying(Fresh(false)), session := DeliverReady(s)))
  {
    var core' := DeliverReady(s).core;
    assert SameQueues(DeliverReady(InitialSession.(core := m.session.core)).core, core');
    DeliveryGrows(m.session.core, core', m.started);
    if m.durable.Some? {
      DeliveryGrowsFrom(m.durable.value.core, m.session.core, core');
    }
    hide SourcesOk, DeliverReady, Spent, GrownFrom, StartedOnce;
  }

  lemma TopKeepsReplays(m: Machine, e: Event)
    requires ReplayInv(m) && m.pc.Top?
    ensures ReplayInv(FromTop(m, e))
  {
    StepKeepsReplays(m, AllocateStep(m.session));
    StepKeepsReplays(m, m.session.(resumeStep := false));
    if e.Halt? {
      HaltKeepsQueues(m, m.session, e.stop);
      QuietQueues(m, HaltRun(m, m.session, e.stop));
    }
    QuietQueues(m, LimitRun(m, m.session, MaxSteps));
    QuietQueues(m, m);
    QuietQueues(m, Park(m, m.session, Suspension(PausedPark, NoCode, false)));
    hide ReplayInv, DeliverReady, HaltRun, LimitRun;
  }

  /** Taking the head leaves queues that are still consistent, and a head that can no longer come back. */
  lemma HeadLeaves(core: Core, started: seq<nat>)
    requires QueuesOk(core) && Spent(started, core) && StartedOnce(started) && core.replays != []
    ensures var core' := core.(replays := core.replays[1..]);
      && QueuesOk(core') && Spent(started, core') && Spent(started + [core.replays[0]], core')
      && StartedOnce(started + [core.replays[0]])
      && GrownFrom(core', core')
  {
    var head := core.replays[0];
    assert head in core.delivered;
    assert head !in TaskIds(core.ready);
    hide TaskIds;
  }

  lemma GrownShrinks(stored: Core, live: Core)
    requires GrownFrom(stored, live) && live.replays != []
    ensures GrownFrom(stored, live.(replays := live.replays[1..]))
  {
  }

  lemma ConsumeKeepsReplays(m: Machine, commit: Commit)
    requires ReplayInv(m) && m.pc.Replaying? && m.session.core.replays != []
    requires commit.Committed? || Raised(commit)
    ensures ReplayInv(ConsumeHead(m, m.pc.mode, commit))
  {
    HeadLeaves(m.session.core, m.started);
    if m.durable.Some? {
      GrownShrinks(m.durable.value.core, m.session.core);
    }
    hide SourcesOk, Spent, StartedOnce, GrownFrom;
  }

  /** Any checkpoint of the live session stores its queues. */
  lemma PersistKeepsReplays(m: Machine, suspension: Option<Suspension>, commit: Commit)
    requires ReplayInv(m) && !m.pc.Down?
    ensures ReplayInv(PersistAs(m, suspension, commit)) && ReplayInv(PersistAs(m, suspension, commit).(pc := Idle))
  {
    GrownFromItself(m.session.core);
    hide SourcesOk, Spent, StartedOnce, GrownFrom;
  }

  lemma ReportKeepsReplays(m: Machine, task: Task, persist: Option<Commit>)
    requires ReplayInv(m) && !m.pc.Down?
    ensures ReplayInv(Reported(m, task, persist))
  {
    var core := m.session.core;
    if task.id !in core.delivered && task.id !in TaskIds(core.ready) {
      var core' := core.(ready := core.ready + [task]);
      var m' := m.(session := m.session.(core := core'));
      ReportedQueues(core, task, m.started);
      if m.durable.Some? {
        ReportedGrows(m.durable.value.core, core, task);
      }
      assert ReplayInv(m') by {
        hide SourcesOk, Spent, StartedOnce, TaskIds, GrownFrom;
      }
      if persist.Some? {
        PersistKeepsReplays(m', None, persist.value);
      }
      hide ReplayInv, TaskIds;
    }
  }

  lemma ReportedQueues(core: Core, task: Task, started: seq<nat>)
    requires QueuesOk(core) && Spent(started, core) && task.id !in core.delivered && task.id !in TaskIds(core.ready)
    ensures QueuesOk(core.(ready := core.ready + [task])) && Spent(started, core.(ready := core.ready + [task]))
  {
    var ready := core.ready + [task];
    forall id | id in TaskIds(ready)
      ensures id in TaskIds(core.ready) || id == task.id
    {
      var i :| 0 <= i < |ready| && ready[i].id == id;
    }
  }

  lemma ReportedGrows(stored: Core, core: Core, task: Task)
    requires GrownFrom(stored, core) && task.id !in core.delivered && task.id !in TaskIds(core.ready)
    ensures GrownFrom(stored, core.(ready := core.ready + [task]))
  {
    var ready := core.ready + [task];
    forall id | id in TaskIds(core.ready)
      ensures id in TaskIds(ready)
    {
      var i :| 0 <= i < |core.ready| && core.ready[i].id == id;
      assert ready[i].id == id;
    }
    hide TaskIds;
    forall i | 0 <= i < |ready| && ready[i].id in TaskIds(stored.ready)
      ensures ready[i] in stored.ready
    {
      if i < |core.ready| {
        assert ready[i] == core.ready[i];
      }
    }
  }

  lemma RestoreKeepsReplays(m: Machine)
    requires ReplayInv(m) && m.pc.Down?
    ensures ReplayInv(m.(pc := Idle, session := Rehydrate(m.durable)))
  {
    if m.durable.Some? {
      GrownFromItself(m.durable.value.core);
      hide SourcesOk, Spent, StartedOnce, GrownFrom;
    }
  }

  lemma NextKeepsReplays(m: Machine, e: Event)
    requires ReplayInv(m) && ConsumptionCommits(m, e)
    ensures ReplayInv(Next(m, e))
  {
    hide FromIdle, FromTop, FromRecovering, FromRecovered, FromReplaying, FromHandling, FromRequesting, FromReady,
         FromInFlight, FromBackoff, FromAnswered, FromBatch, FromCalling, FromReturned, FromDeciding, FromParking,
         Reported, Rehydrate, QueuesLive, QueuesOk, Spent, QueueQuiet;
    if m.pc.Down? {
      RestoreKeepsReplays(m);
    } else if e.Crash? {
    } else {
      hide ReplayInv, ConsumptionCommits;
      if e.Report? {
        ReportKeepsReplays(m, e.task, e.persist);
      } else if m.pc.Top? {
        TopKeepsReplays(m, e);
      } else if m.pc.Replaying? {
        ReplayingKeepsReplays(m, e);
      } else if m.pc.Parking? {
        ParkingKeepsReplays(m, e);
      } else {
        match m.pc {
          case Idle => IdleKeepsQueues(m, e);
          case Recovering(_) => RecoveryKeepsQueues(m, e);
          case Recovered(_, _, _) => RecoveryKeepsQueues(m, e);
          case Handling(_, _) => HandlingKeepsQueues(m, e);
          case Requesting(_, _) => RequestingKeepsQueues(m, e);
          case Ready(_, _, _) => CallKeepsQueues(m, e);
          case InFlight(_, _, _) => InFlightKeepsQueues(m, e);
          case Backoff(_, _, _, _) => CallKeepsQueues(m, e);
          case Answered(_, _) => AnsweredKeepsQueues(m, e);
          case Batch(_, _, _) => BatchKeepsQueues(m, e);
          case Calling(_, _, _) => CallingKeepsQueues(m, e);
          case Returned(_, _, _) => CallingKeepsQueues(m, e);
          case Deciding(_, _) => DecidingKeepsQueues(m, e);
        }
        QuietQueues(m, Next(m, e));
      }
    }
  }

  lemma ReplayingKeepsReplays(m: Machine, e: Event)
    requires ReplayInv(m) && m.pc.Replaying? && ConsumptionCommits(m, e)
    ensures ReplayInv(FromReplaying(m, e))
  {
    if e.Consume? {
      if m.session.core.replays != [] {
        ConsumeKeepsReplays(m, e.commit);
      }
      hide ReplayInv, ConsumeHead;
    } else {
      PrepareKeepsQueues(m, e);
      hide ReplayInv, QueueQuiet, FromReplaying;
      QuietQueues(m, FromReplaying(m, e));
    }
  }

  lemma ParkingKeepsReplays(m: Machine, e: Event)
    requires ReplayInv(m) && m.pc.Parking?
    ensures ReplayInv(FromParking(m, e))
  {
    if e.Persist? {
      PersistKeepsReplays(m, Some(m.pc.suspension), e.commit);
    }
    hide ReplayInv, PersistAs;
  }

  // ---------- Main results ----------

  lemma {:induction false} RunKeepsReplays(m: Machine, events: seq<Event>)
    requires ReplayInv(m) && Allowed(ConsumptionCommits, m, events)
    ensures ReplayInv(Run(m, events))
  {
    if events != [] {
      var before := events[..|events| - 1];
      AllowedPrefix(ConsumptionCommits, m, events);
      RunKeepsReplays(m, before);
      hide ReplayInv, Next, ConsumptionCommits, Allowed;
      NextKeepsReplays(Run(m, before), events[|events| - 1]);
    }
  }

  lemma NothingStarted(config: Config)
    ensures ReplayInv(Initial(config))
  {
    assert QueuesOk(InitialCore);
  }

  /** Over any run, crashes and restores included, no approved handler starts twice. */
  lemma HandlersStartAtMostOnce(config: Config, events: seq<Event>, i: nat, j: nat)
    requires Allowed(ConsumptionCommits, Initial(config), events)
    requires i < j < |Run(Initial(config), events).started|
    ensures Run(Initial(config), events).started[i] != Run(Initial(config), events).started[j]
  {
    NothingStarted(config);
    RunKeepsReplays(Initial(config), events);
    hide Run, Allowed, StoredOk, QueuesLive;
  }

  // ---------- Order ----------

  /** Running the first heads: each is taken, committed, and its handler returns (or produces nothing). */
  ghost function Heads(m: Machine, outputs: seq<Option<nat>>): Machine
    decreases |outputs|
  {
    if outputs == [] then m
    else Next(Next(Heads(m, outputs[..|outputs| - 1]), Consume(Committed)), Handled(outputs[|outputs| - 1]))
  }

  function Outputs(heads: seq<nat>, outputs: seq<Option<nat>>): seq<Observation>
    requires |outputs| <= |heads|
    decreases |outputs|
  {
    if outputs == [] then []
    else
      var last := |outputs| - 1;
      Outputs(heads, outputs[..last])
        + match outputs[last] {
            case None => []
            case Some(value) => [Observation(ReplayOutput(heads[last]), 0, value)]
          }
  }

  /** One head, from its consumption to its output. */
  lemma OneHead(m: Machine, output: Option<nat>)
    requires m.pc.Replaying? && m.session.core.replays != []
    ensures var m', core := Next(Next(m, Consume(Committed)), Handled(output)), m.session.core;
      && m'.pc == m.pc && m'.started == m.started + [core.replays[0]]
      && m'.session.core == core.(replays := core.replays[1..],
           observations := core.observations + Outputs([core.replays[0]], [output]))
  {
    assert m.session.core.observations + [] == m.session.core.observations;
  }

  /** First in, first out: the heads start in queue order, and their outputs pile up in that order. */
  lemma {:induction false} HeadsRunInOrder(m: Machine, outputs: seq<Option<nat>>)
    requires m.pc.Replaying? && |outputs| <= |m.session.core.replays|
    ensures var m', heads := Heads(m, outputs), m.session.core.replays;
      && m'.pc == m.pc
      && m'.started == m.started + heads[..|outputs|]
      && m'.session.core == m.session.core.(replays := heads[|outputs|..],
                                            observations := m.session.core.observations + Outputs(heads, outputs))
    decreases |outputs|
  {
    var heads := m.session.core.replays;
    if outputs == [] {
      assert m.session.core.observations + [] == m.session.core.observations;
      assert heads[0..] == heads;
      assert m.started + [] == m.started;
    } else {
      var last := |outputs| - 1;
      HeadsRunInOrder(m, outputs[..last]);
      OneHead(Heads(m, outputs[..last]), outputs[last]);
      assert heads[last..][0] == heads[last] && heads[last..][1..] == heads[last + 1..];
      assert m.started + heads[..last] + [heads[last]] == m.started + heads[..last + 1];
      hide Next;
    }
  }

  /**
   The checkpoint a head runs under holds every earlier head's output, and a crash while it runs loses
   that head alone: the next activation continues behind it.
   */
  lemma CrashLosesOnlyTheRunningHead(m: Machine, outputs: seq<Option<nat>>)
    requires m.pc.Replaying? && |outputs| < |m.session.core.replays|
    ensures var heads := m.session.core.replays;
      var running := Next(Heads(m, outputs), Consume(Committed));
      var restored := Next(Next(running, Crash), Restore);
      && running.pc == Handling(heads[|outputs|], m.pc.mode)
      && running.durable.Some?
      && running.durable.value.core.observations == m.session.core.observations + Outputs(heads, outputs)
      && restored.pc.Idle?
      && restored.session.core == running.durable.value.core
      && restored.session.core.replays == heads[|outputs| + 1..]
      && restored.started == m.started + heads[..|outputs| + 1]
  {
    hide Next, Heads, Outputs;
    var heads := m.session.core.replays;
    HeadsRunInOrder(m, outputs);
    CrashWhileRunning(Heads(m, outputs));
    assert heads[|outputs|..][0] == heads[|outputs|] && heads[|outputs|..][1..] == heads[|outputs| + 1..];
    assert m.started + heads[..|outputs|] + [heads[|outputs|]] == m.started + heads[..|outputs| + 1];
  }

  lemma CrashWhileRunning(m: Machine)
    requires m.pc.Replaying? && m.session.core.replays != []
    ensures var core := m.session.core;
      var taken := core.(replays := core.replays[1..]);
      var running := Next(m, Consume(Committed));
      var restored := Next(Next(running, Crash), Restore);
      && running.pc == Handling(core.replays[0], m.pc.mode)
      && running.durable.Some? && running.durable.value.core == taken
      && restored.pc.Idle? && restored.session.core == taken
      && restored.started == m.started + [core.replays[0]]
  {
  }

  /** The events that take a head off the queue and bring its handler back. */
  predicate RunsHeads(e: Event) {
    (e.Consume? && e.commit.Committed?) || e.Handled?
  }

  /** Where nothing forbids it, every waiting head runs and leaves no output. */
  lemma {:induction false} Drains(allows: (Machine, Event) -> bool, from: Machine, m: Machine) returns (drained: Machine)
    requires Leads(allows, from, m) && m.pc.Replaying?
    requires forall x, e :: RunsHeads(e) ==> allows(x, e)
    ensures Leads(allows, from, drained)
    ensures drained.pc == m.pc && drained.config == m.config && drained.journal == m.journal
    ensures drained.session == m.session.(core := m.session.core.(replays := []), seq_ := drained.session.seq_)
    decreases |m.session.core.replays|
  {
    if m.session.core.replays == [] {
      drained := m;
    } else {
      var running := Next(m, Consume(Committed));
      var passed := Next(running, Handled(None));
      HeadPasses(m);
      hide Next, Leads;
      LeadsOn(allows, from, m, Consume(Committed));
      LeadsOn(allows, from, running, Handled(None));
      drained := Drains(allows, from, passed);
    }
  }

  lemma HeadPasses(m: Machine)
    requires m.pc.Replaying? && m.session.core.replays != []
    ensures var passed := Next(Next(m, Consume(Committed)), Handled(None));
      && passed.pc == m.pc && passed.config == m.config && passed.journal == m.journal
      && passed.session == m.session.(core := m.session.core.(replays := m.session.core.replays[1..]),
                                      seq_ := passed.session.seq_)
  {
  }

  // ---------- A consumption that is not stored ----------

  ghost predicate StartedTwice(started: seq<nat>, head: nat) {
    exists i, j :: 0 <= i < j < |started| && started[i] == head && started[j] == head
  }

  /** A resume, or a submit, gets from what is stored to a step of the pump. */
  predicate TakesUpAgain(config: Config, durable: Option<Checkpoint>) {
    var s := Rehydrate(durable);
    var recovery := EvidenceRecovery(s);
    && !s.core.terminal
    && (s.resumeStep ||
        (config.maxSteps > 0 && (recovery.None? || !(recovery.value.blocks || recovery.value.projected))))
  }

  /** The head is queued, or will be delivered. */
  predicate Waits(core: Core, head: nat) {
    head in core.replays || Task(head, true) in core.ready
  }

  ghost predicate Onwards(from: Machine, to: Machine) {
    Leads(ConsumptionCommits, from, to)
  }

  lemma GoesOnwards(from: Machine, to: Machine, e: Event)
    requires Onwards(from, to) && ConsumptionCommits(to, e)
    ensures Onwards(from, Next(to, e))
  {
    LeadsOn(ConsumptionCommits, from, to, e);
  }

  /** What an unstored consumption leaves for the next activation: the head waits, or its report is new again. */
  lemma HeadReturns(m: Machine, commit: Commit)
    requires ReplayInv(m) && m.pc.Replaying? && m.session.core.replays != [] && (commit.Skipped? || commit.Declined?)
    ensures var n, head := Next(m, Consume(commit)), m.session.core.replays[0];
      var restored := Next(Next(n, Crash), Restore);
      && restored.pc.Idle? && restored.config == m.config && restored.durable == m.durable
      && restored.session == Rehydrate(m.durable) && restored.started == m.started + [head]
      && (Waits(restored.session.core, head)
          || (head !in restored.session.core.delivered && head !in TaskIds(restored.session.core.ready)))
  {
    hide SourcesOk, Spent, StartedOnce, TaskIds;
    EmptyTasks();
    var head := m.session.core.replays[0];
    if m.durable.Some? {
      var stored := m.durable.value.core;
      if head in stored.delivered {
        assert head in stored.replays;
      } else if head in TaskIds(stored.ready) {
        assert Task(head, true) in stored.ready;
      }
    }
  }

  /** Reporting the task again, where that is what it takes. */
  lemma HeadWaits(n: Machine, m: Machine, head: nat) returns (waiting: Machine)
    requires Onwards(n, m) && m.pc.Idle?
    requires Waits(m.session.core, head) || (head !in m.session.core.delivered && head !in TaskIds(m.session.core.ready))
    ensures Onwards(n, waiting) && waiting.pc.Idle? && waiting.config == m.config && waiting.started == m.started
    ensures waiting.session == m.session.(core := m.session.core.(ready := waiting.session.core.ready))
    ensures Waits(waiting.session.core, head)
  {
    if Waits(m.session.core, head) {
      waiting := m;
    } else {
      var report := Report(Task(head, true), None);
      GoesOnwards(n, m, report);
      hide Onwards, TaskIds;
      waiting := Next(m, report);
      var ready := m.session.core.ready;
      assert waiting.session.core.ready[|ready|] == Task(head, true);
    }
  }

  /** Resume or Submit, then Go. */
  lemma EntersReplay(n: Machine, m: Machine, head: nat) returns (replaying: Machine)
    requires Onwards(n, m) && m.pc.Idle? && Waits(m.session.core, head) && !m.session.core.terminal
    requires var recovery := EvidenceRecovery(m.session);
      if m.session.resumeStep then recovery.None?
      else m.config.maxSteps > 0 && (recovery.None? || !(recovery.value.blocks || recovery.value.projected))
    ensures Onwards(n, replaying) && replaying.pc.Replaying? && replaying.started == m.started
    ensures head in replaying.session.core.replays
  {
    hide Onwards, EvidenceRecovery, Next, Waits, DeliverReady;
    var enter := if m.session.resumeStep then Resume else Submit(0);
    var entered := Next(m, enter);
    Enters(m, enter, head);
    GoesOnwards(n, m, enter);
    GoesOnwards(n, entered, Go);
    BeginsReplay(entered, head);
    replaying := Next(entered, Go);
  }

  lemma Enters(m: Machine, enter: Event, head: nat)
    requires m.pc.Idle? && Waits(m.session.core, head) && !m.session.core.terminal
    requires enter == if m.session.resumeStep then Resume else Submit(0)
    requires var recovery := EvidenceRecovery(m.session);
      if m.session.resumeStep then recovery.None?
      else m.config.maxSteps > 0 && (recovery.None? || !(recovery.value.blocks || recovery.value.projected))
    ensures var entered := Next(m, enter);
      && entered.pc.Top? && entered.started == m.started && Waits(entered.session.core, head)
      && (entered.session.resumeStep || entered.session.core.local < entered.config.maxSteps)
  {
    hide EvidenceRecovery;
  }

  lemma BeginsReplay(m: Machine, head: nat)
    requires m.pc.Top? && Waits(m.session.core, head)
    requires m.session.resumeStep || m.session.core.local < m.config.maxSteps
    ensures var replaying := Next(m, Go);
      replaying.pc.Replaying? && replaying.started == m.started && head in replaying.session.core.replays
  {
    hide DeliverReady;
    WaitingIsDelivered(AllocateStep(m.session), head);
    WaitingIsDelivered(m.session.(resumeStep := false), head);
  }

  lemma WaitingIsDelivered(s: Session, head: nat)
    requires Waits(s.core, head)
    ensures head in DeliverReady(s).core.replays
  {
    ApprovedWereReported(s.core.ready);
    hide ApprovedTasks, TaskIds, TaskObservations;
  }

  /** The heads before it run, and then it starts. */
  lemma {:induction false} RunsUpTo(n: Machine, m: Machine, head: nat) returns (later: Machine)
    requires Onwards(n, m) && m.pc.Replaying? && head in m.session.core.replays && head in m.started
    ensures Onwards(n, later) && StartedTwice(later.started, head)
    decreases |m.session.core.replays|
  {
    var first := m.session.core.replays[0];
    var running := Next(m, Consume(Committed));
    GoesOnwards(n, m, Consume(Committed));
    assert running.started == m.started + [first];
    if first == head {
      later := running;
      var i :| 0 <= i < |m.started| && m.started[i] == head;
      assert later.started[i] == head && later.started[|m.started|] == head;
    } else {
      GoesOnwards(n, running, Handled(None));
      OneHead(m, None);
      hide Onwards, Next, Outputs;
      var passed := Next(running, Handled(None));
      later := RunsUpTo(n, passed, head);
    }
  }

  lemma UnstoredHeadReturns(m: Machine, commit: Commit)
    requires ReplayInv(m) && m.pc.Replaying? && m.session.core.replays != [] && (commit.Skipped? || commit.Declined?)
    requires TakesUpAgain(m.config, m.durable)
    ensures exists later :: Onwards(Next(m, Consume(commit)), later) && StartedTwice(later.started, m.session.core.replays[0])
  {
    var n, head := Next(m, Consume(commit)), m.session.core.replays[0];
    HeadReturns(m, commit);
    LeadsNowhere(ConsumptionCommits, n);
    assert Onwards(n, n);
    hide Onwards, Next, ReplayInv, TaskIds;
    GoesOnwards(n, n, Crash);
    GoesOnwards(n, Next(n, Crash), Restore);
    var restored := Next(Next(n, Crash), Restore);
    var waiting := HeadWaits(n, restored, head);
    ReportKeepsOffer(restored.session, waiting.session);
    var replaying := EntersReplay(n, waiting, head);
    assert replaying.started[|m.started|] == head;
    var later := RunsUpTo(n, replaying, head);
  }

  lemma ReportKeepsOffer(s: Session, s': Session)
    requires s' == s.(core := s.core.(ready := s'.core.ready))
    ensures EvidenceRecovery(s') == EvidenceRecovery(s)
    ensures s'.core.terminal == s.core.terminal && s'.resumeStep == s.resumeStep
  {
  }

  /**
   The exact condition. Where a resume or a submit can take up what is stored, some later run whose own
   consumptions commit starts the consumed head a second time iff its consumption was neither stored nor
   raised to the handler's caller.
  */
  lemma ConsumptionIsSafeIffStored(m: Machine, commit: Commit)
    requires ReplayInv(m) && m.pc.Replaying? && m.session.core.replays != [] && TakesUpAgain(m.config, m.durable)
    ensures (exists later :: Onwards(Next(m, Consume(commit)), later) && StartedTwice(later.started, m.session.core.replays[0]))
      <==> !commit.Committed? && !Raised(commit)
  {
    if !commit.Committed? && !Raised(commit) {
      UnstoredHeadReturns(m, commit);
    } else {
      StoredHeadStays(m, commit);
    }
  }

  lemma StoredHeadStays(m: Machine, commit: Commit)
    requires ReplayInv(m) && m.pc.Replaying? && m.session.core.replays != [] && (commit.Committed? || Raised(commit))
    ensures forall later, task :: Onwards(Next(m, Consume(commit)), later) ==> !StartedTwice(later.started, task)
  {
    var n := Next(m, Consume(commit));
    NextKeepsReplays(m, Consume(commit));
    hide Next;
    forall later, task | Onwards(n, later)
      ensures !StartedTwice(later.started, task)
    {
      var events: seq<Event> :| Allowed(ConsumptionCommits, n, events) && Run(n, events) == later;
      RunKeepsReplays(n, events);
      hide Onwards, Allowed, Run, StoredOk, QueuesLive;
    }
  }
}
