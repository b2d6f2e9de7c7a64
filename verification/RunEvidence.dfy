/**
 Where evidence is required, no answer enters the log of a run, live or committed, before the evidence of its
 call has committed. Nothing is assumed of the run.
*/
module RunEvidence {
  import opened Wrappers
  import opened Usage
  import opened RunModel

  // ---------- Evidence ----------

  /** The step whose evidence this event commits. */
  function Evidence(m: Machine, e: Event): set<nat> {
    match m.pc
    case Requesting(_, _) => if e.Probe? && e.evidenceOk then {m.session.core.step} else {}
    case InFlight(_, _, _) => if e.Settle? && e.evidenceOk then {m.session.core.step} else {}
    case Recovering(recovery) => if e.Recover? && e.evidenceOk then {recovery.invocation.step} else {}
    case _ => {}
  }

  /** All steps whose evidence a run has committed. */
  ghost function Evidenced(m: Machine, events: seq<Event>): set<nat> {
    if events == [] then {}
    else
      var before := events[..|events| - 1];
      Evidenced(m, before) + Evidence(Run(m, before), events[|events| - 1])
  }

  // ---------- Invariant ----------

  predicate Spoken(messages: seq<Message>, seen: set<nat>) {
    forall i :: 0 <= i < |messages| && messages[i].AssistantMessage? ==> messages[i].step in seen
  }

  /** An answer at hand is one whose evidence has committed. */
  predicate PcSpeaks(m: Machine, seen: set<nat>) {
    match m.pc
    case Recovering(recovery) => recovery.invocation.step == m.session.core.step
    case Recovered(recovery, _, _) => recovery.invocation.step == m.session.core.step && m.session.core.step in seen
    case Answered(_, projected) => !projected ==> m.session.core.step in seen
    case _ => true
  }

  ghost predicate SpeaksInv(m: Machine, seen: set<nat>) {
    && m.config.evidenceRequired
    && (m.durable.Some? ==> Spoken(m.durable.value.core.messages, seen))
    && (!m.pc.Down? ==> Spoken(m.session.core.messages, seen) && PcSpeaks(m, seen))
  }

  /** A live step: what it adds to the log is spoken of evidenced steps only. */
  ghost predicate Adds(m: Machine, m': Machine, seen: set<nat>) {
    && m'.config == m.config
    && (m'.durable == m.durable || (m'.durable.Some? && m'.durable.value.core.messages == m'.session.core.messages))
    && Spoken(m'.session.core.messages, seen)
    && PcSpeaks(m', seen)
  }

  // ---------- Frames ----------

  predicate Quiet(m: Machine, s: Session, m': Machine) {
    && m'.config == m.config && m'.durable == m.durable && m'.session.core.messages == s.core.messages && m'.pc.Parking?
  }

  lemma HaltsQuietly(m: Machine, s: Session, stop: Stop)
    ensures Quiet(m, s, HaltRun(m, s, stop))
  {
    hide Unapplied;
  }

  lemma FailsQuietly(m: Machine, s: Session, code: Code)
    ensures Quiet(m, s, FailRun(m, s)) && Quiet(m, s, FailTurn(m, s, code))
  {
  }

  lemma SettlesQuietly(m: Machine, s: Session, reason: Reason, code: Code)
    ensures Quiet(m, s, SettleRun(m, s, reason, code))
  {
  }

  /** A park adds nothing to what was logged before it. */
  lemma QuietAdds(m: Machine, s: Session, m': Machine, seen: set<nat>)
    requires SpeaksInv(m, seen) && Quiet(m, s, m') && Spoken(s.core.messages, seen)
    ensures Adds(m, m', seen)
  {
    hide Spoken;
  }

  /** The program point moves, the log does not. */
  lemma StillAdds(m: Machine, m': Machine, seen: set<nat>)
    requires SpeaksInv(m, seen) && !m.pc.Down? && PcSpeaks(m', seen)
    requires m'.config == m.config && m'.durable == m.durable && m'.session.core.messages == m.session.core.messages
    ensures Adds(m, m', seen)
  {
    hide Spoken, PcSpeaks;
  }

  lemma AccountIsQuiet(s: Session, step: nat, receipt: Usage, accounted: Usage)
    ensures var r := Account(s, step, receipt, accounted);
      r.Some? ==> r.value.core.messages == s.core.messages && r.value.core.step == s.core.step
  {
    hide Covers, DeltaOf, Sum;
  }

  lemma InputsAreQuiet(s: Session, seen: set<nat>)
    requires Spoken(s.core.messages, seen)
    ensures Spoken(AppendInput(s).core.messages, seen) && Spoken(AppendObservations(s).core.messages, seen)
    ensures Spoken(AppendObservations(AppendInput(s)).core.messages, seen)
  {
  }

  lemma ProjectionSpeaks(s: Session, turn: Turn, seen: set<nat>)
    requires Spoken(s.core.messages, seen) && s.core.step in seen
    ensures Spoken(ProjectTurn(s, turn).core.messages, seen)
  {
  }

  // ---------- Every transition ----------

  lemma IdleSpeaks(m: Machine, e: Event, seen: set<nat>)
    requires SpeaksInv(m, seen) && m.pc.Idle?
    ensures Adds(m, FromIdle(m, e), seen)
  {
    OfferIsCurrent(m.session);
    hide EvidenceRecovery, Spoken;
  }

  lemma OfferIsCurrent(s: Session)
    ensures EvidenceRecovery(s).Some? ==> EvidenceRecovery(s).value.invocation.step == s.core.step
  {
  }

  lemma TopSpeaks(m: Machine, e: Event, seen: set<nat>)
    requires SpeaksInv(m, seen) && m.pc.Top?
    ensures Adds(m, FromTop(m, e), seen)
  {
    hide Spoken, HaltRun, SettleRun, TaskIds, TaskObservations, ApprovedTasks, Adds;
    var s, m' := m.session, FromTop(m, e);
    var limited := s.(core := s.core.(status := Limited, code := MaxSteps));
    SettlesQuietly(m, limited, LimitedPark, MaxSteps);
    if e.Halt? {
      HaltsQuietly(m, s, e.stop);
    }
    if m'.pc.Parking? {
      QuietAdds(m, s, m', seen);
    } else {
      StillAdds(m, m', seen);
    }
  }

  lemma HandlingSpeaks(m: Machine, e: Event, seen: set<nat>)
    requires SpeaksInv(m, seen) && m.pc.Handling?
    ensures Adds(m, FromHandling(m, e), seen)
  {
    hide Spoken, HaltRun, Adds;
    if e.Halt? {
      HaltsQuietly(m, m.session, e.stop);
      QuietAdds(m, m.session, FromHandling(m, e), seen);
    } else {
      StillAdds(m, FromHandling(m, e), seen);
    }
  }

  lemma PrepareSpeaks(m: Machine, resumed: bool, config: nat, over: bool, seen: set<nat>)
    requires SpeaksInv(m, seen) && !m.pc.Down?
    ensures Adds(m, PrepareRequest(m, resumed, config, over), seen)
  {
    InputsAreQuiet(m.session, seen);
    hide Spoken, SettleRun, AppendInput, AppendObservations, Adds;
    var s, m' := AppendObservations(AppendInput(m.session)), PrepareRequest(m, resumed, config, over);
    var limited := ClearObservations(s).(core := ClearObservations(s).core.(status := Limited, code := SizeLimit));
    SettlesQuietly(m, limited, LimitedPark, SizeLimit);
    if over {
      QuietAdds(m, s, m', seen);
    } else {
      SpokenAdds(m, m', seen);
    }
  }

  lemma SpokenAdds(m: Machine, m': Machine, seen: set<nat>)
    requires SpeaksInv(m, seen) && PcSpeaks(m', seen) && Spoken(m'.session.core.messages, seen)
    requires m'.config == m.config && m'.durable == m.durable
    ensures Adds(m, m', seen)
  {
    hide Spoken, PcSpeaks;
  }

  lemma ConsumeSpeaks(m: Machine, commit: Commit, seen: set<nat>)
    requires SpeaksInv(m, seen) && m.pc.Replaying? && m.session.core.replays != []
    ensures Adds(m, ConsumeHead(m, m.pc.mode, commit), seen)
  {
    hide Spoken;
  }

  lemma ReplayingSpeaks(m: Machine, e: Event, seen: set<nat>)
    requires SpeaksInv(m, seen) && m.pc.Replaying?
    ensures Adds(m, FromReplaying(m, e), seen)
  {
    hide Spoken, PrepareRequest, ConsumeHead, Adds;
    if m.session.core.replays != [] && e.Consume? {
      ConsumeSpeaks(m, e.commit, seen);
    } else if m.session.core.replays == [] && e.Prepare? {
      match m.pc.mode {
        case Projected(turn) =>
          InputsAreQuiet(m.session, seen);
          SpokenAdds(m, FromReplaying(m, e), seen);
        case Fresh(resumed) => PrepareSpeaks(m, resumed, e.config, e.over, seen);
      }
    } else {
      StillAdds(m, m, seen);
    }
  }

  lemma RecoveringSpeaks(m: Machine, e: Event, seen: set<nat>)
    requires SpeaksInv(m, seen) && m.pc.Recovering?
    ensures Adds(m, FromRecovering(m, e), seen + Evidence(m, e))
  {
    SpokenGrows(m.session.core.messages, seen, Evidence(m, e));
    hide Spoken, FailRun, FailTurn, Account;
    FailsQuietly(m, m.session, EvidenceUncommitted);
    var step := m.pc.recovery.invocation.step;
    if step in m.journal && m.journal[step].Settled? {
      AccountIsQuiet(m.session, step, m.journal[step].receipt, AccountedUsage(m.pc.recovery));
    }
  }

  lemma SpokenGrows(messages: seq<Message>, seen: set<nat>, more: set<nat>)
    requires Spoken(messages, seen)
    ensures Spoken(messages, seen + more)
  {
  }

  lemma WithoutCallsSpeaks(m: Machine, s: Session, turn: Turn, jobs: bool, seen: set<nat>)
    requires SpeaksInv(m, seen) && Spoken(s.core.messages, seen)
    ensures Adds(m, WithoutCalls(m, s, turn, jobs), seen)
  {
    hide Spoken, FailRun;
    FailsQuietly(m, s, NoCode);
  }

  lemma RefusalSpeaks(m: Machine, recoverable: bool, seen: set<nat>)
    requires SpeaksInv(m, seen) && m.pc.Recovered?
    ensures Adds(m, RestoreRefusal(m, m.pc.recovery, m.pc.receipt, recoverable), seen)
  {
    hide Spoken, FailRun, FailTurn, Account, Adds;
    var s, recovery := m.session, m.pc.recovery;
    FailsQuietly(m, s, NoCode);
    AccountIsQuiet(s, recovery.invocation.step, m.pc.receipt, AccountedUsage(recovery));
    var r := Account(s, recovery.invocation.step, m.pc.receipt, AccountedUsage(recovery));
    if r.Some? {
      FailsQuietly(m, r.value, NoCode);
    }
    QuietAdds(m, s, RestoreRefusal(m, recovery, m.pc.receipt, recoverable), seen);
  }

  lemma AnswerSpeaks(m: Machine, turn: Turn, jobs: bool, seen: set<nat>)
    requires SpeaksInv(m, seen) && m.pc.Recovered?
    ensures Adds(m, RestoreAnswer(m, m.pc.recovery, turn, jobs), seen)
  {
    ProjectionSpeaks(m.session, turn, seen);
    hide Spoken, FailRun, WithoutCalls, ProgressMatches, Adds, ProjectTurn;
    var s, m' := if m.pc.recovery.projected then m.session else ProjectTurn(m.session, turn), RestoreAnswer(m, m.pc.recovery, turn, jobs);
    FailsQuietly(m, s, NoCode);
    WithoutCallsSpeaks(m, s, turn, jobs, seen);
    QuietAdds(m, s, FailRun(m, s), seen);
    if m'.pc.Replaying? {
      SpokenAdds(m, m', seen);
    }
  }

  lemma RecoveredSpeaks(m: Machine, e: Event, seen: set<nat>)
    requires SpeaksInv(m, seen) && m.pc.Recovered?
    ensures Adds(m, FromRecovered(m, e), seen)
  {
    hide Spoken, HaltRun, RestoreRefusal, RestoreAnswer, Adds;
    match e
    case Halt(stop) =>
      HaltsQuietly(m, m.session, stop);
      QuietAdds(m, m.session, FromRecovered(m, e), seen);
    case Proceed(jobs) =>
      match m.pc.outcome {
        case Refused(recoverable, _) => RefusalSpeaks(m, recoverable, seen);
        case Answer(turn) => AnswerSpeaks(m, turn, jobs, seen);
      }
    case _ => StillAdds(m, m, seen);
  }

  /** A settled outcome reaches the run once its evidence has committed. */
  lemma DeliverSpeaks(m: Machine, ended: Machine, s: Session, entry: Entry, seen: set<nat>)
    requires SpeaksInv(m, seen) && !m.pc.Down? && entry.Settled? && ended == m.(journal := ended.journal, spends := ended.spends)
    requires s.core.messages == m.session.core.messages && s.core.step == m.session.core.step
    ensures s.core.step in seen ==> Adds(m, Deliver(ended, s, entry), seen)
    ensures Adds(m, AwaitEvidence(ended, s, entry), seen)
  {
    hide Spoken, FailRun, FailTurn, Account, Adds;
    AccountIsQuiet(s, s.core.step, entry.receipt, map[]);
    FailsQuietly(ended, s, NoCode);
    var r := Account(s, s.core.step, entry.receipt, map[]);
    if r.Some? {
      FailsQuietly(ended, r.value, NoCode);
      FailsQuietly(ended, r.value, EvidenceUncommitted);
    }
    QuietAdds(m, s, AwaitEvidence(ended, s, entry), seen);
    if s.core.step in seen {
      if r.Some? && entry.outcome.Answer? {
        StillAdds(m, Deliver(ended, s, entry), seen);
      } else {
        QuietAdds(m, s, Deliver(ended, s, entry), seen);
      }
    }
  }

  lemma ReserveSpeaks(m: Machine, halt: Option<Stop>, seen: set<nat>)
    requires SpeaksInv(m, seen) && m.pc.Requesting?
    ensures Adds(m, ReserveDispatch(m, m.pc.request, m.pc.resumed, halt), seen)
  {
    hide Spoken, HaltRun, Adds;
    var m' := ReserveDispatch(m, m.pc.request, m.pc.resumed, halt);
    if halt.Some? {
      HaltsQuietly(m, m.session, halt.value);
    }
    if m'.pc.Parking? {
      QuietAdds(m, m.session, m', seen);
    } else {
      StillAdds(m, m', seen);
    }
  }

  lemma ReuseSpeaks(m: Machine, head: Entry, halt: Option<Stop>, again: bool, seen: set<nat>)
    requires SpeaksInv(m, seen) && m.pc.Requesting? && head.Settled? && m.session.core.step in seen
    ensures Adds(m, ReuseSettled(m, head, halt, again), seen)
  {
    hide Spoken, HaltRun, Deliver, MayRetry, Adds;
    var s, m' := Observe(m.session, m.session.core.step, head), ReuseSettled(m, head, halt, again);
    DeliverSpeaks(m, m, s, head, seen);
    if halt.Some? {
      HaltsQuietly(m, s, halt.value);
      if halt.value.UserStop? {
        StillAdds(m, m, seen);
      } else {
        QuietAdds(m, s, m', seen);
      }
    } else if again && MayRetry(m.config, head) {
      StillAdds(m, m', seen);
    }
  }

  lemma RequestingSpeaks(m: Machine, e: Event, seen: set<nat>)
    requires SpeaksInv(m, seen) && m.pc.Requesting?
    ensures Adds(m, FromRequesting(m, e), seen + Evidence(m, e))
  {
    var more, step := seen + Evidence(m, e), m.session.core.step;
    InvGrows(m, seen, Evidence(m, e));
    PointStays(m, more);
    hide SpeaksInv, RefuseProbe, ReserveDispatch, ReuseSettled, AwaitEvidence, Adds;
    if e.Probe? {
      ReserveSpeaks(m, e.halt, more);
      if step in m.journal {
        var head := m.journal[step];
        RefusesQuietly(m, step, head, more);
        RefusesQuietly(m, step, Unknown(m.pc.request, head.attempt), more);
        if head.Settled? {
          DeliverSpeaks(m, m, Observe(m.session, step, head), head, more);
          if e.evidenceOk {
            ReuseSpeaks(m, head, e.halt, e.again, more);
          }
          Required(m, more);
        }
      }
    } else {
      StillAdds(m, m, more);
    }
  }

  lemma Required(m: Machine, seen: set<nat>)
    requires SpeaksInv(m, seen)
    ensures m.config.evidenceRequired
  {
    hide Spoken;
  }

  lemma PointStays(m: Machine, seen: set<nat>)
    requires SpeaksInv(m, seen) && !m.pc.Down?
    ensures PcSpeaks(m, seen)
  {
    hide Spoken, PcSpeaks;
  }

  lemma InvGrows(m: Machine, seen: set<nat>, more: set<nat>)
    requires SpeaksInv(m, seen)
    ensures SpeaksInv(m, seen + more)
  {
    if m.durable.Some? {
      SpokenGrows(m.durable.value.core.messages, seen, more);
    }
    if !m.pc.Down? {
      SpokenGrows(m.session.core.messages, seen, more);
    }
    hide Spoken;
  }

  lemma RefusesQuietly(m: Machine, step: nat, head: Entry, seen: set<nat>)
    requires SpeaksInv(m, seen) && !m.pc.Down?
    ensures Adds(m, RefuseProbe(m, step, head), seen)
  {
    hide Spoken, Adds;
    QuietAdds(m, m.session, RefuseProbe(m, step, head), seen);
  }

  lemma CallSpeaks(m: Machine, e: Event, seen: set<nat>)
    requires SpeaksInv(m, seen) && (m.pc.Ready? || m.pc.Backoff?)
    ensures Adds(m, if m.pc.Ready? then FromReady(m, e) else FromBackoff(m, e), seen)
  {
    hide Spoken, PreemptCall, Adds;
    var m' := if m.pc.Ready? then FromReady(m, e) else FromBackoff(m, e);
    if e.Halt? {
      if m.pc.Ready? {
        PreemptsQuietly(m, Reserved(m.pc.request, m.pc.attempt), m.pc.spent, e.stop);
      } else if m.session.core.step in m.journal {
        PreemptsQuietly(m, m.journal[m.session.core.step], m.pc.spent, e.stop);
      }
    }
    if m'.pc.Parking? {
      QuietAdds(m, m.session, m', seen);
    } else {
      StillAdds(m, m', seen);
    }
  }

  lemma PreemptsQuietly(m: Machine, head: Entry, spent: Usage, stop: Stop)
    ensures Quiet(m, m.session, PreemptCall(m, head, spent, stop))
  {
    hide HaltRun, FailRun, Account;
    var s := Observe(m.session, m.session.core.step, head);
    AccountIsQuiet(s, s.core.step, spent, map[]);
    FailsQuietly(m, s, NoCode);
    var r := Account(s, s.core.step, spent, map[]);
    if r.Some? {
      HaltsQuietly(m, r.value, stop);
    }
  }

  lemma SettleSpeaks(m: Machine, e: Event, seen: set<nat>)
    requires SpeaksInv(m, seen) && m.pc.InFlight? && e.Settle? && (e.evidenceOk ==> m.session.core.step in seen)
    ensures Adds(m, SettleDispatch(m, e.usage, e.outcome, e.evidenceOk, e.again), seen)
  {
    hide Spoken, Deliver, AwaitEvidence, MayRetry, Sum, Adds;
    var step, entry := m.session.core.step, Settled(m.pc.request, m.pc.attempt, Sum(m.pc.spent, e.usage), e.outcome);
    var ended := EndAttempt(m, entry, e.usage);
    DeliverSpeaks(m, ended, Observe(m.session, step, entry), entry, seen);
    StillAdds(m, ended.(pc := Backoff(entry.request, entry.attempt, entry.receipt, false)), seen);
  }

  lemma LossSpeaks(m: Machine, loss: Loss, seen: set<nat>)
    requires SpeaksInv(m, seen) && m.pc.InFlight?
    ensures Adds(m, LoseDispatch(m, loss), seen)
  {
    hide Spoken, FailRun, Account, Sum, Adds;
    var head := LostHead(m.pc, loss);
    var ended, s := EndAttempt(m, head, loss.usage), Observe(m.session, m.session.core.step, head);
    AccountIsQuiet(s, s.core.step, Sum(m.pc.spent, loss.usage), map[]);
    FailsQuietly(ended, s, NoCode);
    var r, m' := Account(s, s.core.step, Sum(m.pc.spent, loss.usage), map[]), LoseDispatch(m, loss);
    if r.Some? {
      FailsQuietly(ended, r.value, NoCode);
    }
    if m'.pc.Idle? {
      StillAdds(m, m', seen);
    } else {
      QuietAdds(m, s, m', seen);
    }
  }

  lemma InFlightSpeaks(m: Machine, e: Event, seen: set<nat>)
    requires SpeaksInv(m, seen) && m.pc.InFlight?
    ensures Adds(m, FromInFlight(m, e), seen + Evidence(m, e))
  {
    var more := seen + Evidence(m, e);
    InvGrows(m, seen, Evidence(m, e));
    PointStays(m, more);
    hide SpeaksInv, SettleDispatch, LoseDispatch, WellFormed, Adds;
    match e
    case Settle(_, _, _, _) =>
      SettleSpeaks(m, e, more);
      StillAdds(m, m, more);
    case Lose(loss) =>
      LossSpeaks(m, loss, more);
      StillAdds(m, m, more);
    case _ => StillAdds(m, m, more);
  }

  lemma AnsweredSpeaks(m: Machine, e: Event, seen: set<nat>)
    requires SpeaksInv(m, seen) && m.pc.Answered?
    ensures Adds(m, FromAnswered(m, e), seen)
  {
    hide Spoken, HaltRun, WithoutCalls, CompletedCalls;
    match e
    case Halt(stop) => HaltsQuietly(m, m.session, stop);
    case Proceed(jobs) =>
      var s := if m.pc.projected then m.session else ProjectTurn(m.session, m.pc.turn);
      if !m.pc.projected {
        ProjectionSpeaks(m.session, m.pc.turn, seen);
      }
      WithoutCallsSpeaks(m, s, m.pc.turn, jobs, seen);
    case _ =>
  }

  lemma EndBatchSpeaks(m: Machine, s: Session, turn: Turn, seen: set<nat>)
    requires SpeaksInv(m, seen) && !m.pc.Down? && s.core.messages == m.session.core.messages
    ensures Adds(m, EndBatch(m, s, turn), seen)
  {
    hide Spoken, SettleRun, Adds;
    SettlesQuietly(m, s.(callsPending := false), LimitedPark, s.core.code);
    var m' := EndBatch(m, s, turn);
    if m'.pc.Parking? {
      QuietAdds(m, s, m', seen);
    } else {
      StillAdds(m, m', seen);
    }
  }

  lemma BatchSpeaks(m: Machine, e: Event, seen: set<nat>)
    requires SpeaksInv(m, seen) && m.pc.Batch?
    ensures Adds(m, FromBatch(m, e), seen)
  {
    hide Spoken, HaltRun, EndBatch, Adds;
    var s, turn, next := m.session, m.pc.turn, m.pc.next;
    if e.Go? && next >= |turn.calls| {
      EndBatchSpeaks(m, s, turn, seen);
    } else if e.Go? && turn.calls[next].id !in m.pc.done && s.core.toolCalls + 1 > m.config.maxToolCalls {
      EndBatchSpeaks(m, s.(core := s.core.(toolCalls := s.core.toolCalls + 1, status := Limited, code := MaxToolCalls)), turn, seen);
    } else if e.Halt? && next < |turn.calls| && turn.calls[next].id !in m.pc.done {
      HaltsQuietly(m, s, e.stop);
      QuietAdds(m, s, FromBatch(m, e), seen);
    } else {
      StillAdds(m, FromBatch(m, e), seen);
    }
  }

  lemma CallingSpeaks(m: Machine, e: Event, seen: set<nat>)
    requires SpeaksInv(m, seen) && (m.pc.Calling? || m.pc.Returned?)
    ensures Adds(m, if m.pc.Calling? then FromCalling(m, e) else FromReturned(m, e), seen)
  {
    hide Spoken, HaltRun, Adds;
    var m' := if m.pc.Calling? then FromCalling(m, e) else FromReturned(m, e);
    if e.Halt? {
      HaltsQuietly(m, m.session, e.stop);
      QuietAdds(m, m.session, m', seen);
    } else {
      StillAdds(m, m', seen);
    }
  }

  lemma FinishIsQuiet(s: Session, fromFinish: bool, seen: set<nat>)
    requires Spoken(s.core.messages, seen)
    ensures Spoken(LogFinish(s, fromFinish).core.messages, seen)
    ensures Spoken(LogFinish(s, fromFinish).core.messages + [RepairMessage], seen)
  {
    InputsAreQuiet(s, seen);
  }

  lemma DecidingSpeaks(m: Machine, e: Event, seen: set<nat>)
    requires SpeaksInv(m, seen) && m.pc.Deciding?
    ensures Adds(m, FromDeciding(m, e), seen)
  {
    hide Spoken, HaltRun, FailRun, SettleRun, LogFinish, Exhaust, Reprompt, Adds;
    var s, fromFinish := m.session, m.pc.fromFinish;
    match e
    case Halt(stop) =>
      HaltsQuietly(m, s, stop);
      QuietAdds(m, s, FromDeciding(m, e), seen);
    case Decide(verdict) =>
      FailsQuietly(m, s, NoCode);
      QuietAdds(m, s, FailRun(m, s), seen);
      DecidedQuietly(m, s, SettledPark, NoCode, seen);
      DecidedQuietly(m, WithOutcome(s, Failed, OutputRefused), SettledPark, OutputRefused, seen);
      DecidedQuietly(m, WithOutcome(s, Limited, OutputTruncated), LimitedPark, OutputTruncated, seen);
      RejectedSpeaks(m, seen);
    case _ => StillAdds(m, m, seen);
  }

  lemma RejectedSpeaks(m: Machine, seen: set<nat>)
    requires SpeaksInv(m, seen) && m.pc.Deciding?
    ensures Adds(m, Exhaust(m, m.pc.fromFinish), seen) && Adds(m, Reprompt(m, m.pc.fromFinish), seen)
  {
    hide Spoken, SettleRun, LogFinish;
    var s, fromFinish := m.session, m.pc.fromFinish;
    DecidedQuietly(m, DropFinish(WithOutcome(RecordFailure(s), Limited, ValidatorUnsatisfied), fromFinish),
                   LimitedPark, ValidatorUnsatisfied, seen);
    var recorded := RecordFailure(s);
    FinishIsQuiet(DropFinish(recorded.(core := recorded.core.(retries := recorded.core.retries + 1)), fromFinish), fromFinish, seen);
  }

  lemma DecidedQuietly(m: Machine, s: Session, reason: Reason, code: Code, seen: set<nat>)
    requires SpeaksInv(m, seen) && m.pc.Deciding? && s.core.messages == m.session.core.messages
    ensures Adds(m, SettleRun(m, LogFinish(s, m.pc.fromFinish), reason, code), seen)
  {
    hide Spoken, SettleRun, LogFinish, Adds;
    FinishIsQuiet(s, m.pc.fromFinish, seen);
    SettlesQuietly(m, LogFinish(s, m.pc.fromFinish), reason, code);
    QuietAdds(m, LogFinish(s, m.pc.fromFinish), SettleRun(m, LogFinish(s, m.pc.fromFinish), reason, code), seen);
  }

  lemma ReportSpeaks(m: Machine, task: Task, persist: Option<Commit>, seen: set<nat>)
    requires SpeaksInv(m, seen) && !m.pc.Down?
    ensures Adds(m, Reported(m, task, persist), seen)
  {
    var m' := Reported(m, task, persist);
    assert m'.pc == m.pc && m'.session.core.step == m.session.core.step;
    hide Spoken, TaskIds;
  }

  lemma ParkingSpeaks(m: Machine, e: Event, seen: set<nat>)
    requires SpeaksInv(m, seen) && m.pc.Parking?
    ensures Adds(m, FromParking(m, e), seen)
  {
    hide Spoken;
  }

  lemma NextSpeaks(m: Machine, e: Event, seen: set<nat>)
    requires SpeaksInv(m, seen)
    ensures SpeaksInv(Next(m, e), seen + Evidence(m, e))
  {
    if m.durable.Some? {
      SpokenGrows(m.durable.value.core.messages, seen, Evidence(m, e));
    }
    hide FromIdle, FromTop, FromRecovering, FromRecovered, FromReplaying, FromHandling, FromRequesting, FromReady,
         FromInFlight, FromBackoff, FromAnswered, FromBatch, FromCalling, FromReturned, FromDeciding, Reported,
         FromParking, Spoken, Evidence, PcSpeaks;
    if m.pc.Down? {
      RestoreSpeaks(m, e, seen + Evidence(m, e));
    } else if e.Crash? {
    } else {
      LiveSpeaks(m, e, seen);
      hide Next;
    }
  }

  lemma RestoreSpeaks(m: Machine, e: Event, seen: set<nat>)
    requires m.pc.Down? && m.config.evidenceRequired && (m.durable.Some? ==> Spoken(m.durable.value.core.messages, seen))
    ensures SpeaksInv(Next(m, e), seen)
  {
  }

  lemma LiveSpeaks(m: Machine, e: Event, seen: set<nat>)
    requires SpeaksInv(m, seen) && !m.pc.Down? && !e.Crash?
    ensures Adds(m, Next(m, e), seen + Evidence(m, e))
  {
    hide FromIdle, FromTop, FromRecovering, FromRecovered, FromReplaying, FromHandling, FromRequesting, FromReady,
         FromInFlight, FromBackoff, FromAnswered, FromBatch, FromCalling, FromReturned, FromDeciding, Reported,
         FromParking, SpeaksInv, Spoken, PcSpeaks;
    if e.Report? {
      ReportSpeaks(m, e.task, e.persist, seen);
    } else {
      match m.pc
      case Idle => IdleSpeaks(m, e, seen);
      case Top => TopSpeaks(m, e, seen);
      case Recovering(_) => RecoveringSpeaks(m, e, seen);
      case Recovered(_, _, _) => RecoveredSpeaks(m, e, seen);
      case Replaying(_) => ReplayingSpeaks(m, e, seen);
      case Handling(_, _) => HandlingSpeaks(m, e, seen);
      case Requesting(_, _) => RequestingSpeaks(m, e, seen);
      case Ready(_, _, _) => CallSpeaks(m, e, seen);
      case InFlight(_, _, _) => InFlightSpeaks(m, e, seen);
      case Backoff(_, _, _, _) => CallSpeaks(m, e, seen);
      case Answered(_, _) => AnsweredSpeaks(m, e, seen);
      case Batch(_, _, _) => BatchSpeaks(m, e, seen);
      case Calling(_, _, _) => CallingSpeaks(m, e, seen);
      case Returned(_, _, _) => CallingSpeaks(m, e, seen);
      case Deciding(_, _) => DecidingSpeaks(m, e, seen);
      case Parking(_) => ParkingSpeaks(m, e, seen);
    }
    assert Evidence(m, e) == {} ==> seen + Evidence(m, e) == seen;
    AddsMore(m, Next(m, e), seen, Evidence(m, e));
  }

  lemma AddsMore(m: Machine, m': Machine, seen: set<nat>, more: set<nat>)
    ensures Adds(m, m', seen) ==> Adds(m, m', seen + more)
  {
  }

  // ---------- Main result ----------

  lemma {:induction false} RunSpeaks(m: Machine, events: seq<Event>, seen: set<nat>)
    requires SpeaksInv(m, seen)
    ensures SpeaksInv(Run(m, events), seen + Evidenced(m, events))
  {
    hide SpeaksInv, Next, Evidence;
    if events == [] {
      assert seen + Evidenced(m, events) == seen;
    } else {
      var before, e := events[..|events| - 1], events[|events| - 1];
      RunSpeaks(m, before, seen);
      NextSpeaks(Run(m, before), e, seen + Evidenced(m, before));
      assert seen + Evidenced(m, before) + Evidence(Run(m, before), e) == seen + Evidenced(m, events);
    }
  }

  /** Over any run, every logged answer is one whose call's evidence some earlier event of the run committed. */
  lemma AppliedMeansEvidenced(config: Config, events: seq<Event>)
    requires config.evidenceRequired
    ensures var m, seen := Run(Initial(config), events), Evidenced(Initial(config), events);
      && (!m.pc.Down? ==>
            forall i :: 0 <= i < |m.session.core.messages| && m.session.core.messages[i].AssistantMessage? ==>
              m.session.core.messages[i].step in seen)
      && (m.durable.Some? ==>
            var log := m.durable.value.core.messages;
            forall i :: 0 <= i < |log| && log[i].AssistantMessage? ==> log[i].step in seen)
  {
    RunSpeaks(Initial(config), events, {});
    assert {} + Evidenced(Initial(config), events) == Evidenced(Initial(config), events);
    hide Run, Evidenced, PcSpeaks;
  }

  /**
   A recovery yields its outcome exactly when the journal still has the settled dispatch it is for, the receipt
   covers what was charged, and the obligation that is due has been met: evidence that the configuration requires
   has committed, and one that a checkpoint left open is not waived by a configuration that requires none.
  */
  lemma RecoversIff(m: Machine, evidenceOk: bool)
    requires m.pc.Recovering?
    ensures var recovery, m' := m.pc.recovery, Next(m, Recover(evidenceOk));
      var known := recovery.invocation;
      && (m'.pc.Recovered? <==>
            && known.step in m.journal && m.journal[known.step].Settled? && SameDispatch(m.journal[known.step], known.entry)
            && (m.config.evidenceRequired ==> evidenceOk) && (recovery.blocks ==> m.config.evidenceRequired)
            && Covers(m.journal[known.step].receipt, AccountedUsage(recovery)))
      && (m'.pc.Recovered? ==>
            m'.pc == Recovered(recovery, m.journal[known.step].receipt, m.journal[known.step].outcome))
      && (!m'.pc.Recovered? ==> m'.pc.Parking? && m'.session.core.messages == m.session.core.messages
                                && m'.session.core.bills == m.session.core.bills)
  {
    hide Covers, DeltaOf, Sum;
  }
}
