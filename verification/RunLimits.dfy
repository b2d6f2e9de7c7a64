/**
 Where the run machine does not meet its promises: one concrete run for each. The conditions under which
 they are kept are here where they are about one event, and otherwise in `RunRebilling`, `RunReapplying`,
 `RunReplays` and `RunParks`.
*/
module RunLimits {
  import opened Wrappers
  import opened Usage
  import opened RunModel
  import opened RunDispatch
  import opened RunBilling
  import opened RunOnce
  import opened RunApply
  import opened RunInputs
  import opened RunReplays
  import opened RunReapplying
  import Parks = RunParks

  const LIMITS := Config(8, 8, 2, 2, true)
  const RECEIPT: Usage := map[InputTokens := 3]
  const ANSWER := Turn([], true, Normal)
  const TOOLS := Turn([Call(5, 0)], false, Normal)
  const QUESTION := UserMessage(1, 7)
  const REQUEST := Request([QUESTION], 0)
  const PAID := Settled(REQUEST, 1, RECEIPT, Answer(ANSWER))
  const PAID_TOOLS := Settled(REQUEST, 1, RECEIPT, Answer(TOOLS))

  ghost predicate Reaches(m: Machine) {
    exists events: seq<Event> :: Run(Initial(LIMITS), events) == m
  }

  lemma Start()
    ensures Reaches(Initial(LIMITS))
  {
    assert Run(Initial(LIMITS), []) == Initial(LIMITS);
  }

  lemma Then(m: Machine, e: Event)
    requires Reaches(m)
    ensures Reaches(Next(m, e))
  {
    var events: seq<Event> :| Run(Initial(LIMITS), events) == m;
    assert (events + [e])[..|events|] == events;
    assert Run(Initial(LIMITS), events + [e]) == Next(m, e);
  }

  // ---------- The first call ----------

  function FirstStep(messages: seq<Message>, input: Option<Input>, invocation: Option<Invocation>): Session {
    InitialSession.(core := InitialCore.(step := 1, local := 1, messages := messages, input := input, submits := 1,
                                         invocation := invocation))
  }

  function Charge(s: Session, step: nat): Session {
    s.(core := s.core.(usage := Sum(s.core.usage, RECEIPT), bills := s.core.bills + [Bill(step, RECEIPT)]))
  }

  const FIRST_REQUEST := Initial(LIMITS).(pc := Requesting(REQUEST, false), session := FirstStep([QUESTION], None, None))

  const FIRST_CALL := Machine(LIMITS, InFlight(REQUEST, 1, map[]),
                              FirstStep([QUESTION], None, Some(Invocation(1, Started(REQUEST, 1)))),
                              map[1 := Started(REQUEST, 1)], None, [Dispatched(1, 1)], [], [])

  lemma NothingToDeliver(s: Session)
    requires s.core.ready == []
    ensures DeliverReady(s) == s
  {
    assert TaskIds([]) == {};
    assert TaskObservations([]) == [];
    assert s.core.delivered + {} == s.core.delivered;
  }

  /** Submit, Go, Prepare: an activation with nothing behind it asks the first question. */
  lemma Asks(m: Machine)
    requires Reaches(m) && m.pc.Idle? && m.session == InitialSession && m.config == LIMITS
    ensures Reaches(m.(pc := Requesting(REQUEST, false), session := FirstStep([QUESTION], None, None)))
  {
    var m1 := Next(m, Submit(7));
    NothingToDeliver(AllocateStep(m1.session));
    var m2 := Next(m1, Go);
    assert m2 == m.(pc := Replaying(Fresh(false)), session := FirstStep([], Some(Input(1, 7)), None));
    assert ObservationMessages([]) == [];
    assert [] + [QUESTION] + [] == [QUESTION];
    var m3 := Next(m2, Prepare(0, false));
    assert m3 == m.(pc := Requesting(REQUEST, false), session := FirstStep([QUESTION], None, None));
    hide Next, Reaches;
    Then(m, Submit(7));
    Then(m1, Go);
    Then(m2, Prepare(0, false));
  }

  const FIRST_READY := FIRST_REQUEST.(pc := Ready(REQUEST, 1, map[]), journal := map[1 := Reserved(REQUEST, 1)],
                                      session := FirstStep([QUESTION], None, Some(Invocation(1, Reserved(REQUEST, 1)))))

  lemma FirstReservation()
    ensures Next(FIRST_REQUEST, Probe(true, None, false)) == FIRST_READY
  {
  }

  lemma FirstDispatch()
    ensures Next(FIRST_READY, Dispatch) == FIRST_CALL
  {
  }

  /** Probe, Dispatch. */
  lemma FirstCall()
    ensures Reaches(FIRST_CALL)
  {
    Start();
    Asks(Initial(LIMITS));
    FirstReservation();
    FirstDispatch();
    hide Next, Reaches;
    Then(FIRST_REQUEST, Probe(true, None, false));
    Then(FIRST_READY, Dispatch);
  }

  function AnsweredWith(turn: Turn): Machine {
    var entry := Settled(REQUEST, 1, RECEIPT, Answer(turn));
    FIRST_CALL.(pc := Answered(turn, false), journal := map[1 := entry], spends := [Spend(1, 1, RECEIPT)],
                session := Charge(FirstStep([QUESTION], None, Some(Invocation(1, entry))), 1))
  }

  lemma ChargesOnce(s: Session)
    ensures Account(s, s.core.step, RECEIPT, map[]) == Some(Charge(s, s.core.step))
  {
    DeltaOfEmpty(RECEIPT);
    assert Covers(RECEIPT, map[]) && InputTokens in RECEIPT;
    hide Sum;
  }

  /** What the first attempt reports is all the call has cost. */
  lemma FirstCost()
    ensures Sum(map[], RECEIPT) == RECEIPT && WellFormed(RECEIPT)
  {
    assert Sum(map[], RECEIPT).Keys == RECEIPT.Keys;
  }

  /** A first attempt that settles with an answer is delivered. */
  lemma SettlesAs(m: Machine, turn: Turn)
    requires m.pc.InFlight? && m.pc.attempt == 1 && m.pc.spent == map[]
    ensures var step, entry := m.session.core.step, Settled(m.pc.request, 1, RECEIPT, Answer(turn));
      var ended := m.(journal := m.journal[step := entry], spends := m.spends + [Spend(step, 1, RECEIPT)]);
      Next(m, Settle(RECEIPT, Answer(turn), true, false)) == Deliver(ended, Observe(m.session, step, entry), entry)
  {
    hide Deliver, AwaitEvidence, Sum, WellFormed;
    FirstCost();
  }

  /** Settle: the call is charged and its answer is at hand. */
  lemma FirstAnswer(turn: Turn)
    ensures Reaches(AnsweredWith(turn))
  {
    hide Next, Reaches, Account, Charge, Sum, WellFormed;
    FirstCall();
    FirstCost();
    var entry := Settled(REQUEST, 1, RECEIPT, Answer(turn));
    ChargesOnce(FirstStep([QUESTION], None, Some(Invocation(1, entry))));
    assert FIRST_CALL.journal[1 := entry] == map[1 := entry];
    SettlesAs(FIRST_CALL, turn);
    assert Next(FIRST_CALL, Settle(RECEIPT, Answer(turn), true, false)) == AnsweredWith(turn);
    Then(FIRST_CALL, Settle(RECEIPT, Answer(turn), true, false));
  }

  // ---------- A host checkpoint taken in the middle of a step ----------

  const LATE := Task(9, false)
  const LATE_OUTPUT := Observation(TaskOutput(9), 0, 0)

  /** A step in progress with nothing pending. */
  predicate MidStep(m: Machine) {
    var s, core := m.session, m.session.core;
    && (m.pc.Answered? || m.pc.Batch?) && s.suspension.None? && s.seq_ == 0
    && !core.terminal && core.step > 0 && core.input.None?
    && core.observations == [] && core.delivered == {} && core.ready == [] && core.replays == []
  }

  /** The step, restored from a checkpoint without a suspension, with its inputs logged again. */
  function TakenUpAgain(m: Machine): Machine {
    var core := m.session.core;
    var messages := core.messages + [ObservationMessage(LATE_OUTPUT)];
    m.(durable := Some(Checkpoint(core.(ready := [LATE]), None, 1)),
       pc := Requesting(Request(messages, 0), true),
       session := Session(core.(observations := [LATE_OUTPUT], delivered := {9}, messages := messages), None, false, false, 1))
  }

  /** Report with a checkpoint, Crash, Restore, Resume, Go, Prepare. */
  lemma ReportedMidStep(m0: Machine)
    requires Reaches(m0) && MidStep(m0)
    ensures Reaches(TakenUpAgain(m0))
  {
    var core := m0.session.core;
    var m1 := Next(m0, Report(LATE, Some(Committed)));
    assert TaskIds([]) == {};
    assert [] + [LATE] == [LATE];
    assert m1 == m0.(session := m0.session.(core := core.(ready := [LATE]), seq_ := 1),
                     durable := Some(Checkpoint(core.(ready := [LATE]), None, 1)));
    var m2 := Next(m1, Crash);
    var m3 := Next(m2, Restore);
    var restored := Session(core.(ready := [LATE]), None, false, true, 1);
    assert m3 == m1.(pc := Idle, session := restored);
    var m4 := Next(m3, Resume);
    assert m4 == m1.(pc := Top, session := restored);
    var m5 := Next(m4, Go);
    DeliversLate(core);
    assert m5 == m1.(pc := Replaying(Fresh(true)),
                     session := Session(core.(observations := [LATE_OUTPUT], delivered := {9}), None, false, false, 1));
    var m6 := Next(m5, Prepare(0, false));
    assert core.messages + [] + ObservationMessages([LATE_OUTPUT]) == core.messages + [ObservationMessage(LATE_OUTPUT)];
    assert m6 == TakenUpAgain(m0);
    hide Next, Reaches;
    Then(m0, Report(LATE, Some(Committed)));
    Then(m1, Crash);
    Then(m2, Restore);
    Then(m3, Resume);
    Then(m4, Go);
    Then(m5, Prepare(0, false));
  }

  lemma DeliversLate(core: Core)
    requires core.observations == [] && core.delivered == {} && core.replays == []
    ensures DeliverReady(Session(core.(ready := [LATE]), None, false, false, 1))
         == Session(core.(observations := [LATE_OUTPUT], delivered := {9}, ready := []), None, false, false, 1)
  {
    assert TaskObservations([LATE]) == [LATE_OUTPUT];
    assert [LATE][1..] == [];
    assert [LATE][0].id in TaskIds([LATE]);
    assert TaskIds([LATE]) == {9};
    assert {} + {9} == {9};
    assert ApprovedTasks([LATE]) == [];
  }

  /**
   A task reported while a call is being applied checkpoints the step without a suspension; after a
   crash the step is taken up again, its evidence fails to commit, and the same receipt is charged twice.
   */
  lemma ReportMidStepBillsTwice()
    ensures exists m :: Reaches(m) && m.pc.Parking? && m.session.core.bills == [Bill(1, RECEIPT), Bill(1, RECEIPT)]
                        && Get(m.session.core.usage, InputTokens) == 6
  {
    FirstAnswer(ANSWER);
    ReportedMidStep(AnsweredWith(ANSWER));
    var m0 := TakenUpAgain(AnsweredWith(ANSWER));
    Then(m0, Probe(false, None, false));
    hide Next, Reaches;
    RestoredIsCharged(m0);
  }

  lemma RestoredIsCharged(m: Machine)
    requires m == TakenUpAgain(AnsweredWith(ANSWER))
    ensures var m' := Next(m, Probe(false, None, false));
      m'.pc.Parking? && m'.session == Charge(Observe(m.session, 1, PAID), 1)
    ensures var core := Charge(Observe(m.session, 1, PAID), 1).core;
      core.bills == [Bill(1, RECEIPT), Bill(1, RECEIPT)] && Get(core.usage, InputTokens) == 6
  {
    hide Account;
    ChargesOnce(Observe(m.session, 1, PAID));
  }

  // ---------- A boundary between finding a settled outcome and returning it ----------

  const FOUND := Initial(LIMITS).(journal := map[1 := PAID], dispatched := [Dispatched(1, 1)], spends := [Spend(1, 1, RECEIPT)])
  const FOUND_STEP := FirstStep([QUESTION], None, Some(Invocation(1, PAID)))

  /** The outcome is stored and its commit raises. */
  lemma StoredThenLost()
    ensures var m := Next(FIRST_CALL, Lose(StoredThenRaised(RECEIPT, Answer(ANSWER))));
      m.(pc := Idle, session := InitialSession) == FOUND && !m.pc.Down?
  {
    hide LoseDispatch, SettleDispatch, WellFormed;
    FirstCost();
    LosesAs();
  }

  lemma LosesAs()
    ensures var m := LoseDispatch(FIRST_CALL, StoredThenRaised(RECEIPT, Answer(ANSWER)));
      m.(pc := Idle, session := InitialSession) == FOUND && !m.pc.Down?
  {
    hide Account, Charge, Sum, WellFormed;
    FirstCost();
    assert FIRST_CALL.journal[1 := PAID] == map[1 := PAID];
    ChargesOnce(FirstStep([QUESTION], None, Some(Invocation(1, PAID))));
  }

  /** The activation dies there, and the next one, with nothing committed, asks the same question. */
  lemma AskedAgain()
    ensures Reaches(FOUND.(pc := Requesting(REQUEST, false), session := FirstStep([QUESTION], None, None)))
  {
    FirstCall();
    StoredThenLost();
    var e := Lose(StoredThenRaised(RECEIPT, Answer(ANSWER)));
    var m := Next(FIRST_CALL, e);
    Restarts(m);
    hide Next, Reaches;
    Then(FIRST_CALL, e);
    Then(m, Crash);
    Then(Next(m, Crash), Restore);
    Asks(FOUND);
  }

  lemma Restarts(m: Machine)
    requires !m.pc.Down? && m.durable.None?
    ensures Next(Next(m, Crash), Restore) == m.(pc := Idle, session := InitialSession)
  {
  }

  function Resumed(m: Machine): Machine
    requires m.pc.Parking?
  {
    var s := m.session.(suspension := Some(m.pc.suspension), seq_ := m.session.seq_ + 1);
    var recovery := EvidenceRecovery(s);
    m.(durable := Some(Checkpoint(s.core, s.suspension, s.seq_)), session := s.(suspension := None),
       pc := if recovery.Some? then Recovering(recovery.value) else Top)
  }

  /** Persist, Resume. */
  lemma Resumes(m: Machine)
    requires Reaches(m) && m.pc.Parking? && !m.session.core.terminal
    ensures Reaches(Resumed(m))
  {
    hide EvidenceRecovery, Reaches;
    Then(m, Persist(Committed));
    Then(Next(m, Persist(Committed)), Resume);
    ResumesAs(m);
    hide Next;
  }

  lemma ResumesAs(m: Machine)
    requires m.pc.Parking? && !m.session.core.terminal
    ensures Next(Next(m, Persist(Committed)), Resume) == Resumed(m)
  {
    hide EvidenceRecovery;
    assert Next(m, Persist(Committed)) == FromParking(m, Persist(Committed));
  }

  /** Recover, Proceed: an answer recovered as unprojected goes into the log, uncharged. */
  lemma Reapplies(m: Machine, invocation: Invocation, blocks: bool, turn: Turn)
    requires Reaches(m) && m.config == LIMITS && m.pc == Recovering(Recovery(invocation, blocks, false))
    requires invocation.entry == Settled(REQUEST, 1, RECEIPT, Answer(turn))
    requires invocation.step in m.journal && m.journal[invocation.step] == invocation.entry
    ensures exists r ::
      && Reaches(r) && r.session.core.bills == m.session.core.bills
      && r.session.core.messages == m.session.core.messages + [AssistantMessage(m.session.core.step, turn)]
  {
    Then(m, Recover(true));
    Then(Next(m, Recover(true)), Proceed(false));
    RecoversUncharged(m, invocation, blocks, turn);
    hide Next, Reaches;
  }

  lemma RecoversUncharged(m: Machine, invocation: Invocation, blocks: bool, turn: Turn)
    requires m.config == LIMITS && m.pc == Recovering(Recovery(invocation, blocks, false))
    requires invocation.entry == Settled(REQUEST, 1, RECEIPT, Answer(turn))
    requires invocation.step in m.journal && m.journal[invocation.step] == invocation.entry
    ensures var r := Next(Next(m, Recover(true)), Proceed(false));
      && r.session.core.bills == m.session.core.bills
      && r.session.core.messages == m.session.core.messages + [AssistantMessage(m.session.core.step, turn)]
  {
    AccountAgain(m.session, invocation.step, RECEIPT);
    assert Covers(RECEIPT, RECEIPT);
    var recovery := m.pc.recovery;
    assert Next(m, Recover(true)) == m.(pc := Recovered(recovery, RECEIPT, Answer(turn))) by {
      hide Account, Covers;
    }
    hide Account;
  }

  lemma FoundAndDrained()
    ensures var m0 := FOUND.(pc := Requesting(REQUEST, false), session := FirstStep([QUESTION], None, None));
      Next(m0, Probe(true, Some(DrainStop), false))
        == m0.(pc := Parking(Suspension(InterruptedPark, Draining, false)),
               session := FOUND_STEP.(core := FOUND_STEP.core.(code := Draining)))
  {
  }

  /** The recovered answer is applied and never charged: the park had recorded it as paid. */
  lemma PreemptedReuseIsNeverBilled()
    ensures exists m :: Reaches(m) && m.session.core.messages == [QUESTION, AssistantMessage(1, ANSWER)]
                        && m.session.core.bills == []
  {
    AskedAgain();
    FoundAndDrained();
    var m0 := FOUND.(pc := Requesting(REQUEST, false), session := FirstStep([QUESTION], None, None));
    Then(m0, Probe(true, Some(DrainStop), false));
    var m1 := Next(m0, Probe(true, Some(DrainStop), false));
    hide Next, Reaches;
    Resumes(m1);
    Reapplies(Resumed(m1), Invocation(1, PAID), false, ANSWER);
    assert [QUESTION] + [AssistantMessage(1, ANSWER)] == [QUESTION, AssistantMessage(1, ANSWER)];
  }

  // ---------- Evidence that fails while a batch is recovered ----------

  /** Proceed, stop in the batch, Persist, Resume, and the evidence does not commit again. */
  lemma StoppedBatch()
    ensures var m := AnsweredWith(TOOLS);
      var s := m.session;
      Next(Next(m, Proceed(false)), Halt(UserStop))
        == m.(pc := Parking(Suspension(InterruptedPark, NoCode, true)),
              session := s.(core := s.core.(messages := [QUESTION, AssistantMessage(1, TOOLS)]), callsPending := true))
  {
    hide Sum, TotalOf;
    var m := AnsweredWith(TOOLS);
    assert [QUESTION] + [AssistantMessage(1, TOOLS)] == [QUESTION, AssistantMessage(1, TOOLS)];
    assert Next(m, Proceed(false)).session.core.messages == [QUESTION, AssistantMessage(1, TOOLS)];
  }

  lemma EvidenceFails(m: Machine)
    requires m.pc.Recovering? && m.config == LIMITS && m.pc.recovery.invocation.step in m.journal
    requires m.journal[m.pc.recovery.invocation.step].Settled?
    ensures Next(m, Recover(false)) == m.(pc := Parking(Suspension(TurnFailed, EvidenceUncommitted, false)))
  {
    hide Account;
  }

  /** The stop is resumed as a batch; once its evidence fails, as an answer to be applied. */
  lemma StoppedBatchIsOffered(m: Machine)
    requires m.pc == Parking(Suspension(InterruptedPark, NoCode, true)) && m.session.callsPending
    requires m.session.core.step == 1 && m.session.core.messages == [QUESTION, AssistantMessage(1, TOOLS)]
    requires m.session.core.invocation == Some(Invocation(1, PAID_TOOLS))
    ensures Resumed(m).pc == Recovering(Recovery(Invocation(1, PAID_TOOLS), false, true))
    ensures Resumed(Resumed(m).(pc := Parking(Suspension(TurnFailed, EvidenceUncommitted, false)))).pc
      == Recovering(Recovery(Invocation(1, PAID_TOOLS), true, false))
  {
  }

  lemma ChargedFields(turn: Turn)
    ensures var core := AnsweredWith(turn).session.core;
      core.step == 1 && core.invocation == Some(Invocation(1, Settled(REQUEST, 1, RECEIPT, Answer(turn)))) && !core.terminal
  {
    hide Sum;
  }

  function StoppedBatchPark(): Machine {
    var s := AnsweredWith(TOOLS).session;
    AnsweredWith(TOOLS).(
      pc := Parking(Suspension(InterruptedPark, NoCode, true)),
      session := s.(core := s.core.(messages := [QUESTION, AssistantMessage(1, TOOLS)]), callsPending := true))
  }

  function LostBatchPark(): Machine {
    Resumed(StoppedBatchPark()).(pc := Parking(Suspension(TurnFailed, EvidenceUncommitted, false)))
  }

  lemma BatchIsStopped()
    ensures Reaches(StoppedBatchPark())
  {
    FirstAnswer(TOOLS);
    StoppedBatch();
    hide Next, Reaches, Charge;
    Then(AnsweredWith(TOOLS), Proceed(false));
    Then(Next(AnsweredWith(TOOLS), Proceed(false)), Halt(UserStop));
  }

  lemma BatchIsLost()
    ensures Reaches(LostBatchPark()) && LostBatchPark().config == LIMITS
    ensures LostBatchPark().journal == map[1 := PAID_TOOLS]
    ensures Resumed(LostBatchPark()).pc == Recovering(Recovery(Invocation(1, PAID_TOOLS), true, false))
  {
    hide Next, Reaches, Charge, EvidenceRecovery;
    BatchIsStopped();
    ChargedFields(TOOLS);
    Resumes(StoppedBatchPark());
    StoppedBatchIsOffered(StoppedBatchPark());
    EvidenceFails(Resumed(StoppedBatchPark()));
    Then(Resumed(StoppedBatchPark()), Recover(false));
  }

  /** A batch in progress is projected into the log a second time, and its calls run again. */
  lemma LostBatchIsReapplied()
    ensures exists m ::
      Reaches(m) && m.session.core.messages == [QUESTION, AssistantMessage(1, TOOLS), AssistantMessage(1, TOOLS)]
  {
    hide Next, Reaches, Charge, EvidenceRecovery;
    BatchIsLost();
    ChargedFields(TOOLS);
    Resumes(LostBatchPark());
    Reapplies(Resumed(LostBatchPark()), Invocation(1, PAID_TOOLS), true, TOOLS);
    assert [QUESTION, AssistantMessage(1, TOOLS)] + [AssistantMessage(1, TOOLS)]
      == [QUESTION, AssistantMessage(1, TOOLS), AssistantMessage(1, TOOLS)];
  }

  /**
   A crash at that failed park is visible: in process the next resume recovers the paid answer, after a
   restart from the very same checkpoint it offers nothing, and the logged calls are never answered.
  */
  lemma LostBatchCrashIsVisible()
    ensures exists m ::
      && Reaches(m) && m.pc.Idle? && m.durable.Some? && m.durable.value.suspension == m.session.suspension
      && m.durable.value.core == m.session.core
      && EvidenceRecovery(m.session).Some? && EvidenceRecovery(Rehydrate(m.durable)).None?
  {
    hide Next, Reaches, Charge, EvidenceRecovery;
    BatchIsLost();
    ChargedFields(TOOLS);
    Then(LostBatchPark(), Persist(Committed));
    FailedBatchPark(LostBatchPark());
  }

  /** The batch of the first step, with its answer in the log. */
  function BatchStarted(): Machine {
    var m := AnsweredWith(TOOLS);
    m.(pc := Batch(TOOLS, 0, {}),
       session := m.session.(core := m.session.core.(messages := [QUESTION, AssistantMessage(1, TOOLS)]), callsPending := true))
  }

  lemma BatchStarts()
    ensures Reaches(BatchStarted()) && MidStep(BatchStarted())
  {
    FirstAnswer(TOOLS);
    Then(AnsweredWith(TOOLS), Proceed(false));
    hide Reaches, Sum;
    assert CompletedCalls([]) == {};
    assert [QUESTION] + [AssistantMessage(1, TOOLS)] == [QUESTION, AssistantMessage(1, TOOLS)];
    assert Next(AnsweredWith(TOOLS), Proceed(false)) == BatchStarted();
  }

  /** The restored step cannot commit its evidence; its park offers the logged answer as one still to be applied. */
  lemma TakenUpIsOffered(m: Machine)
    requires m == TakenUpAgain(BatchStarted())
    ensures var parked := Next(m, Probe(false, None, false));
      && parked.pc.Parking? && !parked.session.core.terminal && parked.config == LIMITS
      && parked.journal == map[1 := PAID_TOOLS] && parked.session.core.messages == m.session.core.messages
      && parked.session.core.step == 1
      && Resumed(parked).pc == Recovering(Recovery(Invocation(1, PAID_TOOLS), true, false))
  {
    hide Account, Sum, Charge;
    var s := Observe(m.session, 1, PAID_TOOLS);
    ChargesOnce(s);
    ChargeFrame(s);
    ChargeFrame(FirstStep([QUESTION], None, Some(Invocation(1, PAID_TOOLS))));
    assert Next(m, Probe(false, None, false)) == FailTurn(m, Charge(s, 1), EvidenceUncommitted);
  }

  /** A task reported in the middle of a batch checkpoints it without a suspension, and its answer is applied twice. */
  lemma ReportMidBatchAppliesTwice()
    ensures exists m ::
      Reaches(m) && m.session.core.messages
        == [QUESTION, AssistantMessage(1, TOOLS), ObservationMessage(LATE_OUTPUT), AssistantMessage(1, TOOLS)]
  {
    hide Next, Reaches, EvidenceRecovery;
    BatchStarts();
    ReportedMidStep(BatchStarted());
    var m := TakenUpAgain(BatchStarted());
    TakenUpIsOffered(m);
    hide BatchStarted;
    var parked := Next(m, Probe(false, None, false));
    Then(m, Probe(false, None, false));
    Resumes(parked);
    Reapplies(Resumed(parked), Invocation(1, PAID_TOOLS), true, TOOLS);
  }

  lemma FailedBatchPark(m: Machine)
    requires m.pc == Parking(Suspension(TurnFailed, EvidenceUncommitted, false)) && m.session.callsPending
    requires m.session.core.step == 1 && m.session.core.messages == [QUESTION, AssistantMessage(1, TOOLS)]
    requires m.session.core.invocation == Some(Invocation(1, PAID_TOOLS))
    ensures var parked := Next(m, Persist(Committed));
      && parked.pc.Idle? && parked.durable.Some? && parked.durable.value.suspension == parked.session.suspension
      && parked.durable.value.core == parked.session.core
      && EvidenceRecovery(parked.session).Some? && EvidenceRecovery(Rehydrate(parked.durable)).None?
  {
  }

  // ---------- A stop between a repair message and the next step ----------

  lemma RepairedAnswer()
    ensures var m := AnsweredWith(ANSWER);
      var s := m.session;
      var repaired := s.core.(messages := [QUESTION, AssistantMessage(1, ANSWER), RepairMessage], retries := 1, failures := [1]);
      Next(Next(m, Proceed(false)), Decide(Rejected)) == m.(pc := Top, session := s.(core := repaired))
  {
    hide Sum, TotalOf;
    var m := AnsweredWith(ANSWER);
    assert [QUESTION] + [AssistantMessage(1, ANSWER)] + [RepairMessage]
      == [QUESTION, AssistantMessage(1, ANSWER), RepairMessage];
    assert Next(m, Proceed(false)).pc == Deciding(ANSWER, false);
  }

  /** The rejected answer, already in the log, is offered for recovery and applied a second time. */
  lemma RepairedAnswerIsReapplied()
    ensures exists m ::
      && Reaches(m)
      && m.session.core.messages == [QUESTION, AssistantMessage(1, ANSWER), RepairMessage, AssistantMessage(1, ANSWER)]
  {
    var m0 := AnsweredWith(ANSWER);
    FirstAnswer(ANSWER);
    RepairedAnswer();
    Then(m0, Proceed(false));
    Then(Next(m0, Proceed(false)), Decide(Rejected));
    var m1 := Next(Next(m0, Proceed(false)), Decide(Rejected));
    Then(m1, Halt(UserStop));
    StopsAtHead(m1, UserStop);
    var m2 := Next(m1, Halt(UserStop));
    hide Next, Reaches, Sum, HaltRun;
    Resumes(m2);
    Reapplies(Resumed(m2), Invocation(1, PAID), false, ANSWER);
    assert [QUESTION, AssistantMessage(1, ANSWER), RepairMessage] + [AssistantMessage(1, ANSWER)]
      == [QUESTION, AssistantMessage(1, ANSWER), RepairMessage, AssistantMessage(1, ANSWER)];
  }

  lemma StopsAtHead(m: Machine, stop: Stop)
    requires m.pc.Top? && !m.session.resumeStep && m.session.core.local < m.config.maxSteps && stop.UserStop?
    requires Unapplied(m.session).Some?
    ensures Next(m, Halt(stop)) == m.(pc := Parking(Suspension(InterruptedPark, NoCode, m.session.callsPending)))
  {
    hide Unapplied;
  }

  // ---------- An interrupted batch whose park is refused ----------

  /** The run of the stopped batch, seen through everything the rest of the story depends on. */
  ghost predicate BatchStory(m: Machine, messages: seq<Message>, input: Option<Input>, callsPending: bool) {
    && m.config == LIMITS && m.journal == map[1 := PAID_TOOLS]
    && m.session.suspension.None? && !m.session.resumeStep && m.session.callsPending == callsPending
    && var core := m.session.core;
       && core.step == 1 && core.local == 0 && core.invocation == Some(Invocation(1, PAID_TOOLS)) && core.messages == messages
       && core.input == input && core.replays == [] && core.toolCalls == 0 && core.status.Completed? && !core.finish
       && !core.terminal
  }

  const NEXT_INPUT := Input(2, 8)
  const STOPPED_LOG := [QUESTION, AssistantMessage(1, TOOLS)]

  /** The refused park is forgotten, its pending calls are not; a new input is stopped at the loop head. */
  lemma ForgottenPark()
    ensures var m := Next(Next(StoppedBatchPark(), Persist(Skipped)), Submit(8));
      && m.pc.Top? && m.session.core.observations == [] && BatchStory(m, STOPPED_LOG, Some(NEXT_INPUT), true)
  {
    hide Charge;
    ChargeFrame(FirstStep([QUESTION], None, Some(Invocation(1, PAID_TOOLS))));
    ChargedFields(TOOLS);
  }

  lemma StoppedWithInput(m: Machine)
    requires m.pc.Top? && m.session.core.observations == [] && BatchStory(m, STOPPED_LOG, Some(NEXT_INPUT), true)
    ensures var stopped := Next(m, Halt(UserStop));
      && stopped.pc == Parking(Suspension(InterruptedPark, NoCode, true)) && !stopped.session.core.terminal
      && var r := Resumed(stopped);
         && r.pc == Recovering(Recovery(Invocation(1, PAID_TOOLS), false, true))
         && r.session.core.observations == [] && BatchStory(r, STOPPED_LOG, Some(NEXT_INPUT), true)
  {
  }

  /** Recover, Proceed, Prepare, Proceed: back in the batch, with the new input behind its answer. */
  lemma InputBehindTheAnswer(m: Machine)
    requires m.pc == Recovering(Recovery(Invocation(1, PAID_TOOLS), false, true))
    requires m.session.core.observations == [] && BatchStory(m, STOPPED_LOG, Some(NEXT_INPUT), true)
    ensures var r := Next(Next(Next(Next(m, Recover(true)), Proceed(false)), Prepare(0, false)), Proceed(false));
      r.pc == Batch(TOOLS, 0, {}) && BatchStory(r, STOPPED_LOG + [UserMessage(2, 8)], None, true)
  {
    FirstCost();
    hide WellFormed, Sum;
    EvidenceHolds(m);
    var m1 := Next(m, Recover(true));
    var m2 := Next(m1, Proceed(false));
    assert CompletedCalls([]) == {};
    assert ProgressMatches(TOOLS, []);
    assert m2 == m.(pc := Replaying(Projected(TOOLS)), session := m2.session);
    assert m2.session.core == m.session.core && m2.session.callsPending;
    BehindTheAnswer(m2);
  }

  lemma BehindTheAnswer(m: Machine)
    requires m.pc == Replaying(Projected(TOOLS)) && m.session.callsPending
    requires m.session.core.observations == [] && BatchStory(m, STOPPED_LOG, Some(NEXT_INPUT), true)
    ensures var r := Next(Next(m, Prepare(0, false)), Proceed(false));
      r.pc == Batch(TOOLS, 0, {}) && BatchStory(r, STOPPED_LOG + [UserMessage(2, 8)], None, true)
  {
    assert CompletedCalls([]) == {};
  }

  /** Go, Complete, Go, Go: the batch ends, and nothing says any longer that its answer was applied. */
  lemma BatchEnds(m: Machine)
    requires m.pc == Batch(TOOLS, 0, {}) && BatchStory(m, STOPPED_LOG + [UserMessage(2, 8)], None, true)
    ensures var r := Next(Next(Next(Next(m, Go), Complete(1, false)), Go), Go);
      && r.pc.Top? && r.config == LIMITS && r.journal == map[1 := PAID_TOOLS] && !r.session.resumeStep && !r.session.callsPending
      && r.session.core.step == 1 && r.session.core.local == 0 && !r.session.core.terminal
      && r.session.core.invocation == Some(Invocation(1, PAID_TOOLS))
      && r.session.core.messages == STOPPED_LOG + [UserMessage(2, 8)]
  {
    var m1 := Next(m, Go);
    var m2 := Next(m1, Complete(1, false));
    var m3 := Next(m2, Go);
    assert m3.pc == Batch(TOOLS, 1, {});
  }

  /**
   No repair message is needed: after a refused park a paid answer is applied twice. The park's pending
   calls outlive it, so a later stop takes the batch up again behind a newer input, and a stop at the loop
   head after that finds the answer buried.
  */
  lemma RefusedParkReappliesAnswer()
    ensures exists m ::
      && Reaches(m)
      && m.session.core.messages == [QUESTION, AssistantMessage(1, TOOLS), UserMessage(2, 8), AssistantMessage(1, TOOLS)]
  {
    BatchIsStopped();
    ForgottenPark();
    var m0 := StoppedBatchPark();
    var m1 := Next(m0, Persist(Skipped));
    var m2 := Next(m1, Submit(8));
    StoppedWithInput(m2);
    var m3 := Next(m2, Halt(UserStop));
    hide Next, Reaches, BatchStory, StoppedBatchPark, EvidenceRecovery;
    Then(m0, Persist(Skipped));
    Then(m1, Submit(8));
    Then(m2, Halt(UserStop));
    Resumes(m3);
    BatchComesBack(Resumed(m3));
  }

  lemma BatchComesBack(m: Machine)
    requires Reaches(m) && m.pc == Recovering(Recovery(Invocation(1, PAID_TOOLS), false, true))
    requires m.session.core.observations == [] && BatchStory(m, STOPPED_LOG, Some(NEXT_INPUT), true)
    ensures exists r ::
      && Reaches(r)
      && r.session.core.messages == [QUESTION, AssistantMessage(1, TOOLS), UserMessage(2, 8), AssistantMessage(1, TOOLS)]
  {
    hide Next, Reaches, BatchStory, HaltRun, EvidenceRecovery;
    InputBehindTheAnswer(m);
    var m1 := Next(m, Recover(true));
    var m2 := Next(m1, Proceed(false));
    var m3 := Next(m2, Prepare(0, false));
    var m4 := Next(m3, Proceed(false));
    Then(m, Recover(true));
    Then(m1, Proceed(false));
    Then(m2, Prepare(0, false));
    Then(m3, Proceed(false));
    BatchEnds(m4);
    Then(m4, Go);
    Then(Next(m4, Go), Complete(1, false));
    Then(Next(Next(m4, Go), Complete(1, false)), Go);
    Then(Next(Next(Next(m4, Go), Complete(1, false)), Go), Go);
    BuriedIsReapplied(Next(Next(Next(Next(m4, Go), Complete(1, false)), Go), Go));
  }

  lemma BuriedIsReapplied(m: Machine)
    requires Reaches(m) && m.pc.Top? && m.config == LIMITS && m.journal == map[1 := PAID_TOOLS]
    requires !m.session.resumeStep && !m.session.callsPending
    requires m.session.core.step == 1 && m.session.core.local == 0 && !m.session.core.terminal
    requires m.session.core.invocation == Some(Invocation(1, PAID_TOOLS))
    requires m.session.core.messages == STOPPED_LOG + [UserMessage(2, 8)]
    ensures exists r ::
      && Reaches(r)
      && r.session.core.messages == [QUESTION, AssistantMessage(1, TOOLS), UserMessage(2, 8), AssistantMessage(1, TOOLS)]
  {
    StopsAtHead(m, UserStop);
    Then(m, Halt(UserStop));
    var stopped := Next(m, Halt(UserStop));
    hide Next, Reaches, HaltRun;
    Resumes(stopped);
    Reapplies(Resumed(stopped), Invocation(1, PAID_TOOLS), false, TOOLS);
    assert STOPPED_LOG + [UserMessage(2, 8)] + [AssistantMessage(1, TOOLS)]
      == [QUESTION, AssistantMessage(1, TOOLS), UserMessage(2, 8), AssistantMessage(1, TOOLS)];
  }

  const OUTPUT := Observation(CallOutput(1, 5), 0, 1)
  const SKIP_LOG := [QUESTION, AssistantMessage(1, TOOLS), ObservationMessage(OUTPUT)]
  const SKIP_REQUEST := Request(SKIP_LOG, 0)
  const SKIP_PAID := Settled(SKIP_REQUEST, 1, RECEIPT, Answer(TOOLS))

  /** The same run with its one call completed, seen through what matters of it. */
  ghost predicate SkipStory(m: Machine, messages: seq<Message>, step: nat) {
    && m.config == LIMITS && m.session.suspension.None? && !m.session.resumeStep && m.session.callsPending
    && var core := m.session.core;
       && core.step == step && core.local == step && core.messages == messages && core.observations == [OUTPUT]
       && core.input.None? && core.ready == [] && core.replays == [] && core.toolCalls == 1 && !core.terminal
  }

  /** Proceed, Go: the one call of the first turn runs. */
  lemma CallRuns()
    ensures var m := AnsweredWith(TOOLS);
      var r := Next(Next(m, Proceed(false)), Go);
      && r.config == LIMITS && r.pc == Calling(TOOLS, 0, {}) && r.journal == map[1 := PAID_TOOLS]
      && r.session.core.observations == []
      && SkipStory(r.(session := r.session.(core := r.session.core.(observations := [OUTPUT]))),
                   [QUESTION, AssistantMessage(1, TOOLS)], 1)
      && r.session.core.invocation == Some(Invocation(1, PAID_TOOLS))
      && !r.session.core.finish && r.session.core.status == Completed
  {
    hide Charge, CompletedCalls;
    ChargeFrame(FirstStep([QUESTION], None, Some(Invocation(1, PAID_TOOLS))));
    ChargedFields(TOOLS);
    assert [QUESTION] + [AssistantMessage(1, TOOLS)] == [QUESTION, AssistantMessage(1, TOOLS)];
    assert CompletedCalls([]) == {} by {
      NothingCompleted();
    }
    assert Next(AnsweredWith(TOOLS), Proceed(false)).pc == Batch(TOOLS, 0, {});
  }

  lemma NothingCompleted()
    ensures CompletedCalls([]) == {}
  {
  }

  /** Complete, stop. */
  lemma CompletedAndStopped(m: Machine)
    requires m.config == LIMITS && m.pc == Calling(TOOLS, 0, {}) && m.session.core.observations == []
    requires SkipStory(m.(session := m.session.(core := m.session.core.(observations := [OUTPUT]))),
                       [QUESTION, AssistantMessage(1, TOOLS)], 1)
    requires m.session.core.invocation == Some(Invocation(1, PAID_TOOLS))
    ensures var r := Next(Next(m, Complete(1, false)), Halt(UserStop));
      && r.pc == Parking(Suspension(InterruptedPark, NoCode, true)) && r.journal == m.journal
      && SkipStory(r, [QUESTION, AssistantMessage(1, TOOLS)], 1)
  {
    assert [] + [OUTPUT] == [OUTPUT];
    assert Next(m, Complete(1, false)).pc == Returned(TOOLS, 0, {});
  }

  /** Complete, Go, Go: the batch ends. */
  lemma BatchIsOver(m: Machine)
    requires m.config == LIMITS && m.pc == Calling(TOOLS, 0, {}) && m.session.core.observations == []
    requires SkipStory(m.(session := m.session.(core := m.session.core.(observations := [OUTPUT]))),
                       [QUESTION, AssistantMessage(1, TOOLS)], 1)
    requires !m.session.core.finish && m.session.core.status == Completed
    ensures var r := Next(Next(Next(m, Complete(1, false)), Go), Go);
      && r.pc.Top? && r.config == LIMITS && SkipStory(r.(session := r.session.(callsPending := true)), [QUESTION, AssistantMessage(1, TOOLS)], 1)
      && !r.session.callsPending
  {
    assert [] + [OUTPUT] == [OUTPUT];
    var m1 := Next(m, Complete(1, false));
    assert m1 == m.(pc := Returned(TOOLS, 0, {}), session := m.session.(core := m.session.core.(observations := [OUTPUT])));
    var m2 := Next(m1, Go);
    assert m2 == m1.(pc := Batch(TOOLS, 1, {}));
    assert Next(m2, Go) == m2.(pc := Top, session := m2.session.(callsPending := false));
    hide Next;
  }

  lemma StoppedBehindTheBatch(m: Machine)
    requires m.pc.Top? && m.config == LIMITS && !m.session.callsPending
    requires SkipStory(m.(session := m.session.(callsPending := true)), [QUESTION, AssistantMessage(1, TOOLS)], 1)
    ensures var r := Next(m, Halt(UserStop));
      && r.pc == Parking(Suspension(InterruptedPark, NoCode, false)) && r.session.core.observations == []
      && r.session.core.messages == [QUESTION, AssistantMessage(1, TOOLS)]
  {
  }

  /**
   A user stop between a finished batch and the next step gives up its outputs, though no request and no log
   has them: the logged calls are never answered.
  */
  lemma StopLosesOutputs()
    ensures exists m, stopped ::
      && Reaches(m) && m.pc.Top? && m.session.core.observations == [OUTPUT]
      && stopped == Next(m, Halt(UserStop)) && Reaches(stopped)
      && stopped.session.core.observations == [] && stopped.session.core.messages == [QUESTION, AssistantMessage(1, TOOLS)]
  {
    FirstAnswer(TOOLS);
    CallRuns();
    var m0 := AnsweredWith(TOOLS);
    var m1 := Next(Next(m0, Proceed(false)), Go);
    BatchIsOver(m1);
    StoppedBehindTheBatch(Next(Next(Next(m1, Complete(1, false)), Go), Go));
    hide Next, Reaches, AnsweredWith;
    Then(m0, Proceed(false));
    Then(Next(m0, Proceed(false)), Go);
    Then(m1, Complete(1, false));
    Then(Next(m1, Complete(1, false)), Go);
    Then(Next(Next(m1, Complete(1, false)), Go), Go);
    Then(Next(Next(Next(m1, Complete(1, false)), Go), Go), Halt(UserStop));
  }

  /** Persist refused, Resume, Go, Prepare: the next step logs the output, which stays pending. */
  lemma SkipsOn(m: Machine)
    requires m.pc == Parking(Suspension(InterruptedPark, NoCode, true)) && SkipStory(m, [QUESTION, AssistantMessage(1, TOOLS)], 1)
    ensures var r := Next(Next(Next(Next(m, Persist(Skipped)), Resume), Go), Prepare(0, false));
      r.pc == Requesting(SKIP_REQUEST, false) && r.journal == m.journal && SkipStory(r, SKIP_LOG, 2)
  {
    var m1 := Next(Next(m, Persist(Skipped)), Resume);
    assert m1 == m.(pc := Top);
    NothingToDeliver(AllocateStep(m.session));
    var m2 := Next(m1, Go);
    assert m2 == m.(pc := Replaying(Fresh(false)), session := AllocateStep(m.session));
    assert [QUESTION, AssistantMessage(1, TOOLS)] + [] + ObservationMessages([OUTPUT]) == SKIP_LOG;
    hide DeliverReady;
  }

  /** Probe, Dispatch. */
  lemma SkipCall(m: Machine)
    requires m.pc == Requesting(SKIP_REQUEST, false) && m.journal == map[1 := PAID_TOOLS] && SkipStory(m, SKIP_LOG, 2)
    ensures var r := Next(Next(m, Probe(true, None, false)), Dispatch);
      r.pc == InFlight(SKIP_REQUEST, 1, map[]) && SkipStory(r, SKIP_LOG, 2)
  {
    var m1 := Next(m, Probe(true, None, false));
    assert m1.pc == Ready(SKIP_REQUEST, 1, map[]) && SkipStory(m1, SKIP_LOG, 2);
  }

  /** Settle with a call of the same name, stop: the park claims the new answer's calls are pending. */
  lemma SkipAnswer(m: Machine)
    requires m.pc == InFlight(SKIP_REQUEST, 1, map[]) && SkipStory(m, SKIP_LOG, 2)
    ensures var answered := Next(m, Settle(RECEIPT, Answer(TOOLS), true, false));
      var r := Next(answered, Halt(UserStop));
      && answered.pc.Answered? && r.pc == Parking(Suspension(InterruptedPark, NoCode, true)) && SkipStory(r, SKIP_LOG, 2)
      && r.session.core.invocation == Some(Invocation(2, SKIP_PAID)) && 2 in r.journal && r.journal[2] == SKIP_PAID
  {
    SettlesAs(m, TOOLS);
    var s := Observe(m.session, 2, SKIP_PAID);
    hide Account, Charge, Sum, WellFormed;
    ChargesOnce(s);
    SkipCharge(s);
    var answered := Next(m, Settle(RECEIPT, Answer(TOOLS), true, false));
    assert answered.pc == Answered(TOOLS, false) && answered.session == Charge(s, 2);
  }

  lemma SkipCharge(s: Session)
    ensures var s' := Charge(s, 2);
      && s' == s.(core := s'.core) && s'.core == s.core.(usage := s'.core.usage, bills := s'.core.bills)
  {
  }

  lemma OneOutputMatches()
    ensures CompletedCalls([OUTPUT]) == {5} && ProgressMatches(TOOLS, [OUTPUT])
  {
    assert [OUTPUT][0].key.call == 5;
    assert TOOLS.calls[0] == Call([OUTPUT][0].key.call, [OUTPUT][0].name);
  }

  /** Recover, Proceed: the recovery takes the answer as logged. */
  lemma SkipRecovers(m: Machine)
    requires m.pc == Recovering(Recovery(Invocation(2, SKIP_PAID), false, true)) && SkipStory(m, SKIP_LOG, 2)
    requires 2 in m.journal && m.journal[2] == SKIP_PAID
    ensures var r := Next(Next(m, Recover(true)), Proceed(false));
      r.pc == Replaying(Projected(TOOLS)) && SkipStory(r, SKIP_LOG, 2)
  {
    hide WellFormed, Sum, ProgressMatches, CompletedCalls;
    FirstCost();
    EvidenceHolds(m);
    OneOutputMatches();
    hide SkipStory;
    var m1 := Next(m, Recover(true));
    assert SkipStory(m1, SKIP_LOG, 2) by {
      SameStory(m, m1);
    }
    SkipProceeds(m1);
  }

  lemma SameStory(m: Machine, m': Machine)
    requires SkipStory(m, SKIP_LOG, 2) && m'.session == m.session && m'.config == m.config
    ensures SkipStory(m', SKIP_LOG, 2)
  {
  }

  lemma SkipProceeds(m: Machine)
    requires m.pc.Recovered? && m.pc.recovery.projected && m.pc.outcome == Answer(TOOLS) && SkipStory(m, SKIP_LOG, 2)
    ensures var r := Next(m, Proceed(false)); r.pc == Replaying(Projected(TOOLS)) && SkipStory(r, SKIP_LOG, 2)
  {
    hide ProgressMatches, CompletedCalls;
    OneOutputMatches();
  }

  /** Prepare, Proceed: the batch starts with its only call done. */
  lemma SkipStarts(m: Machine)
    requires m.pc == Replaying(Projected(TOOLS)) && SkipStory(m, SKIP_LOG, 2)
    ensures var r := Next(Next(m, Prepare(0, false)), Proceed(false)); r.pc == Batch(TOOLS, 0, {5}) && SkipStory(r, SKIP_LOG, 2)
  {
    hide CompletedCalls;
    OneOutputMatches();
    assert SKIP_LOG + [] == SKIP_LOG;
    assert Next(m, Prepare(0, false)).pc == Answered(TOOLS, true);
  }

  /** The park of a batch is refused: the next turn's answer is never logged, and its first call never runs. */
  lemma ForgottenParkSkipsACall()
    ensures exists m ::
      && Reaches(m) && m.pc == Batch(TOOLS, 1, {5}) && m.session.core.step == 2
      && m.session.core.messages == SKIP_LOG && m.session.core.observations == [OUTPUT]
  {
    FirstAnswer(TOOLS);
    CallRuns();
    var m0 := AnsweredWith(TOOLS);
    CompletedAndStopped(Next(Next(m0, Proceed(false)), Go));
    var m1 := Next(Next(Next(m0, Proceed(false)), Go), Complete(1, false));
    var m2 := Next(m1, Halt(UserStop));
    SkipsOn(m2);
    hide Next, Reaches, SkipStory, AnsweredWith;
    Then(m0, Proceed(false));
    Then(Next(m0, Proceed(false)), Go);
    Then(Next(Next(m0, Proceed(false)), Go), Complete(1, false));
    Then(m1, Halt(UserStop));
    Then(m2, Persist(Skipped));
    Then(Next(m2, Persist(Skipped)), Resume);
    var m3 := Next(Next(m2, Persist(Skipped)), Resume);
    Then(m3, Go);
    Then(Next(m3, Go), Prepare(0, false));
    SkipsAnswer(Next(Next(m3, Go), Prepare(0, false)));
  }

  lemma SkipsAnswer(m: Machine)
    requires Reaches(m)
    requires m.pc == Requesting(SKIP_REQUEST, false) && m.journal == map[1 := PAID_TOOLS] && SkipStory(m, SKIP_LOG, 2)
    ensures exists r ::
      && Reaches(r) && r.pc == Batch(TOOLS, 1, {5}) && r.session.core.step == 2
      && r.session.core.messages == SKIP_LOG && r.session.core.observations == [OUTPUT]
  {
    hide Next, Reaches, SkipStory, Resumed;
    SkipCall(m);
    Then(m, Probe(true, None, false));
    Then(Next(m, Probe(true, None, false)), Dispatch);
    var m1 := Next(Next(m, Probe(true, None, false)), Dispatch);
    SkipAnswer(m1);
    Then(m1, Settle(RECEIPT, Answer(TOOLS), true, false));
    Then(Next(m1, Settle(RECEIPT, Answer(TOOLS), true, false)), Halt(UserStop));
    var m2 := Next(Next(m1, Settle(RECEIPT, Answer(TOOLS), true, false)), Halt(UserStop));
    SkipIsOffered(m2);
    Resumes(m2);
    var m3 := Resumed(m2);
    SkipRecovers(m3);
    Then(m3, Recover(true));
    Then(Next(m3, Recover(true)), Proceed(false));
    var m4 := Next(Next(m3, Recover(true)), Proceed(false));
    SkipStarts(m4);
    Then(m4, Prepare(0, false));
    Then(Next(m4, Prepare(0, false)), Proceed(false));
    var m5 := Next(Next(m4, Prepare(0, false)), Proceed(false));
    SkipsTheCall(m5);
    Then(m5, Go);
  }

  lemma SkipIsOffered(m: Machine)
    requires m.pc == Parking(Suspension(InterruptedPark, NoCode, true)) && SkipStory(m, SKIP_LOG, 2)
    requires m.session.core.invocation == Some(Invocation(2, SKIP_PAID)) && 2 in m.journal && m.journal[2] == SKIP_PAID
    ensures !m.session.core.terminal
    ensures var r := Resumed(m);
      && r.pc == Recovering(Recovery(Invocation(2, SKIP_PAID), false, true)) && r.journal == m.journal
      && SkipStory(r, SKIP_LOG, 2)
  {
  }

  lemma SkipsTheCall(m: Machine)
    requires m.pc == Batch(TOOLS, 0, {5}) && SkipStory(m, SKIP_LOG, 2)
    ensures var r := Next(m, Go);
      && r.pc == Batch(TOOLS, 1, {5}) && r.session.core.step == 2
      && r.session.core.messages == SKIP_LOG && r.session.core.observations == [OUTPUT]
  {
  }

  // ---------- Observations kept after they were logged ----------

  const LATE_LOGGED := ObservationMessage(LATE_OUTPUT)
  const LATE_REQUEST := Request([LATE_LOGGED], 0)

  /** The first request carries a late task output, which stays pending while it is in the log. */
  function LateStep(invocation: Option<Invocation>): Session {
    InitialSession.(core := InitialCore.(step := 1, local := 1, messages := [LATE_LOGGED],
                                         observations := [LATE_OUTPUT], delivered := {9}, invocation := invocation))
  }

  const LATE_START := Initial(LIMITS).(pc := Requesting(LATE_REQUEST, false), session := LateStep(None))

  /** Report, Resume, Go, Prepare. */
  lemma LateRequest()
    ensures Reaches(LATE_START)
  {
    var m0 := Initial(LIMITS);
    var m1 := Next(m0, Report(LATE, None));
    assert TaskIds([]) == {};
    assert [] + [LATE] == [LATE];
    var queued := InitialCore.(ready := [LATE]);
    assert m1 == m0.(session := InitialSession.(core := queued));
    var m2 := Next(m1, Resume);
    assert m2 == m1.(pc := Top);
    LateDelivery();
    var m3 := Next(m2, Go);
    assert m3 == m0.(pc := Replaying(Fresh(false)), session := LateStep(None).(core := LateStep(None).core.(messages := [])));
    assert [] + InputMessages(None) + ObservationMessages([LATE_OUTPUT]) == [LATE_LOGGED];
    assert Next(m3, Prepare(0, false)) == LATE_START;
    hide Next, Reaches;
    Start();
    Then(m0, Report(LATE, None));
    Then(m1, Resume);
    Then(m2, Go);
    Then(m3, Prepare(0, false));
  }

  lemma LateDelivery()
    ensures DeliverReady(AllocateStep(InitialSession.(core := InitialCore.(ready := [LATE]))))
         == LateStep(None).(core := LateStep(None).core.(messages := []))
  {
    DeliversLate(InitialCore.(step := 1, local := 1));
    assert DeliverReady(Session(InitialCore.(step := 1, local := 1, ready := [LATE]), None, false, false, 1)).core
      == DeliverReady(AllocateStep(InitialSession.(core := InitialCore.(ready := [LATE])))).core;
  }

  /** Go, Prepare: with nothing to recover and nothing new, the pending observations are logged again. */
  lemma LogsAgain(m: Machine)
    requires Reaches(m) && m.pc.Top? && (m.session.resumeStep || m.session.core.local < m.config.maxSteps)
    requires m.session.core.ready == [] && m.session.core.replays == []
    ensures exists r ::
      && Reaches(r)
      && r.session.core.messages == m.session.core.messages + InputMessages(m.session.core.input)
                                    + ObservationMessages(m.session.core.observations)
  {
    Then(m, Go);
    Then(Next(m, Go), Prepare(0, false));
    hide Reaches, InputMessages, ObservationMessages;
    NothingToDeliver(if m.session.resumeStep then m.session.(resumeStep := false) else AllocateStep(m.session));
    hide DeliverReady;
  }

  lemma LateDrain()
    ensures Next(LATE_START, Probe(true, Some(DrainStop), false))
      == LATE_START.(pc := Parking(Suspension(InterruptedPark, Draining, false)),
                     session := LateStep(None).(core := LateStep(None).core.(code := Draining)))
  {
  }

  /** A drain before the dispatch keeps observations the log already has; the resumed step logs them again. */
  lemma DrainedInputsAreLoggedTwice()
    ensures exists m :: Reaches(m) && m.session.core.messages == [LATE_LOGGED, LATE_LOGGED]
  {
    LateRequest();
    LateDrain();
    Then(LATE_START, Probe(true, Some(DrainStop), false));
    var m := Next(LATE_START, Probe(true, Some(DrainStop), false));
    hide Next, Reaches;
    Resumes(m);
    LogsAgain(Resumed(m));
    assert [LATE_LOGGED] + InputMessages(None) + ObservationMessages([LATE_OUTPUT]) == [LATE_LOGGED, LATE_LOGGED];
  }

  /** A second report of the task checkpoints the step in the middle of its request; restored, it logs its input again. */
  lemma ReportedRequest()
    ensures var m := Next(Next(Next(Next(LATE_START, Report(LATE, Some(Committed))), Crash), Restore), Resume);
      && m.pc.Top? && m.session.resumeStep && m.config == LIMITS
      && m.session.core == LateStep(None).core
  {
    assert 9 in LateStep(None).core.delivered;
    var m1 := Next(LATE_START, Report(LATE, Some(Committed)));
    assert m1.durable == Some(Checkpoint(LateStep(None).core, None, 1)) && m1.pc.Requesting?;
    var m2 := Next(m1, Crash);
    assert m2.pc.Down? && m2.durable == m1.durable && m2.config == LIMITS;
  }

  lemma ReportMidStepLogsInputsTwice()
    ensures exists m :: Reaches(m) && m.session.core.messages == [LATE_LOGGED, LATE_LOGGED]
  {
    LateRequest();
    ReportedRequest();
    hide Next, Reaches;
    var m1 := Next(LATE_START, Report(LATE, Some(Committed)));
    Then(LATE_START, Report(LATE, Some(Committed)));
    Then(m1, Crash);
    Then(Next(m1, Crash), Restore);
    Then(Next(Next(m1, Crash), Restore), Resume);
    LogsAgain(Next(Next(Next(m1, Crash), Restore), Resume));
    assert [LATE_LOGGED] + InputMessages(None) + ObservationMessages([LATE_OUTPUT]) == [LATE_LOGGED, LATE_LOGGED];
  }

  const LATE_PAID := Settled(LATE_REQUEST, 1, RECEIPT, Answer(ANSWER))
  const LATE_READY := LATE_START.(pc := Ready(LATE_REQUEST, 1, map[]), journal := map[1 := Reserved(LATE_REQUEST, 1)],
                                  session := LateStep(Some(Invocation(1, Reserved(LATE_REQUEST, 1)))))
  const LATE_CALL := LATE_START.(pc := InFlight(LATE_REQUEST, 1, map[]), journal := map[1 := Started(LATE_REQUEST, 1)],
                                 session := LateStep(Some(Invocation(1, Started(LATE_REQUEST, 1)))), dispatched := [Dispatched(1, 1)])
  const LATE_ANSWERED := LATE_CALL.(pc := Answered(ANSWER, false), journal := map[1 := LATE_PAID],
                                    spends := [Spend(1, 1, RECEIPT)],
                                    session := Charge(LateStep(Some(Invocation(1, LATE_PAID))), 1))

  lemma LateReservation()
    ensures Next(LATE_START, Probe(true, None, false)) == LATE_READY
  {
  }

  lemma LateDispatch()
    ensures Next(LATE_READY, Dispatch) == LATE_CALL
  {
  }

  lemma LateAnswer()
    ensures Next(LATE_CALL, Settle(RECEIPT, Answer(ANSWER), true, false)) == LATE_ANSWERED
  {
    hide Account, Charge, WellFormed, Sum, TotalOf, AwaitEvidence, LoseDispatch;
    FirstCost();
    SettlesAs(LATE_CALL, ANSWER);
    ChargesOnce(LateStep(Some(Invocation(1, LATE_PAID))));
    assert LATE_CALL.journal[1 := LATE_PAID] == map[1 := LATE_PAID];
  }

  /** A user stop there keeps them for the replay; a park that is not committed forgets the replay. */
  lemma RefusedPark()
    ensures var m := Next(Next(Next(LATE_ANSWERED, Halt(UserStop)), Persist(Skipped)), Resume);
      m == LATE_ANSWERED.(pc := Top)
  {
    hide Charge;
    assert Charge(LateStep(Some(Invocation(1, LATE_PAID))), 1).core.messages == [LATE_LOGGED] by {
      ChargeFrame(LateStep(Some(Invocation(1, LATE_PAID))));
    }
    ChargeFrame(LateStep(Some(Invocation(1, LATE_PAID))));
  }

  lemma ChargeFrame(s: Session)
    ensures var s' := Charge(s, 1);
      && s' == s.(core := s'.core) && s'.core == s.core.(usage := s'.core.usage, bills := s'.core.bills)
  {
  }

  /** A refused park commit drops the recovery that the kept observations were for. */
  lemma RefusedParkLogsInputsTwice()
    ensures exists m :: Reaches(m) && m.session.core.messages == [LATE_LOGGED, LATE_LOGGED]
  {
    LateRequest();
    LateReservation();
    LateDispatch();
    LateAnswer();
    RefusedPark();
    hide Next, Reaches, Sum;
    Then(LATE_START, Probe(true, None, false));
    Then(LATE_READY, Dispatch);
    Then(LATE_CALL, Settle(RECEIPT, Answer(ANSWER), true, false));
    Then(LATE_ANSWERED, Halt(UserStop));
    Then(Next(LATE_ANSWERED, Halt(UserStop)), Persist(Skipped));
    Then(Next(Next(LATE_ANSWERED, Halt(UserStop)), Persist(Skipped)), Resume);
    LogsAgain(LATE_ANSWERED.(pc := Top));
    assert [LATE_LOGGED] + InputMessages(None) + ObservationMessages([LATE_OUTPUT]) == [LATE_LOGGED, LATE_LOGGED];
  }

  /** What the next step starts with: the ready outputs are delivered, in a new step or in the one taken up again. */
  function StepStart(s: Session): Session {
    DeliverReady(if s.resumeStep then s.(resumeStep := false) else AllocateStep(s))
  }

  /**
   The exact condition, wherever a resume has no recovery to take, be it from a park or from a checkpoint
   in the middle of a step: it logs nothing twice iff nothing that is pending then is in the log.
  */
  lemma ResumeLogsOnceIffUnsent(m: Machine)
    requires m.pc.Top? && (m.session.resumeStep || m.session.core.local < m.config.maxSteps)
    requires StepStart(m.session).core.replays == [] && CoreInputs(m.session.core)
    ensures LogDistinct(Next(Next(m, Go), Prepare(0, false)).session.core.messages)
      <==> Unsent(m.session.core.messages, StepStart(m.session).core.observations)
  {
    var core, observations := m.session.core, StepStart(m.session).core.observations;
    var messages := core.messages + InputMessages(core.input);
    var all := messages + ObservationMessages(observations);
    assert Next(Next(m, Go), Prepare(0, false)).session.core.messages == all by {
      hide InputMessages, ObservationMessages, TaskObservations, ApprovedTasks, TaskIds;
    }
    LogInput(core.messages, core.input, core.submits);
    hide Next, UsersOk, SourcesOk, StepStart;
    if Unsent(core.messages, observations) {
      LogObservations(messages, observations);
    } else {
      OverlapIsTwice(messages, observations);
    }
  }

  lemma OverlapIsTwice(messages: seq<Message>, observations: seq<Observation>)
    requires !Unsent(messages, observations)
    ensures !LogDistinct(messages + ObservationMessages(observations))
  {
    var all := messages + ObservationMessages(observations);
    if i, j :| 0 <= i < j < |observations| && observations[i].key == observations[j].key {
      assert all[|messages| + i] == ObservationMessage(observations[i]);
      assert all[|messages| + j] == ObservationMessage(observations[j]);
    } else {
      var key :| key in LoggedKeys(messages) && key in PendingKeys(observations);
      var i :| 0 <= i < |messages| && messages[i].ObservationMessage? && messages[i].observation.key == key;
      var j :| 0 <= j < |observations| && observations[j].key == key;
      assert all[i] == messages[i];
      assert all[|messages| + j] == ObservationMessage(observations[j]);
    }
  }

  /** The driving task is cancelled inside the call: it is charged, and no park remembers its observations. */
  lemma CancelledCall()
    ensures var m := Next(Next(LATE_CALL, Lose(TaskCancelled(RECEIPT))), Resume);
      && m.pc.Top? && m.config == LIMITS && !m.session.resumeStep && m.session.core.local == 1
      && m.session.core.ready == [] && m.session.core.replays == [] && m.session.core.input.None?
      && m.session.core.messages == [LATE_LOGGED] && m.session.core.observations == [LATE_OUTPUT]
  {
    FirstCost();
    var s := LateStep(Some(Invocation(1, Started(LATE_REQUEST, 1))));
    hide Account, Charge, Sum, WellFormed, SettleDispatch;
    ChargesOnce(s);
    ChargeFrame(s);
    var m1 := Next(LATE_CALL, Lose(TaskCancelled(RECEIPT)));
    assert m1.pc.Idle? && m1.session == Charge(s, 1);
  }

  lemma CancelledCallLogsInputsTwice()
    ensures exists m :: Reaches(m) && m.session.core.messages == [LATE_LOGGED, LATE_LOGGED]
  {
    LateRequest();
    LateReservation();
    LateDispatch();
    CancelledCall();
    hide Next, Reaches, Sum;
    Then(LATE_START, Probe(true, None, false));
    Then(LATE_READY, Dispatch);
    Then(LATE_CALL, Lose(TaskCancelled(RECEIPT)));
    Then(Next(LATE_CALL, Lose(TaskCancelled(RECEIPT))), Resume);
    LogsAgain(Next(Next(LATE_CALL, Lose(TaskCancelled(RECEIPT))), Resume));
    assert [LATE_LOGGED] + InputMessages(None) + ObservationMessages([LATE_OUTPUT]) == [LATE_LOGGED, LATE_LOGGED];
  }

  // ---------- A consumption that is not stored ----------

  const APPROVED := Task(9, true)

  function ApprovalQueued(): Core {
    InitialCore.(ready := [APPROVED])
  }

  function ApprovalTaken(): Core {
    InitialCore.(step := 1, local := 1, observations := [LATE_OUTPUT], delivered := {9}, replays := [9])
  }

  /** Resume, Go: the approval is delivered into a fresh step. */
  lemma ApprovalDelivered(m: Machine)
    requires m.pc.Idle? && m.config == LIMITS && m.session == Session(ApprovalQueued(), None, false, false, 1)
    ensures Next(Next(m, Resume), Go)
      == m.(pc := Replaying(Fresh(false)), session := Session(ApprovalTaken(), None, false, false, 1))
  {
    assert Next(m, Resume) == m.(pc := Top);
    assert TaskObservations([APPROVED]) == [LATE_OUTPUT];
    assert [APPROVED][1..] == [];
    assert ApprovedTasks([APPROVED]) == [9];
    assert [APPROVED][0].id in TaskIds([APPROVED]);
    assert TaskIds([APPROVED]) == {9};
    assert {} + {9} == {9};
  }

  /** Report with a checkpoint: the approved task is stored in the queue. */
  lemma ApprovalReported()
    ensures Next(Initial(LIMITS), Report(APPROVED, Some(Committed)))
      == Initial(LIMITS).(session := Session(ApprovalQueued(), None, false, false, 1),
                          durable := Some(Checkpoint(ApprovalQueued(), None, 1)))
  {
    assert TaskIds([]) == {};
    assert [] + [APPROVED] == [APPROVED];
  }

  /** The head runs under a checkpoint that was refused; after a crash it is still queued, and runs again. */
  lemma UnstoredConsumptionRunsTwice()
    ensures exists m :: Reaches(m) && m.started == [9, 9]
  {
    var m0 := Initial(LIMITS);
    Start();
    ApprovalReported();
    Then(m0, Report(APPROVED, Some(Committed)));
    var m1 := Next(m0, Report(APPROVED, Some(Committed)));
    ApprovalDelivered(m1);
    Then(m1, Resume);
    Then(Next(m1, Resume), Go);
    var m2 := Next(Next(m1, Resume), Go);
    Then(m2, Consume(Skipped));
    Then(Next(m2, Consume(Skipped)), Crash);
    Then(Next(Next(m2, Consume(Skipped)), Crash), Restore);
    var m3 := Next(Next(Next(m2, Consume(Skipped)), Crash), Restore);
    HeadStarts(m2, Skipped);
    assert m3.pc == Idle && m3.session == Session(ApprovalQueued(), None, false, false, 1) && m3.started == [9]
      && m3.config == LIMITS;
    hide Reaches, ApprovalTaken, Next;
    ApprovalDelivered(m3);
    Then(m3, Resume);
    Then(Next(m3, Resume), Go);
    var m4 := Next(Next(m3, Resume), Go);
    HeadStarts(m4, Committed);
    Then(m4, Consume(Committed));
    assert [9] + [9] == [9, 9];
  }

  lemma HeadStarts(m: Machine, commit: Commit)
    requires m.pc.Replaying? && m.session.core == ApprovalTaken() && !Raised(commit)
    ensures var m' := Next(m, Consume(commit));
      && m'.pc.Handling? && m'.started == m.started + [9] && m'.config == m.config
      && (commit.Skipped? ==> m'.durable == m.durable)
  {
  }

  // ---------- A paid answer behind another answer ----------

  const SECOND_REQUEST := Request([QUESTION, AssistantMessage(1, ANSWER)], 0)
  const SECOND_PAID := Settled(SECOND_REQUEST, 1, RECEIPT, Answer(ANSWER))

  predicate SettledIsStored(m: Machine) {
    && m.durable.Some? && m.durable.value.suspension == Some(Suspension(SettledPark, NoCode, false))
    && m.durable.value.core.status.Completed?
  }

  /** Proceed, Decide, Persist, Resume, Go, Prepare: a bare resume asks again with nothing new to say. */
  lemma SecondRequest()
    ensures exists m ::
      && Reaches(m) && m.pc == Requesting(SECOND_REQUEST, false) && m.config == LIMITS && 2 !in m.journal
      && !m.session.callsPending && !m.session.core.terminal
      && m.session.core.step == 2 && m.session.core.messages == [QUESTION, AssistantMessage(1, ANSWER)]
      && SettledIsStored(m)
  {
    hide Reaches, Sum, TotalOf, Next;
    var m0 := AnsweredWith(ANSWER);
    FirstAnswer(ANSWER);
    Then(m0, Proceed(false));
    Then(Next(m0, Proceed(false)), Decide(Passed));
    var m1 := Next(Next(m0, Proceed(false)), Decide(Passed));
    SettledAnswer();
    SettledResumes(m1);
    Resumes(m1);
    var m2 := Resumed(m1);
    AsksAgain(m2);
    Then(m2, Go);
    Then(Next(m2, Go), Prepare(0, false));
  }

  lemma SettledAnswer()
    ensures var m := Next(Next(AnsweredWith(ANSWER), Proceed(false)), Decide(Passed));
      && m.pc == Parking(Suspension(SettledPark, NoCode, false)) && m.config == LIMITS && m.journal == map[1 := PAID]
      && m.session == AnsweredWith(ANSWER).session.(core := m.session.core)
      && m.session.core == AnsweredWith(ANSWER).session.core.(messages := [QUESTION, AssistantMessage(1, ANSWER)])
  {
    hide Sum, TotalOf;
    assert [QUESTION] + [AssistantMessage(1, ANSWER)] == [QUESTION, AssistantMessage(1, ANSWER)];
    assert Next(AnsweredWith(ANSWER), Proceed(false)).pc == Deciding(ANSWER, false);
  }

  /** A settled park offers nothing to recover; its checkpoint is stored. */
  lemma SettledResumes(m: Machine)
    requires m.pc == Parking(Suspension(SettledPark, NoCode, false)) && m.config == LIMITS && m.journal == map[1 := PAID]
    requires m.session == AnsweredWith(ANSWER).session.(core := m.session.core)
    requires m.session.core == AnsweredWith(ANSWER).session.core.(messages := [QUESTION, AssistantMessage(1, ANSWER)])
    ensures var r, core := Resumed(m), m.session.core;
      && r.pc.Top? && r.config == LIMITS && r.journal == m.journal && r.session.core == core && SettledIsStored(r)
      && !r.session.resumeStep && !r.session.callsPending
      && core.local == 1 && core.step == 1 && core.ready == [] && core.replays == [] && core.observations == []
      && core.input.None? && !core.terminal
  {
    hide Sum, TotalOf;
  }

  lemma AsksAgain(m: Machine)
    requires m.pc.Top? && !m.session.resumeStep && m.session.core.local < m.config.maxSteps
    requires m.session.core.ready == [] && m.session.core.replays == [] && m.session.core.observations == []
    requires m.session.core.input.None?
    ensures var m' := Next(Next(m, Go), Prepare(0, false));
      m' == m.(pc := Requesting(Request(m.session.core.messages, 0), false), session := AllocateStep(m.session))
  {
    NothingToDeliver(AllocateStep(m.session));
    assert ObservationMessages([]) == [];
    assert m.session.core.messages + [] + [] == m.session.core.messages;
    hide DeliverReady;
  }

  /** Probe, Dispatch, Settle without evidence, Persist. */
  lemma EvidenceParks(m: Machine)
    requires m.pc == Requesting(SECOND_REQUEST, false) && m.config == LIMITS && 2 !in m.journal && m.session.core.step == 2
    ensures var m' := Next(Next(Next(m, Probe(true, None, false)), Dispatch), Settle(RECEIPT, Answer(ANSWER), false, false));
      && m'.pc == Parking(Suspension(TurnFailed, EvidenceUncommitted, false))
      && m'.session.core.messages == m.session.core.messages && m'.session.core.step == 2
      && m'.session.callsPending == m.session.callsPending && m'.session.core.terminal == m.session.core.terminal
      && m'.session.core.invocation == Some(Invocation(2, SECOND_PAID))
  {
    EntersProvider(m);
    hide Next;
    SettlesWithoutEvidence(Next(Next(m, Probe(true, None, false)), Dispatch));
  }

  lemma EntersProvider(m: Machine)
    requires m.pc == Requesting(SECOND_REQUEST, false) && m.config == LIMITS && 2 !in m.journal && m.session.core.step == 2
    ensures var m' := Next(Next(m, Probe(true, None, false)), Dispatch);
      && m'.pc == InFlight(SECOND_REQUEST, 1, map[]) && m'.config == LIMITS
      && m'.session == Observe(m.session, 2, Started(SECOND_REQUEST, 1))
  {
    var m1 := Next(m, Probe(true, None, false));
    assert m1.pc == Ready(SECOND_REQUEST, 1, map[]) && m1.session == Observe(m.session, 2, Reserved(SECOND_REQUEST, 1));
  }

  lemma SettlesWithoutEvidence(m: Machine)
    requires m.pc == InFlight(SECOND_REQUEST, 1, map[]) && m.config == LIMITS && m.session.core.step == 2
    ensures var m' := Next(m, Settle(RECEIPT, Answer(ANSWER), false, false));
      && m'.pc == Parking(Suspension(TurnFailed, EvidenceUncommitted, false))
      && m'.session == Charge(Observe(m.session, 2, SECOND_PAID), 2)
  {
    ChargesOnce(Observe(m.session, 2, SECOND_PAID));
    FirstCost();
    hide Account, Charge, Sum, WellFormed;
  }

  /** A settled and charged answer waits for evidence, is not in the log, and no recovery will offer it. */
  lemma AnswerBehindAnAnswerIsStranded()
    ensures exists m ::
      && Reaches(m) && m.pc.Idle? && !m.session.core.terminal
      && m.session.core.invocation == Some(Invocation(2, SECOND_PAID)) && m.session.core.step == 2
      && m.session.core.messages == [QUESTION, AssistantMessage(1, ANSWER)]
      && EvidenceRecovery(m.session).None?
  {
    SecondRequest();
    var m0 :|
      && Reaches(m0) && m0.pc == Requesting(SECOND_REQUEST, false) && m0.config == LIMITS && 2 !in m0.journal
      && !m0.session.callsPending && !m0.session.core.terminal
      && m0.session.core.step == 2 && m0.session.core.messages == [QUESTION, AssistantMessage(1, ANSWER)];
    hide Reaches, Next, Run, EvidenceRecovery;
    EvidenceParks(m0);
    Then(m0, Probe(true, None, false));
    Then(Next(m0, Probe(true, None, false)), Dispatch);
    var e := Settle(RECEIPT, Answer(ANSWER), false, false);
    Then(Next(Next(m0, Probe(true, None, false)), Dispatch), e);
    var m1 := Next(Next(Next(m0, Probe(true, None, false)), Dispatch), e);
    Then(m1, Persist(Committed));
    CommitsPark(m1);
    var s := Next(m1, Persist(Committed)).session;
    EndsInAnswer(s);
  }

  lemma EndsInAnswer(s: Session)
    requires s.core.messages == [QUESTION, AssistantMessage(1, ANSWER)] && !s.callsPending
    ensures EvidenceRecovery(s).None?
  {
  }

  lemma CommitsPark(m: Machine)
    requires m.pc.Parking?
    ensures Next(m, Persist(Committed)).pc == Idle
    ensures Next(m, Persist(Committed)).session == m.session.(suspension := Some(m.pc.suspension), seq_ := m.session.seq_ + 1)
  {
  }

  // ---------- A turn failure whose park is refused ----------

  /** Settle: a refusal that leaves the run alive parks it as a failed turn. */
  lemma RefusalParks(m: Machine)
    requires m.pc == InFlight(SECOND_REQUEST, 1, map[]) && m.config == LIMITS && m.session.core.step == 2
    ensures var m' := Next(m, Settle(RECEIPT, Refused(true, false), true, false));
      m'.pc == Parking(Suspension(TurnFailed, NoCode, false)) && m'.durable == m.durable
  {
    hide Account, Charge, Sum, WellFormed, AwaitEvidence;
    ChargesOnce(Observe(m.session, 2, Settled(SECOND_REQUEST, 1, RECEIPT, Refused(true, false))));
    FirstCost();
  }

  lemma EntersUnstored(m: Machine)
    requires m.pc == Requesting(SECOND_REQUEST, false) && m.config == LIMITS && 2 !in m.journal && m.session.core.step == 2
    ensures Next(Next(m, Probe(true, None, false)), Dispatch).durable == m.durable
  {
    EntersProvider(m);
    assert Next(m, Probe(true, None, false)).pc == Ready(SECOND_REQUEST, 1, map[]);
  }

  /** A settled run is resumed and its next turn fails. */
  lemma FailsAfterSettling()
    ensures exists m :: Reaches(m) && m.pc == Parking(Suspension(TurnFailed, NoCode, false)) && SettledIsStored(m)
  {
    SecondRequest();
    var m0 :|
      && Reaches(m0) && m0.pc == Requesting(SECOND_REQUEST, false) && m0.config == LIMITS && 2 !in m0.journal
      && !m0.session.callsPending && !m0.session.core.terminal
      && m0.session.core.step == 2 && m0.session.core.messages == [QUESTION, AssistantMessage(1, ANSWER)]
      && SettledIsStored(m0);
    hide Reaches, Next, Run;
    EntersProvider(m0);
    EntersUnstored(m0);
    var m1 := Next(m0, Probe(true, None, false));
    var m2 := Next(m1, Dispatch);
    RefusalParks(m2);
    Then(m0, Probe(true, None, false));
    Then(m1, Dispatch);
    Then(m2, Settle(RECEIPT, Refused(true, false), true, false));
  }

  /** That park is refused: in process the run closes as failed, after a crash and a restart as completed. */
  lemma RefusedFailureClosesAsCompleted()
    ensures exists events ::
      var rest := Parks.AtRest(Parks.FollowAll(Parks.Opened(LIMITS), events), Skipped, []);
      && rest.m.pc.Idle? && Parks.Closing(rest).status == Failed && Parks.Closing(Parks.Restarted(rest)).status == Completed
  {
    FailsAfterSettling();
    var m :| Reaches(m) && m.pc == Parking(Suspension(TurnFailed, NoCode, false)) && SettledIsStored(m);
    var events: seq<Event> :| Run(Initial(LIMITS), events) == m;
    hide Run, Next;
    Parks.Follows(LIMITS, events);
    hide Parks.FollowAll, Parks.AtRest, Parks.Restarted, Parks.Closing;
    Parks.UnstoredParkClosesCompletedIff(LIMITS, events, Skipped, []);
    Parks.ClosingSurvivesRestart(LIMITS, events, Skipped, []);
    FailedCloses(Parks.FollowAll(Parks.Opened(LIMITS), events));
  }

  lemma FailedCloses(engine: Parks.Engine)
    requires Parks.EngineOk(engine) && engine.m.pc == Parking(Suspension(TurnFailed, NoCode, false))
    ensures Parks.Closing(Parks.AtRest(engine, Skipped, [])).status == Failed
  {
    Parks.ReportsRest(engine, Skipped, []);
    hide Parks.AtRest, Parks.CodeValue;
  }
}
