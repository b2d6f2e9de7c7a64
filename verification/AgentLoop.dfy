/**
 The engine object itself: an activation whose methods update its fields in place, each proved against
 the run machine's operation on the session value it stands for.
*/
module AgentLoop {
  import opened Wrappers
  import opened Usage
  import opened RunModel
  import opened RunReplays

  /** What happens around one uncompleted call of a batch. */
  datatype CallAnswer =
    | HaltBefore(stop: Stop)
    | HaltInside(stop: Stop)
    | Ran(output: nat, finishes: bool)
    | HaltAfter(output: nat, finishes: bool, stop: Stop)

  datatype BatchEnd = Finished | LimitReached | Halted(stop: Stop) | Waiting

  /** `SettleDecision`. */
  datatype Decision = Accept | Terminal(status: Status, reason: Reason, code: Code) | Exhausted | Repair | DefectFound

  /** The store behind `_persist_checkpoint`. */
  class CheckpointStore {
    var stored: Option<Checkpoint>
    ghost var history: seq<Checkpoint>

    constructor ()
      ensures stored == None && history == []
    {
      stored, history := None, [];
    }

    /** The host's answer decides what is stored and what the engine is told. */
    method Put(checkpoint: Checkpoint, commit: Commit) returns (accepted: bool)
      modifies this
      ensures accepted <==> !Raised(commit)
      ensures commit.Committed? || commit.RaisedStored? ==> stored == Some(checkpoint) && history == old(history) + [checkpoint]
      ensures commit.Skipped? || commit.Declined? || commit.RaisedLost? ==> stored == old(stored) && history == old(history)
    {
      if commit.Committed? || commit.RaisedStored? {
        stored, history := Some(checkpoint), history + [checkpoint];
      }
      accepted := !Raised(commit);
    }
  }

  // ---------- Specifications of the loops ----------

  lemma {:induction false} ApprovedSnoc(tasks: seq<Task>, task: Task)
    ensures ApprovedTasks(tasks + [task]) == ApprovedTasks(tasks) + if task.approved then [task.id] else []
  {
    if tasks == [] {
      assert [] + [task] == [task];
      assert [task][1..] == [];
    } else {
      ApprovedSnoc(tasks[1..], task);
      assert (tasks + [task])[1..] == tasks[1..] + [task];
    }
  }

  function Counted(s: Session): Session {
    s.(core := s.core.(toolCalls := s.core.toolCalls + 1))
  }

  function SpendBudget(s: Session): Session {
    s.(core := s.core.(status := Limited, code := MaxToolCalls))
  }

  /** The tool loop from call `next` on. */
  function BatchResult(s: Session, turn: Turn, next: nat, done: set<nat>, maxToolCalls: nat, answers: seq<CallAnswer>)
    : (Session, BatchEnd)
    decreases |turn.calls| - next
  {
    if next >= |turn.calls| then (s, Finished)
    else if turn.calls[next].id in done then BatchResult(s, turn, next + 1, done, maxToolCalls, answers)
    else if answers == [] then (s, Waiting)
    else if answers[0].HaltBefore? then (s, Halted(answers[0].stop))
    else
      var counted := Counted(s);
      if counted.core.toolCalls > maxToolCalls then (SpendBudget(counted), LimitReached)
      else match answers[0]
        case HaltInside(stop) => (counted, Halted(stop))
        case HaltAfter(output, finishes, stop) => (CompleteCall(counted, turn.calls[next], output, finishes), Halted(stop))
        case Ran(output, finishes) =>
          BatchResult(CompleteCall(counted, turn.calls[next], output, finishes), turn, next + 1, done, maxToolCalls,
                      answers[1..])
        case HaltBefore(stop) => (counted, Halted(stop))
  }

  /** The events with which the run machine takes one uncompleted call. */
  ghost function TakeCall(m: Machine, answer: CallAnswer): Machine {
    match answer
    case HaltBefore(stop) => Next(m, Halt(stop))
    case HaltInside(stop) =>
      var m' := Next(m, Go);
      if m'.pc.Calling? then Next(m', Halt(stop)) else m'
    case Ran(output, finishes) =>
      var m' := Next(m, Go);
      if m'.pc.Calling? then Next(Next(m', Complete(output, finishes)), Go) else m'
    case HaltAfter(output, finishes, stop) =>
      var m' := Next(m, Go);
      if m'.pc.Calling? then Next(Next(m', Complete(output, finishes)), Halt(stop)) else m'
  }

  /** The run machine's own path through a batch, call by call. */
  ghost function BatchSteps(m: Machine, turn: Turn, next: nat, done: set<nat>, answers: seq<CallAnswer>): Machine
    decreases |turn.calls| - next
  {
    if next >= |turn.calls| then Next(m, Go)
    else if turn.calls[next].id in done then BatchSteps(Next(m, Go), turn, next + 1, done, answers)
    else if answers == [] then m
    else if answers[0].Ran? && TakeCall(m, answers[0]).pc.Batch? then
      BatchSteps(TakeCall(m, answers[0]), turn, next + 1, done, answers[1..])
    else TakeCall(m, answers[0])
  }

  /** How the machine leaves a batch that ended this way. */
  ghost function LeaveBatch(m: Machine, turn: Turn, s: Session, end: BatchEnd): Machine {
    match end
    case Finished => EndBatch(m, s, turn)
    case LimitReached => EndBatch(m, s, turn)
    case Halted(stop) => HaltRun(m, s, stop)
    case Waiting => m
  }

  /** The machine at call `next` of a batch. */
  function AtCall(m: Machine, s: Session, turn: Turn, next: nat, done: set<nat>): Machine {
    m.(pc := Batch(turn, next, done), session := s)
  }

  /** Parks and batch ends do not depend on the batch position or session they start from. */
  lemma LeavingForgets(m: Machine, turn: Turn, s: Session, end: BatchEnd, s0: Session, next: nat, done: set<nat>)
    requires !end.Waiting?
    ensures LeaveBatch(AtCall(m, s0, turn, next, done), turn, s, end) == LeaveBatch(m, turn, s, end)
  {
    hide Unapplied;
  }

  /** The machine's first event of a call: count it, and start it unless the budget is spent. */
  lemma CallStarts(m: Machine, s: Session, turn: Turn, next: nat, done: set<nat>)
    requires next < |turn.calls| && turn.calls[next].id !in done
    ensures var at := AtCall(m, s, turn, next, done);
      Next(at, Go) == if Counted(s).core.toolCalls > m.config.maxToolCalls then EndBatch(at, SpendBudget(Counted(s)), turn)
                      else at.(pc := Calling(turn, next, done), session := Counted(s))
  {
    hide EndBatch;
  }

  lemma CallReturns(m: Machine, s: Session, turn: Turn, next: nat, done: set<nat>, output: nat, finishes: bool)
    requires m.pc == Calling(turn, next, done) && next < |turn.calls|
    ensures var s' := CompleteCall(m.session, turn.calls[next], output, finishes);
      && Next(m, Complete(output, finishes)) == m.(pc := Returned(turn, next, done), session := s')
      && Next(m.(pc := Returned(turn, next, done), session := s'), Go)
           == m.(pc := Batch(turn, next + 1, done), session := s')
  {
    hide CompleteCall;
  }

  lemma HaltsAtCall(m: Machine, s: Session, stop: Stop, pc: Pc)
    requires pc.Batch? || pc.Calling? || pc.Returned?
    requires pc.Batch? ==> pc.next < |pc.turn.calls| && pc.turn.calls[pc.next].id !in pc.done
    ensures Next(m.(pc := pc, session := s), Halt(stop)) == HaltRun(m, s, stop)
  {
    hide Unapplied;
  }

  lemma TakeOneCall(m: Machine, s: Session, turn: Turn, next: nat, done: set<nat>, answer: CallAnswer)
    requires next < |turn.calls| && turn.calls[next].id !in done
    ensures var at := AtCall(m, s, turn, next, done);
      var m' := TakeCall(at, answer);
      if answer.HaltBefore? then m' == HaltRun(m, s, answer.stop)
      else if Counted(s).core.toolCalls > m.config.maxToolCalls then m' == EndBatch(at, SpendBudget(Counted(s)), turn)
      else if answer.HaltInside? then m' == HaltRun(m, Counted(s), answer.stop)
      else
        var s' := CompleteCall(Counted(s), turn.calls[next], answer.output, answer.finishes);
        if answer.HaltAfter? then m' == HaltRun(m, s', answer.stop) else m' == AtCall(m, s', turn, next + 1, done)
  {
    var at := AtCall(m, s, turn, next, done);
    CallStarts(m, s, turn, next, done);
    EndsOutside(at, SpendBudget(Counted(s)), turn);
    hide Next, HaltRun, EndBatch, CompleteCall;
    var calling := at.(pc := Calling(turn, next, done), session := Counted(s));
    match answer
    case HaltBefore(stop) => HaltsAtCall(m, s, stop, at.pc);
    case HaltInside(stop) => HaltsAtCall(m, Counted(s), stop, calling.pc);
    case Ran(output, finishes) => CallReturns(calling, s, turn, next, done, output, finishes);
    case HaltAfter(output, finishes, stop) =>
      CallReturns(calling, s, turn, next, done, output, finishes);
      HaltsAtCall(m, CompleteCall(Counted(s), turn.calls[next], output, finishes), stop, Returned(turn, next, done));
  }

  lemma EndsOutside(m: Machine, s: Session, turn: Turn)
    ensures !EndBatch(m, s, turn).pc.Batch? && !EndBatch(m, s, turn).pc.Calling?
  {
  }

  /** The tool loop refines the run machine: one pass of it is the machine's steps from the same point. */
  lemma {:induction false} BatchRefines(m: Machine, s: Session, turn: Turn, next: nat, done: set<nat>,
                                        answers: seq<CallAnswer>)
    ensures var (s', end) := BatchResult(s, turn, next, done, m.config.maxToolCalls, answers);
      var m' := BatchSteps(AtCall(m, s, turn, next, done), turn, next, done, answers);
      if end.Waiting? then m'.pc.Batch? && m'.session == s' else m' == LeaveBatch(m, turn, s', end)
    decreases |turn.calls| - next
  {
    var at := AtCall(m, s, turn, next, done);
    var (s', end) := BatchResult(s, turn, next, done, m.config.maxToolCalls, answers);
    if !end.Waiting? {
      LeavingForgets(m, turn, s', end, s, next, done);
    }
    if next >= |turn.calls| {
    } else if turn.calls[next].id in done {
      BatchRefines(m, s, turn, next + 1, done, answers);
      assert Next(at, Go) == AtCall(m, s, turn, next + 1, done);
    } else if answers != [] {
      hide Next, HaltRun, EndBatch, CompleteCall, TakeCall, LeaveBatch;
      OneCallRefines(m, s, turn, next, done, answers);
    }
  }

  lemma OneCallRefines(m: Machine, s: Session, turn: Turn, next: nat, done: set<nat>, answers: seq<CallAnswer>)
    requires next < |turn.calls| && turn.calls[next].id !in done && answers != []
    ensures var (s', end) := BatchResult(s, turn, next, done, m.config.maxToolCalls, answers);
      var m' := BatchSteps(AtCall(m, s, turn, next, done), turn, next, done, answers);
      if end.Waiting? then m'.pc.Batch? && m'.session == s' else m' == LeaveBatch(m, turn, s', end)
    decreases |turn.calls| - next, 0
  {
    var at := AtCall(m, s, turn, next, done);
    TakeOneCall(m, s, turn, next, done, answers[0]);
    EndsOutside(at, SpendBudget(Counted(s)), turn);
    LeavingForgets(m, turn, SpendBudget(Counted(s)), LimitReached, s, next, done);
    hide Next, HaltRun, EndBatch, CompleteCall, TakeCall;
    if answers[0].Ran? && Counted(s).core.toolCalls <= m.config.maxToolCalls {
      BatchRefines(m, CompleteCall(Counted(s), turn.calls[next], answers[0].output, answers[0].finishes), turn, next + 1,
                   done, answers[1..]);
    }
  }

  // ---------- The activation ----------

  /** `decide`: refusals and truncations first, then the validators' verdict against the retry budget. */
  function Decide(turn: Turn, verdict: Verdict, retries: nat, maxRetries: nat): Decision {
    if turn.stop.Refusal? then Terminal(Failed, SettledPark, OutputRefused)
    else if turn.stop.Length? then Terminal(Limited, LimitedPark, OutputTruncated)
    else match verdict
      case Passed => Accept
      case Defect => DefectFound
      case Rejected => if retries >= maxRetries then Exhausted else Repair
  }

  /** The fields a decision writes before anything is logged. */
  function Marked(s: Session, decision: Decision, fromFinish: bool): Session {
    match decision
    case Accept => s
    case DefectFound => s
    case Terminal(status, _, code) => WithOutcome(s, status, code)
    case Exhausted => DropFinish(WithOutcome(RecordFailure(s), Limited, ValidatorUnsatisfied), fromFinish)
    case Repair =>
      var recorded := RecordFailure(s);
      DropFinish(recorded.(core := recorded.core.(retries := recorded.core.retries + 1)), fromFinish)
  }

  function Repaired(s: Session): Session {
    var cleared := ClearObservations(s);
    cleared.(core := cleared.core.(messages := cleared.core.messages + [RepairMessage]))
  }

  function AppliedDecision(s: Session, decision: Decision, fromFinish: bool): Session {
    var logged := LogFinish(Marked(s, decision, fromFinish), fromFinish);
    if decision.Repair? then Repaired(logged) else logged
  }

  function SettledAs(decision: Decision): Option<Suspension> {
    match decision
    case Repair => None
    case DefectFound => None
    case Accept => Some(Suspension(SettledPark, NoCode, false))
    case Terminal(_, reason, code) => Some(Suspension(reason, code, false))
    case Exhausted => Some(Suspension(LimitedPark, ValidatorUnsatisfied, false))
  }

  function Delivered(s: Session, task: Task): Session {
    s.(core := s.core.(
      observations := s.core.observations + [Observation(TaskOutput(task.id), 0, 0)],
      replays := s.core.replays + if task.approved then [task.id] else [],
      delivered := s.core.delivered + {task.id}))
  }

  /** The session once the first `count` jobs of the queue are delivered. */
  function DeliverUpTo(s: Session, count: nat): Session
    requires count <= |s.core.ready|
  {
    s.(core := s.core.(
      observations := s.core.observations + TaskObservations(s.core.ready[..count]),
      replays := s.core.replays + ApprovedTasks(s.core.ready[..count]),
      delivered := s.core.delivered + TaskIds(s.core.ready[..count])))
  }

  lemma DeliverNone(s: Session)
    ensures DeliverUpTo(s, 0) == s
  {
    assert s.core.delivered + {} == s.core.delivered;
    assert TaskIds([]) == {};
    assert TaskObservations([]) == [];
    assert s.core.ready[..0] == [];
  }

  lemma DeliverOneMore(s: Session, count: nat)
    requires count < |s.core.ready|
    ensures DeliverUpTo(s, count + 1) == Delivered(DeliverUpTo(s, count), s.core.ready[count])
  {
    var first, task := s.core.ready[..count], s.core.ready[count];
    assert s.core.ready[..count + 1] == first + [task];
    ApprovedSnoc(first, task);
    IdsSnoc(first, task);
    assert TaskObservations(first + [task]) == TaskObservations(first) + [Observation(TaskOutput(task.id), 0, 0)];
    hide TaskIds, ApprovedTasks, TaskObservations;
  }

  lemma DeliverAll(s: Session)
    ensures DeliverUpTo(s, |s.core.ready|).(core := DeliverUpTo(s, |s.core.ready|).core.(ready := [])) == DeliverReady(s)
  {
    assert s.core.ready[..|s.core.ready|] == s.core.ready;
    hide TaskIds, ApprovedTasks, TaskObservations;
  }

  lemma NoObservationMessages()
    ensures forall observations: seq<Observation> :: ObservationMessages(observations[..0]) == []
  {
  }

  lemma OneMoreMessage(observations: seq<Observation>, i: nat)
    requires i < |observations|
    ensures ObservationMessages(observations[..i + 1]) == ObservationMessages(observations[..i]) + [ObservationMessage(observations[i])]
  {
  }

  class Activation {
    const config: Config
    // RunState
    var sessionStep: nat
    var submitLocalStep: nat
    var messages: seq<Message>
    var pendingUserInput: Option<Input>
    var pendingObservations: seq<Observation>
    var pendingReplays: seq<nat>
    var reentryQueue: seq<Task>
    var deliveredJobs: set<nat>
    var totalUsage: Usage
    var totalToolCalls: nat
    var lastInvocation: Option<Invocation>
    var outputRetries: nat
    var failureHistory: seq<nat>
    var pendingFinish: bool
    var terminal: bool
    var status: Status
    var errorCode: Code
    var submits: nat
    var bills: seq<Bill>
    // _Session
    var lastSuspension: Option<Suspension>
    var modelToolCallsPending: bool
    var resumeCheckpointedStep: bool
    var checkpointSeq: nat

    function View(): Session
      reads this
    {
      Session(
        Core(sessionStep, submitLocalStep, messages, pendingUserInput, pendingObservations, pendingReplays, reentryQueue,
             deliveredJobs, totalUsage, totalToolCalls, lastInvocation, outputRetries, failureHistory, pendingFinish,
             terminal, status, errorCode, submits, bills),
        lastSuspension, modelToolCallsPending, resumeCheckpointedStep, checkpointSeq)
    }

    /** The machine that holds this activation and a store's checkpoint. */
    function AsMachine(durable: Option<Checkpoint>): Machine
      reads this
    {
      Machine(config, Idle, View(), map[], durable, [], [], [])
    }

    /** `_rehydrate`, or a fresh open. */
    constructor (config: Config, durable: Option<Checkpoint>)
      ensures this.config == config && View() == Rehydrate(durable)
    {
      this.config := config;
      var s := Rehydrate(durable);
      var core := s.core;
      sessionStep, submitLocalStep, messages, pendingUserInput := core.step, core.local, core.messages, core.input;
      pendingObservations, pendingReplays, reentryQueue, deliveredJobs := core.observations, core.replays, core.ready, core.delivered;
      totalUsage, totalToolCalls, lastInvocation := core.usage, core.toolCalls, core.invocation;
      outputRetries, failureHistory, pendingFinish := core.retries, core.failures, core.finish;
      terminal, status, errorCode, submits, bills := core.terminal, core.status, core.code, core.submits, core.bills;
      lastSuspension, modelToolCallsPending := s.suspension, s.callsPending;
      resumeCheckpointedStep, checkpointSeq := s.resumeStep, s.seq_;
    }

    /** A step coordinate is allocated once, for the session and for the submit. */
    method AllocateStep() returns (step: nat)
      modifies this
      ensures View() == RunModel.AllocateStep(old(View())) && step == sessionStep
    {
      submitLocalStep := submitLocalStep + 1;
      sessionStep := sessionStep + 1;
      step := sessionStep;
    }

    /** `pop_reentry_observations`: drain the queue, marking each job delivered. */
    method PopReentry()
      modifies this
      ensures View() == DeliverReady(old(View()))
    {
      ghost var before := View();
      var i := 0;
      DeliverNone(before);
      while i < |reentryQueue|
        invariant 0 <= i <= |reentryQueue| && reentryQueue == before.core.ready
        invariant View() == DeliverUpTo(before, i)
      {
        DeliverOneMore(before, i);
        DeliverJob(reentryQueue[i]);
        i := i + 1;
      }
      DeliverAll(before);
      reentryQueue := [];
    }

    /** One finished job: its observation, its approval if it carries one, its mark. */
    method DeliverJob(task: Task)
      modifies this
      ensures View() == Delivered(old(View()), task)
    {
      pendingObservations := pendingObservations + [Observation(TaskOutput(task.id), 0, 0)];
      if task.approved {
        pendingReplays := pendingReplays + [task.id];
      } else {
        assert pendingReplays + [] == pendingReplays;
      }
      deliveredJobs := deliveredJobs + {task.id};
    }

    /** The user message and the observations enter the log; the observations stay pending. */
    method AppendInputs()
      modifies this
      ensures View() == AppendObservations(AppendInput(old(View())))
    {
      hide ObservationMessages;
      ghost var before := View();
      NoObservationMessages();
      if pendingUserInput.Some? {
        messages := messages + [UserMessage(pendingUserInput.value.number, pendingUserInput.value.text)];
        pendingUserInput := None;
      }
      assert View() == AppendInput(before);
      var i := 0;
      while i < |pendingObservations|
        invariant 0 <= i <= |pendingObservations| && pendingObservations == before.core.observations
        invariant View() == AppendInput(before).(core := AppendInput(before).core.(
          messages := AppendInput(before).core.messages + ObservationMessages(before.core.observations[..i])))
      {
        OneMoreMessage(before.core.observations, i);
        messages := messages + [ObservationMessage(pendingObservations[i])];
        i := i + 1;
      }
      assert before.core.observations[..i] == before.core.observations;
    }

    /** `_account_model_usage`: fold the unbilled remainder of a receipt into the totals, key by key. */
    method AccountModelUsage(step: nat, receipt: Usage, accounted: Usage) returns (r: Result<Usage, UsageError>)
      modifies this
      ensures r.Success? <==> Covers(receipt, accounted)
      ensures r.Success? ==> r.value == DeltaOf(receipt, accounted)
      ensures r.Success? ==> Some(View()) == Account(old(View()), step, receipt, accounted)
      ensures r.Failure? ==> View() == old(View())
    {
      ghost var before := View();
      r := UsageDelta(receipt, accounted);
      if r.Failure? || r.value == map[] {
        return;
      }
      Accumulate(r.value);
      bills := bills + [Bill(step, r.value)];
      hide Covers, DeltaOf, Sum;
    }

    /** `_accumulate_usage_mapping`: the one summation rule, key by key. */
    method Accumulate(billed: Usage)
      modifies this`totalUsage
      ensures totalUsage == Sum(old(totalUsage), billed)
    {
      ghost var before := totalUsage;
      var pending := billed.Keys;
      while pending != {}
        invariant pending <= billed.Keys
        invariant totalUsage.Keys == before.Keys + (billed.Keys - pending)
        invariant forall key :: key in totalUsage ==>
          totalUsage[key] == Get(before, key) + if key in billed.Keys - pending then billed[key] else 0
        decreases pending
      {
        var key :| key in pending;
        totalUsage := totalUsage[key := Get(totalUsage, key) + billed[key]];
        pending := pending - {key};
      }
    }

    /** `_project_successful_model_turn`. */
    method ProjectTurn(turn: Turn)
      modifies this
      ensures View() == RunModel.ProjectTurn(old(View()), turn)
    {
      messages := messages + [AssistantMessage(sessionStep, turn)];
    }

    /** The call identifiers that already have an output. */
    method CompletedCallIds() returns (done: set<nat>)
      ensures done == CompletedCalls(pendingObservations)
    {
      done := {};
      var i := 0;
      while i < |pendingObservations|
        invariant 0 <= i <= |pendingObservations|
        invariant done == CompletedCalls(pendingObservations[..i])
      {
        CompletedSnoc(pendingObservations[..i], pendingObservations[i]);
        assert pendingObservations[..i + 1] == pendingObservations[..i] + [pendingObservations[i]];
        if pendingObservations[i].key.CallOutput? {
          done := done + {pendingObservations[i].key.call};
        }
        i := i + 1;
      }
      assert pendingObservations[..i] == pendingObservations;
    }

    /** The call is counted; past the budget the run is limited. */
    method CountCall() returns (within: bool)
      modifies this
      ensures within <==> Counted(old(View())).core.toolCalls <= config.maxToolCalls
      ensures View() == if within then Counted(old(View())) else SpendBudget(Counted(old(View())))
    {
      totalToolCalls := totalToolCalls + 1;
      within := totalToolCalls <= config.maxToolCalls;
      if !within {
        status, errorCode := Limited, MaxToolCalls;
      }
    }

    /** The call's output is journaled as soon as it returns. */
    method JournalCall(call: Call, output: nat, finishes: bool)
      modifies this
      ensures View() == CompleteCall(old(View()), call, output, finishes)
    {
      pendingObservations := pendingObservations + [Observation(CallOutput(sessionStep, call.id), call.name, output)];
      pendingFinish := pendingFinish || finishes;
    }

    /** One uncompleted call: boundary, budget, handler, journal entry, boundary. None lets the loop go on. */
    method RunCall(call: Call, answer: CallAnswer) returns (end: Option<BatchEnd>)
      modifies this
      ensures (View(), end) ==
        var s := old(View());
        if answer.HaltBefore? then (s, Some(Halted(answer.stop)))
        else if Counted(s).core.toolCalls > config.maxToolCalls then (SpendBudget(Counted(s)), Some(LimitReached))
        else if answer.HaltInside? then (Counted(s), Some(Halted(answer.stop)))
        else (CompleteCall(Counted(s), call, answer.output, answer.finishes),
              if answer.HaltAfter? then Some(Halted(answer.stop)) else None)
    {
      hide View;
      if answer.HaltBefore? {
        return Some(Halted(answer.stop));
      }
      var within := CountCall();
      if !within {
        return Some(LimitReached);
      }
      if answer.HaltInside? {
        return Some(Halted(answer.stop));
      }
      JournalCall(call, answer.output, answer.finishes);
      end := if answer.HaltAfter? then Some(Halted(answer.stop)) else None;
    }

    /** The tool loop: each uncompleted call is counted, run and journaled before the next one. */
    method RunToolBatch(turn: Turn, answers: seq<CallAnswer>) returns (end: BatchEnd)
      modifies this
      ensures (View(), end)
        == BatchResult(old(View()), turn, 0, CompletedCalls(old(pendingObservations)), config.maxToolCalls, answers)
    {
      hide CompletedCalls, CompleteCall, Counted, SpendBudget;
      ghost var before := View();
      var done := CompletedCallIds();
      var next, rest := 0, answers;
      while next < |turn.calls|
        invariant 0 <= next <= |turn.calls|
        invariant BatchResult(before, turn, 0, done, config.maxToolCalls, answers)
               == BatchResult(View(), turn, next, done, config.maxToolCalls, rest)
      {
        if turn.calls[next].id !in done {
          if rest == [] {
            return Waiting;
          }
          var stopped := RunCall(turn.calls[next], rest[0]);
          if stopped.Some? {
            return stopped.value;
          }
          rest := rest[1..];
        }
        next := next + 1;
      }
      return Finished;
    }

    /** `_persist_checkpoint`: observe, snapshot, commit; the observation stands only if nothing was raised or refused. */
    method PersistCheckpoint(store: CheckpointStore, suspension: Option<Suspension>, commit: Commit) returns (raised: bool)
      modifies this, store
      ensures var m := PersistAs(old(AsMachine(store.stored)), suspension, commit);
        View() == m.session && store.stored == m.durable
      ensures raised <==> Raised(commit)
      ensures store.history == old(store.history) + if commit.Committed? || commit.RaisedStored? then [store.stored.value] else []
    {
      var prior := lastSuspension;
      if suspension.Some? {
        lastSuspension := suspension;
      }
      if commit.Skipped? {
        lastSuspension := prior;
        return false;
      }
      checkpointSeq := checkpointSeq + 1;
      var checkpoint := Checkpoint(View().core, lastSuspension, checkpointSeq);
      var accepted := store.Put(checkpoint, commit);
      if !accepted {
        lastSuspension := prior;
      }
      raised := !accepted;
    }

    /** The head leaves the queue, and that consumption is checkpointed. */
    method TakeHead(store: CheckpointStore, commit: Commit) returns (head: nat, raised: bool)
      requires pendingReplays != []
      modifies this, store
      ensures head == old(pendingReplays)[0] && (raised <==> Raised(commit))
      ensures var m := ConsumeHead(old(AsReplaying(store.stored)), Fresh(false), commit);
        View() == m.session && store.stored == m.durable
      ensures store.history == old(store.history) + if commit.Committed? || commit.RaisedStored? then [store.stored.value] else []
    {
      hide PersistAs;
      ghost var m := AsReplaying(store.stored);
      head := pendingReplays[0];
      pendingReplays := pendingReplays[1..];
      PersistIgnoresPc(m.(session := View()), AsMachine(store.stored), commit);
      raised := PersistCheckpoint(store, None, commit);
    }

    /** One head: unless taking it raises, its handler runs and its output joins the pending ones. */
    method RunHead(store: CheckpointStore, step: HeadStep) returns (raised: bool)
      requires pendingReplays != []
      modifies this, store
      ensures var m := AfterHead(old(AsReplaying(store.stored)), step);
        View() == m.session && store.stored == m.durable && (raised <==> m.pc.Idle?)
      ensures store.history == old(store.history) + StoredAt(old(AsReplaying(store.stored)), step)
    {
      ghost var m := AsReplaying(store.stored);
      TakenFrame(m, step);
      hide PersistAs, ConsumeHead;
      var head;
      head, raised := TakeHead(store, step.commit);
      if !raised && step.output.Some? {
        pendingObservations := pendingObservations + [Observation(ReplayOutput(head), 0, step.output.value)];
      }
    }

    /** The machine at the head of the replay loop. */
    function AsReplaying(durable: Option<Checkpoint>): Machine
      reads this
    {
      AsMachine(durable).(pc := Replaying(Fresh(false)))
    }

    /**
     The approval-replay loop, however each consumption checkpoint goes: session, store and outcome are those
     of the machine's replay loop, and so is every checkpoint stored on the way.
    */
    method ReplayApprovals(store: CheckpointStore, steps: seq<HeadStep>) returns (raised: bool)
      requires |steps| == |pendingReplays|
      modifies this, store
      ensures var m := ReplayedBy(old(AsReplaying(store.stored)), steps);
        View() == m.session && store.stored == m.durable && (raised <==> m.pc.Idle?)
      ensures store.history == old(store.history) + StoredBy(old(AsReplaying(store.stored)), steps)
    {
      hide AfterHead, StoredAt;
      ghost var before, earlier := AsReplaying(store.stored), store.history;
      var i := 0;
      assert steps[0..] == steps;
      assert earlier + StoredBy(before, steps) == store.history + StoredBy(before, steps);
      while pendingReplays != []
        invariant 0 <= i <= |steps| && |pendingReplays| == |steps| - i
        invariant ReplayedBy(before, steps) == ReplayedBy(AsReplaying(store.stored), steps[i..])
        invariant earlier + StoredBy(before, steps) == store.history + StoredBy(AsReplaying(store.stored), steps[i..])
        decreases |pendingReplays|
      {
        ghost var m, saved := AsReplaying(store.stored), store.history;
        ReplayStep(m, steps[i..]);
        assert steps[i..][1..] == steps[i + 1..];
        AfterHeadFrame(m, steps[i]);
        raised := RunHead(store, steps[i]);
        if raised {
          assert store.history + [] == store.history;
          return true;
        }
        i := i + 1;
        assert AsReplaying(store.stored) == AfterHead(m, steps[i - 1]);
        assert saved + (StoredAt(m, steps[i - 1]) + StoredBy(AfterHead(m, steps[i - 1]), steps[i..]))
          == saved + StoredAt(m, steps[i - 1]) + StoredBy(AfterHead(m, steps[i - 1]), steps[i..]);
      }
      assert store.history + [] == store.history;
      return false;
    }

    /** `_log_finish_observations`. */
    method LogFinishObservations()
      modifies this
      ensures View() == ClearObservations(AppendObservations(old(View())))
    {
      hide ObservationMessages;
      ghost var before := View();
      NoObservationMessages();
      var i := 0;
      while i < |pendingObservations|
        invariant 0 <= i <= |pendingObservations| && pendingObservations == before.core.observations
        invariant View() == before.(core := before.core.(
          messages := before.core.messages + ObservationMessages(before.core.observations[..i])))
      {
        OneMoreMessage(before.core.observations, i);
        messages := messages + [ObservationMessage(pendingObservations[i])];
        i := i + 1;
      }
      assert before.core.observations[..i] == before.core.observations;
      pendingObservations := [];
    }

    /** `apply`: None queues a repair; a suspension settles the turn. */
    method ApplySettle(decision: Decision, fromFinish: bool) returns (settled: Option<Suspension>)
      requires !decision.DefectFound?
      modifies this
      ensures View() == AppliedDecision(old(View()), decision, fromFinish)
      ensures settled == SettledAs(decision)
    {
      hide LogFinish, Marked, Repaired, SettledAs;
      Mark(decision, fromFinish);
      if fromFinish {
        LogFinishObservations();
      }
      LogFinishOnlyThen(Marked(old(View()), decision, fromFinish), fromFinish);
      if decision.Repair? {
        QueueRepair();
      }
      settled := SettledAs(decision);
    }

    method RecordRejection()
      modifies this`failureHistory
      ensures View() == RecordFailure(old(View()))
    {
      failureHistory := failureHistory + [|failureHistory| + 1];
    }

    method SetOutcome(newStatus: Status, code: Code)
      modifies this`status, this`errorCode
      ensures View() == WithOutcome(old(View()), newStatus, code)
    {
      status, errorCode := newStatus, code;
    }

    method ClearFinish(fromFinish: bool)
      modifies this`pendingFinish
      ensures View() == DropFinish(old(View()), fromFinish)
    {
      if fromFinish {
        pendingFinish := false;
      }
    }

    method CountRetry()
      modifies this`outputRetries
      ensures View() == old(View()).(core := old(View()).core.(retries := old(View()).core.retries + 1))
    {
      outputRetries := outputRetries + 1;
    }

    /** The fields the decision writes. */
    method Mark(decision: Decision, fromFinish: bool)
      modifies this
      ensures View() == Marked(old(View()), decision, fromFinish)
    {
      hide RecordFailure, WithOutcome, DropFinish, View;
      match decision {
        case Terminal(newStatus, _, code) => SetOutcome(newStatus, code);
        case Exhausted =>
          RecordRejection();
          SetOutcome(Limited, ValidatorUnsatisfied);
          ClearFinish(fromFinish);
        case Repair =>
          RecordRejection();
          CountRetry();
          ClearFinish(fromFinish);
        case Accept =>
        case DefectFound =>
      }
    }

    /** The repair message replaces whatever was pending. */
    method QueueRepair()
      modifies this
      ensures View() == Repaired(old(View()))
    {
      pendingObservations := [];
      messages := messages + [RepairMessage];
    }
  }

  // ---------- The replay loop on the machine ----------

  /** What happens around one approved head: its consumption checkpoint, and what its handler gives. */
  datatype HeadStep = HeadStep(commit: Commit, output: Option<nat>)

  function AfterHead(m: Machine, step: HeadStep): Machine
    requires m.pc.Replaying? && m.session.core.replays != []
  {
    var taken := ConsumeHead(m, m.pc.mode, step.commit);
    if taken.pc.Handling? then FromHandling(taken, Handled(step.output)).(started := m.started) else taken
  }

  function StoredAt(m: Machine, step: HeadStep): seq<Checkpoint>
    requires m.pc.Replaying? && m.session.core.replays != []
  {
    var taken := ConsumeHead(m, m.pc.mode, step.commit);
    if (step.commit.Committed? || step.commit.RaisedStored?) && taken.durable.Some? then [taken.durable.value] else []
  }

  /** The loop, which a raised checkpoint ends. */
  function ReplayedBy(m: Machine, steps: seq<HeadStep>): Machine
    requires m.pc.Replaying?
    decreases |steps|
  {
    if steps == [] || m.session.core.replays == [] then m
    else
      var next := AfterHead(m, steps[0]);
      if next.pc.Replaying? then ReplayedBy(next, steps[1..]) else next
  }

  /** The checkpoints stored on the way. */
  function StoredBy(m: Machine, steps: seq<HeadStep>): seq<Checkpoint>
    requires m.pc.Replaying?
    decreases |steps|
  {
    if steps == [] || m.session.core.replays == [] then []
    else
      var next := AfterHead(m, steps[0]);
      StoredAt(m, steps[0]) + if next.pc.Replaying? then StoredBy(next, steps[1..]) else []
  }

  lemma PersistIgnoresPc(a: Machine, b: Machine, commit: Commit)
    requires a.session == b.session && a.durable == b.durable
    ensures PersistAs(a, None, commit).session == PersistAs(b, None, commit).session
    ensures PersistAs(a, None, commit).durable == PersistAs(b, None, commit).durable
  {
  }

  /** How taking a head leaves the machine, and what its handler's output adds. */
  lemma TakenFrame(m: Machine, step: HeadStep)
    requires m.pc.Replaying? && m.session.core.replays != []
    ensures var taken := ConsumeHead(m, m.pc.mode, step.commit);
      && (taken.pc == if Raised(step.commit) then Idle else Handling(m.session.core.replays[0], m.pc.mode))
      && (step.commit.Committed? || step.commit.RaisedStored? ==> taken.durable.Some?)
      && (!Raised(step.commit) ==>
            && AfterHead(m, step).session == CompleteReplay(taken.session, m.session.core.replays[0], step.output)
            && AfterHead(m, step).durable == taken.durable && AfterHead(m, step).pc == m.pc)
  {
  }

  lemma ReplayStep(m: Machine, steps: seq<HeadStep>)
    requires m.pc.Replaying? && steps != [] && m.session.core.replays != []
    ensures var next := AfterHead(m, steps[0]);
      && ReplayedBy(m, steps) == (if next.pc.Replaying? then ReplayedBy(next, steps[1..]) else next)
      && StoredBy(m, steps) == StoredAt(m, steps[0]) + if next.pc.Replaying? then StoredBy(next, steps[1..]) else []
  {
    hide AfterHead, StoredAt;
  }

  lemma NothingStored(m: Machine, steps: seq<HeadStep>)
    requires m.pc.Replaying? && steps == []
    ensures StoredBy(m, steps) == []
  {
  }

  lemma AfterHeadFrame(m: Machine, step: HeadStep)
    requires m.pc.Replaying? && m.session.core.replays != []
    ensures var next := AfterHead(m, step);
      && next == m.(pc := next.pc, session := next.session, durable := next.durable)
      && (next.pc == m.pc || next.pc.Idle?)
      && |next.session.core.replays| == |m.session.core.replays| - 1
  {
  }

  /** A stored consumption is that of the machine's `Consume` event; the handler's return is its `Handled` event. */
  lemma HeadRefines(m: Machine, step: HeadStep)
    requires m.pc.Replaying? && m.session.core.replays != []
    ensures var taken := Next(m, Consume(step.commit));
      && (Raised(step.commit) ==> taken.pc.Idle? && AfterHead(m, step) == taken)
      && (!Raised(step.commit) ==>
            && taken.pc == Handling(m.session.core.replays[0], m.pc.mode)
            && AfterHead(m, step) == Next(taken, Handled(step.output)).(started := m.started)
            && AfterHead(m, step).pc == m.pc)
  {
  }

  lemma HeadIgnoresHistory(m: Machine, step: HeadStep, started: seq<nat>)
    requires m.pc.Replaying? && m.session.core.replays != []
    ensures AfterHead(m.(started := started), step) == AfterHead(m, step).(started := started)
  {
  }

  /** The loop reads no history. */
  lemma {:induction false} ReplayIgnoresHistory(m: Machine, steps: seq<HeadStep>, started: seq<nat>)
    requires m.pc.Replaying?
    ensures ReplayedBy(m.(started := started), steps) == ReplayedBy(m, steps).(started := started)
    decreases |steps|
  {
    hide AfterHead;
    if steps != [] && m.session.core.replays != [] {
      var next := AfterHead(m, steps[0]);
      ReplayStep(m, steps);
      ReplayStep(m.(started := started), steps);
      AfterHeadFrame(m, steps[0]);
      HeadIgnoresHistory(m, steps[0], started);
      hide ReplayedBy;
      if next.pc.Replaying? {
        ReplayIgnoresHistory(next, steps[1..], started);
      }
    }
  }

  lemma RunFrom(m: Machine, e: Event, events: seq<Event>)
    ensures Run(m, [e] + events) == Run(Next(m, e), events)
  {
    var all := [e] + events;
    hide Next;
    if events == [] {
      assert all[..|all| - 1] == [];
      assert Run(m, all[..0]) == m;
    } else {
      RunFrom(m, e, events[..|events| - 1]);
      assert all[..|all| - 1] == [e] + events[..|events| - 1];
    }
  }

  /** The whole loop is a run of the machine, which alone remembers which handlers were started. */
  lemma {:induction false} ReplayLoopIsARun(m: Machine, steps: seq<HeadStep>)
    requires m.pc.Replaying?
    ensures exists events :: Run(m, events).(started := m.started) == ReplayedBy(m, steps)
    decreases |steps|
  {
    hide Next, AfterHead;
    if steps == [] || m.session.core.replays == [] {
      assert Run(m, []).(started := m.started) == ReplayedBy(m, steps);
    } else {
      var step, next, taken := steps[0], AfterHead(m, steps[0]), Next(m, Consume(steps[0].commit));
      HeadRefines(m, step);
      ReplayStep(m, steps);
      AfterHeadFrame(m, step);
      hide ReplayedBy;
      RunFrom(m, Consume(step.commit), []);
      assert Run(taken, []) == taken;
      if Raised(step.commit) {
        assert Run(m, [Consume(step.commit)] + []).(started := m.started) == ReplayedBy(m, steps);
      } else {
        var handled := Next(taken, Handled(step.output));
        ReplayLoopIsARun(handled, steps[1..]);
        var events :| Run(handled, events).(started := handled.started) == ReplayedBy(handled, steps[1..]);
        ReplayIgnoresHistory(handled, steps[1..], m.started);
        RunFrom(taken, Handled(step.output), events);
        RunFrom(m, Consume(step.commit), [Handled(step.output)] + events);
        assert Run(m, [Consume(step.commit)] + ([Handled(step.output)] + events)).(started := m.started) == ReplayedBy(m, steps);
      }
    }
  }

  /**
   The checkpoint a head runs under: where every consumption commits, the i-th stored one has the heads behind
   it still queued and the outputs before it all there.
  */
  lemma {:induction false} HeadsRunUnderEarlierOutputs(m: Machine, steps: seq<HeadStep>, i: nat)
    requires m.pc.Replaying? && |steps| <= |m.session.core.replays| && i < |steps|
    requires forall k :: 0 <= k < |steps| ==> steps[k].commit.Committed?
    ensures |StoredBy(m, steps)| == |steps|
    ensures StoredBy(m, steps)[i].core == m.session.core.(
      replays := m.session.core.replays[i + 1..],
      observations := m.session.core.observations + Outputs(m.session.core.replays, OutputsIn(steps[..i])))
    decreases |steps|
  {
    hide Outputs, AfterHead, StoredAt, StoredBy;
    var core, next := m.session.core, AfterHead(m, steps[0]);
    FirstHead(m, steps[0]);
    ReplayStep(m, steps);
    if |steps| > 1 {
      HeadsRunUnderEarlierOutputs(next, steps[1..], if i > 0 then i - 1 else 0);
    } else {
      NothingStored(next, steps[1..]);
    }
    if i == 0 {
      NoOutputs(core.replays, []);
      assert OutputsIn(steps[..0]) == [];
      assert core.observations + [] == core.observations;
    } else {
      assert steps[1..][..i - 1] == steps[..i][1..];
      OutputsCons(core.replays, OutputsIn(steps[..i]));
      assert OutputsIn(steps[..i])[1..] == OutputsIn(steps[1..][..i - 1]);
      assert core.replays[1..][i..] == core.replays[i + 1..];
      assert next.session.core.observations + Outputs(core.replays[1..], OutputsIn(steps[1..][..i - 1]))
        == core.observations + (Outputs([core.replays[0]], [steps[0].output]) + Outputs(core.replays[1..], OutputsIn(steps[1..][..i - 1])));
    }
  }

  function OutputsIn(steps: seq<HeadStep>): seq<Option<nat>> {
    seq(|steps|, i requires 0 <= i < |steps| => steps[i].output)
  }

  lemma FirstHead(m: Machine, step: HeadStep)
    requires m.pc.Replaying? && m.session.core.replays != [] && step.commit.Committed?
    ensures var core, next := m.session.core, AfterHead(m, step);
      && next.pc.Replaying?
      && next.session.core == core.(replays := core.replays[1..],
           observations := core.observations + Outputs([core.replays[0]], [step.output]))
      && StoredAt(m, step) == [StoredAt(m, step)[0]]
      && StoredAt(m, step)[0].core == core.(replays := core.replays[1..])
  {
    OneOutput(m.session.core.replays[0], step.output);
    assert m.session.core.observations + [] == m.session.core.observations;
  }

  /** Outputs pile up from the first head on as well. */
  lemma {:induction false} OutputsCons(heads: seq<nat>, outputs: seq<Option<nat>>)
    requires 0 < |outputs| <= |heads|
    ensures Outputs(heads, outputs) == Outputs([heads[0]], [outputs[0]]) + Outputs(heads[1..], outputs[1..])
    decreases |outputs|
  {
    var last := |outputs| - 1;
    OutputsSnoc(heads, outputs, last);
    assert outputs[..last + 1] == outputs;
    if last == 0 {
      NoOutputs(heads, outputs);
      assert outputs == [outputs[0]];
      OneOutput(heads[0], outputs[0]);
      assert outputs[1..] == [];
    } else {
      OutputsCons(heads, outputs[..last]);
      OutputsSnoc(heads[1..], outputs[1..], last - 1);
      assert outputs[1..][..last - 1] == outputs[..last][1..];
      assert outputs[1..][..last] == outputs[1..];
    }
  }

  lemma LogFinishOnlyThen(s: Session, fromFinish: bool)
    ensures LogFinish(s, fromFinish) == if fromFinish then ClearObservations(AppendObservations(s)) else s
  {
  }

  lemma IdsSnoc(tasks: seq<Task>, task: Task)
    ensures TaskIds(tasks + [task]) == TaskIds(tasks) + {task.id}
  {
    var all := tasks + [task];
    assert all[|tasks|] == task;
    forall id | id in TaskIds(tasks)
      ensures id in TaskIds(all)
    {
      var i :| 0 <= i < |tasks| && tasks[i].id == id;
      assert all[i].id == id;
    }
  }

  lemma CompletedSnoc(observations: seq<Observation>, last: Observation)
    ensures CompletedCalls(observations + [last])
      == CompletedCalls(observations) + if last.key.CallOutput? then {last.key.call} else {}
  {
    var all := observations + [last];
    assert all[|observations|] == last;
    forall call | call in CompletedCalls(observations)
      ensures call in CompletedCalls(all)
    {
      var i :| 0 <= i < |observations| && observations[i].key.CallOutput? && observations[i].key.call == call;
      assert all[i] == observations[i];
    }
  }

  lemma NoOutputs(heads: seq<nat>, outputs: seq<Option<nat>>)
    requires |outputs| <= |heads|
    ensures Outputs(heads, outputs[..0]) == []
  {
  }

  lemma OneOutput(head: nat, output: Option<nat>)
    ensures Outputs([head], [output]) == match output {
      case None => []
      case Some(value) => [Observation(ReplayOutput(head), 0, value)]
    }
  {
    assert [output][..0] == [];
  }

  lemma OutputsSnoc(heads: seq<nat>, outputs: seq<Option<nat>>, i: nat)
    requires i < |outputs| <= |heads|
    ensures Outputs(heads, outputs[..i + 1]) == Outputs(heads, outputs[..i])
      + match outputs[i] {
          case None => []
          case Some(value) => [Observation(ReplayOutput(heads[i]), 0, value)]
        }
  {
    assert outputs[..i + 1][..i] == outputs[..i];
  }

  /** The settle pair refines the machine: decide, then apply, is its one transition. */
  lemma SettleRefines(m: Machine, verdict: Verdict)
    requires m.pc.Deciding?
    ensures var decision := Decide(m.pc.turn, verdict, m.session.core.retries, m.config.maxRetries);
      var s := AppliedDecision(m.session, decision, m.pc.fromFinish);
      FromDeciding(m, RunModel.Decide(verdict)) ==
        if decision.DefectFound? then FailRun(m, m.session)
        else match SettledAs(decision)
          case None => m.(pc := Top, session := s)
          case Some(suspension) => SettleRun(m, s, suspension.reason, suspension.code)
  {
    hide SettleRun, LogFinish, WithOutcome, FailRun, RecordFailure, DropFinish, ClearObservations;
  }
}
