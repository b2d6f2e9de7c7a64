/**
 Inputs enter the conversation log once over whole runs: no tool or task observation and no user message
 is logged twice, although a park may keep observations the log already has for a replayed call.
*/
module RunInputs {
  import opened Wrappers
  import opened Usage
  import opened RunModel
  import opened RunDispatch
  import opened RunBilling
  import opened RunOnce
  import opened RunApply

  // ---------- Keys ----------

  function LoggedKeys(messages: seq<Message>): set<ObsKey> {
    set i | 0 <= i < |messages| && messages[i].ObservationMessage? :: messages[i].observation.key
  }

  function PendingKeys(observations: seq<Observation>): set<ObsKey> {
    set i | 0 <= i < |observations| :: observations[i].key
  }

  function Known(core: Core): set<ObsKey> {
    LoggedKeys(core.messages) + PendingKeys(core.observations)
  }

  /** No observation and no user message is in the log twice. */
  ghost predicate LogDistinct(messages: seq<Message>) {
    && (forall i, j :: 0 <= i < j < |messages| && messages[i].ObservationMessage? && messages[j].ObservationMessage? ==>
          messages[i].observation.key != messages[j].observation.key)
    && (forall i, j :: 0 <= i < j < |messages| && messages[i].UserMessage? && messages[j].UserMessage? ==>
          messages[i].submit != messages[j].submit)
  }

  /** The pending observations are new to the log and to each other. */
  ghost predicate Unsent(messages: seq<Message>, observations: seq<Observation>) {
    && (forall i, j :: 0 <= i < j < |observations| ==> observations[i].key != observations[j].key)
    && LoggedKeys(messages) !! PendingKeys(observations)
  }

  /** A waiting input is the newest submit and is not in the log yet. */
  ghost predicate UsersOk(messages: seq<Message>, input: Option<Input>, submits: nat) {
    && (input.Some? ==> input.value.number == submits)
    && (forall i :: 0 <= i < |messages| && messages[i].UserMessage? ==>
          messages[i].submit <= submits && (input.Some? ==> messages[i].submit < submits))
  }

  /** Where task and replay outputs come from: each task is delivered once and each approval replayed once. */
  ghost predicate SourcesOk(keys: set<ObsKey>, ready: seq<Task>, delivered: set<nat>, replays: seq<nat>) {
    && (forall key :: key in keys && key.TaskOutput? ==> key.task in delivered)
    && (forall key :: key in keys && key.ReplayOutput? ==> key.task in delivered && key.task !in replays)
    && (forall i :: 0 <= i < |replays| ==> replays[i] in delivered)
    && (forall i, j :: 0 <= i < j < |replays| ==> replays[i] != replays[j])
    && (forall i :: 0 <= i < |ready| ==> ready[i].id !in delivered)
    && (forall i, j :: 0 <= i < j < |ready| ==> ready[i].id != ready[j].id)
  }

  ghost predicate Below(keys: set<ObsKey>, bound: nat) {
    forall key :: key in keys && key.CallOutput? ==> key.step < bound
  }

  // ---------- Invariant ----------

  ghost predicate CoreInputs(core: Core) {
    && LogDistinct(core.messages)
    && UsersOk(core.messages, core.input, core.submits)
    && SourcesOk(Known(core), core.ready, core.delivered, core.replays)
    && Below(Known(core), core.step + 1)
    && (!Applied(core.messages, core.step) ==> Below(LoggedKeys(core.messages), core.step))
  }

  /** A new step: everything pending is unsent, and no output of this step exists. */
  ghost predicate FreshInputs(core: Core) {
    Unsent(core.messages, core.observations) && Below(Known(core), core.step)
  }

  /** The inputs are logged; whatever is still pending is in the log, so the log does not end in an answer. */
  ghost predicate SentInputs(core: Core) {
    Below(LoggedKeys(core.messages), core.step) && (LastIsAnswer(core.messages) ==> core.observations == [])
  }

  /** A batch is collecting outputs; none of this step's is in the log. */
  ghost predicate BatchInputs(core: Core) {
    Below(LoggedKeys(core.messages), core.step)
  }

  /** The park keeps the observations of a call whose answer is still to be applied. */
  ghost predicate Replayable(core: Core, suspension: Suspension) {
    && (suspension.reason.InterruptedPark? || suspension.code.EvidenceUncommitted?)
    && core.step >= 1 && CurrentSettled(core.step, core.invocation) && !LastIsAnswer(core.messages)
  }

  ghost predicate ParkInputs(core: Core, suspension: Suspension) {
    if suspension.callsPending then BatchInputs(core)
    else if Replayable(core, suspension) then Below(LoggedKeys(core.messages), core.step)
    else Unsent(core.messages, core.observations)
  }

  ghost predicate IdleInputs(core: Core, suspension: Option<Suspension>, resumeStep: bool) {
    && (resumeStep ==> FreshInputs(core))
    && (!core.terminal ==>
          match suspension
          case None => Unsent(core.messages, core.observations)
          case Some(s) => ParkInputs(core, s))
  }

  /** The head whose handler runs has left the queue and has produced nothing. */
  ghost predicate HeadInputs(core: Core, head: nat) {
    FreshInputs(core) && head in core.delivered && head !in core.replays && ReplayOutput(head) !in Known(core)
  }

  ghost predicate PumpInputs(m: Machine) {
    var core := m.session.core;
    match m.pc
    case Top => Unsent(core.messages, core.observations) && (m.session.resumeStep ==> FreshInputs(core))
    case Recovering(r) => if r.projected then BatchInputs(core) else SentInputs(core)
    case Recovered(r, _, _) => if r.projected then BatchInputs(core) else SentInputs(core)
    case Replaying(Fresh(_)) => FreshInputs(core)
    case Replaying(Projected(_)) => BatchInputs(core)
    case Handling(head, _) => HeadInputs(core, head)
    case Answered(_, projected) => if projected then BatchInputs(core) else SentInputs(core)
    case Batch(_, _, _) => BatchInputs(core)
    case Calling(_, _, _) => BatchInputs(core)
    case Returned(_, _, _) => BatchInputs(core)
    case Deciding(_, _) => Unsent(core.messages, core.observations)
    case _ => SentInputs(core)
  }

  ghost predicate PcInputs(m: Machine) {
    var s := m.session;
    if m.pc.Down? then true
    else if m.pc.Idle? then IdleInputs(s.core, s.suspension, s.resumeStep)
    else if m.pc.Parking? then !s.core.terminal ==> ParkInputs(s.core, m.pc.suspension)
    else PumpInputs(m)
  }

  ghost predicate DurableInputs(durable: Option<Checkpoint>) {
    durable.Some? ==>
      && CoreInputs(durable.value.core)
      && (durable.value.suspension.None? ==> FreshInputs(durable.value.core))
      && (durable.value.suspension.Some? && !durable.value.core.terminal ==>
            ParkInputs(durable.value.core, durable.value.suspension.value))
  }

  /** Every paid turn names its calls apart. */
  ghost predicate JournalDistinct(journal: Journal) {
    forall step :: SettledAt(journal, step) && journal[step].outcome.Answer? ==> DistinctCalls(journal[step].outcome.turn)
  }

  ghost predicate InputsInv(m: Machine) {
    && DurableInputs(m.durable)
    && JournalDistinct(m.journal)
    && (!m.pc.Down? ==> CoreInputs(m.session.core) && PcInputs(m))
  }

  // ---------- Hypotheses ----------

  /** A drain does not preempt a call whose observations are already in the log. */
  predicate DrainsKeepNothingSent(m: Machine, e: Event) {
    m.session.core.observations != [] ==>
      && (m.pc.Requesting? && e.Probe? && e.halt == Some(DrainStop) ==>
            m.session.core.step in m.journal && m.journal[m.session.core.step].Settled?)
      && (m.pc.Ready? && e.Halt? ==> !e.stop.DrainStop?)
  }

  /** Provider turns use distinct call identifiers. */
  predicate NamesCallsApart(e: Event) {
    && (e.Settle? && e.outcome.Answer? ==> DistinctCalls(e.outcome.turn))
    && (e.Lose? && e.loss.StoredThenRaised? && e.loss.outcome.Answer? ==> DistinctCalls(e.loss.outcome.turn))
  }

  /** Where observations wait, a park that keeps them for a recovery is committed or declined, and no call is cancelled. */
  predicate ReplaysAreKept(m: Machine, e: Event) {
    m.session.core.observations != [] ==>
      && (m.pc.Parking? && e.Persist? && (m.pc.suspension.reason.InterruptedPark? || m.pc.suspension.code.EvidenceUncommitted?) ==>
            e.commit.Committed? || e.commit.Declined?)
      && (m.pc.InFlight? && e.Lose? ==> !e.loss.TaskCancelled?)
  }

  predicate LogsInputsOnce(m: Machine, e: Event) {
    DrainsKeepNothingSent(m, e) && ReplaysAreKept(m, e) && NamesCallsApart(e)
  }

  // ---------- How the keys change ----------

  lemma KeysAppend(messages: seq<Message>, extra: seq<Message>)
    ensures LoggedKeys(messages + extra) == LoggedKeys(messages) + LoggedKeys(extra)
  {
    var all := messages + extra;
    forall key | key in LoggedKeys(messages) + LoggedKeys(extra)
      ensures key in LoggedKeys(all)
    {
      if key in LoggedKeys(messages) {
        var i :| 0 <= i < |messages| && messages[i].ObservationMessage? && messages[i].observation.key == key;
        assert all[i] == messages[i];
      } else {
        var i :| 0 <= i < |extra| && extra[i].ObservationMessage? && extra[i].observation.key == key;
        assert all[|messages| + i] == extra[i];
      }
    }
  }

  lemma PendingAppend(observations: seq<Observation>, extra: seq<Observation>)
    ensures PendingKeys(observations + extra) == PendingKeys(observations) + PendingKeys(extra)
  {
    var all := observations + extra;
    forall key | key in PendingKeys(observations) + PendingKeys(extra)
      ensures key in PendingKeys(all)
    {
      if key in PendingKeys(observations) {
        var i :| 0 <= i < |observations| && observations[i].key == key;
        assert all[i] == observations[i];
      } else {
        var i :| 0 <= i < |extra| && extra[i].key == key;
        assert all[|observations| + i] == extra[i];
      }
    }
  }

  lemma KeysOfObservations(observations: seq<Observation>)
    ensures LoggedKeys(ObservationMessages(observations)) == PendingKeys(observations)
  {
    var log := ObservationMessages(observations);
    forall i | 0 <= i < |observations|
      ensures observations[i].key in LoggedKeys(log)
    {
      assert log[i] == ObservationMessage(observations[i]);
    }
  }

  /** Clearing the pending observations, logged or not, keeps everything. */
  lemma ClearKeeps(core: Core)
    requires CoreInputs(core)
    ensures CoreInputs(core.(observations := []))
    ensures Unsent(core.messages, [])
  {
    var cleared := core.(observations := []);
    assert PendingKeys([]) == {};
    assert Known(cleared) <= Known(core);
    SourcesShrink(Known(core), Known(cleared), core);
    hide LogDistinct, UsersOk, SourcesOk, Known;
  }

  lemma SourcesShrink(keys: set<ObsKey>, fewer: set<ObsKey>, core: Core)
    requires SourcesOk(keys, core.ready, core.delivered, core.replays) && fewer <= keys
    ensures SourcesOk(fewer, core.ready, core.delivered, core.replays)
  {
  }

  /** Logging new observations. */
  lemma LogObservations(messages: seq<Message>, observations: seq<Observation>)
    requires LogDistinct(messages) && Unsent(messages, observations)
    ensures LogDistinct(messages + ObservationMessages(observations))
    ensures LoggedKeys(messages + ObservationMessages(observations)) == LoggedKeys(messages) + PendingKeys(observations)
  {
    var extra := ObservationMessages(observations);
    KeysAppend(messages, extra);
    KeysOfObservations(observations);
    var all := messages + extra;
    forall i, j | 0 <= i < j < |all| && all[i].ObservationMessage? && all[j].ObservationMessage?
      ensures all[i].observation.key != all[j].observation.key
    {
      if j >= |messages| {
        assert all[j].observation == observations[j - |messages|];
        assert all[j].observation.key in PendingKeys(observations);
        if i < |messages| {
          assert all[i].observation.key in LoggedKeys(messages);
        }
      }
    }
  }

  lemma LogInput(messages: seq<Message>, input: Option<Input>, submits: nat)
    requires LogDistinct(messages) && UsersOk(messages, input, submits)
    ensures LogDistinct(messages + InputMessages(input)) && UsersOk(messages + InputMessages(input), None, submits)
    ensures LoggedKeys(messages + InputMessages(input)) == LoggedKeys(messages)
  {
    KeysAppend(messages, InputMessages(input));
  }

  lemma UsersIgnoreObservations(messages: seq<Message>, observations: seq<Observation>, input: Option<Input>, submits: nat)
    requires UsersOk(messages, input, submits)
    ensures UsersOk(messages + ObservationMessages(observations), input, submits)
  {
  }

  /** A finished task's result and its approval join the pending work. */
  lemma DeliverKeepsKeys(core: Core)
    requires CoreInputs(core) && Unsent(core.messages, core.observations)
    ensures var core' := DeliverReady(InitialSession.(core := core)).core;
      && CoreInputs(core') && Unsent(core'.messages, core'.observations)
      && (Below(Known(core), core.step) ==> Below(Known(core'), core.step))
  {
    var core' := DeliverReady(InitialSession.(core := core)).core;
    var extra := TaskObservations(core.ready);
    PendingAppend(core.observations, extra);
    forall key | key in PendingKeys(extra)
      ensures key.TaskOutput? && key.task in TaskIds(core.ready) && key !in Known(core)
    {
      var i :| 0 <= i < |extra| && extra[i].key == key;
      assert extra[i] == Observation(TaskOutput(core.ready[i].id), 0, 0);
    }
    DeliveredSources(core, core');
    assert Unsent(core'.messages, core'.observations) by {
      hide SourcesOk, LogDistinct, UsersOk, Below;
      forall i, j | 0 <= i < j < |core'.observations|
        ensures core'.observations[i].key != core'.observations[j].key
      {
        if j >= |core.observations| {
          assert core'.observations[j] == extra[j - |core.observations|];
          assert core'.observations[j].key in PendingKeys(extra);
          if i < |core.observations| {
            assert core'.observations[i].key in PendingKeys(core.observations);
          } else {
            DistinctTasks(core, i - |core.observations|, j - |core.observations|);
          }
        }
      }
    }
    hide SourcesOk, LogDistinct, UsersOk, TaskIds, ApprovedTasks;
  }

  lemma DistinctTasks(core: Core, i: nat, j: nat)
    requires CoreInputs(core) && i < j < |core.ready|
    ensures TaskObservations(core.ready)[i].key != TaskObservations(core.ready)[j].key
  {
  }

  ghost predicate DistinctIn(tasks: seq<nat>, ids: set<nat>) {
    && (forall i :: 0 <= i < |tasks| ==> tasks[i] in ids)
    && (forall i, j :: 0 <= i < j < |tasks| ==> tasks[i] != tasks[j])
  }

  lemma {:induction false} ApprovedAreReady(tasks: seq<Task>)
    requires forall i, j :: 0 <= i < j < |tasks| ==> tasks[i].id != tasks[j].id
    ensures DistinctIn(ApprovedTasks(tasks), TaskIds(tasks))
  {
    if tasks != [] {
      var head, rest := tasks[0].id, tasks[1..];
      ApprovedAreReady(rest);
      assert head in TaskIds(tasks);
      forall id | id in TaskIds(rest)
        ensures id in TaskIds(tasks) && id != head
      {
        var i :| 0 <= i < |rest| && rest[i].id == id;
        assert tasks[i + 1].id == id;
      }
      HeadJoins(head, ApprovedTasks(rest), TaskIds(rest), TaskIds(tasks));
    }
  }

  lemma HeadJoins(head: nat, tail: seq<nat>, few: set<nat>, more: set<nat>)
    requires DistinctIn(tail, few) && few <= more && head in more && head !in few
    ensures DistinctIn(tail, more) && DistinctIn([head] + tail, more)
  {
  }

  lemma Joins(first: seq<nat>, second: seq<nat>, ids: set<nat>, more: set<nat>)
    requires DistinctIn(first, ids) && DistinctIn(second, more) && ids !! more
    ensures DistinctIn(first + second, ids + more)
  {
  }

  lemma DeliveredSources(core: Core, core': Core)
    requires CoreInputs(core) && core' == DeliverReady(InitialSession.(core := core)).core
    requires forall key :: key in PendingKeys(core'.observations) ==>
      key in PendingKeys(core.observations) || (key.TaskOutput? && key.task in TaskIds(core.ready))
    ensures SourcesOk(Known(core'), core'.ready, core'.delivered, core'.replays)
    ensures Below(Known(core'), core.step + 1)
  {
    ApprovedAreReady(core.ready);
    forall id | id in TaskIds(core.ready)
      ensures id !in core.delivered
    {
      var i :| 0 <= i < |core.ready| && core.ready[i].id == id;
    }
    hide LogDistinct, UsersOk, TaskIds, ApprovedTasks, TaskObservations;
    Joins(core.replays, ApprovedTasks(core.ready), core.delivered, TaskIds(core.ready));
    forall key | key in Known(core')
      ensures key in Known(core) || (key.TaskOutput? && key.task in TaskIds(core.ready))
    {
    }
  }

  /** Logging a step's inputs: afterwards all of them are in the log, once. */
  lemma InputsLogged(s: Session)
    requires CoreInputs(s.core) && FreshInputs(s.core)
    ensures var core' := AppendObservations(AppendInput(s)).core; CoreInputs(core') && SentInputs(core')
  {
    var core := s.core;
    var messages := core.messages + InputMessages(core.input);
    LogInput(core.messages, core.input, core.submits);
    LogObservations(messages, core.observations);
    UsersIgnoreObservations(messages, core.observations, None, core.submits);
    var core' := AppendObservations(AppendInput(s)).core;
    assert Known(core') == Known(core);
    if core.observations != [] {
      assert !LastIsAnswer(core'.messages);
    }
    hide LogDistinct, UsersOk, SourcesOk, InputMessages, LoggedKeys, PendingKeys;
  }

  /** An assistant or repair message carries no input. */
  lemma LogSpeech(core: Core, message: Message)
    requires CoreInputs(core) && (message.AssistantMessage? || message.RepairMessage?)
    ensures var core' := core.(messages := core.messages + [message]);
      CoreInputs(core') && LoggedKeys(core'.messages) == LoggedKeys(core.messages)
  {
    KeysAppend(core.messages, [message]);
    assert LoggedKeys([message]) == {};
    AppliedGrows(core.messages, [message], core.step);
    hide SourcesOk, LoggedKeys, Applied;
  }

  lemma AppliedGrows(messages: seq<Message>, extra: seq<Message>, step: nat)
    ensures Applied(messages, step) ==> Applied(messages + extra, step)
  {
    if i :| 0 <= i < |messages| && messages[i].AssistantMessage? && messages[i].step == step {
      assert (messages + extra)[i] == messages[i];
    }
  }

  // ---------- Frames and parks ----------

  predicate SameInputs(before: Core, after: Core) {
    && after.messages == before.messages && after.input == before.input && after.submits == before.submits
    && after.ready == before.ready && after.delivered == before.delivered && after.replays == before.replays
    && after.step == before.step && (after.observations == before.observations || after.observations == [])
  }

  lemma SameInputsKeep(before: Core, after: Core)
    requires CoreInputs(before) && SameInputs(before, after)
    ensures CoreInputs(after)
    ensures after.observations == [] ==> Unsent(after.messages, after.observations)
    ensures Below(Known(before), before.step) ==> Below(Known(after), after.step)
    ensures Unsent(before.messages, before.observations) ==> Unsent(after.messages, after.observations)
  {
    ClearKeep(before);
    hide LogDistinct, UsersOk, SourcesOk;
  }

  lemma ClearKeep(core: Core)
    requires CoreInputs(core)
    ensures CoreInputs(core.(observations := [])) && Unsent(core.messages, []) && Known(core.(observations := [])) <= Known(core)
  {
    ClearKeeps(core);
    assert PendingKeys([]) == {};
    hide CoreInputs, Unsent;
  }

  /** A transition that moves no input, or at most clears the pending observations. */
  ghost predicate Still(m: Machine, m': Machine) {
    m'.journal == m.journal && m'.durable == m.durable && SameInputs(m.session.core, m'.session.core)
  }

  lemma StillKeeps(m: Machine, m': Machine)
    requires InputsInv(m) && !m.pc.Down? && Still(m, m') && PcInputs(m')
    ensures InputsInv(m')
  {
    SameInputsKeep(m.session.core, m'.session.core);
    hide CoreInputs, PcInputs, DurableInputs, JournalDistinct, Unsent, Known;
  }

  /** A stop keeps what a replay of the settled call needs, and clears what nobody will use. */
  lemma HaltInputs(m: Machine, s: Session, stop: Stop)
    requires CoreInputs(s.core)
    requires s.callsPending ==> BatchLog(s.core)
    requires stop.DrainStop? || (stop.UserStop? && Unapplied(s).Some?) ==>
      ParkInputs(s.core, Suspension(InterruptedPark, NoCode, s.callsPending))
    ensures PcInputs(HaltRun(m, s, stop)) && SameInputs(s.core, HaltRun(m, s, stop).session.core)
    ensures HaltRun(m, s, stop).journal == m.journal && HaltRun(m, s, stop).durable == m.durable
  {
    ClearKeep(s.core);
    if s.callsPending {
      UnappliedProgress(s);
    }
    hide CoreInputs, Unsent, BatchLog, Below, LoggedKeys;
  }

  lemma FailInputs(m: Machine, s: Session, code: Code)
    requires CoreInputs(s.core)
    ensures PcInputs(FailRun(m, s)) && SameInputs(s.core, FailRun(m, s).session.core)
    ensures SameInputs(s.core, FailTurn(m, s, code).session.core)
    ensures (code.EvidenceUncommitted? ==> ParkInputs(s.core, Suspension(TurnFailed, code, false))) ==>
              PcInputs(FailTurn(m, s, code))
  {
    ClearKeep(s.core);
    hide CoreInputs, Unsent, CurrentSettled, Below, LoggedKeys;
  }

  lemma SettleInputs(m: Machine, s: Session, reason: Reason, code: Code)
    requires CoreInputs(s.core) && Unsent(s.core.messages, s.core.observations)
    requires !reason.InterruptedPark? && !code.EvidenceUncommitted?
    ensures PcInputs(SettleRun(m, s, reason, code)) && SameInputs(s.core, SettleRun(m, s, reason, code).session.core)
  {
    hide CoreInputs, Unsent;
  }

  // ---------- Every transition keeps the invariant ----------

  /** Without a recovery to replay them, a park's observations are new to the log. */
  lemma NoRecoveryIsUnsent(s: Session)
    requires IdleOk(s) && !s.core.terminal && IdleInputs(s.core, s.suspension, s.resumeStep)
    ensures EvidenceRecovery(s).None? ==> Unsent(s.core.messages, s.core.observations)
    ensures EvidenceRecovery(s).Some? ==>
      (if EvidenceRecovery(s).value.projected then BatchInputs(s.core) else SentInputs(s.core))
  {
    if s.callsPending {
      UnappliedProgress(s);
    }
    hide Unsent, Below, LoggedKeys, Progress, Applied;
  }

  lemma IdleLogs(m: Machine, e: Event)
    requires OnceInv(m, false) && ApplyInv(m) && InputsInv(m) && m.pc.Idle?
    ensures InputsInv(FromIdle(m, e))
  {
    var s := m.session;
    if !s.core.terminal {
      NoRecoveryIsUnsent(s);
      match e
      case Resume =>
        hide EvidenceRecovery, CoreInputs, DurableInputs, JournalDistinct, Unsent, BatchInputs, SentInputs, FreshInputs, ApplyInv;
        StillKeeps(m, FromIdle(m, e));
      case Submit(text) =>
        SubmitLogs(m, text);
      case _ =>
    }
  }

  lemma SubmitLogs(m: Machine, text: nat)
    requires OnceInv(m, false) && ApplyInv(m) && InputsInv(m) && m.pc.Idle? && !m.session.core.terminal
    ensures InputsInv(FromIdle(m, Submit(text)))
  {
    var s := m.session;
    NoRecoveryIsUnsent(s);
    OfferedRecovery(s);
    ClearKeep(s.core);
    var m' := FromIdle(m, Submit(text));
    if m' != m {
      var core := if EvidenceRecovery(s).Some? then s.core.(observations := []) else s.core;
      assert SubmittedCore(core, m'.session.core);
      Submitted(core, m'.session.core);
      hide EvidenceRecovery, CoreInputs, DurableInputs, JournalDistinct, Unsent, ApplyInv, Below, Known;
      assert m'.session.resumeStep ==> FreshInputs(core);
    }
  }

  predicate SubmittedCore(core: Core, core': Core) {
    && core'.messages == core.messages && core'.observations == core.observations && core'.ready == core.ready
    && core'.delivered == core.delivered && core'.replays == core.replays && core'.step == core.step
    && core'.submits == core.submits + 1 && core'.input.Some? && core'.input.value.number == core'.submits
  }

  /** A new submit takes a number the log does not have. */
  lemma Submitted(core: Core, core': Core)
    requires CoreInputs(core) && SubmittedCore(core, core')
    ensures CoreInputs(core') && (FreshInputs(core) ==> FreshInputs(core'))
  {
    assert Known(core') == Known(core);
    hide LogDistinct, SourcesOk, LoggedKeys, PendingKeys;
  }

  /** Taking a step, new or resumed: finished tasks are delivered into a fresh step. */
  lemma DeliveryIsFresh(s: Session)
    requires CoreInputs(s.core) && FreshInputs(s.core)
    ensures CoreInputs(DeliverReady(s).core) && FreshInputs(DeliverReady(s).core)
  {
    DeliverKeepsKeys(s.core);
    assert DeliverReady(s).core == DeliverReady(InitialSession.(core := s.core)).core;
    hide CoreInputs, Below, Unsent, DeliverReady;
  }

  lemma AllocationIsFresh(s: Session)
    requires CoreInputs(s.core) && Unsent(s.core.messages, s.core.observations)
    ensures CoreInputs(AllocateStep(s).core) && FreshInputs(AllocateStep(s).core)
  {
    assert Known(AllocateStep(s).core) == Known(s.core);
    hide LogDistinct, UsersOk, SourcesOk, LoggedKeys, PendingKeys;
  }

  /** A stop between turns keeps only inputs the log does not have, or those of a call still to be applied. */
  lemma BoundaryHalts(m: Machine, stop: Stop)
    requires ApplyInv(m) && InputsInv(m) && (m.pc.Top? || m.pc.Deciding?) && StopsSeeTheAnswer(m, Halt(stop))
    ensures !stop.RunStop? ==> ParkInputs(m.session.core, Suspension(InterruptedPark, NoCode, m.session.callsPending))
  {
    hide Unsent, Below, LoggedKeys, Applied, LogDistinct, UsersOk, SourcesOk, DurableInputs, JournalDistinct, DurableApply;
  }

  lemma TopLogs(m: Machine, e: Event)
    requires OnceInv(m, false) && ApplyInv(m) && InputsInv(m) && m.pc.Top? && Orderly(m, e)
    ensures InputsInv(FromTop(m, e))
  {
    var s := m.session;
    assert !s.callsPending;
    if e.Go? && s.resumeStep {
      DeliveryIsFresh(s.(resumeStep := false));
      hide CoreInputs, DurableInputs, JournalDistinct, FreshInputs, ApplyInv, DeliverReady;
    } else if s.resumeStep {
    } else if s.core.local >= m.config.maxSteps {
      if e.Go? {
        var limited := s.(core := s.core.(status := Limited, code := MaxSteps));
        SameInputsKeep(s.core, limited.core);
        SettleInputs(m, limited, LimitedPark, MaxSteps);
        hide CoreInputs, DurableInputs, JournalDistinct, ApplyInv, SettleRun, Unsent;
        StillKeeps(m, FromTop(m, e));
      }
    } else if e.Go? {
      AllocationIsFresh(s);
      DeliveryIsFresh(AllocateStep(s));
      hide CoreInputs, DurableInputs, JournalDistinct, FreshInputs, ApplyInv, DeliverReady, AllocateStep;
    } else if e.Halt? {
      BoundaryHalts(m, e.stop);
      hide CoreInputs, DurableInputs, JournalDistinct, ApplyInv, OnceInv, Unsent;
      HaltInputs(m, s, e.stop);
      hide HaltRun;
      StillKeeps(m, HaltRun(m, s, e.stop));
    } else if e.Pause? {
      hide CoreInputs, DurableInputs, JournalDistinct, ApplyInv, Unsent;
      StillKeeps(m, FromTop(m, e));
    }
  }

  /** Settled, logged inputs may wait at a park: only a recovery reads them again. */
  lemma SentParks(core: Core, suspension: Suspension)
    requires CoreInputs(core) && SentInputs(core) && !suspension.callsPending
    requires (suspension.reason.InterruptedPark? || suspension.code.EvidenceUncommitted?)
    requires core.step >= 1 && CurrentSettled(core.step, core.invocation)
    ensures ParkInputs(core, suspension)
  {
    ClearKeep(core);
    hide CoreInputs, Below, LoggedKeys;
  }

  lemma RecoveringLogs(m: Machine, e: Event)
    requires Inv(m) && OnceInv(m, false) && ApplyInv(m) && InputsInv(m) && m.pc.Recovering? && Orderly(m, e)
    ensures InputsInv(FromRecovering(m, e))
  {
    hide CoreInputs, DurableInputs, JournalDistinct, Account, LedgerOk, BooksOk, DurableOk, Applied, Below,
         LoggedKeys, ParkInputs, OnceCore, DurableOnce, DurableApply;
    if e.Recover? {
      var recovery := m.pc.recovery;
      RecoveryIsCurrent(m);
      AccountAgain(m.session, recovery.invocation.step, AccountedUsage(recovery));
      if !recovery.projected {
        SentParks(m.session.core, Suspension(TurnFailed, EvidenceUncommitted, false));
      }
      FailInputs(m, m.session, EvidenceUncommitted);
      hide PcInputs;
      StillKeeps(m, FromRecovering(m, e));
    }
  }

  lemma RefusalLogs(m: Machine, recoverable: bool)
    requires Inv(m) && OnceInv(m, false) && ApplyInv(m) && InputsInv(m) && m.pc.Recovered?
    ensures InputsInv(RestoreRefusal(m, m.pc.recovery, m.pc.receipt, recoverable))
  {
    AccountAgain(m.session, m.pc.recovery.invocation.step, m.pc.receipt);
    ClearKeep(m.session.core);
    FailInputs(m, m.session, NoCode);
    hide CoreInputs, DurableInputs, JournalDistinct, Account, FailRun, FailTurn, Inv, ApplyInv, ParkInputs;
    StillKeeps(m, RestoreRefusal(m, m.pc.recovery, m.pc.receipt, recoverable));
  }

  /** After the log has grown, the rest of the transition moves no input. */
  lemma MovesOn(m: Machine, core: Core, m': Machine)
    requires InputsInv(m) && CoreInputs(core) && SameInputs(core, m'.session.core) && PcInputs(m')
    requires m'.journal == m.journal && m'.durable == m.durable
    ensures InputsInv(m')
  {
    SameInputsKeep(core, m'.session.core);
    hide CoreInputs, PcInputs, DurableInputs, JournalDistinct, Unsent, Known;
  }

  lemma ToolFreeInputs(m: Machine, s: Session, turn: Turn, jobs: bool)
    requires InputsInv(m) && CoreInputs(s.core)
    ensures InputsInv(WithoutCalls(m, s, turn, jobs))
  {
    ClearKeep(s.core);
    FailInputs(m, s, NoCode);
    hide CoreInputs, InputsInv, FailRun, Unsent;
    MovesOn(m, s.core, WithoutCalls(m, s, turn, jobs));
  }

  lemma AnswerLogs(m: Machine, turn: Turn, jobs: bool)
    requires OnceInv(m, false) && ApplyInv(m) && InputsInv(m) && m.pc.Recovered?
    ensures InputsInv(RestoreAnswer(m, m.pc.recovery, turn, jobs))
  {
    LogSpeech(m.session.core, AssistantMessage(m.session.core.step, turn));
    var s := if m.pc.recovery.projected then m.session else ProjectTurn(m.session, turn);
    if turn.calls == [] && !m.pc.recovery.projected {
      ToolFreeInputs(m, s, turn, jobs);
      hide WithoutCalls, ApplyInv, InputsInv;
    } else {
      hide ApplyInv;
      AnswerWithCallsLogs(m, turn, jobs);
    }
  }

  lemma AnswerWithCallsLogs(m: Machine, turn: Turn, jobs: bool)
    requires InputsInv(m) && m.pc.Recovered? && (turn.calls != [] || m.pc.recovery.projected)
    ensures InputsInv(RestoreAnswer(m, m.pc.recovery, turn, jobs))
  {
    hide CoreInputs, WithoutCalls, DurableInputs, JournalDistinct, Unsent, ProgressMatches, LoggedKeys, Below;
    var m' := RestoreAnswer(m, m.pc.recovery, turn, jobs);
    if m.pc.recovery.projected {
      FailInputs(m, m.session, NoCode);
      StillKeeps(m, m');
    } else {
      LogSpeech(m.session.core, AssistantMessage(m.session.core.step, turn));
      var s := ProjectTurn(m.session, turn);
      ClearKeep(s.core);
      MovesOn(m, s.core, m');
    }
  }

  lemma RecoveredLogs(m: Machine, e: Event)
    requires Inv(m) && OnceInv(m, false) && ApplyInv(m) && InputsInv(m) && m.pc.Recovered?
    ensures InputsInv(FromRecovered(m, e))
  {
    match e
    case Halt(stop) =>
      var s := m.session;
      if !m.pc.recovery.projected {
        SentParks(s.core, Suspension(InterruptedPark, NoCode, false));
      }
      HaltInputs(m, s, stop);
      hide CoreInputs, DurableInputs, JournalDistinct, Inv, ApplyInv, HaltRun;
      StillKeeps(m, HaltRun(m, s, stop));
    case Proceed(jobs) =>
      hide Inv, ApplyInv, InputsInv, RestoreRefusal, RestoreAnswer;
      match m.pc.outcome {
        case Refused(recoverable, _) => RefusalLogs(m, recoverable);
        case Answer(turn) => AnswerLogs(m, turn, jobs);
      }
    case _ =>
  }

  lemma ConsumeLogs(m: Machine, commit: Commit)
    requires Inv(m) && OnceInv(m, false) && ApplyInv(m) && InputsInv(m) && m.pc.Replaying? && m.session.core.replays != []
    ensures InputsInv(ConsumeHead(m, m.pc.mode, commit))
  {
    var core := m.session.core;
    var taken := core.(replays := core.replays[1..]);
    HeadTaken(core);
    assert m.pc.mode.Fresh?;
    assert !m.session.resumeStep && m.session.suspension.None?;
    hide CoreInputs, Unsent, JournalDistinct, Below, Inv, ApplyInv, Known;
  }

  lemma HeadTaken(core: Core)
    requires CoreInputs(core) && FreshInputs(core) && core.replays != []
    ensures var taken := core.(replays := core.replays[1..]);
      CoreInputs(taken) && FreshInputs(taken) && HeadInputs(taken, core.replays[0])
  {
    assert Known(core.(replays := core.replays[1..])) == Known(core);
    hide LogDistinct, UsersOk, LoggedKeys, PendingKeys;
  }

  lemma ReplayingLogs(m: Machine, e: Event)
    requires Inv(m) && OnceInv(m, false) && ApplyInv(m) && InputsInv(m) && m.pc.Replaying?
    ensures InputsInv(FromReplaying(m, e))
  {
    if m.session.core.replays != [] {
      if e.Consume? {
        ConsumeLogs(m, e.commit);
      }
      hide ConsumeHead, InputsInv, Inv, ApplyInv;
    } else if e.Prepare? {
      var core := m.session.core;
      if m.pc.mode.Fresh? {
        PrepareLogs(m, e);
        hide FromReplaying, InputsInv, Inv, ApplyInv;
      } else {
        InputBehindLogs(m);
        hide FromReplaying, InputsInv, Inv, ApplyInv;
      }
    }
  }

  /** A pending input joins the log of a batch that is about to run. */
  lemma InputBehindLogs(m: Machine)
    requires InputsInv(m) && m.pc.Replaying? && m.pc.mode.Projected? && m.session.core.replays == []
    ensures forall e: Event :: e.Prepare? ==> InputsInv(FromReplaying(m, e))
  {
    var core := m.session.core;
    var logged := AppendInput(m.session).core;
    LogInput(core.messages, core.input, core.submits);
    AppliedGrows(core.messages, InputMessages(core.input), core.step);
    assert Known(logged) == Known(core);
    hide LogDistinct, UsersOk, SourcesOk, Known, Applied, LoggedKeys, InputMessages, DurableInputs, JournalDistinct, Below;
  }

  lemma PrepareLogs(m: Machine, e: Event)
    requires InputsInv(m) && m.pc.Replaying? && m.pc.mode.Fresh? && m.session.core.replays == [] && e.Prepare?
    ensures InputsInv(FromReplaying(m, e))
  {
    hide CoreInputs, SentInputs, DurableInputs, JournalDistinct, Unsent, AppendObservations, AppendInput, FreshInputs;
    InputsLogged(m.session);
    var s := AppendObservations(AppendInput(m.session));
    ClearKeep(s.core);
    MovesOn(m, s.core, FromReplaying(m, e));
  }

  lemma HandlingLogs(m: Machine, e: Event)
    requires Inv(m) && OnceInv(m, false) && ApplyInv(m) && InputsInv(m) && m.pc.Handling?
    ensures InputsInv(FromHandling(m, e))
  {
    match e
    case Handled(output) => ReplayLogs(m, output);
    case Halt(stop) =>
      assert !m.session.callsPending && !CurrentSettled(m.session.core.step, m.session.core.invocation);
      HaltInputs(m, m.session, stop);
      hide CoreInputs, DurableInputs, JournalDistinct, Inv, ApplyInv, HaltRun;
      StillKeeps(m, HaltRun(m, m.session, stop));
    case _ =>
  }

  /** The head's output is the first with its key. */
  lemma ReplayLogs(m: Machine, output: Option<nat>)
    requires Inv(m) && InputsInv(m) && m.pc.Handling?
    ensures InputsInv(FromHandling(m, Handled(output)))
  {
    var core, head := m.session.core, m.pc.head;
    if output.Some? {
      var observation := Observation(ReplayOutput(head), 0, output.value);
      PendingAppend(core.observations, [observation]);
      SingleKey(observation);
      var core' := CompleteReplay(m.session, head, output).core;
      assert Known(core') == Known(core) + {ReplayOutput(head)};
      OutputIsNew(core, observation);
      hide LogDistinct, UsersOk, LoggedKeys, PendingKeys, DurableInputs, JournalDistinct, Inv, Unsent;
    } else {
      hide CoreInputs, DurableInputs, JournalDistinct, Inv;
      StillKeeps(m, FromHandling(m, Handled(output)));
    }
  }

  lemma SingleKey(observation: Observation)
    ensures PendingKeys([observation]) == {observation.key}
  {
    assert [observation][0] == observation;
  }

  lemma OutputIsNew(core: Core, observation: Observation)
    requires Unsent(core.messages, core.observations) && observation.key !in Known(core)
    ensures Unsent(core.messages, core.observations + [observation])
  {
    var observations := core.observations + [observation];
    PendingAppend(core.observations, [observation]);
    forall i, j | 0 <= i < j < |observations|
      ensures observations[i].key != observations[j].key
    {
      if j == |core.observations| {
        assert core.observations[i].key in PendingKeys(core.observations);
      }
    }
    hide LoggedKeys;
  }

  // ---------- The paid call ----------

  lemma JournalNames(journal: Journal, step: nat, entry: Entry)
    requires JournalDistinct(journal)
    requires entry.Settled? && entry.outcome.Answer? ==> DistinctCalls(entry.outcome.turn)
    ensures JournalDistinct(journal[step := entry])
  {
    hide DistinctCalls;
  }

  /** A transition of the paid call: the journal may gain a head, no input moves. */
  lemma CallKeepsInputs(m: Machine, m': Machine)
    requires InputsInv(m) && !m.pc.Down?
    requires JournalDistinct(m'.journal) && m'.durable == m.durable && SameInputs(m.session.core, m'.session.core)
    requires PcInputs(m')
    ensures InputsInv(m')
  {
    SameInputsKeep(m.session.core, m'.session.core);
    hide CoreInputs, PcInputs, DurableInputs, JournalDistinct, Unsent, Known;
  }

  lemma AccountMovesNoInput(s: Session, step: nat, receipt: Usage)
    ensures var r := Account(s, step, receipt, map[]);
      r.Some? ==>
        && SameInputs(s.core, r.value.core) && r.value.core.observations == s.core.observations
        && r.value.core.invocation == s.core.invocation && r.value.callsPending == s.callsPending
        && r.value.resumeStep == s.resumeStep && r.value.core.terminal == s.core.terminal
  {
    hide Covers, DeltaOf, Sum;
  }

  /** The settled outcome is handed on, or waits for its evidence with its inputs kept. */
  lemma DeliverLogs(m: Machine, s: Session, entry: Entry)
    requires entry.Settled? && CoreInputs(s.core) && SentInputs(s.core)
    requires !s.callsPending && s.core.step >= 1 && CurrentSettled(s.core.step, s.core.invocation)
    ensures PcInputs(Deliver(m, s, entry)) && SameInputs(s.core, Deliver(m, s, entry).session.core)
    ensures PcInputs(AwaitEvidence(m, s, entry)) && SameInputs(s.core, AwaitEvidence(m, s, entry).session.core)
    ensures Deliver(m, s, entry).journal == m.journal && Deliver(m, s, entry).durable == m.durable
    ensures AwaitEvidence(m, s, entry).journal == m.journal && AwaitEvidence(m, s, entry).durable == m.durable
  {
    AccountMovesNoInput(s, s.core.step, entry.receipt);
    FailInputs(m, s, NoCode);
    hide Account, CoreInputs, LoggedKeys, Below, Unsent, FailRun, FailTurn, ParkInputs, CurrentSettled;
    match Account(s, s.core.step, entry.receipt, map[])
    case None =>
    case Some(s') => SettledFails(m, s, s');
  }

  lemma SettledFails(m: Machine, s: Session, s': Session)
    requires CoreInputs(s.core) && SentInputs(s.core) && SameInputs(s.core, s'.core)
    requires s'.core.observations == s.core.observations && s'.core.invocation == s.core.invocation
    requires !s'.callsPending && s.core.step >= 1 && CurrentSettled(s.core.step, s.core.invocation)
    ensures var m' := FailTurn(m, s', NoCode); PcInputs(m') && SameInputs(s.core, m'.session.core) && m'.journal == m.journal && m'.durable == m.durable
    ensures var m' := FailTurn(m, s', EvidenceUncommitted);
      PcInputs(m') && SameInputs(s.core, m'.session.core) && m'.journal == m.journal && m'.durable == m.durable
    ensures var m' := FailRun(m, s'); PcInputs(m') && SameInputs(s.core, m'.session.core) && m'.journal == m.journal && m'.durable == m.durable
  {
    SameInputsKeep(s.core, s'.core);
    SentParks(s'.core, Suspension(TurnFailed, EvidenceUncommitted, false));
    FailInputs(m, s', EvidenceUncommitted);
    FailInputs(m, s', NoCode);
    hide CoreInputs, ParkInputs, CurrentSettled, SentInputs;
    assert ParkInputs(s'.core.(observations := []), Suspension(TurnFailed, NoCode, false)) by {
      ClearedParks(s'.core, NoCode);
    }
  }

  lemma ClearedParks(core: Core, code: Code)
    requires CoreInputs(core) && !code.EvidenceUncommitted?
    ensures ParkInputs(core.(observations := []), Suspension(TurnFailed, code, false))
  {
    ClearKeep(core);
    hide CoreInputs;
  }

  /** A boundary between two dispatches: an absorbed refusal is recovered, and otherwise nothing sent is pending. */
  lemma PreemptLogs(m: Machine, head: Entry, spent: Usage, stop: Stop)
    requires Inv(m) && OnceInv(m, false) && ApplyInv(m) && InputsInv(m) && (m.pc.Ready? || m.pc.Backoff?)
    requires head.Settled? || head.Reserved?
    requires head.Reserved? && stop.DrainStop? ==> m.session.core.observations == []
    ensures InputsInv(PreemptCall(m, head, spent, stop))
  {
    var s := Observe(m.session, m.session.core.step, head);
    assert !s.callsPending && SentInputs(s.core);
    assert s.core.step >= 1 by {
      hide Applied, InputsInv, Inv, ApplyInv, OnceCore, DurableOnce;
    }
    AccountMovesNoInput(s, s.core.step, spent);
    hide Account, HaltRun, FailRun, OnceInv, ApplyInv, Inv, CoreInputs, DurableInputs, JournalDistinct, SentInputs;
    SameInputsKeep(m.session.core, s.core);
    FailInputs(m, s, NoCode);
    var r := Account(s, s.core.step, spent, map[]);
    match r
    case None =>
      Chains(m.session.core, s.core, FailRun(m, s).session.core);
      StillKeeps(m, FailRun(m, s));
    case Some(s') =>
      SameInputsKeep(s.core, s'.core);
      SentStays(s.core, s'.core);
      PreemptedHalts(m, s', head, stop);
      Chains(m.session.core, s.core, s'.core);
      Chains(m.session.core, s'.core, HaltRun(m, s', stop).session.core);
      StillKeeps(m, HaltRun(m, s', stop));
  }

  lemma SentStays(before: Core, after: Core)
    requires SentInputs(before) && SameInputs(before, after) && after.observations == before.observations
    ensures SentInputs(after)
  {
    hide LoggedKeys;
  }

  lemma PreemptedHalts(m: Machine, s: Session, head: Entry, stop: Stop)
    requires CoreInputs(s.core) && SentInputs(s.core) && !s.callsPending && s.core.step >= 1
    requires s.core.invocation == Some(Invocation(s.core.step, head)) && (head.Settled? || head.Reserved?)
    requires head.Reserved? && stop.DrainStop? ==> s.core.observations == []
    ensures PcInputs(HaltRun(m, s, stop)) && SameInputs(s.core, HaltRun(m, s, stop).session.core)
    ensures HaltRun(m, s, stop).journal == m.journal && HaltRun(m, s, stop).durable == m.durable
  {
    hide CoreInputs, HaltRun, PcInputs, Below, LoggedKeys;
    if head.Settled? {
      SentParks(s.core, Suspension(InterruptedPark, NoCode, false));
    } else {
      ClearKeep(s.core);
    }
    HaltInputs(m, s, stop);
  }

  /** Before a dispatch, a drain is safe exactly because nothing sent is pending. */
  lemma HaltUnsettled(m: Machine, stop: Stop)
    requires Inv(m) && OnceInv(m, false) && ApplyInv(m) && InputsInv(m) && m.pc.Requesting?
    requires stop.DrainStop? ==> m.session.core.observations == []
    ensures InputsInv(HaltRun(m, m.session, stop))
  {
    var s := m.session;
    assert !s.callsPending && !CurrentSettled(s.core.step, s.core.invocation);
    ClearKeep(s.core);
    HaltInputs(m, s, stop);
    hide CoreInputs, DurableInputs, JournalDistinct, Inv, ApplyInv, HaltRun, PcInputs;
    StillKeeps(m, HaltRun(m, s, stop));
  }

  lemma FoundLogs(m: Machine, entry: Entry, halt: Option<Stop>, again: bool)
    requires Inv(m) && OnceInv(m, false) && ApplyInv(m) && InputsInv(m) && m.pc.Requesting?
    requires entry.Settled? && m.session.core.step in m.journal && m.journal[m.session.core.step] == entry
    ensures InputsInv(ReuseSettled(m, entry, halt, again))
    ensures InputsInv(AwaitEvidence(m, Observe(m.session, m.session.core.step, entry), entry))
  {
    var s := Observe(m.session, m.session.core.step, entry);
    assert !s.callsPending && SentInputs(s.core);
    assert s.core.step >= 1 by {
      hide Applied, InputsInv, Inv, ApplyInv, OnceCore, DurableOnce;
    }
    hide OnceInv;
    SameInputsKeep(m.session.core, s.core);
    DeliverLogs(m, s, entry);
    if halt.Some? {
      SentParks(s.core, Suspension(InterruptedPark, NoCode, false));
      HaltInputs(m, s, halt.value);
      Chains(m.session.core, s.core, HaltRun(m, s, halt.value).session.core);
    }
    Chains(m.session.core, s.core, Deliver(m, s, entry).session.core);
    Chains(m.session.core, s.core, AwaitEvidence(m, s, entry).session.core);
    hide CoreInputs, DurableInputs, JournalDistinct, Inv, ApplyInv, HaltRun, PcInputs, Deliver, AwaitEvidence, SentInputs,
         MayRetry;
    StillKeeps(m, AwaitEvidence(m, s, entry));
    if halt.None? {
      StillKeeps(m, Deliver(m, s, entry));
      AbsorbedLogs(m, entry);
    } else if !halt.value.UserStop? {
      StillKeeps(m, HaltRun(m, s, halt.value));
    }
  }

  lemma AbsorbedLogs(m: Machine, entry: Entry)
    requires InputsInv(m) && m.pc.Requesting? && entry.Settled?
    ensures InputsInv(m.(pc := Backoff(entry.request, entry.attempt, entry.receipt, m.pc.resumed)))
  {
    hide CoreInputs, DurableInputs, JournalDistinct, SentInputs;
  }

  lemma Chains(a: Core, b: Core, c: Core)
    requires SameInputs(a, b) && SameInputs(b, c)
    ensures SameInputs(a, c)
  {
  }

  lemma RefuseLogs(m: Machine, head: Entry)
    requires InputsInv(m) && !m.pc.Down?
    requires head.Settled? && head.outcome.Answer? ==> DistinctCalls(head.outcome.turn)
    ensures InputsInv(RefuseProbe(m, m.session.core.step, head))
  {
    var step := m.session.core.step;
    var m' := m.(journal := m.journal[step := head]);
    var s := Observe(m.session, step, head);
    JournalNames(m.journal, step, head);
    SameInputsKeep(m.session.core, s.core);
    FailInputs(m', s, NoCode);
    Chains(m.session.core, s.core, FailRun(m', s).session.core);
    hide CoreInputs, DurableInputs, JournalDistinct, FailRun, PcInputs;
    CallKeepsInputs(m, RefuseProbe(m, step, head));
  }

  lemma ReserveLogs(m: Machine, request: Request, resumed: bool, halt: Option<Stop>)
    requires Inv(m) && OnceInv(m, false) && ApplyInv(m) && InputsInv(m) && m.pc.Requesting?
    requires halt == Some(DrainStop) ==> m.session.core.observations == []
    ensures InputsInv(ReserveDispatch(m, request, resumed, halt))
  {
    hide Inv, OnceCore, DurableOnce, CoreInputs, DurableInputs, JournalDistinct, HaltRun;
    match halt
    case None =>
      JournalNames(m.journal, m.session.core.step, Reserved(request, 1));
      CallKeepsInputs(m, ReserveDispatch(m, request, resumed, halt));
    case Some(stop) =>
      hide InputsInv, HaltRun, Inv, ApplyInv;
      if !stop.UserStop? || resumed {
        HaltUnsettled(m, stop);
      }
  }

  lemma JournalNamesHead(m: Machine)
    requires InputsInv(m) && m.session.core.step in m.journal
    ensures var head := m.journal[m.session.core.step];
      head.Settled? && head.outcome.Answer? ==> DistinctCalls(head.outcome.turn)
  {
    assert SettledAt(m.journal, m.session.core.step) || !m.journal[m.session.core.step].Settled?;
  }

  lemma RequestingLogs(m: Machine, e: Event)
    requires Inv(m) && OnceInv(m, false) && ApplyInv(m) && InputsInv(m) && m.pc.Requesting? && DrainsKeepNothingSent(m, e)
    ensures InputsInv(FromRequesting(m, e))
  {
    var step, request := m.session.core.step, m.pc.request;
    hide Inv, OnceInv, ApplyInv, InputsInv, ReserveDispatch, RefuseProbe, AwaitEvidence, ReuseSettled, DistinctCalls;
    if e.Probe? {
      if step !in m.journal {
        ReserveLogs(m, request, m.pc.resumed, e.halt);
      } else if m.journal[step].Settled? {
        FoundLogs(m, m.journal[step], e.halt, e.again);
        JournalNamesHead(m);
        RefuseLogs(m, m.journal[step]);
      } else {
        ReserveLogs(m, request, m.pc.resumed, e.halt);
        RefuseLogs(m, m.journal[step]);
        RefuseLogs(m, Unknown(request, m.journal[step].attempt));
      }
    }
  }

  lemma ReadyLogs(m: Machine, e: Event)
    requires Inv(m) && OnceInv(m, false) && ApplyInv(m) && InputsInv(m) && m.pc.Ready? && DrainsKeepNothingSent(m, e)
    ensures InputsInv(FromReady(m, e))
  {
    hide Inv, OnceInv, CoreInputs, DurableInputs, JournalDistinct, PreemptCall;
    match e
    case Dispatch =>
      JournalNames(m.journal, m.session.core.step, Started(m.pc.request, m.pc.attempt));
      CallKeepsInputs(m, FromReady(m, e));
    case Halt(stop) =>
      hide InputsInv, PreemptCall, Inv, OnceInv, ApplyInv;
      if !stop.UserStop? {
        PreemptLogs(m, Reserved(m.pc.request, m.pc.attempt), m.pc.spent, stop);
      }
    case _ =>
  }

  lemma BackoffLogs(m: Machine, e: Event)
    requires Inv(m) && OnceInv(m, false) && ApplyInv(m) && InputsInv(m) && m.pc.Backoff?
    ensures InputsInv(FromBackoff(m, e))
  {
    hide Inv, OnceInv, CoreInputs, DurableInputs, JournalDistinct, PreemptCall;
    match e
    case Go =>
      JournalNames(m.journal, m.session.core.step, Reserved(m.pc.request, m.pc.attempt + 1));
      CallKeepsInputs(m, FromBackoff(m, e));
    case Halt(stop) =>
      BackoffIsSettled(m);
      hide InputsInv, PreemptCall, Inv, OnceInv, ApplyInv;
      PreemptLogs(m, m.journal[m.session.core.step], m.pc.spent, stop);
    case _ =>
  }

  lemma BackoffIsSettled(m: Machine)
    requires Inv(m) && m.pc.Backoff?
    ensures SettledAt(m.journal, m.session.core.step)
  {
    hide BooksOk, DurableOk, CoreOk;
  }

  /** While a call is in flight nothing else is pending, and its step has been allocated. */
  lemma InFlightFacts(m: Machine, entry: Entry)
    requires OnceInv(m, false) && ApplyInv(m) && InputsInv(m) && m.pc.InFlight?
    ensures var s := Observe(m.session, m.session.core.step, entry);
      !s.callsPending && SentInputs(s.core) && s.core.step >= 1
  {
    hide Applied, OnceCore, DurableOnce, DurableInputs, DurableApply, JournalDistinct;
  }

  lemma SettlesLogs(m: Machine, usage: Usage, outcome: Outcome, evidenceOk: bool, again: bool)
    requires Inv(m) && OnceInv(m, false) && ApplyInv(m) && InputsInv(m) && m.pc.InFlight?
    requires outcome.Answer? ==> DistinctCalls(outcome.turn)
    ensures InputsInv(SettleDispatch(m, usage, outcome, evidenceOk, again))
  {
    hide Inv, OnceInv, ApplyInv, Sum, MayRetry, CoreInputs, DurableInputs, JournalDistinct, Deliver, AwaitEvidence, SentInputs;
    var step := m.session.core.step;
    var entry := Settled(m.pc.request, m.pc.attempt, Sum(m.pc.spent, usage), outcome);
    var m' := EndAttempt(m, entry, usage);
    var s := Observe(m.session, step, entry);
    JournalNames(m.journal, step, entry);
    InFlightFacts(m, entry);
    SameInputsKeep(m.session.core, s.core);
    DeliverLogs(m', s, entry);
    Chains(m.session.core, s.core, Deliver(m', s, entry).session.core);
    Chains(m.session.core, s.core, AwaitEvidence(m', s, entry).session.core);
    CallKeepsInputs(m, SettleDispatch(m, usage, outcome, evidenceOk, again));
  }

  lemma LossLogs(m: Machine, loss: Loss)
    requires InputsInv(m) && m.pc.InFlight? && !loss.TaskCancelled?
    requires loss.StoredThenRaised? && loss.outcome.Answer? ==> DistinctCalls(loss.outcome.turn)
    ensures InputsInv(LoseDispatch(m, loss))
  {
    var step, head := m.session.core.step, LostHead(m.pc, loss);
    var ended, s := EndAttempt(m, head, loss.usage), Observe(m.session, step, head);
    JournalNames(m.journal, step, head);
    hide CoreInputs, DurableInputs, JournalDistinct, FailRun, PcInputs, Sum, Account;
    SameInputsKeep(m.session.core, s.core);
    AccountMovesNoInput(s, step, Sum(m.pc.spent, loss.usage));
    FailInputs(ended, s, NoCode);
    Chains(m.session.core, s.core, FailRun(ended, s).session.core);
    var r := Account(s, step, Sum(m.pc.spent, loss.usage), map[]);
    if r.Some? {
      SameInputsKeep(s.core, r.value.core);
      FailInputs(ended, r.value, NoCode);
      Chains(m.session.core, s.core, r.value.core);
      Chains(m.session.core, r.value.core, FailRun(ended, r.value).session.core);
    }
    FailKeepsStores(ended, if r.Some? then r.value else s);
    CallKeepsInputs(m, LoseDispatch(m, loss));
  }

  /** A cancelled call leaves no park; with nothing pending there is nothing to log again. */
  lemma CancelLogs(m: Machine, loss: Loss)
    requires Inv(m) && OnceInv(m, false) && InputsInv(m) && m.pc.InFlight? && loss.TaskCancelled? && m.session.core.observations == []
    ensures InputsInv(LoseDispatch(m, loss))
  {
    hide Inv, OnceInv, CoreInputs, DurableInputs, JournalDistinct, FailRun, Sum, Account, PumpInputs, Known;
    var step, head := m.session.core.step, LostHead(m.pc, loss);
    var ended, s := EndAttempt(m, head, loss.usage), Observe(m.session, step, head);
    NoObservation(m, false);
    ResumeIsSpent(m);
    JournalNames(m.journal, step, head);
    SameInputsKeep(m.session.core, s.core);
    AccountMovesNoInput(s, step, Sum(m.pc.spent, loss.usage));
    FailInputs(ended, s, NoCode);
    FailKeepsStores(ended, s);
    Chains(m.session.core, s.core, FailRun(ended, s).session.core);
    var r := Account(s, step, Sum(m.pc.spent, loss.usage), map[]);
    if r.Some? {
      Chains(m.session.core, s.core, r.value.core);
      AccountKeepsInput(s, step, Sum(m.pc.spent, loss.usage));
      AccountKeepsResume(s, step, Sum(m.pc.spent, loss.usage));
      assert Unsent(r.value.core.messages, []);
    }
    CallKeepsInputs(m, LoseDispatch(m, loss));
  }

  lemma AccountKeepsResume(s: Session, step: nat, receipt: Usage)
    ensures var r := Account(s, step, receipt, map[]); r.Some? ==> r.value.resumeStep == s.resumeStep
  {
    hide Covers, DeltaOf, Sum;
  }

  lemma FailKeepsStores(m: Machine, s: Session)
    ensures FailRun(m, s).journal == m.journal && FailRun(m, s).durable == m.durable
  {
  }

  lemma InFlightLogs(m: Machine, e: Event)
    requires Inv(m) && OnceInv(m, false) && ApplyInv(m) && InputsInv(m) && m.pc.InFlight? && NamesCallsApart(e)
    requires ReplaysAreKept(m, e)
    ensures InputsInv(FromInFlight(m, e))
  {
    hide InputsInv, Inv, OnceInv, ApplyInv, SettleDispatch, LoseDispatch, DistinctCalls, WellFormed;
    match e
    case Settle(usage, outcome, evidenceOk, again) => SettlesLogs(m, usage, outcome, evidenceOk, again);
    case Lose(loss) =>
      if loss.TaskCancelled? {
        CancelLogs(m, loss);
      } else {
        LossLogs(m, loss);
      }
    case _ =>
  }

  // ---------- The answer and its batch ----------

  lemma BatchBeginsLogs(m: Machine, e: Event)
    requires InputsInv(m) && m.pc.Answered? && m.pc.turn.calls != [] && e.Proceed?
    ensures InputsInv(FromAnswered(m, e))
  {
    var s, turn := m.session, m.pc.turn;
    hide CoreInputs, WithoutCalls, DurableInputs, JournalDistinct, Unsent, LoggedKeys, CompletedCalls, Below;
    if m.pc.projected {
      StillKeeps(m, FromAnswered(m, e));
    } else {
      LogSpeech(s.core, AssistantMessage(s.core.step, turn));
      ClearKeep(ProjectTurn(s, turn).core);
      MovesOn(m, ProjectTurn(s, turn).core, FromAnswered(m, e));
    }
  }

  lemma AnsweredLogs(m: Machine, e: Event)
    requires OnceInv(m, false) && ApplyInv(m) && InputsInv(m) && m.pc.Answered?
    ensures InputsInv(FromAnswered(m, e))
  {
    var turn, s := m.pc.turn, m.session;
    match e
    case Halt(stop) =>
      if !m.pc.projected {
        SentParks(s.core, Suspension(InterruptedPark, NoCode, false));
      }
      HaltInputs(m, s, stop);
      hide CoreInputs, DurableInputs, JournalDistinct, ApplyInv, HaltRun;
      StillKeeps(m, HaltRun(m, s, stop));
    case Proceed(jobs) =>
      if turn.calls == [] {
        LogSpeech(s.core, AssistantMessage(s.core.step, turn));
        ToolFreeInputs(m, if m.pc.projected then s else ProjectTurn(s, turn), turn, jobs);
        hide WithoutCalls, ApplyInv, InputsInv;
      } else {
        BatchBeginsLogs(m, e);
        hide ApplyInv, InputsInv, FromAnswered;
      }
    case _ =>
  }

  /** A batch's outputs are new: its calls are named apart and none of its step is logged. */
  lemma BatchUnsent(core: Core)
    requires BatchLog(core) && BatchInputs(core) && DistinctCalls(LastTurn(core))
    ensures Unsent(core.messages, core.observations)
  {
    forall key | key in PendingKeys(core.observations)
      ensures key !in LoggedKeys(core.messages)
    {
      var i :| 0 <= i < |core.observations| && core.observations[i].key == key;
      assert key.CallOutput? && key.step == core.step;
    }
    hide LoggedKeys;
  }

  lemma BatchNamesCalls(m: Machine)
    requires OnceInv(m, false) && ApplyInv(m) && InputsInv(m) && !m.pc.Down? && BatchLog(m.session.core)
    ensures DistinctCalls(LastTurn(m.session.core))
  {
    hide DistinctCalls, CoreInputs, DurableInputs, DurableApply, PcApply;
    var core := m.session.core;
    var last := core.messages[|core.messages| - if OwnAnswerAt(core, |core.messages| - 1) then 1 else 2];
    assert SettledAt(m.journal, last.step) && m.journal[last.step].outcome == Answer(last.turn);
  }

  lemma EndBatchLogs(m: Machine, s: Session)
    requires InputsInv(m) && m.pc.Batch? && SameInputs(m.session.core, s.core) && !s.resumeStep
    requires Unsent(s.core.messages, s.core.observations) && !s.core.code.EvidenceUncommitted?
    ensures InputsInv(EndBatch(m, s, m.pc.turn))
  {
    SameInputsKeep(m.session.core, s.core);
    hide CoreInputs, DurableInputs, JournalDistinct, Unsent;
    MovesOn(m, s.core, EndBatch(m, s, m.pc.turn));
  }

  lemma CallLogs(m: Machine, output: nat, finishes: bool)
    requires OnceInv(m, false) && ApplyInv(m) && InputsInv(m) && m.pc.Calling?
    ensures InputsInv(FromCalling(m, Complete(output, finishes)))
  {
    hide ApplyInv;
    if m.pc.next < |m.pc.turn.calls| {
      var call := m.pc.turn.calls[m.pc.next];
      OutputJoins(m.session.core, Observation(CallOutput(m.session.core.step, call.id), call.name, output));
      var core' := CompleteCall(m.session, call, output, finishes).core;
      assert core' == m.session.core.(observations := core'.observations, finish := core'.finish);
      hide LogDistinct, UsersOk, SourcesOk, LoggedKeys, PendingKeys, DurableInputs, JournalDistinct;
    }
  }

  /** A call's output is a key of the current step. */
  lemma OutputJoins(core: Core, observation: Observation)
    requires CoreInputs(core) && observation.key.CallOutput? && observation.key.step == core.step
    ensures var core' := core.(observations := core.observations + [observation]);
      SourcesOk(Known(core'), core'.ready, core'.delivered, core'.replays) && Below(Known(core'), core'.step + 1)
  {
    PendingAppend(core.observations, [observation]);
    SingleKey(observation);
    var core' := core.(observations := core.observations + [observation]);
    assert Known(core') == Known(core) + {observation.key};
    hide LogDistinct, UsersOk, LoggedKeys, PendingKeys;
  }

  lemma TurnHalts(m: Machine, stop: Stop)
    requires OnceInv(m, false) && ApplyInv(m) && InputsInv(m) && (m.pc.Batch? || m.pc.Calling? || m.pc.Returned?)
    ensures InputsInv(HaltRun(m, m.session, stop))
  {
    assert BatchInputs(m.session.core) && m.session.callsPending && BatchLog(m.session.core);
    HaltInputs(m, m.session, stop);
    hide CoreInputs, DurableInputs, JournalDistinct, ApplyInv, HaltRun, PcInputs;
    StillKeeps(m, HaltRun(m, m.session, stop));
  }

  lemma FinishedBatchLogs(m: Machine, s: Session)
    requires OnceInv(m, false) && ApplyInv(m) && InputsInv(m) && m.pc.Batch? && !m.session.resumeStep
    requires s == m.session || (s.core.code == MaxToolCalls && s.core.observations == m.session.core.observations
                                && SameInputs(m.session.core, s.core) && s.resumeStep == m.session.resumeStep)
    ensures InputsInv(EndBatch(m, s, m.pc.turn))
  {
    BatchNamesCalls(m);
    BatchUnsent(m.session.core);
    CodeIsPlain(m);
    hide CoreInputs, ApplyInv, EndBatch, Unsent, OnceInv;
    EndBatchLogs(m, s);
  }

  lemma BatchLogs(m: Machine, e: Event)
    requires OnceInv(m, false) && ApplyInv(m) && InputsInv(m) && m.pc.Batch? && !m.session.resumeStep
    ensures InputsInv(FromBatch(m, e))
  {
    var s, turn, next := m.session, m.pc.turn, m.pc.next;
    hide ApplyInv, HaltRun, EndBatch;
    if e.Halt? {
      hide InputsInv;
      TurnHalts(m, e.stop);
    } else if e.Go? {
      var counted := s.(core := s.core.(toolCalls := s.core.toolCalls + 1));
      hide EndBatch, ApplyInv;
      if next >= |turn.calls| {
        hide InputsInv;
        FinishedBatchLogs(m, s);
      } else if turn.calls[next].id !in m.pc.done && counted.core.toolCalls > m.config.maxToolCalls {
        hide InputsInv;
        FinishedBatchLogs(m, counted.(core := counted.core.(status := Limited, code := MaxToolCalls)));
      } else {
        CallBeginsLogs(m);
        hide InputsInv;
      }
    }
  }

  /** Skipping or starting a call moves no input. */
  lemma CallBeginsLogs(m: Machine)
    requires InputsInv(m) && m.pc.Batch? && m.pc.next < |m.pc.turn.calls|
    requires m.pc.turn.calls[m.pc.next].id in m.pc.done || m.session.core.toolCalls + 1 <= m.config.maxToolCalls
    ensures InputsInv(FromBatch(m, Go))
  {
    hide CoreInputs, DurableInputs, JournalDistinct, LoggedKeys, Below, EndBatch;
    StillKeeps(m, FromBatch(m, Go));
  }

  lemma CallingLogs(m: Machine, e: Event)
    requires OnceInv(m, false) && ApplyInv(m) && InputsInv(m) && (m.pc.Calling? || m.pc.Returned?)
    ensures m.pc.Calling? ==> InputsInv(FromCalling(m, e))
    ensures m.pc.Returned? ==> InputsInv(FromReturned(m, e))
  {
    match e
    case Halt(stop) =>
      TurnHalts(m, stop);
      hide InputsInv, ApplyInv, HaltRun;
    case Complete(output, finishes) =>
      if m.pc.Calling? {
        CallLogs(m, output, finishes);
      }
      hide InputsInv, ApplyInv, FromCalling;
    case Go =>
      hide CoreInputs, DurableInputs, JournalDistinct, ApplyInv;
      if m.pc.Returned? {
        StillKeeps(m, FromReturned(m, e));
      }
    case _ =>
  }

  // ---------- Settling ----------

  lemma LogFinishLogs(s: Session, fromFinish: bool)
    requires CoreInputs(s.core) && Unsent(s.core.messages, s.core.observations) && Applied(s.core.messages, s.core.step)
    ensures var core' := LogFinish(s, fromFinish).core; CoreInputs(core') && Unsent(core'.messages, core'.observations)
  {
    var core := s.core;
    if fromFinish {
      var logged := core.(messages := core.messages + ObservationMessages(core.observations));
      LogObservations(core.messages, core.observations);
      UsersIgnoreObservations(core.messages, core.observations, core.input, core.submits);
      assert Known(logged) == Known(core);
      AppliedGrows(core.messages, ObservationMessages(core.observations), core.step);
      assert CoreInputs(logged) by {
        hide LogDistinct, UsersOk, SourcesOk, Known, Applied;
      }
      ClearKeep(logged);
      hide CoreInputs, Unsent;
    }
  }

  lemma DecidedLogs(m: Machine, s: Session, reason: Reason, code: Code)
    requires ApplyInv(m) && InputsInv(m) && m.pc.Deciding? && SameInputs(m.session.core, s.core)
    requires !reason.InterruptedPark? && !code.EvidenceUncommitted?
    ensures InputsInv(SettleRun(m, LogFinish(s, m.pc.fromFinish), reason, code))
  {
    hide CoreInputs, LogFinish, Unsent;
    SameInputsKeep(m.session.core, s.core);
    LogFinishLogs(s, m.pc.fromFinish);
    var s' := LogFinish(s, m.pc.fromFinish);
    SettleInputs(m, s', reason, code);
    MovesOn(m, s'.core, SettleRun(m, s', reason, code));
  }

  lemma RepromptLogs(m: Machine)
    requires ApplyInv(m) && InputsInv(m) && m.pc.Deciding? && !m.session.resumeStep
    ensures InputsInv(Reprompt(m, m.pc.fromFinish))
  {
    var m', fromFinish := Reprompt(m, m.pc.fromFinish), m.pc.fromFinish;
    var recorded := RecordFailure(m.session);
    var s := DropFinish(recorded.(core := recorded.core.(retries := recorded.core.retries + 1)), fromFinish);
    SameInputsKeep(m.session.core, s.core);
    LogFinishLogs(s, fromFinish);
    var logged := LogFinish(s, fromFinish);
    ClearKeep(logged.core);
    LogSpeech(logged.core.(observations := []), RepairMessage);
    ClearKeep(m'.session.core);
    assert m'.session.core.observations == [];
    assert m'.session.core == logged.core.(observations := [], messages := logged.core.messages + [RepairMessage]);
    assert !m'.session.resumeStep;
    hide CoreInputs, LogFinish, Unsent, Reprompt, DurableInputs, JournalDistinct;
  }

  lemma DecidingLogs(m: Machine, e: Event)
    requires OnceInv(m, false) && ApplyInv(m) && InputsInv(m) && m.pc.Deciding? && !m.session.resumeStep
    requires StopsSeeTheAnswer(m, e)
    ensures InputsInv(FromDeciding(m, e))
  {
    var s := m.session;
    match e
    case Halt(stop) =>
      BoundaryHalts(m, stop);
      HaltInputs(m, s, stop);
      hide CoreInputs, DurableInputs, JournalDistinct, ApplyInv, HaltRun;
      StillKeeps(m, HaltRun(m, s, stop));
    case Decide(verdict) =>
      hide InputsInv, ApplyInv, FailRun, SettleRun, Reprompt, Exhaust, LogFinish;
      if m.pc.turn.stop == Refusal {
        DecidedLogs(m, WithOutcome(s, Failed, OutputRefused), SettledPark, OutputRefused);
      } else if m.pc.turn.stop == Length {
        DecidedLogs(m, WithOutcome(s, Limited, OutputTruncated), LimitedPark, OutputTruncated);
      } else {
        match verdict {
          case Passed => DecidedLogs(m, s, SettledPark, NoCode);
          case Defect => DefectLogs(m);
          case Rejected =>
            ExhaustLogs(m);
            RepromptLogs(m);
        }
      }
    case _ =>
  }

  lemma DefectLogs(m: Machine)
    requires InputsInv(m) && m.pc.Deciding?
    ensures InputsInv(FailRun(m, m.session))
  {
    FailInputs(m, m.session, NoCode);
    hide CoreInputs, DurableInputs, JournalDistinct, FailRun, PcInputs;
    StillKeeps(m, FailRun(m, m.session));
  }

  lemma ExhaustLogs(m: Machine)
    requires ApplyInv(m) && InputsInv(m) && m.pc.Deciding?
    ensures InputsInv(Exhaust(m, m.pc.fromFinish))
  {
    hide InputsInv, SettleRun, LogFinish;
    DecidedLogs(m, DropFinish(WithOutcome(RecordFailure(m.session), Limited, ValidatorUnsatisfied), m.pc.fromFinish),
                LimitedPark, ValidatorUnsatisfied);
  }

  // ---------- Parks, reports, restores ----------

  lemma ParkingLogs(m: Machine, e: Event)
    requires Inv(m) && OnceInv(m, false) && ApplyInv(m) && InputsInv(m) && m.pc.Parking? && Orderly(m, e)
    requires ReplaysAreKept(m, e)
    ensures InputsInv(FromParking(m, e))
  {
    ResumeIsSpent(m);
    NoObservation(m, false);
    hide CoreInputs, FreshInputs, JournalDistinct, Inv, OnceInv, BatchInputs, LastIsAnswer, CurrentSettled;
  }

  lemma ReportedKeeps(core: Core, task: Task)
    requires CoreInputs(core) && task.id !in core.delivered && task.id !in TaskIds(core.ready)
    ensures CoreInputs(core.(ready := core.ready + [task])) && Known(core.(ready := core.ready + [task])) == Known(core)
  {
    hide LogDistinct, UsersOk, LoggedKeys, PendingKeys;
  }

  /** The report changes only the reentry queue, on which no park, pump or step condition depends. */
  lemma ReportLogs(m: Machine, task: Task, persist: Option<Commit>)
    requires OnceInv(m, false) && ApplyInv(m) && InputsInv(m) && !m.pc.Down?
    requires persist.Some? ==> AtQuiescentPark(m.session)
    ensures InputsInv(Reported(m, task, persist))
  {
    var core := m.session.core;
    if task.id !in core.delivered && task.id !in TaskIds(core.ready) {
      ReportedKeeps(core, task);
      var m' := m.(session := m.session.(core := core.(ready := core.ready + [task])));
      assert m'.session.core == core.(ready := core.ready + [task]);
      ReportedPc(m, m');
      assert InputsInv(m') by {
        hide CoreInputs, PcInputs, DurableInputs, JournalDistinct;
      }
      if persist.Some? {
        assert m.pc.Idle?;
        hide CoreInputs, ParkInputs, FreshInputs, JournalDistinct, ApplyInv, TaskIds;
      }
    }
    hide TaskIds;
  }

  lemma ReportedPc(m: Machine, m': Machine)
    requires PcInputs(m) && !m.pc.Down?
    requires m' == m.(session := m.session.(core := m'.session.core))
    requires m'.session.core == m.session.core.(ready := m'.session.core.ready)
    requires Known(m'.session.core) == Known(m.session.core)
    ensures PcInputs(m')
  {
    hide Known, LoggedKeys, PendingKeys, Below, CurrentSettled;
  }

  lemma RestoreLogs(m: Machine)
    requires InputsInv(m) && m.pc.Down?
    ensures InputsInv(m.(pc := Idle, session := Rehydrate(m.durable)))
  {
    EmptyInputs();
    hide CoreInputs, ParkInputs, JournalDistinct, Unsent, Below;
  }

  lemma EmptyInputs()
    ensures CoreInputs(InitialCore) && Unsent([], []) && FreshInputs(InitialCore)
  {
  }

  lemma NextLogs(m: Machine, e: Event)
    requires Inv(m) && OnceInv(m, false) && ApplyInv(m) && InputsInv(m) && Orderly(m, e) && LogsInputsOnce(m, e)
    ensures InputsInv(Next(m, e))
  {
    hide FromIdle, FromTop, FromRecovering, FromRecovered, FromReplaying, FromHandling, FromRequesting, FromReady,
         FromInFlight, FromBackoff, FromAnswered, FromBatch, FromCalling, FromReturned, FromDeciding, FromParking,
         Reported, Rehydrate, PcInputs, CoreInputs, DurableInputs, JournalDistinct, ApplyInv, OnceInv;
    if m.pc.Down? {
      RestoreLogs(m);
    } else if e.Crash? {
    } else if e.Report? {
      ReportLogs(m, e.task, e.persist);
    } else {
      if !m.pc.Idle? && !m.pc.Top? {
        ResumeIsSpent(m);
      }
      hide Inv, ReportsAtPark, StopsSeeTheAnswer, BatchEvidenceHolds, BatchParksHold, InputsInv, DrainsKeepNothingSent, NamesCallsApart,
           ReplaysAreKept;
      match m.pc
      case Idle => IdleLogs(m, e);
      case Top => TopLogs(m, e);
      case Recovering(_) => RecoveringLogs(m, e);
      case Recovered(_, _, _) => RecoveredLogs(m, e);
      case Replaying(_) => ReplayingLogs(m, e);
      case Handling(_, _) => HandlingLogs(m, e);
      case Requesting(_, _) => RequestingLogs(m, e);
      case Ready(_, _, _) => ReadyLogs(m, e);
      case InFlight(_, _, _) => InFlightLogs(m, e);
      case Backoff(_, _, _, _) => BackoffLogs(m, e);
      case Answered(_, _) => AnsweredLogs(m, e);
      case Batch(_, _, _) => BatchLogs(m, e);
      case Calling(_, _, _) => CallingLogs(m, e);
      case Returned(_, _, _) => CallingLogs(m, e);
      case Deciding(_, _) => DecidingLogs(m, e);
      case Parking(_) => ParkingLogs(m, e);
    }
  }

  // ---------- Main result ----------

  lemma {:induction false} RunLogs(config: Config, events: seq<Event>)
    requires Allowed(Orderly, Initial(config), events) && Allowed(LogsInputsOnce, Initial(config), events)
    ensures InputsInv(Run(Initial(config), events))
  {
    var m := Initial(config);
    if events == [] {
      EmptyInputs();
    } else {
      var before, last := events[..|events| - 1], events[|events| - 1];
      AllowedPrefix(Orderly, m, events);
      AllowedPrefix(LogsInputsOnce, m, events);
      hide Orderly, LogsInputsOnce, Next, Inv, ApplyInv, OnceInv, JournalInv, InputsInv, Allowed;
      RunLogs(config, before);
      RunApplies(config, before);
      NextLogs(Run(m, before), last);
    }
  }

  /**
   No tool or task observation and no user message is in the log twice, in the live session and in the
   committed checkpoint, after any orderly run of distinctly named calls in which no drain preempts a
   call whose observations are already logged.
   */
  lemma InputsLoggedOnce(config: Config, events: seq<Event>)
    requires Allowed(Orderly, Initial(config), events) && Allowed(LogsInputsOnce, Initial(config), events)
    ensures var m := Run(Initial(config), events);
      && (!m.pc.Down? ==> LogDistinct(m.session.core.messages))
      && (m.durable.Some? ==> LogDistinct(m.durable.value.core.messages))
  {
    RunLogs(config, events);
    hide Run, Allowed, LogDistinct, PcInputs, SourcesOk;
  }
}
