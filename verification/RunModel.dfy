/**
 The durable run machine of loop.py: one activation pumps a run step by step, parks it, commits a
 checkpoint, and a later activation restores it.

 `Session` is the activation's volatile state, `Checkpoint` what a park commits, `journal` the
 authoritative store of paid model calls. `Next` takes one event at one program point; everything the
 engine does not decide (a stop, a provider answer, a commit outcome, a crash) is part of the event.
 An event that the current program point does not offer leaves the machine unchanged.

 Tags on messages and observations (step, submit and task numbers) and the fields listed as history
 record where a value came from; no transition branches on them.
*/
module RunModel {
  import opened Wrappers
  import opened Usage

  // ---------- Values ----------

  datatype Call = Call(id: nat, name: nat)

  datatype StopReason = Normal | Refusal | Length

  datatype Turn = Turn(calls: seq<Call>, hasText: bool, stop: StopReason)

  // A refusal the kernel may retry is always one that leaves the session alive.
  datatype Outcome = Answer(turn: Turn) | Refused(recoverable: bool, retryable: bool)

  datatype ObsKey = CallOutput(step: nat, call: nat) | TaskOutput(task: nat) | ReplayOutput(task: nat)

  datatype Observation = Observation(key: ObsKey, name: nat, output: nat)

  datatype Message =
    | UserMessage(submit: nat, text: nat)
    | RepairMessage
    | AssistantMessage(step: nat, turn: Turn)
    | ObservationMessage(observation: Observation)

  // The request digest is injective, so a request stands for its own digest. `config` is everything
  // outside the conversation log that enters the digest.
  datatype Request = Request(messages: seq<Message>, config: nat)

  /** One head of the paid-call journal; a receipt covers every attempt of the call so far. */
  datatype Entry =
    | Reserved(request: Request, attempt: nat)
    | Started(request: Request, attempt: nat)
    | Unknown(request: Request, attempt: nat)
    | Settled(request: Request, attempt: nat, receipt: Usage, outcome: Outcome)

  datatype Invocation = Invocation(step: nat, entry: Entry)

  datatype Task = Task(id: nat, approved: bool)

  datatype Input = Input(number: nat, text: nat)

  datatype Bill = Bill(step: nat, amount: Usage)

  /** One entry of a step's call into the provider. */
  datatype Dispatched = Dispatched(step: nat, attempt: nat)

  /** What one attempt reported as its cost when it ended. */
  datatype Spend = Spend(step: nat, attempt: nat, usage: Usage)

  datatype Status = Completed | Limited | Failed

  datatype Code =
    | NoCode | EvidenceUncommitted | MaxToolCalls | MaxSteps | SizeLimit | Draining | Cancelled
    | OutputRefused | OutputTruncated | ValidatorUnsatisfied | RunError

  datatype Reason =
    | SettledPark | LimitedPark | TerminalPark | AwaitingTasks | TurnFailed | InterruptedPark | PausedPark

  datatype Suspension = Suspension(reason: Reason, code: Code, callsPending: bool)

  // ---------- State ----------

  /** What a checkpoint carries and an activation keeps in RunState and _Session. */
  datatype Core = Core(
    step: nat,                          // session_step
    local: nat,                         // submit_local_step
    messages: seq<Message>,
    input: Option<Input>,               // pending_user_input
    observations: seq<Observation>,     // pending_observations
    replays: seq<nat>,                  // pending_tool_approval_replays, by task
    ready: seq<Task>,                   // reentry queue of finished hosted tasks
    delivered: set<nat>,                // delivered_reentry_jobs
    usage: Usage,                       // total_usage
    toolCalls: nat,                     // total_tool_calls
    invocation: Option<Invocation>,     // last_model_invocation
    retries: nat,                       // output_retries
    failures: seq<nat>,                 // output_failure_history, by attempt number
    finish: bool,                       // context.pending_finish
    terminal: bool,
    status: Status,
    code: Code,
    submits: nat,                       // history: inputs accepted
    bills: seq<Bill>)                   // history: amounts folded into usage

  datatype Session = Session(
    core: Core,
    suspension: Option<Suspension>,     // last_suspension
    callsPending: bool,                 // model_tool_calls_pending
    resumeStep: bool,                   // resume_checkpointed_model_step
    seq_: nat)                          // checkpoint_seq

  datatype Checkpoint = Checkpoint(core: Core, suspension: Option<Suspension>, seq_: nat)

  // `maxAttempts` is the kernel's retry plan; up to one attempt means the kernel does not retry.
  datatype Config = Config(maxSteps: nat, maxToolCalls: nat, maxRetries: nat, maxAttempts: nat, evidenceRequired: bool)

  /** `_EvidenceRecovery`. */
  datatype Recovery = Recovery(invocation: Invocation, blocks: bool, projected: bool)

  datatype Mode = Fresh(resumed: bool) | Projected(turn: Turn)

  datatype Pc =
    | Down                                                   // no activation
    | Idle                                                   // parked; the driver owns the session
    | Top                                                    // head of the pump loop
    | Recovering(recovery: Recovery)                         // before `_recover_evidence_dispatch`
    | Recovered(recovery: Recovery, receipt: Usage, outcome: Outcome) // accounted, boundary pending
    | Replaying(mode: Mode)                                  // approval-replay loop
    | Handling(head: nat, mode: Mode)                        // an approved handler is running
    | Requesting(request: Request, resumed: bool)            // inputs logged, journal not yet probed
    | Ready(request: Request, attempt: nat, spent: Usage)    // dispatch reserved
    | InFlight(request: Request, attempt: nat, spent: Usage) // provider entered
    | Backoff(request: Request, attempt: nat, spent: Usage, resumed: bool) // a refusal is absorbed
    | Answered(turn: Turn, projected: bool)                  // accounted, boundary pending
    | Batch(turn: Turn, next: nat, done: set<nat>)           // tool loop, before call `next`
    | Calling(turn: Turn, next: nat, done: set<nat>)         // handler of call `next` is running
    | Returned(turn: Turn, next: nat, done: set<nat>)        // its observation is journaled
    | Deciding(turn: Turn, fromFinish: bool)                 // output validators
    | Parking(suspension: Suspension)                        // before `_persist_checkpoint`

  datatype Machine = Machine(
    config: Config,
    pc: Pc,
    session: Session,
    journal: map<nat, Entry>,
    durable: Option<Checkpoint>,
    dispatched: seq<Dispatched>,        // history: entries into the provider
    spends: seq<Spend>,                 // history: costs the provider's attempts reported
    started: seq<nat>)                  // history: tasks whose approved handler started

  // ---------- Events ----------

  datatype Stop = UserStop | DrainStop | RunStop

  /** Ways `_persist_checkpoint` can go. */
  datatype Commit = Committed | Skipped | Declined | RaisedLost | RaisedStored

  datatype Verdict = Passed | Rejected | Defect

  /**
   Ways a started dispatch ends without a proven outcome: the journal stays as it was, notes the ambiguity,
   or settles and then raises; or the driving task is cancelled.
  */
  datatype Loss =
    | LeftStarted(usage: Usage) | MarkedUnknown(usage: Usage) | StoredThenRaised(usage: Usage, outcome: Outcome)
    | TaskCancelled(usage: Usage)

  datatype Event =
    | Submit(text: nat)
    | Resume
    | Report(task: Task, persist: Option<Commit>)
    | Crash
    | Restore
    | Go
    | Halt(stop: Stop)
    | Pause
    | Recover(evidenceOk: bool)
    | Proceed(jobs: bool)
    | Consume(commit: Commit)
    | Handled(result: Option<nat>)
    | Prepare(config: nat, over: bool)
    | Probe(evidenceOk: bool, halt: Option<Stop>, again: bool)
    | Dispatch
    | Settle(usage: Usage, outcome: Outcome, evidenceOk: bool, again: bool)
    | Lose(loss: Loss)
    | Complete(output: nat, finishes: bool)
    | Decide(verdict: Verdict)
    | Persist(commit: Commit)

  // ---------- Operations of the engine on its session ----------

  const InitialCore := Core(0, 0, [], None, [], [], [], {}, InitialTotal, 0, None, 0, [], false, false,
                            Completed, NoCode, 0, [])

  const InitialSession := Session(InitialCore, None, false, false, 0)

  function Initial(config: Config): Machine {
    Machine(config, Idle, InitialSession, map[], None, [], [], [])
  }

  /** An assistant message that still awaits tool calls is last in the log. */
  predicate ProjectedToolTurn(s: Session) {
    var log := s.core.messages;
    s.callsPending && log != [] && log[|log| - 1].AssistantMessage? && log[|log| - 1].turn.calls != []
  }

  /** `_unapplied_settled_invocation`. */
  function Unapplied(s: Session): Option<Invocation> {
    var log := s.core.messages;
    if s.core.step < 1 || s.core.invocation.None? || !s.core.invocation.value.entry.Settled? then None
    else if log != [] && log[|log| - 1].AssistantMessage? && !ProjectedToolTurn(s) then None
    else if s.core.invocation.value.step != s.core.step then None
    else s.core.invocation
  }

  /** `_evidence_recovery`. */
  function EvidenceRecovery(s: Session): Option<Recovery> {
    if s.suspension.None? then None
    else
      var evidence := s.suspension.value.code == EvidenceUncommitted;
      var interrupted := s.suspension.value.reason == InterruptedPark;
      if !evidence && !interrupted then None
      else match Unapplied(s)
        case None => None
        case Some(invocation) => Some(Recovery(invocation, evidence, s.suspension.value.callsPending))
  }

  /** `_accounted_evidence_usage`: what the park that offered this recovery already charged. */
  function AccountedUsage(recovery: Recovery): Usage {
    if recovery.invocation.entry.Settled? then recovery.invocation.entry.receipt else map[]
  }

  /** Pump entry: the prior park is superseded. */
  function EnterPump(s: Session): Session {
    s.(suspension := None)
  }

  /** The per-submit reset, after `EnterPump`. */
  function AcceptInput(s: Session, text: nat): Session {
    s.(core := s.core.(
      status := Completed, code := NoCode, retries := 0, failures := [], finish := false, local := 0,
      input := Some(Input(s.core.submits + 1, text)), submits := s.core.submits + 1))
  }

  /** A new turn abandons an interrupted result. */
  function AbandonRecovery(s: Session): Session {
    s.(core := s.core.(observations := []), callsPending := false)
  }

  function TaskObservations(tasks: seq<Task>): seq<Observation> {
    seq(|tasks|, i requires 0 <= i < |tasks| => Observation(TaskOutput(tasks[i].id), 0, 0))
  }

  function ApprovedTasks(tasks: seq<Task>): seq<nat> {
    if tasks == [] then []
    else (if tasks[0].approved then [tasks[0].id] else []) + ApprovedTasks(tasks[1..])
  }

  function TaskIds(tasks: seq<Task>): set<nat> {
    set i | 0 <= i < |tasks| :: tasks[i].id
  }

  /** `_pop_background_observations`. */
  function DeliverReady(s: Session): Session {
    s.(core := s.core.(
      observations := s.core.observations + TaskObservations(s.core.ready),
      replays := s.core.replays + ApprovedTasks(s.core.ready),
      delivered := s.core.delivered + TaskIds(s.core.ready),
      ready := []))
  }

  function AllocateStep(s: Session): Session {
    s.(core := s.core.(local := s.core.local + 1, step := s.core.step + 1))
  }

  function InputMessages(input: Option<Input>): seq<Message> {
    match input
    case None => []
    case Some(i) => [UserMessage(i.number, i.text)]
  }

  function ObservationMessages(observations: seq<Observation>): seq<Message> {
    seq(|observations|, i requires 0 <= i < |observations| => ObservationMessage(observations[i]))
  }

  /** Log the new user message, if any. */
  function AppendInput(s: Session): Session {
    s.(core := s.core.(messages := s.core.messages + InputMessages(s.core.input), input := None))
  }

  /** Log the pending observations; they stay pending until the model has consumed them. */
  function AppendObservations(s: Session): Session {
    s.(core := s.core.(messages := s.core.messages + ObservationMessages(s.core.observations)))
  }

  function ClearObservations(s: Session): Session {
    s.(core := s.core.(observations := []))
  }

  /** `_account_model_usage`; None is the malformed or regressed receipt it refuses. */
  ghost function Account(s: Session, step: nat, receipt: Usage, accounted: Usage): Option<Session> {
    if !Covers(receipt, accounted) then None
    else
      var billed := DeltaOf(receipt, accounted);
      if billed == map[] then Some(s)
      else Some(s.(core := s.core.(
        usage := Sum(s.core.usage, billed), bills := s.core.bills + [Bill(step, billed)])))
  }

  /** `_project_successful_model_turn`. */
  function ProjectTurn(s: Session, turn: Turn): Session {
    s.(core := s.core.(messages := s.core.messages + [AssistantMessage(s.core.step, turn)]))
  }

  /** The field becomes the journal of this turn's completed calls. */
  function BeginCalls(s: Session, projected: bool): Session {
    (if projected then s else ClearObservations(s)).(callsPending := true)
  }

  function CompletedCalls(observations: seq<Observation>): set<nat> {
    set i | 0 <= i < |observations| && observations[i].key.CallOutput? :: observations[i].key.call
  }

  /** The recovered journal of completed calls must belong to the stored turn. */
  predicate ProgressMatches(turn: Turn, observations: seq<Observation>) {
    && (forall i, j :: 0 <= i < j < |turn.calls| ==> turn.calls[i].id != turn.calls[j].id)
    && (forall i, j :: 0 <= i < j < |observations| ==> observations[i].key != observations[j].key)
    && (forall i :: 0 <= i < |observations| ==>
          && observations[i].key.CallOutput?
          && exists j :: 0 <= j < |turn.calls| && turn.calls[j] == Call(observations[i].key.call, observations[i].name))
  }

  function CompleteCall(s: Session, call: Call, output: nat, finishes: bool): Session {
    s.(core := s.core.(
      observations := s.core.observations + [Observation(CallOutput(s.core.step, call.id), call.name, output)],
      finish := s.core.finish || finishes))
  }

  function CompleteReplay(s: Session, head: nat, output: Option<nat>): Session {
    match output
    case None => s
    case Some(value) =>
      s.(core := s.core.(observations := s.core.observations + [Observation(ReplayOutput(head), 0, value)]))
  }

  // ---------- Parks ----------

  function Park(m: Machine, s: Session, suspension: Suspension): Machine {
    m.(pc := Parking(suspension), session := s)
  }

  /** `_record_failure` and the terminal park. */
  function FailRun(m: Machine, s: Session): Machine {
    Park(m, s.(core := s.core.(terminal := true, status := Failed, code := RunError)),
         Suspension(TerminalPark, RunError, false))
  }

  /** The recoverable model-turn failure. */
  function FailTurn(m: Machine, s: Session, code: Code): Machine {
    Park(m, if code == EvidenceUncommitted then s else ClearObservations(s), Suspension(TurnFailed, code, false))
  }

  /** A stop observed at a boundary, or raised by a handler. */
  function HaltRun(m: Machine, s: Session, stop: Stop): Machine {
    match stop
    case UserStop =>
      Park(m, if Unapplied(s).None? then ClearObservations(s) else s,
           Suspension(InterruptedPark, NoCode, s.callsPending))
    case DrainStop =>
      Park(m, s.(core := s.core.(code := Draining)), Suspension(InterruptedPark, Draining, s.callsPending))
    case RunStop =>
      Park(m, s.(core := s.core.(terminal := true, status := Limited, code := Cancelled)),
           Suspension(TerminalPark, Cancelled, false))
  }

  /** A suspension the pump returns: a spent tool-call budget ends the run. */
  function SettleRun(m: Machine, s: Session, reason: Reason, code: Code): Machine {
    Park(m, if s.core.code == MaxToolCalls then s.(core := s.core.(terminal := true)) else s,
         Suspension(reason, code, false))
  }

  function LimitRun(m: Machine, s: Session, code: Code): Machine {
    SettleRun(m, s.(core := s.core.(status := Limited, code := code)), LimitedPark, code)
  }

  /** `_persist_checkpoint`: `suspension` is the new observation, None for an internal safety checkpoint. */
  function PersistAs(m: Machine, suspension: Option<Suspension>, commit: Commit): Machine {
    var s := m.session;
    var observed := if suspension.Some? then suspension else s.suspension;
    var number := if commit.Skipped? then s.seq_ else s.seq_ + 1;
    var accepted := commit.Committed? || commit.Declined?;
    m.(session := s.(suspension := if accepted then observed else s.suspension, seq_ := number),
       durable := if commit.Committed? || commit.RaisedStored? then Some(Checkpoint(s.core, observed, number))
                  else m.durable)
  }

  predicate Raised(commit: Commit) {
    commit.RaisedLost? || commit.RaisedStored?
  }

  /** `_rehydrate`, or a fresh open when nothing was committed. */
  function Rehydrate(durable: Option<Checkpoint>): Session {
    match durable
    case None => InitialSession
    case Some(cp) =>
      Session(cp.core, cp.suspension,
              cp.suspension.Some? && cp.suspension.value.callsPending,
              cp.core.step > 0 && cp.suspension.None?,
              cp.seq_)
  }

  // ---------- Transitions, one function per program point ----------

  function FromIdle(m: Machine, e: Event): Machine
    requires m.pc.Idle?
  {
    var s := m.session;
    if s.core.terminal then m
    else
      var recovery := EvidenceRecovery(s);
      match e
      case Submit(text) =>
        if recovery.Some? && (recovery.value.blocks || recovery.value.projected) then m
        else
          var s' := if recovery.Some? then AbandonRecovery(s) else s;
          m.(pc := Top, session := AcceptInput(EnterPump(s'), text))
      case Resume =>
        m.(pc := if recovery.Some? then Recovering(recovery.value) else Top, session := EnterPump(s))
      case _ => m
  }

  /** The step allocated before a crash is taken up again, once, without a boundary check. */
  function ResumeStep(m: Machine): Machine {
    m.(pc := Replaying(Fresh(true)), session := DeliverReady(m.session.(resumeStep := false)))
  }

  function BeginStep(m: Machine): Machine {
    m.(pc := Replaying(Fresh(false)), session := DeliverReady(AllocateStep(m.session)))
  }

  /** The head of the pump loop; a cooperative pause lands only here. */
  function FromTop(m: Machine, e: Event): Machine
    requires m.pc.Top?
  {
    if m.session.resumeStep then
      if e.Go? then ResumeStep(m) else m
    else if m.session.core.local >= m.config.maxSteps then
      if e.Go? then LimitRun(m, m.session, MaxSteps) else m
    else match e
      case Go => BeginStep(m)
      case Halt(stop) => HaltRun(m, m.session, stop)
      case Pause => Park(m, m.session, Suspension(PausedPark, NoCode, false))
      case _ => m
  }

  /** One dispatch identity: the same request, the same attempt. */
  predicate SameDispatch(entry: Entry, other: Entry) {
    entry.request == other.request && entry.attempt == other.attempt
  }

  /** `_recover_evidence_dispatch`, then the accounting at the head of `_aapply_recovered_model_outcome`. */
  ghost function FromRecovering(m: Machine, e: Event): Machine
    requires m.pc.Recovering?
  {
    var s, recovery := m.session, m.pc.recovery;
    match e
    case Recover(evidenceOk) =>
      var step := recovery.invocation.step;
      if step !in m.journal then FailRun(m, s)
      else
        var entry := m.journal[step];
        if entry.Settled? && m.config.evidenceRequired && !evidenceOk then FailTurn(m, s, EvidenceUncommitted)
        else if !entry.Settled? || !SameDispatch(entry, recovery.invocation.entry) then FailRun(m, s)
        else if recovery.blocks && !m.config.evidenceRequired then FailRun(m, s)
        else (match Account(s, step, entry.receipt, AccountedUsage(recovery))
          case None => FailRun(m, s)
          case Some(s') => m.(pc := Recovered(recovery, entry.receipt, entry.outcome), session := s'))
    case _ => m
  }

  /** After a turn without tool calls: park on tasks, settle, or fail. */
  function WithoutCalls(m: Machine, s: Session, turn: Turn, jobs: bool): Machine {
    if jobs then Park(m, ClearObservations(s), Suspension(AwaitingTasks, NoCode, false))
    else if turn.hasText || !turn.stop.Normal? then m.(pc := Deciding(turn, false), session := ClearObservations(s))
    else FailRun(m, s)
  }

  /** A stored refusal; the accounting route is taken a second time, with the same baseline. */
  ghost function RestoreRefusal(m: Machine, recovery: Recovery, receipt: Usage, recoverable: bool): Machine {
    if recovery.projected then FailRun(m, m.session)
    else match Account(m.session, recovery.invocation.step, receipt, AccountedUsage(recovery))
      case None => FailRun(m, m.session)
      case Some(s) => if recoverable then FailTurn(m, s, NoCode) else FailRun(m, s)
  }

  /** A stored answer is projected unless an interrupted activation already did, then applied. */
  function RestoreAnswer(m: Machine, recovery: Recovery, turn: Turn, jobs: bool): Machine {
    var s := if recovery.projected then m.session else ProjectTurn(m.session, turn);
    if turn.calls == [] then
      if recovery.projected then FailRun(m, s) else WithoutCalls(m, s, turn, jobs)
    else if recovery.projected && !ProgressMatches(turn, s.core.observations) then FailRun(m, s)
    else m.(pc := Replaying(Projected(turn)), session := BeginCalls(s, recovery.projected))
  }

  /** The rest of `_aapply_recovered_model_outcome`. */
  ghost function FromRecovered(m: Machine, e: Event): Machine
    requires m.pc.Recovered?
  {
    match e
    case Halt(stop) => HaltRun(m, m.session, stop)
    case Proceed(jobs) =>
      (match m.pc.outcome
       case Refused(recoverable, _) => RestoreRefusal(m, m.pc.recovery, m.pc.receipt, recoverable)
       case Answer(turn) => RestoreAnswer(m, m.pc.recovery, turn, jobs))
    case _ => m
  }

  /** The head leaves the queue and that consumption is committed before its handler starts. */
  function ConsumeHead(m: Machine, mode: Mode, commit: Commit): Machine
    requires m.session.core.replays != []
  {
    var replays := m.session.core.replays;
    var persisted := PersistAs(m.(session := m.session.(core := m.session.core.(replays := replays[1..]))), None, commit);
    if Raised(commit) then persisted.(pc := Idle)
    else persisted.(pc := Handling(replays[0], mode), started := m.started + [replays[0]])
  }

  /** Log the inputs and build the request, unless the log or a budget is over its limit. */
  function PrepareRequest(m: Machine, resumed: bool, config: nat, over: bool): Machine {
    var s := AppendObservations(AppendInput(m.session));
    if over then LimitRun(m, ClearObservations(s), SizeLimit)
    else m.(pc := Requesting(Request(s.core.messages, config), resumed), session := s)
  }

  /** The replay loop, then the request (or, for a projected turn, straight to its calls). */
  function FromReplaying(m: Machine, e: Event): Machine
    requires m.pc.Replaying?
  {
    if m.session.core.replays != [] then
      if e.Consume? then ConsumeHead(m, m.pc.mode, e.commit) else m
    else if e.Prepare? then
      match m.pc.mode
      case Projected(turn) => m.(pc := Answered(turn, true), session := AppendInput(m.session))
      case Fresh(resumed) => PrepareRequest(m, resumed, e.config, e.over)
    else m
  }

  function FromHandling(m: Machine, e: Event): Machine
    requires m.pc.Handling?
  {
    match e
    case Handled(output) =>
      m.(pc := Replaying(m.pc.mode), session := CompleteReplay(m.session, m.pc.head, output))
    case Halt(stop) => HaltRun(m, m.session, stop)
    case _ => m
  }

  function Observe(s: Session, step: nat, entry: Entry): Session {
    s.(core := s.core.(invocation := Some(Invocation(step, entry))))
  }

  /** A paid outcome reaches the run: the bill is charged before anything else can preempt it. */
  ghost function Deliver(m: Machine, s: Session, entry: Entry): Machine
    requires entry.Settled?
  {
    match Account(s, s.core.step, entry.receipt, map[])
    case None => FailRun(m, s)
    case Some(s') =>
      match entry.outcome
      case Answer(turn) => m.(pc := Answered(turn, false), session := s')
      case Refused(recoverable, _) => if recoverable then FailTurn(m, s', NoCode) else FailRun(m, s')
  }

  /** The kernel may absorb this refusal and try again. */
  predicate MayRetry(config: Config, entry: Entry) {
    && entry.Settled? && entry.outcome.Refused? && entry.outcome.retryable
    && entry.attempt < config.maxAttempts
  }

  /** A boundary ends the call between two dispatches: what its attempts have cost is charged first. */
  ghost function PreemptCall(m: Machine, head: Entry, spent: Usage, stop: Stop): Machine {
    var s := Observe(m.session, m.session.core.step, head);
    match Account(s, s.core.step, spent, map[])
    case None => FailRun(m, s)
    case Some(s') => HaltRun(m, s', stop)
  }

  /** Required evidence did not commit: the call is settled and charged, the outcome waits. */
  ghost function AwaitEvidence(m: Machine, s: Session, entry: Entry): Machine
    requires entry.Settled?
  {
    match Account(s, s.core.step, entry.receipt, map[])
    case None => FailRun(m, s)
    case Some(s') => FailTurn(m, s', EvidenceUncommitted)
  }

  /** The probe found a head it cannot reuse. */
  function RefuseProbe(m: Machine, step: nat, head: Entry): Machine {
    FailRun(m.(journal := m.journal[step := head]), Observe(m.session, step, head))
  }

  /** The probe found this request's settled outcome; a run boundary can win before it is returned. */
  ghost function ReuseSettled(m: Machine, entry: Entry, halt: Option<Stop>, again: bool): Machine
    requires entry.Settled? && m.pc.Requesting?
  {
    var s := Observe(m.session, m.session.core.step, entry);
    match halt
    case None =>
      if again && MayRetry(m.config, entry)
      then m.(pc := Backoff(entry.request, entry.attempt, entry.receipt, m.pc.resumed))
      else Deliver(m, s, entry)
    case Some(stop) => if stop.UserStop? then m else HaltRun(m, s, stop)
  }

  /** Nothing reusable: reserve the dispatch, unless a boundary wins first. */
  function ReserveDispatch(m: Machine, request: Request, resumed: bool, halt: Option<Stop>): Machine {
    match halt
    case None =>
      m.(pc := Ready(request, 1, map[]), session := Observe(m.session, m.session.core.step, Reserved(request, 1)),
         journal := m.journal[m.session.core.step := Reserved(request, 1)])
    case Some(stop) => if stop.UserStop? && !resumed then m else HaltRun(m, m.session, stop)
  }

  /** The journal probe before a provider is entered. */
  ghost function FromRequesting(m: Machine, e: Event): Machine
    requires m.pc.Requesting?
  {
    var step, request := m.session.core.step, m.pc.request;
    if !e.Probe? then m
    else if step !in m.journal then ReserveDispatch(m, request, m.pc.resumed, e.halt)
    else
      var head := m.journal[step];
      if head.Settled? && m.config.evidenceRequired && !e.evidenceOk then
        AwaitEvidence(m, Observe(m.session, step, head), head)
      else if head.request != request then RefuseProbe(m, step, head)
      else match head
        // A new call proposes its first attempt; a stored later one conflicts with it.
        case Reserved(_, attempt) =>
          if attempt == 1 || e.halt.Some? then ReserveDispatch(m, request, m.pc.resumed, e.halt)
          else RefuseProbe(m, step, head)
        case Started(_, attempt) => RefuseProbe(m, step, Unknown(request, attempt))
        case Unknown(_, _) => RefuseProbe(m, step, head)
        case Settled(_, _, _, _) => ReuseSettled(m, head, e.halt, e.again)
  }

  // The engine learns the journal head when the call ends; the model lets it know each head at once, which
  // no transition inside the call tells apart. An absorbed refusal is learned only if it ends the call.
  ghost function FromReady(m: Machine, e: Event): Machine
    requires m.pc.Ready?
  {
    var s, step, request, attempt := m.session, m.session.core.step, m.pc.request, m.pc.attempt;
    match e
    case Dispatch =>
      m.(pc := InFlight(request, attempt, m.pc.spent), session := Observe(s, step, Started(request, attempt)),
         journal := m.journal[step := Started(request, attempt)],
         dispatched := m.dispatched + [Dispatched(step, attempt)])
    case Halt(stop) => if stop.UserStop? then m else PreemptCall(m, Reserved(request, attempt), m.pc.spent, stop)
    case _ => m
  }

  /** Between two attempts: reserve the next one, unless a boundary wins. */
  ghost function FromBackoff(m: Machine, e: Event): Machine
    requires m.pc.Backoff?
  {
    var step, request, attempt := m.session.core.step, m.pc.request, m.pc.attempt;
    match e
    case Go =>
      m.(pc := Ready(request, attempt + 1, m.pc.spent), session := Observe(m.session, step, Reserved(request, attempt + 1)),
         journal := m.journal[step := Reserved(request, attempt + 1)])
    case Halt(stop) =>
      if (stop.UserStop? && !m.pc.resumed) || step !in m.journal then m
      else PreemptCall(m, m.journal[step], m.pc.spent, stop)
    case _ => m
  }

  /** An attempt has ended and reported its cost. */
  function EndAttempt(m: Machine, head: Entry, usage: Usage): Machine
    requires m.pc.InFlight?
  {
    m.(journal := m.journal[m.session.core.step := head],
       spends := m.spends + [Spend(m.session.core.step, m.pc.attempt, usage)])
  }

  /** The dispatch settles; required evidence may still fail to commit, and a refusal may be absorbed. */
  ghost function SettleDispatch(m: Machine, usage: Usage, outcome: Outcome, evidenceOk: bool, again: bool): Machine
    requires m.pc.InFlight?
  {
    var step := m.session.core.step;
    var entry := Settled(m.pc.request, m.pc.attempt, Sum(m.pc.spent, usage), outcome);
    var m' := EndAttempt(m, entry, usage);
    var s := Observe(m.session, step, entry);
    if m.config.evidenceRequired && !evidenceOk then AwaitEvidence(m', s, entry)
    else if again && MayRetry(m.config, entry) then m'.(pc := Backoff(entry.request, entry.attempt, entry.receipt, false))
    else Deliver(m', s, entry)
  }

  /** The head a lost dispatch leaves behind. */
  function LostHead(pc: Pc, loss: Loss): Entry
    requires pc.InFlight?
  {
    match loss
    case LeftStarted(_) => Started(pc.request, pc.attempt)
    case MarkedUnknown(_) => Unknown(pc.request, pc.attempt)
    case StoredThenRaised(usage, outcome) => Settled(pc.request, pc.attempt, Sum(pc.spent, usage), outcome)
    case TaskCancelled(_) => Started(pc.request, pc.attempt)
  }

  /** The outcome is lost; what the call is known to have cost is charged, and the run fails or its task ends. */
  ghost function LoseDispatch(m: Machine, loss: Loss): Machine
    requires m.pc.InFlight?
  {
    var head := LostHead(m.pc, loss);
    var m' := EndAttempt(m, head, loss.usage);
    var s := Observe(m.session, m.session.core.step, head);
    match Account(s, s.core.step, Sum(m.pc.spent, loss.usage), map[])
    case None => FailRun(m', s)
    case Some(s') => if loss.TaskCancelled? then m'.(pc := Idle, session := s') else FailRun(m', s')
  }

  ghost function FromInFlight(m: Machine, e: Event): Machine
    requires m.pc.InFlight?
  {
    match e
    case Settle(usage, outcome, evidenceOk, again) =>
      if !WellFormed(usage) then m else SettleDispatch(m, usage, outcome, evidenceOk, again)
    case Lose(loss) => if !WellFormed(loss.usage) then m else LoseDispatch(m, loss)
    case _ => m
  }

  function FromAnswered(m: Machine, e: Event): Machine
    requires m.pc.Answered?
  {
    var turn, projected := m.pc.turn, m.pc.projected;
    match e
    case Halt(stop) => HaltRun(m, m.session, stop)
    case Proceed(jobs) =>
      var s := if projected then m.session else ProjectTurn(m.session, turn);
      if turn.calls == [] then WithoutCalls(m, s, turn, jobs)
      else
        var s' := BeginCalls(s, projected);
        m.(pc := Batch(turn, 0, CompletedCalls(s'.core.observations)), session := s')
    case _ => m
  }

  /** The batch ended, by finishing every call or at the tool-call limit. */
  function EndBatch(m: Machine, s: Session, turn: Turn): Machine {
    var s' := s.(callsPending := false);
    if s.core.finish then m.(pc := Deciding(turn, true), session := s')
    else if s.core.status == Limited then SettleRun(m, s', LimitedPark, s.core.code)
    else m.(pc := Top, session := s')
  }

  function FromBatch(m: Machine, e: Event): Machine
    requires m.pc.Batch?
  {
    var s, turn, next, done := m.session, m.pc.turn, m.pc.next, m.pc.done;
    if next >= |turn.calls| then
      if e.Go? then EndBatch(m, s, turn) else m
    else if turn.calls[next].id in done then
      if e.Go? then m.(pc := Batch(turn, next + 1, done)) else m
    else match e
      case Halt(stop) => HaltRun(m, s, stop)
      case Go =>
        var s' := s.(core := s.core.(toolCalls := s.core.toolCalls + 1));
        if s'.core.toolCalls > m.config.maxToolCalls then
          EndBatch(m, s'.(core := s'.core.(status := Limited, code := MaxToolCalls)), turn)
        else m.(pc := Calling(turn, next, done), session := s')
      case _ => m
  }

  function FromCalling(m: Machine, e: Event): Machine
    requires m.pc.Calling?
  {
    var turn, next, done := m.pc.turn, m.pc.next, m.pc.done;
    match e
    case Complete(output, finishes) =>
      if next >= |turn.calls| then m
      else m.(pc := Returned(turn, next, done), session := CompleteCall(m.session, turn.calls[next], output, finishes))
    case Halt(stop) => HaltRun(m, m.session, stop)
    case _ => m
  }

  function FromReturned(m: Machine, e: Event): Machine
    requires m.pc.Returned?
  {
    match e
    case Go => m.(pc := Batch(m.pc.turn, m.pc.next + 1, m.pc.done))
    case Halt(stop) => HaltRun(m, m.session, stop)
    case _ => m
  }

  /** `_log_finish_observations`. */
  function LogFinish(s: Session, fromFinish: bool): Session {
    if fromFinish then ClearObservations(AppendObservations(s)) else s
  }

  function RecordFailure(s: Session): Session {
    s.(core := s.core.(failures := s.core.failures + [|s.core.failures| + 1]))
  }

  function DropFinish(s: Session, fromFinish: bool): Session {
    if fromFinish then s.(core := s.core.(finish := false)) else s
  }

  function WithOutcome(s: Session, status: Status, code: Code): Session {
    s.(core := s.core.(status := status, code := code))
  }

  /** A rejected answer with no retries left. */
  function Exhaust(m: Machine, fromFinish: bool): Machine {
    var s := WithOutcome(RecordFailure(m.session), Limited, ValidatorUnsatisfied);
    SettleRun(m, LogFinish(DropFinish(s, fromFinish), fromFinish), LimitedPark, ValidatorUnsatisfied)
  }

  /** A rejected answer: queue the repair message and pump again. */
  function Reprompt(m: Machine, fromFinish: bool): Machine {
    var recorded := RecordFailure(m.session);
    var s := recorded.(core := recorded.core.(retries := recorded.core.retries + 1));
    var logged := ClearObservations(LogFinish(DropFinish(s, fromFinish), fromFinish));
    m.(pc := Top, session := logged.(core := logged.core.(messages := logged.core.messages + [RepairMessage])))
  }

  /** `LoopSettleCoordinator.decide`, the boundary after it, and `apply`. */
  function FromDeciding(m: Machine, e: Event): Machine
    requires m.pc.Deciding?
  {
    var s, turn, fromFinish := m.session, m.pc.turn, m.pc.fromFinish;
    match e
    case Halt(stop) => HaltRun(m, s, stop)
    case Decide(verdict) =>
      if turn.stop == Refusal then
        SettleRun(m, LogFinish(WithOutcome(s, Failed, OutputRefused), fromFinish), SettledPark, OutputRefused)
      else if turn.stop == Length then
        SettleRun(m, LogFinish(WithOutcome(s, Limited, OutputTruncated), fromFinish), LimitedPark, OutputTruncated)
      else (match verdict
        case Passed => SettleRun(m, LogFinish(s, fromFinish), SettledPark, NoCode)
        case Defect => FailRun(m, s)
        case Rejected =>
          if s.core.retries >= m.config.maxRetries then Exhaust(m, fromFinish) else Reprompt(m, fromFinish))
    case _ => m
  }

  function FromParking(m: Machine, e: Event): Machine
    requires m.pc.Parking?
  {
    match e
    case Persist(commit) => PersistAs(m, Some(m.pc.suspension), commit).(pc := Idle)
    case _ => m
  }

  /**
   A host reports a finished task. A repeated report queues nothing; `persist` is the host's own
   checkpoint of whatever the session holds, taken either way.
   */
  function Reported(m: Machine, task: Task, persist: Option<Commit>): Machine {
    var core := m.session.core;
    var m' := if task.id in core.delivered || task.id in TaskIds(core.ready) then m
              else m.(session := m.session.(core := core.(ready := core.ready + [task])));
    if persist.Some? then PersistAs(m', None, persist.value) else m'
  }

  ghost function Next(m: Machine, e: Event): Machine {
    if m.pc.Down? then
      if e.Restore? then m.(pc := Idle, session := Rehydrate(m.durable)) else m
    else if e.Crash? then m.(pc := Down)
    else if e.Report? then Reported(m, e.task, e.persist)
    else match m.pc
      case Idle => FromIdle(m, e)
      case Top => FromTop(m, e)
      case Recovering(_) => FromRecovering(m, e)
      case Recovered(_, _, _) => FromRecovered(m, e)
      case Replaying(_) => FromReplaying(m, e)
      case Handling(_, _) => FromHandling(m, e)
      case Requesting(_, _) => FromRequesting(m, e)
      case Ready(_, _, _) => FromReady(m, e)
      case InFlight(_, _, _) => FromInFlight(m, e)
      case Backoff(_, _, _, _) => FromBackoff(m, e)
      case Answered(_, _) => FromAnswered(m, e)
      case Batch(_, _, _) => FromBatch(m, e)
      case Calling(_, _, _) => FromCalling(m, e)
      case Returned(_, _, _) => FromReturned(m, e)
      case Deciding(_, _) => FromDeciding(m, e)
      case Parking(_) => FromParking(m, e)
  }

  /** The machine after a whole run of events. */
  ghost function Run(m: Machine, events: seq<Event>): Machine {
    if events == [] then m else Next(Run(m, events[..|events| - 1]), events[|events| - 1])
  }

  /** Every event of the run is allowed in the state it meets. */
  ghost predicate Allowed(allows: (Machine, Event) -> bool, from: Machine, events: seq<Event>) {
    forall i :: 0 <= i < |events| ==> allows(Run(from, events[..i]), events[i])
  }

  /** Some run of allowed events leads from one machine to the other. */
  ghost predicate Leads(allows: (Machine, Event) -> bool, from: Machine, to: Machine) {
    exists events: seq<Event> :: Allowed(allows, from, events) && Run(from, events) == to
  }

  lemma LeadsNowhere(allows: (Machine, Event) -> bool, m: Machine)
    ensures Leads(allows, m, m)
  {
    var none: seq<Event> := [];
    assert Allowed(allows, m, none) && Run(m, none) == m;
  }

  lemma LeadsOn(allows: (Machine, Event) -> bool, from: Machine, to: Machine, e: Event)
    requires Leads(allows, from, to) && allows(to, e)
    ensures Leads(allows, from, Next(to, e))
  {
    var events: seq<Event> :| Allowed(allows, from, events) && Run(from, events) == to;
    var longer := events + [e];
    assert longer[..|events|] == events;
    hide Next;
    assert Run(from, longer) == Next(to, e);
    forall i | 0 <= i < |longer|
      ensures allows(Run(from, longer[..i]), longer[i])
    {
      assert longer[..i] == events[..i];
    }
  }

  lemma AllowedPrefix(allows: (Machine, Event) -> bool, from: Machine, events: seq<Event>)
    requires events != [] && Allowed(allows, from, events)
    ensures Allowed(allows, from, events[..|events| - 1])
    ensures allows(Run(from, events[..|events| - 1]), events[|events| - 1])
  {
    hide Run;
    var before := events[..|events| - 1];
    forall i | 0 <= i < |before|
      ensures allows(Run(from, before[..i]), before[i])
    {
      assert before[..i] == events[..i];
    }
  }
}
