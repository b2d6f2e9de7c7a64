# A verified model of the agent kernel's durable run

This Dafny project models how the kernel keeps a run alive across stops, failures, refused commits and
crashes, and proves what that promises: paid model calls are billed and applied once, tool calls and
approved replays do not run twice, inputs enter the conversation log once and none is lost, a park looks the
same after a restart, a run closes as its last turn went, and every pump ends within its budgets. Beside the run machine it models the paid-dispatch
protocol, checkpoint commits, the path-pattern codec, memory mounts and text edits, the event-log watch
cursor and the workspace delta.

Where the code does not keep a promise, the code is modelled as it is: a concrete reachable run shows the
failure (`RunLimits`), and a lemma gives the condition under which the promise holds.

## How it is organised

| file | what it holds |
|---|---|
| `Wrappers.dfy` | `Option` and `Result` |
| `Usage.dfy` | the remainder of a bill, and the one summation rule behind run totals |
| `RunModel.dfy` | the run machine: volatile session, committed checkpoint, paid-call journal, one transition per program point; stops, provider answers, commit outcomes, crashes and restores are events |
| `RunDispatch.dfy` | the journal over any run: heads only move forward, final ones stay, no attempt of a call enters a provider twice |
| `RunBilling.dfy` | billing over any run, kernel retries and lost outcomes included |
| `RunOnce.dfy` | applying paid answers and offering recoveries, whatever becomes of the commits of parks |
| `RunApply.dfy` | tool batches over stop-and-resume rounds |
| `RunInputs.dfy` | observations and user messages in the log |
| `RunKeeping.dfy` | nothing a run has taken in is lost before a request carries it |
| `RunReplays.dfy` | approved tool calls under crashes |
| `RunBudgets.dfy` | pump termination, step and retry budgets |
| `RunParks.dfy` | crashes and closes at the parks of any run, and how the machine's parks are those of `Park` |
| `RunClosing.dfy` | when a submit is accepted and what it forgets, which stop, loss or decision parks how, and what each park closes as |
| `RunEvidence.dfy` | required evidence commits before its answer is applied |
| `RunRebilling.dfy` | exactly when a checkpoint taken in mid-pump lets a call be charged again |
| `RunReapplying.dfy` | exactly when a stop and a resume apply an answer, or run a batch's calls, again, and when a reused answer is never charged |
| `RunForgetting.dfy` | exactly when the park of an interrupted batch lets a later batch run under the wrong answer |
| `RunLimits.dfy` | concrete runs that break a promise |
| `AgentLoop.dfy` | the engine object: methods that update its fields, each proved equal to the machine's operation |
| `Park.dfy` | snapshot, restore, deadline carry-over, close |
| `Commit.dfy` | accepting a commit, rolling back, releasing a parked run |
| `Dispatch.dfy` | reserve, recover, settle, unknown, and the retry loop, over any lifecycle hook |
| `Policy.dfy` | the path-pattern readers and writer, policies, merging |
| `Mounts.dfy` | longest-prefix mounts, shadowing, search |
| `TextEdit.dfy` | line insertion and unique replacement |
| `Watch.dfy` | bounded batches over a growing log |
| `Delta.dfy` | capture and replay of a workspace delta, size limits |

The run machine assumes a durable lifecycle hook. Its history fields (`bills`, `dispatched`, `spends`,
`started`, message and observation tags) are read by no transition. The request digest is injective, so a
request stands for its own digest, and every limit checked before a call is one event flag. The engine
learns the journal head of a call when the call ends; the machine tells it at each attempt, which nothing
inside the call can observe.

Hypotheses on runs are predicates of one event and the state it meets. Some of them a host decides by what
it does; others describe what its store or its provider did:

- `ReportsAtPark` (the host): a reported task is checkpointed only at a quiescent park.
- `ReportsOver` (the host): a task reported while parked is checkpointed only over an accepted observation.
- `StopsSeeTheAnswer` (the host): no turn-level stop or drain parks a session whose applied answer is no
  longer last in its log while no calls are pending (`RunOnce.Buried`).
- `DrainsKeepNothingSent` (the host): no drain before a dispatch whose observations are already in the log.
- `ReuseIsPaid` (the host): no boundary wins between finding a settled outcome and returning it.
- `BatchParksHold` (the store): the park of an interrupted batch commits, or is declined by a callback that
  returns False.
- `ReplaysAreKept` (the store): the same for a park that keeps observations for a recovery, and no call is
  cancelled while observations wait.
- `BatchEvidenceHolds` (the store): required evidence commits again when a half-finished batch is recovered.
- `ConsumptionCommits` (the store): a replay's consumption checkpoint commits, or its exception stops the
  handler.
- `NamesCallsApart` (the provider): a turn uses distinct call identifiers.

The results on answers need `ReportsAtPark`, `StopsSeeTheAnswer` and `BatchEvidenceHolds` (`RunOnce.Careful`),
and `AnswersAreCharged` `ReuseIsPaid` as well;
batches add `BatchParksHold` (`RunApply.Orderly`), inputs further `DrainsKeepNothingSent`, `ReplaysAreKept` and
`NamesCallsApart`. Any other park may be refused or raise, and any other call may be cancelled.
`StopsSeeTheAnswer`, `BatchEvidenceHolds`, `BatchParksHold` and `ReuseIsPaid` are exact: `RunReapplying` and
`RunForgetting` prove what each violation leads to. A batch's park whose commit stores it and then raises is
neither committed nor declined; where the process ends with it, it is a commit and a crash.

Where the documentation and the code differ, the code is followed: the comments on `_persist_checkpoint`
and `at_quiescent_park` say that only a commit sets the suspension, but a callback that returns False
leaves the new suspension in place (`Commit.Activation.Persist`, `Commit.DeclinedParkIsNotReleasable`). The
comment at the user stop (loop.py:2415-2417) says that the observations it clears are committed already; between
a batch and the next step they are not (`RunLimits.StopLosesOutputs`).

## Model

| member | source | states |
|---|---|---|
| Usage.UsageDelta | src/monoid_agent_kernel/loop.py:7442-7469 | a delta exists exactly when no counter is malformed or shrank, and is then the remainder, whatever order the keys are visited in |
| Usage.DeltaCompletesBaseline | src/monoid_agent_kernel/loop.py:7442-7469 | what was charged before plus the delta is the aggregate, meter by meter |
| Usage.TwoInstalmentsAreOne | src/monoid_agent_kernel/loop.py:7422-7469 | charging a call in two instalments gives the totals of charging it once, iff the later receipt still carries the earlier keys |
| Usage.TotalOfIsComponentwise | src/monoid_agent_kernel/loop.py:7422-7440 | the running totals are the component-wise sum of the bills |
| RunDispatch.ProviderEnteredAtMostOnce | src/monoid_agent_kernel/model_call.py:1255-1440 | after any run, with any crashes and commits, no attempt of a step's call has entered a provider twice; a second attempt exists only within the kernel's retry plan |
| RunDispatch.CostsAreReportedOnce | src/monoid_agent_kernel/model_call.py:1346-1590 | no attempt has reported its cost twice, and only attempts that entered the provider have |
| RunDispatch.SettledIsFinal | src/monoid_agent_kernel/hosting/model_calls.py:296-430 | an answered, ambiguous, non-retryable or last planned head keeps its request, receipt and outcome through every later event |
| RunDispatch.NextAdvances | src/monoid_agent_kernel/hosting/model_calls.py:296-430 | every event moves each head forward only, attempt by attempt: a settled refusal may be reserved again while its plan allows, a final head never |
| RunBilling.UsageIsBilledOnce | src/monoid_agent_kernel/loop.py:4956-4991 | live and committed totals are, meter by meter, the sum over distinct calls of all that their attempts reported, each once: settled, refused, unknown, stored and then raised, or cancelled |
| RunBilling.NoCallEndsUncharged | src/monoid_agent_kernel/loop.py:5527-5626 | however a call in progress ends, its whole cost so far is on the bill of the session it leaves |
| RunBilling.NextKeeps | src/monoid_agent_kernel/loop.py:450-469 | every event keeps the billing invariant: an open step is unbilled, a bill is its call's whole cost, a recovery's baseline is its receipt |
| RunBilling.DeliverKeeps | src/monoid_agent_kernel/loop.py:5527-5649 | a settled outcome, a refusal or an evidence failure is charged before anything else can preempt it |
| RunOnce.AnswersAppliedAtMostOnce | src/monoid_agent_kernel/loop.py:4659-4718 | however parks were committed, each step adds at most one assistant message, and it is the step's settled outcome |
| RunOnce.AnswersAreCharged | src/monoid_agent_kernel/loop.py:4801-4858 | every applied answer with a non-empty receipt has its bill, at the full receipt |
| RunOnce.RecoveryOffersOnlyUnappliedWork | src/monoid_agent_kernel/loop.py:472-536 | a recovery is offered only for the current step's settled call, and one that would log its answer only where the log does not have it |
| RunOnce.NextIsOnce | src/monoid_agent_kernel/loop.py:5069-5767 | every careful event keeps the log and recovery invariants |
| RunOnce.NewStepIsFresh | src/monoid_agent_kernel/loop.py:5131-5134 | an allocated step is one that no bill, no logged answer and no checkpoint has, and its call is open |
| RunEvidence.AppliedMeansEvidenced | src/monoid_agent_kernel/loop.py:405-447 | where evidence is required, over any run at all, every answer in the live or committed log is one whose call's evidence an earlier event committed |
| RunEvidence.RecoversIff | src/monoid_agent_kernel/loop.py:405-469 | a recovery yields its outcome iff the journal has the very settled dispatch, its receipt covers what was charged and the evidence due has committed, one left open by a checkpoint included; otherwise it parks and logs and charges nothing |
| RunApply.BatchRunsEachCallOnce | src/monoid_agent_kernel/loop.py:5696-5738 | over any run in which parks outside a batch may be refused and calls cancelled, a call starts when exactly the calls before it have outputs; a finished batch has one output a call, in order |
| RunApply.ParkedBatchIsAPrefix | src/monoid_agent_kernel/loop.py:484-490 | between stop-and-resume rounds the answer is last in the log, or followed by one newer user message, and the kept outputs are those of a prefix of its calls |
| RunApply.CompletedCallsAreNotRerun | src/monoid_agent_kernel/loop.py:4892-4924 | with distinct identifiers the call about to run has no output yet |
| RunApply.LimitedBatchIsAPrefix | src/monoid_agent_kernel/loop.py:5702-5712 | at the tool-call limit the batch keeps the outputs before the limit and starts nothing |
| RunApply.CallStartsIff | src/monoid_agent_kernel/loop.py:5698-5712 | the next call starts iff fewer calls than the budget were counted; otherwise the batch ends there with its outputs, and without a finish the run is over |
| RunApply.FinishIsHeeded | src/monoid_agent_kernel/loop.py:5732-5742 | after a finishing call, however the rest of its batch goes, the end of the batch is the turn's decision, before any limit |
| RunApply.NextApplies | src/monoid_agent_kernel/loop.py:5694-5757 | every orderly event keeps the batch invariant: a running batch is the logged answer's, and its outputs are those of a prefix of the calls |
| RunInputs.InputsLoggedOnce | src/monoid_agent_kernel/loop.py:5327-5352 | no observation and no user message is in the log twice, live or committed |
| RunInputs.NextLogs | src/monoid_agent_kernel/loop.py:2395-2431 | every event keeps pending observations either new to the log or reserved for a replayed call |
| RunKeeping.NothingIsLost | src/monoid_agent_kernel/loop.py:5327-5352 | over any orderly run a user message, an output, a task's result or an approval that the run holds stays pending, in the log or started, until a newer submit, a user stop with nothing to apply, a raised consumption, or a crash before any checkpoint has it; once checkpointed, across every crash |
| RunKeeping.WhatIsTakenInReachesTheModel | src/monoid_agent_kernel/loop.py:5335-5352 | and every later request carries it, but for tasks reported while it is made |
| RunKeeping.TakenIn | src/monoid_agent_kernel/loop.py:5729-5731 | a submit, a completed call, a replayed handler and a reported task are each held, with their value, from their event on |
| RunKeeping.ParksAreStored | src/monoid_agent_kernel/loop.py:3735-3799 | a committed park stores all that its session holds |
| RunKeeping.FinishedBatchIsSent | src/monoid_agent_kernel/loop.py:5735-5738 | the request after a finished batch has, right behind the log so far, one output for each call in call order, then the results of finished tasks |
| RunKeeping.RequestIsInOrder | src/monoid_agent_kernel/loop.py:5327-5352 | a request is the log so far, then the new user message, then the pending observations in order, and logging them is all that happens |
| RunKeeping.StopsGiveUpIff | src/monoid_agent_kernel/loop.py:2422-2431 | a user stop at the loop head, in a handler or at a decision gives up what is pending iff no paid call waits to be applied |
| RunLimits.StopLosesOutputs | src/monoid_agent_kernel/loop.py:2430-2431 | a user stop between a finished batch and the next step drops outputs that no request and no log has |
| RunReplays.HandlersStartAtMostOnce | src/monoid_agent_kernel/loop.py:5245-5272 | over all activations and crashes no approved handler starts twice |
| RunReplays.ConsumptionIsSafeIffStored | src/monoid_agent_kernel/loop.py:5245-5253 | some later run whose own consumptions commit starts the consumed head a second time iff its consumption was neither stored nor raised |
| RunReplays.HeadsRunInOrder | src/monoid_agent_kernel/loop.py:5245-5272 | heads start in queue order and their outputs pile up in that order |
| RunReplays.CrashLosesOnlyTheRunningHead | src/monoid_agent_kernel/loop.py:5245-5272 | the checkpoint a head runs under holds every earlier output, and a crash then loses that head alone |
| RunBudgets.BudgetsHold | src/monoid_agent_kernel/loop.py:5086-5134 | steps of a submit and output retries never exceed their limits; failures are numbered 1..n with n at least the retries |
| RunBudgets.SubmitAllocatesWithinItsBudget | src/monoid_agent_kernel/loop.py:2223-2237 | through parks, crashes and restores one submit allocates at most `max_steps` coordinates |
| RunBudgets.PumpComesCloser | src/monoid_agent_kernel/loop.py:5086-5134 | every effective event of a pump decreases recovery, resume flag, steps left, stage, work, in that order |
| RunBudgets.Drive | src/monoid_agent_kernel/loop.py:5758-5767 | whatever drives it, a pump ends, or is offered an event it does not take |
| RunParks.CrashAtParkIsInvisibleIff | src/monoid_agent_kernel/loop.py:3903-4095 | over any run, a crash and restart at a committed park gives back the very same machine iff no tool calls are pending or the park is an interruption; otherwise only the pending-calls flag is lost |
| RunParks.RestartIsReopen | src/monoid_agent_kernel/loop.py:3583-3715 | at every committed park the machine's crash and restore are the snapshot and reopening of `Park`, field by field |
| RunParks.ObservedParksAreClassified | src/monoid_agent_kernel/loop.py:314-356 | wherever a run is parked with an observation, the live failure and mid-turn markers are the ones it reads back as |
| RunParks.ClosingSurvivesRestart | src/monoid_agent_kernel/loop.py:2674-2718 | over any run, closing after a crash and restart gives the verdict of closing in process once the park or a report over it is stored; else the restart is from the earlier checkpoint |
| RunParks.UnfinishedParkNeverCompletes | src/monoid_agent_kernel/loop.py:2553-2650 | a failed, interrupted, paused, limited or terminal park never closes as completed, however its commit went |
| RunParks.UnstoredParkClosesCompletedIff | src/monoid_agent_kernel/loop.py:4033-4047 | when a park is not stored, a restart closes the run as completed iff what was stored before it was settled; in process an unfinished one never does |
| RunParks.CompletedMeansSettled | src/monoid_agent_kernel/loop.py:2674-2718 | over any run with crashes anywhere, a parked run closes as completed only if settled or waiting for tasks |
| RunParks.CheckpointNumbersIncrease | src/monoid_agent_kernel/loop.py:3735-3799 | over any run, across crashes and restores, each new checkpoint has a higher number than every earlier one |
| RunClosing.SubmitForgets | src/monoid_agent_kernel/loop.py:2207-2237 | two parked runs that differ only in how the last turn went take a submit alike, to the same turn with a clean record |
| RunClosing.SubmitIsRefusedIff | src/monoid_agent_kernel/loop.py:2179-2197 | a submit is refused, changing nothing, iff the run is over, a paid answer waits for its required evidence, or a batch was stopped half-way; over an interrupted answer it gives up what was kept |
| RunClosing.PausedRunGoesOn | src/monoid_agent_kernel/loop.py:5113-5130 | a run paused at the loop head and resumed is where it was, however its park was committed; only the checkpoint and its number are new |
| RunClosing.StopsAreHeeded | src/monoid_agent_kernel/loop.py:2292-2431 | at every point between two pieces of work a user's stop and a drain leave the turn open with its pending calls on record, and a cancellation ends the run; none touches the log |
| RunClosing.LostCallEnds | src/monoid_agent_kernel/loop.py:5527-5626 | a call whose outcome is lost fails the run; a cancelled driver leaves it open and unparked; neither logs anything |
| RunClosing.RefusalGoes | src/monoid_agent_kernel/model_call.py:1346-1590 | a settled refusal is tried again iff its evidence is in order, it may be retried, the plan has an attempt left and nothing stops the driver; else it fails the turn, or the run if it is not recoverable |
| RunClosing.PassedTurnClosesCompleted | src/monoid_agent_kernel/loop.py:2674-2718 | a submitted turn whose answer passes with no limit, refusal, drain or cancellation since the submit closes as completed without a code, whatever came before, in process and after a restart of its stored park |
| RunClosing.ClosesAsItParked | src/monoid_agent_kernel/loop.py:2674-2718 | over any run and however the park's commit went, each kind of park closes with its own status and error code |
| RunClosing.DecidedTurnClosesAs | src/monoid_agent_kernel/loop_phases.py:411-551 | a refused turn closes as failed and a truncated one as limited whatever the validators say, a validator's defect as failed, exhausted retries as limited |
| RunClosing.RejectedIsAskedAgain | src/monoid_agent_kernel/loop_phases.py:525-543 | a rejection with retries left is on record, leaves nothing pending and no finish, and puts the repair message last |
| RunClosing.ToolFreeAnswerGoes | src/monoid_agent_kernel/loop.py:5672-5695 | a tool-free answer waits for outstanding tasks first, then is decided, or fails the run when it says nothing |
| RunLimits.ReportMidStepBillsTwice | src/monoid_agent_kernel/loop.py:3540-3562 | a task reported with a checkpoint in mid-step, a crash and an evidence failure charge one receipt twice |
| RunRebilling.ReportIsRebilledIff | src/monoid_agent_kernel/loop.py:3564-3581 | where evidence is required, some later run charges a call twice iff the reported checkpoint is of a live run, has no suspension, and its step is charged and settled in the journal |
| RunRebilling.RebilledOnlyIf | src/monoid_agent_kernel/loop.py:3540-3581 | in every configuration no later run charges a call twice when one of those conditions fails |
| RunRebilling.RebilledWhenFound | src/monoid_agent_kernel/loop.py:3540-3581 | where evidence is not required, the second charge needs the same request to be rebuilt, and then happens |
| RunLimits.PreemptedReuseIsNeverBilled | src/monoid_agent_kernel/model_call.py:1278-1284 | a drain between finding and returning a stored outcome leaves an applied answer that is never charged |
| RunReapplying.ReuseIsUnpaidIffPreempted | src/monoid_agent_kernel/model_call.py:1278-1284 | where a request finds its stored answer, some later run that preempts no other reuse applies an answer it never charges iff a boundary wins before this one is returned |
| RunLimits.ReportMidBatchAppliesTwice | src/monoid_agent_kernel/loop.py:3540-3562 | a task reported with a checkpoint in the middle of a batch, a crash and an evidence failure apply the batch's answer twice |
| RunLimits.LostBatchIsReapplied | src/monoid_agent_kernel/loop.py:2397-2411 | evidence that fails while a batch is recovered makes the next resume project the answer and run its calls again |
| RunForgetting.BatchesBreakIffParkIsForgotten | src/monoid_agent_kernel/loop.py:3747-3751 | some later orderly run comes to a batch that is not of the logged answer, or whose outputs are not those of its first calls, iff the park of an interrupted batch is neither committed nor declined |
| RunLimits.ForgottenParkSkipsACall | src/monoid_agent_kernel/loop.py:472-536 | the park of a batch is refused; the next turn's answer is then taken as logged already, is never logged, and its first call never runs |
| RunReapplying.BatchRerunsIffEvidenceFails | src/monoid_agent_kernel/loop.py:517-536 | a recovered batch comes back to its first call, and each completed call runs again and the answer is logged again, iff its evidence does not commit again |
| RunLimits.RepairedAnswerIsReapplied | src/monoid_agent_kernel/loop_phases.py:538-543 | a stop between a repair message and the next step applies the rejected answer a second time |
| RunReapplying.StopReappliesIffBuried | src/monoid_agent_kernel/loop.py:472-504 | stopped at the loop head or at a decision and resumed, a run applies an answer twice iff the step's answer is in its log, is not last there and no calls are pending |
| RunLimits.RefusedParkReappliesAnswer | src/monoid_agent_kernel/loop.py:3747-3751 | after a refused park, and with no repair message, a stop at the loop head applies a batch's answer a second time |
| RunLimits.DrainedInputsAreLoggedTwice | src/monoid_agent_kernel/loop.py:2292-2308 | a drain before the dispatch keeps logged observations, and the resumed step logs them again |
| RunLimits.LostBatchCrashIsVisible | src/monoid_agent_kernel/loop.py:2397-2411 | the turn failure parked by such an evidence failure offers its recovery in process and offers none after a crash and a restart from its own checkpoint |
| RunLimits.RefusedParkLogsInputsTwice | src/monoid_agent_kernel/loop.py:3747-3751 | a refused park forgets the recovery its kept observations were for |
| RunLimits.CancelledCallLogsInputsTwice | src/monoid_agent_kernel/loop.py:5597-5626 | a call cancelled with logged observations pending leaves no recovery, and the resumed run logs them again |
| RunLimits.ReportMidStepLogsInputsTwice | src/monoid_agent_kernel/loop.py:3540-3562 | a task reported with a checkpoint in the middle of a request makes the restored step log its input again |
| RunLimits.ResumeLogsOnceIffUnsent | src/monoid_agent_kernel/loop.py:5346-5352 | from a park or from a checkpoint in mid-step, a resume without recovery logs nothing twice iff nothing pending is in the log |
| RunLimits.UnstoredConsumptionRunsTwice | src/monoid_agent_kernel/loop.py:3747-3751 | a head whose consumption was not stored runs again after a crash |
| RunLimits.AnswerBehindAnAnswerIsStranded | src/monoid_agent_kernel/loop.py:493-504 | after a bare resume, an answer waiting for evidence is never offered again |
| RunLimits.RefusedFailureClosesAsCompleted | src/monoid_agent_kernel/loop.py:4033-4047 | a settled run is resumed, its turn fails and that park is refused: it closes failed in process and completed after a restart |
| AgentLoop.Activation.constructor | src/monoid_agent_kernel/loop.py:3903-4095 | a restored activation is the machine's rehydrated session |
| AgentLoop.Activation.PopReentry | src/monoid_agent_kernel/tasks.py:1367-1390 | drains the queue into observations and approvals, marking every job delivered |
| AgentLoop.Activation.AppendInputs | src/monoid_agent_kernel/loop.py:5327-5352 | logs the user message and every pending observation, which stay pending |
| AgentLoop.Activation.AccountModelUsage | src/monoid_agent_kernel/loop.py:4956-4991 | charges the unbilled remainder, or changes nothing when the receipt is refused |
| AgentLoop.Activation.Accumulate | src/monoid_agent_kernel/loop.py:7422-7440 | key by key, the totals become the component-wise sum |
| AgentLoop.Activation.RunToolBatch | src/monoid_agent_kernel/loop.py:5694-5738 | the tool loop computes the specified batch result |
| AgentLoop.BatchRefines | src/monoid_agent_kernel/loop.py:5694-5757 | that result is what the run machine reaches, step by step, from the same point |
| AgentLoop.Activation.PersistCheckpoint | src/monoid_agent_kernel/loop.py:3735-3799 | new session and store are the machine's commit step, rollback included |
| AgentLoop.Activation.ReplayApprovals | src/monoid_agent_kernel/loop.py:5245-5272 | however each consumption checkpoint goes, session, store and every stored checkpoint are those of the machine's replay loop; a raised commit ends it |
| AgentLoop.ReplayLoopIsARun | src/monoid_agent_kernel/loop.py:5245-5272 | that loop is a run of the machine, whatever each commit and each handler does |
| AgentLoop.HeadRefines | src/monoid_agent_kernel/loop.py:5245-5272 | each round of it is the machine's consumption event and, unless that raises, its handler's return |
| AgentLoop.HeadsRunUnderEarlierOutputs | src/monoid_agent_kernel/loop.py:5245-5272 | the checkpoint a head runs under holds exactly the outputs of the heads before it |
| AgentLoop.Activation.ApplySettle | src/monoid_agent_kernel/loop_phases.py:466-551 | the fields and log after a decision, and the suspension it returns |
| AgentLoop.SettleRefines | src/monoid_agent_kernel/loop_phases.py:411-551 | decide followed by apply is the machine's one settle transition |
| Park.CrashAtParkIsInvisible | src/monoid_agent_kernel/loop.py:3583-3715 | a park restored elsewhere snapshots as itself except remaining time and outputs of lost shell jobs |
| Park.ReopenedIsTheSame | src/monoid_agent_kernel/loop.py:3872-4047 | the reopened activation is the parked one, field by field, but for its clock, lost shell outputs, the flags of the next pump and the cancellation rules |
| Park.OnlyOperationalRequestsReopen | src/monoid_agent_kernel/loop.py:3872-3889 | a checkpoint reopens iff it asks for no cancellation or for an operator's; a request without a cause is the user's, a lost lease never reopens |
| Park.SnapshotsAreRestorable | src/monoid_agent_kernel/loop.py:3610-3633 | every snapshot of an ordinary activation has an operational cause for its request |
| Park.OnlyActiveTimeIsCharged | src/monoid_agent_kernel/loop.py:3906-3917 | over any parks and downtimes deadline minus start is the budget and exactly the active time is charged |
| Park.CarryOverIsReopen | src/monoid_agent_kernel/loop.py:3672-3674 | that arithmetic is what snapshot and restore do |
| Park.CloseSurvivesRestart | src/monoid_agent_kernel/loop.py:2674-2696 | closing after persist, crash and restore gives the verdict of closing in process |
| Park.PromotedCloseIsNotCompleted | src/monoid_agent_kernel/loop.py:2553-2650 | no promoted close is a success, and its checkpoints stay |
| Park.ParkedRun.Close | src/monoid_agent_kernel/loop.py:2674-2718 | a pending cancellation wins over a lost turn and that over an unsettled one, each with its status, code, cause and text; a terminal run stands; checkpoints go exactly when the status is completed |
| Park.ClosingIsFinal | src/monoid_agent_kernel/loop.py:2553-2650 | a close interrupted after its own commit repeats its verdict when restored and closed again |
| Commit.Activation.Persist | src/monoid_agent_kernel/loop.py:3735-3813 | which outcome, which number, which observation and which memory each way of committing leaves, and exactly what the store received |
| Commit.Activation.ReleaseParked | src/monoid_agent_kernel/loop.py:2744-2763 | releases iff the checkpointable state is the accepted checkpoint, and that one is in the store |
| Commit.ParkThenRelease | src/monoid_agent_kernel/loop.py:2744-2763 | an accepted park can be released at once |
| Commit.DeclinedParkIsNotReleasable | src/monoid_agent_kernel/loop.py:3798-3799 | a declined park keeps its observation and still cannot be released |
| Commit.WorkedParkIsNotReleasable | src/monoid_agent_kernel/loop.py:1235-1248 | work after a commit makes the park unreleasable |
| Dispatch.ReserveModelDispatch | src/monoid_agent_kernel/model_lifecycle.py:254-289 | accepts exactly a reservation that differs in the idempotency key alone |
| Dispatch.RecoverModelDispatch | src/monoid_agent_kernel/model_lifecycle.py:292-322 | a recovered dispatch carries the queried identity |
| Dispatch.EvidenceRecoveryIsExact | src/monoid_agent_kernel/loop.py:405-447 | evidence recovery succeeds iff the hook has the very dispatch that was settled, and each way it fails has its own error |
| Dispatch.RaiseUnknown | src/monoid_agent_kernel/model_lifecycle.py:325-369 | ambiguity is raised whether or not the hook could note it |
| Dispatch.SettleModelDispatch | src/monoid_agent_kernel/model_lifecycle.py:380-420 | returns normally iff the commit succeeded; an evidence failure never calls `unknown` |
| Dispatch.DispatchCall | src/monoid_agent_kernel/model_call.py:1346-1590 | each attempt but the last was given the reservation it asked for and its retryable refusal committed; the last returns or refuses only if its settlement committed, raises evidence-uncommitted iff the evidence alone failed, and is ambiguous iff it broke or failed to commit |
| Dispatch.CallIsOrdered | src/monoid_agent_kernel/model_call.py:1346-1590 | starts carry consecutive attempts of one call, only a last attempt is ambiguous, the receipt of the end is every attempt's spend once |
| Dispatch.CallIsDetermined | src/monoid_agent_kernel/model_call.py:1346-1590 | one hook and one provider have one call: the same attempts, the same record, the same end |
| Policy.CanonicalIsIdempotent | src/monoid_agent_kernel/permissions.py:45-85 | a canonical spelling is its own canonical spelling |
| Policy.CanonicalForm | src/monoid_agent_kernel/permissions.py:45-85 | splitting, popping and joining a pattern amounts to trimming one slash from an acceptable body |
| Policy.DottedSegmentsAreRefused | src/monoid_agent_kernel/permissions.py:45-85 | no text with an empty, `.` or `..` segment anywhere names a path, once its anchor, a leading `./` and one trailing slash are gone |
| Policy.ValidateInternalPathPatterns | src/monoid_agent_kernel/permissions.py:159-193 | accepts a list, unchanged, iff each current text names a path, compiles and is not the escaped spelling, and each legacy one is not blank |
| Policy.ParsePathPatterns | src/monoid_agent_kernel/permissions.py:196-226 | the two passes read a list line by line: refused iff some line is negated or its literal names no path, else each line's literal text |
| Policy.ConfigurationReads | src/monoid_agent_kernel/permissions.py:196-226 | on the raw line: a leading bang is refused, an escaped one is read as the literal it stands for, any other line is its own text |
| Policy.ParseMarkedPathPatterns | src/monoid_agent_kernel/permissions.py:239-263 | under the marker every line is its own text, a raw leading bang included, and the escaped spelling is refused |
| Policy.MarkedReads | src/monoid_agent_kernel/permissions.py:239-263 | that, for one raw line |
| Policy.ParseDurablePathPatterns | src/monoid_agent_kernel/permissions.py:266-306 | what the marked reader takes is current, any other line is retained as legacy, its text unchanged |
| Policy.DurableReads | src/monoid_agent_kernel/permissions.py:266-306 | that, for one raw line |
| Policy.SerializePathPatterns | src/monoid_agent_kernel/permissions.py:309-320 | writes the texts, or refuses a current pattern without a canonical spelling |
| Policy.NeedEncodingMarker | src/monoid_agent_kernel/permissions.py:323-335 | the marker is needed iff some pattern is ambiguous without it |
| Policy.MarkerIsNeededIff | src/monoid_agent_kernel/permissions.py:323-335 | a current text is ambiguous exactly when the configuration reader would not give it back |
| Policy.WireRoundTrip | src/monoid_agent_kernel/permissions.py:196-263 | every valid current text survives its wire spelling |
| Policy.JsonRoundTrip | src/monoid_agent_kernel/permissions.py:451-495 | writing and reading a policy of current patterns gives it back |
| Policy.DurableRoundTrip | src/monoid_agent_kernel/permissions.py:468-495 | writing and reading durably gives back every durably read policy, legacy marks included |
| Policy.MergedMatchesEitherPart | src/monoid_agent_kernel/permissions.py:497-517 | a merged policy matches a path iff one of its parts does |
| Policy.DurablePoliciesAreSeparated | src/monoid_agent_kernel/permissions.py:451-495 | every policy that was read, durably or not, meets what merging asks of its parts |
| Mounts.SpellingIsSegments | src/monoid_agent_kernel/memory.py:403-407 | the string test with a slash is the segment-prefix test |
| Mounts.FindMount | src/monoid_agent_kernel/memory.py:403-407 | the loop on spellings finds the specified mount |
| Mounts.MountIsLongest | src/monoid_agent_kernel/memory.py:142-142 | the mount found is the longest one the path is within |
| Mounts.LongestFirst | src/monoid_agent_kernel/memory.py:142-142 | sorting by spelling length puts no mount after one that extends it |
| Mounts.IterSearchFiles | src/monoid_agent_kernel/memory.py:545-572 | one root yields its unshadowed, unhidden files in listing order |
| Mounts.SearchAgreesWithResolution | src/monoid_agent_kernel/memory.py:518-572 | a search finds exactly the visible files below its namespace, each under a name that resolves back to it |
| Mounts.SearchFailsIff | src/monoid_agent_kernel/memory.py:518-543 | a search fails as unmounted iff no mount is at, above or below the name, as not found iff nothing is at the resolved place and no mount lies below |
| Mounts.HiddenIsNotFound | src/monoid_agent_kernel/memory.py:545-572 | below its search root no name on a found path starts with a dot or is `node_modules` |
| Mounts.SearchFindsOnce | src/monoid_agent_kernel/memory.py:518-572 | no two files are found under one name |
| Mounts.FilesFoundOnceIffApart | src/monoid_agent_kernel/memory.py:518-572 | whatever the directories hold, no file is found under two names iff no searched place lies in another that the search walks into it from, unhidden and unshadowed |
| Mounts.Search | src/monoid_agent_kernel/memory.py:148-192 | a limited search is the first hits of the full scan |
| TextEdit.InsertAfterLine | src/monoid_agent_kernel/memory.py:1109-1119 | cutting the inserted span out again always gives the text back |
| TextEdit.InsertGivesLines | src/monoid_agent_kernel/memory.py:1109-1119 | the lines are the first k, the inserted ones and the rest, iff no line feed at a join is absorbed |
| TextEdit.OccurrenceLines | src/monoid_agent_kernel/memory.py:1097-1106 | one line number for each non-overlapping occurrence that `count` counts, in order |
| TextEdit.LeftmostIsUnique | src/monoid_agent_kernel/memory.py:1097-1106 | left-to-right non-overlapping occurrences are one list only |
| TextEdit.FeedsAreLines | src/monoid_agent_kernel/memory.py:1097-1106 | counting line feeds counts lines |
| TextEdit.LineOfIsItsLine | src/monoid_agent_kernel/memory.py:1097-1106 | the number given for a position is that of the line it lies in: the lines before end at or before it, with its own they end behind |
| TextEdit.MemoryFile.StrReplace | src/monoid_agent_kernel/memory.py:243-281 | edits iff there is exactly one occurrence, at that occurrence only |
| TextEdit.MemoryFile.Insert | src/monoid_agent_kernel/memory.py:283-306 | refuses a line outside the file and otherwise inserts a removable span |
| Watch.ReadWatchBatch | src/monoid_agent_kernel/cli.py:578-612 | a bounded batch with the cursor just past it, or an error when the log was replaced or cut |
| Watch.BatchIsDetermined | src/monoid_agent_kernel/cli.py:590-604 | one log read from one offset has one batch: the longest prefix of its records that fits |
| Watch.WatchDeliversEverythingOnce | src/monoid_agent_kernel/cli.py:559-575 | for every growth of the log, the batches together are the committed records up to the cursor, none missing or repeated |
| Watch.BatchesAreBoundedAndAdvance | src/monoid_agent_kernel/cli.py:590-604 | at most 256 records and 1 MiB unless one record, and an undrained batch moves the cursor |
| Watch.DrainedWatchIsComplete | src/monoid_agent_kernel/cli.py:559-575 | once the log stands still a drained batch has delivered all of it |
| Delta.ReplayRebuildsIffNoConflict | src/monoid_agent_kernel/loop.py:4098-4135 | replaying a captured delta on its base rebuilds the captured files iff no base directory became a file |
| Delta.FileOverDirectoryIsRefused | src/monoid_agent_kernel/loop.py:4111-4135 | a file written where the base has a directory is captured and cannot be restored |
| Delta.CaptureIsTheDifference | src/monoid_agent_kernel/loop.py:3816-3831 | an entry is captured iff its path differs from the base; an unchanged workspace captures nothing |
| Delta.DeltaLimitExceeded | src/monoid_agent_kernel/loop.py:5866-5882 | accepts iff every file and the total fit, independent of order |
| Delta.ApplyWorkspaceDelta | src/monoid_agent_kernel/loop.py:4098-4135 | a restore succeeds iff the delta fits the limits and every write is accepted, and then it is the replay |
| Delta.AcceptedDeltaNeverTrips | src/monoid_agent_kernel/loop.py:4111-4130 | a delta accepted at capture never trips the restore limits, in whatever order its entries come |

## Left out

- Provider adapters, streaming, observers, sinks, metrics, narration and redaction: effects only.
- Threads and scheduling: a stop, a cancel or a handler that returns nothing is an event.
- Capability replays beside approval replays, tool-load requests, runtime-config changes, media and prompt composition: carried by value and never branched on here.
- The task manager is a queue of finished tasks with a delivered set; capability vault and outbox are part of the state copied by value.
- A run without a durable lifecycle hook: no journal and no recovery, so the main results say nothing about it.
- Digests, JSON text and Unicode normalisation: digests are injective, texts are normalised already.
- The glob engine and `PurePath.match`: parameters of `Policy`, one line at a time.
- Merging a policy that carries a private legacy mark on a text the current grammar accepts: no reader makes one.
- Symbolic links, `Path` resolution and percent-decoding in memory paths: the model starts from decoded segments.
- Line boundaries other than the line feed when inserting or counting lines.
- Empty directories in a workspace delta, and the entry cap of a recursive delete on restore.
- Corrupt or non-boundary offsets in the event log: readers raise, and the watch loop ends.
- A stored result that cannot be decoded, or that contradicts its receipt: the code fails the run; the machine's journal holds decoded outcomes.
- RunOnce.AnswersAppliedAtMostOnce: not claimed for runs with a stop over a buried answer or an evidence failure while a batch is recovered, because `RunReapplying` proves that these apply an answer twice, nor for tasks checkpointed in mid-pump (`ReportsAtPark`), where `RunLimits.ReportMidBatchAppliesTwice` shows one applied twice.
- Dispatch.DispatchCall: no deadline and no limit on delivered output ends its retry plan early, and the hook's start notice cannot fail, because the run machine decides both for the call as a whole.
- RunApply.BatchRunsEachCallOnce: not claimed where the park of an interrupted batch is neither committed nor declined, because `RunForgetting.BatchesBreakIffParkIsForgotten` proves that some later run then breaks it, nor where `RunOnce.AnswersAppliedAtMostOnce` is not.
- RunKeeping.NothingIsLost: not claimed for the events named in `Loses`: each gives the item up (`RunKeeping.StopsGiveUpIff`, `RunLimits.StopLosesOutputs`), nor where `RunApply.BatchRunsEachCallOnce` is not.
- RunInputs.InputsLoggedOnce: not claimed where logged observations are pending and a park for a recovery is refused, a drain comes before the dispatch, or the call is cancelled, because `RunLimits` shows inputs logged twice in each, nor where `RunApply.BatchRunsEachCallOnce` is not.
- RunBilling.UsageIsBilledOnce: not claimed for task reports checkpointed in mid-pump; `RunRebilling` decides which of them break it.
- RunRebilling.ReportIsRebilledIff: both halves for hosts that require evidence; without it the only-if half holds as well (`RebilledOnlyIf`), and the other where the resumed step builds the same request again (`RebilledWhenFound`).
- RunReplays.HandlersStartAtMostOnce: not claimed when a consumption checkpoint is refused or declined, because `RunReplays.ConsumptionIsSafeIffStored` proves that the head then starts again in some run.
- RunReapplying.BatchRerunsIffEvidenceFails: assumes distinct call identifiers, without which a batch with outputs cannot be recovered at all.
