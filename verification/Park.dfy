/**
 Parks across a process boundary: what a snapshot keeps, what a restore rebuilds from it, the time a run
 has left, and the verdict of closing a parked run before and after a restart.
*/
module Park {
  import opened Wrappers
  import opened Usage
  import opened RunModel

  /** `InterruptionCause`. */
  datatype Cause =
    | UserCancel | GracefulDrain | LeaseLost | Deadline | HostShutdown | ProviderFailure | ValidationFailure | UnknownCause

  predicate Operational(cause: Cause) {
    cause.UserCancel? || cause.GracefulDrain? || cause.Deadline? || cause.HostShutdown?
  }

  /** The portable spelling of a cause. */
  function CauseValue(cause: Cause): string {
    match cause
    case UserCancel => "user_cancel"
    case GracefulDrain => "graceful_drain"
    case LeaseLost => "lease_lost"
    case Deadline => "deadline"
    case HostShutdown => "host_shutdown"
    case ProviderFailure => "provider_failure"
    case ValidationFailure => "validation_failure"
    case UnknownCause => "unknown"
  }

  /** The durable park observation, `suspension_checkpoint_payload`. */
  datatype Note = Note(reason: Reason, error: string, errorCode: string, retryable: bool, configRecoverable: bool,
                       callsPending: bool)

  /** A park that closing must not turn into a success. */
  datatype TurnFailure = TurnFailure(error: string, errorCode: string)

  datatype Output = Output(callId: string, text: string)

  // `rest` stands for every field that is copied by value both ways and on which nothing here branches.
  datatype Snapshot = Snapshot(
    rest: nat, status: Status, error: string, errorCode: string, finalText: string, usage: Usage,
    observations: seq<Output>, step: nat, terminal: bool, note: Option<Note>, seq_: nat,
    remaining: Option<real>, cancellationRequested: bool, cause: Option<Cause>)

  /** One activation's state as far as parks read it. */
  datatype Live = Live(
    rest: nat, status: Status, error: string, errorCode: string, finalText: string, usage: Usage,
    observations: seq<Output>, step: nat, terminal: bool, note: Option<Note>, seq_: nat,
    cause: Option<Cause>,               // state.interruption_cause
    retryable: bool, configRecoverable: bool,
    failure: Option<TurnFailure>,           // session.unrecovered_turn_failure
    midturn: Option<Reason>,            // session.midturn_park
    token: Option<Cause>,               // a requested cancellation; the first writer set its cause
    started: real, deadline: Option<real>,
    shellJobs: bool,                    // an in-process job is parked on
    callsPending: bool, resumeStep: bool)

  // ---------- Reading a park back ----------

  /** `_unrecovered_turn_failure`. */
  function FailureOf(note: Option<Note>): Option<TurnFailure> {
    if note.Some? && note.value.reason.TurnFailed? then Some(TurnFailure(note.value.error, note.value.errorCode)) else None
  }

  /** `_midturn_park`. */
  function MidturnOf(note: Option<Note>): Option<Reason> {
    if note.Some? && (note.value.reason.PausedPark? || note.value.reason.InterruptedPark?) then Some(note.value.reason)
    else None
  }

  /** `_park_classification`. */
  function ClassificationOf(note: Option<Note>): (bool, bool) {
    if note.None? then (false, false) else (note.value.retryable, note.value.configRecoverable)
  }

  function Max(a: real, b: real): real {
    if a >= b then a else b
  }

  /** `snapshot`; None while a shell job that cannot cross a process boundary is parked on. */
  function TakeSnapshot(live: Live, now: real): Option<Snapshot> {
    if live.shellJobs then None
    else
      var requested :=
        if live.terminal then live.token.Some? && live.token == live.cause else live.token.Some?;
      var cause := if !live.terminal && live.token.Some? then live.token else live.cause;
      Some(Snapshot(live.rest, live.status, live.error, live.errorCode, live.finalText, live.usage, live.observations,
                    live.step, live.terminal, live.note, live.seq_,
                    if live.deadline.Some? then Some(Max(0.0, live.deadline.value - now)) else None,
                    requested, cause))
  }

  datatype RestoreError = LeaseWasLost | CauseNotOperational

  /** The cause a restored request is re-applied with. */
  function RestoredCause(cp: Snapshot): Cause {
    if cp.cause.Some? then cp.cause.value else UserCancel
  }

  /** `restore` up to the rebuilt session; `lost` are the shell jobs that died with the process. */
  function Reopen(cp: Snapshot, lost: seq<Output>, now: real, maxDuration: Option<real>, hook: bool)
    : Result<Live, RestoreError>
  {
    if cp.cancellationRequested && RestoredCause(cp).LeaseLost? then Failure(LeaseWasLost)
    else if cp.cancellationRequested && !Operational(RestoredCause(cp)) then Failure(CauseNotOperational)
    else Success(Rebuilt(cp, lost, now, maxDuration, hook))
  }

  /** `_rehydrate`. */
  function Rebuilt(cp: Snapshot, lost: seq<Output>, now: real, maxDuration: Option<real>, hook: bool): Live {
    var (retryable, configRecoverable) := ClassificationOf(cp.note);
    Live(cp.rest, cp.status, cp.error, cp.errorCode, cp.finalText,
         if cp.usage == map[] then InitialTotal else cp.usage,
         cp.observations + lost, cp.step, cp.terminal, cp.note, cp.seq_, cp.cause, retryable, configRecoverable,
         FailureOf(cp.note), MidturnOf(cp.note),
         if cp.cancellationRequested then Some(RestoredCause(cp)) else None,
         if cp.remaining.Some? && maxDuration.Some? then now - (maxDuration.value - cp.remaining.value) else now,
         if cp.remaining.Some? then Some(now + cp.remaining.value)
         else if maxDuration.Some? then Some(now + maxDuration.value) else None,
         false, cp.note.Some? && cp.note.value.callsPending,
         hook && cp.step > 0 && cp.note.None?)
  }

  // ---------- A crash at a park is invisible ----------

  /** What every activation keeps of its own totals and cancellation token. */
  ghost predicate Ordinary(live: Live) {
    live.usage != map[] && (live.token.Some? ==> Operational(live.token.value))
  }

  /** The live classification is the one the committed observation reads back as. */
  ghost predicate ParkIsCommitted(live: Live) {
    live.failure == FailureOf(live.note) && live.midturn == MidturnOf(live.note)
  }

  lemma SnapshotsAreRestorable(live: Live, now: real)
    requires Ordinary(live) && TakeSnapshot(live, now).Some?
    ensures var cp := TakeSnapshot(live, now).value;
      && cp.usage != map[]
      && (cp.cancellationRequested ==> cp.cause.Some? && Operational(cp.cause.value))
      && (cp.remaining.Some? ==> cp.remaining.value >= 0.0)
  {
  }

  /**
   A park taken in one activation and restored in another snapshots as itself, at whatever time: only the
   remaining duration (unchanged when read at once) and the outputs of lost shell jobs can differ.
  */
  lemma CrashAtParkIsInvisible(live: Live, before: real, lost: seq<Output>, after: real, later: real,
                               maxDuration: Option<real>, hook: bool)
    requires Ordinary(live) && !live.shellJobs && after <= later
    requires live.deadline.Some? <==> maxDuration.Some?
    ensures var cp := TakeSnapshot(live, before).value;
      var reopened := Reopen(cp, lost, after, maxDuration, hook);
      && reopened.Success?
      && Ordinary(reopened.value)
      && TakeSnapshot(reopened.value, later)
           == Some(cp.(observations := cp.observations + lost,
                       remaining := if cp.remaining.None? then None
                                    else Some(Max(0.0, cp.remaining.value - (later - after)))))
  {
    SnapshotsAreRestorable(live, before);
  }

  /**
   Nothing the run has is lost on the way. Beside its clock and its flags for the next pump, the reopened
   activation differs in the outputs of lost shell jobs and in a cancellation: an open run takes the requested
   cause, a terminal one forgets a request it did not accept.
  */
  lemma ReopenedIsTheSame(live: Live, before: real, lost: seq<Output>, after: real, maxDuration: Option<real>, hook: bool)
    requires Ordinary(live) && !live.shellJobs && ParkIsCommitted(live)
    requires ClassificationOf(live.note) == (live.retryable, live.configRecoverable)
    ensures var r := Reopen(TakeSnapshot(live, before).value, lost, after, maxDuration, hook);
      && r.Success?
      && r.value == live.(
           observations := live.observations + lost,
           cause := if live.terminal || live.token.None? then live.cause else live.token,
           token := if live.terminal && live.token != live.cause then None else live.token,
           started := r.value.started, deadline := r.value.deadline,
           callsPending := live.note.Some? && live.note.value.callsPending,
           resumeStep := hook && live.step > 0 && live.note.None?)
  {
    SnapshotsAreRestorable(live, before);
    hide Max;
  }

  /**
   A checkpoint reopens exactly when it asks for no cancellation or for one an operator can ask for, and a request
   without a recorded cause is a user's; a lost lease never reopens.
  */
  lemma OnlyOperationalRequestsReopen(cp: Snapshot, lost: seq<Output>, now: real, maxDuration: Option<real>, hook: bool)
    ensures var r := Reopen(cp, lost, now, maxDuration, hook);
      && (r.Success? <==>
            || !cp.cancellationRequested || cp.cause.None?
            || cp.cause.value in {UserCancel, GracefulDrain, Deadline, HostShutdown})
      && (r.Success? ==> r.value.token == if !cp.cancellationRequested then None
                                          else if cp.cause.None? then Some(UserCancel) else cp.cause)
      && (r == Result.Failure(LeaseWasLost) <==> cp.cancellationRequested && cp.cause == Some(LeaseLost))
  {
  }

  /** A terminal verdict keeps a cancellation request iff it is the one the verdict accepted. */
  lemma TerminalKeepsOnlyItsOwnRequest(live: Live, now: real)
    requires live.terminal && !live.shellJobs && live.token.Some?
    ensures var cp := TakeSnapshot(live, now).value;
      && cp.cause == live.cause
      && (cp.cancellationRequested <==> live.cause == live.token)
  {
  }

  // ---------- Time ----------

  /** One stretch of a run: active time, then parked time before the next activation. */
  datatype Stretch = Stretch(active: real, parked: real)

  function ActiveTime(stretches: seq<Stretch>): real {
    if stretches == [] then 0.0 else ActiveTime(stretches[..|stretches| - 1]) + stretches[|stretches| - 1].active
  }

  datatype Clock = Clock(started: real, deadline: real, now: real)

  /** Run, park, wait, restore: the same arithmetic as `TakeSnapshot` and `Rebuilt`. */
  function CarryOver(clock: Clock, stretch: Stretch, maxDuration: real): Clock {
    var parkedAt := clock.now + stretch.active;
    var remaining := Max(0.0, clock.deadline - parkedAt);
    var now := parkedAt + stretch.parked;
    Clock(now - (maxDuration - remaining), now + remaining, now)
  }

  function AfterStretches(clock: Clock, stretches: seq<Stretch>, maxDuration: real): Clock {
    if stretches == [] then clock
    else CarryOver(AfterStretches(clock, stretches[..|stretches| - 1], maxDuration), stretches[|stretches| - 1], maxDuration)
  }

  lemma CarryOverIsReopen(live: Live, lost: seq<Output>, stretch: Stretch, maxDuration: real, now: real, hook: bool)
    requires Ordinary(live) && !live.shellJobs && live.deadline.Some?
    ensures var cp := TakeSnapshot(live, now + stretch.active).value;
      var reopened := Reopen(cp, lost, now + stretch.active + stretch.parked, Some(maxDuration), hook).value;
      var clock := CarryOver(Clock(live.started, live.deadline.value, now), stretch, maxDuration);
      reopened.started == clock.started && reopened.deadline == Some(clock.deadline)
  {
    SnapshotsAreRestorable(live, now + stretch.active);
  }

  /**
   Over any number of parks, downtimes and restores, the deadline stays `maxDuration` after the start, and
   the time charged is exactly the active time (capped at the budget): waiting costs nothing.
  */
  lemma {:induction false} OnlyActiveTimeIsCharged(start: real, stretches: seq<Stretch>, maxDuration: real)
    requires maxDuration >= 0.0
    requires forall i :: 0 <= i < |stretches| ==> stretches[i].active >= 0.0
    ensures var clock := AfterStretches(Clock(start, start + maxDuration, start), stretches, maxDuration);
      && clock.deadline - clock.started == maxDuration
      && clock.deadline - clock.now == Max(0.0, maxDuration - ActiveTime(stretches))
      && clock.now - clock.started <= maxDuration
  {
    if stretches != [] {
      OnlyActiveTimeIsCharged(start, stretches[..|stretches| - 1], maxDuration);
      ActiveTimeIsPositive(stretches[..|stretches| - 1]);
    }
  }

  lemma {:induction false} ActiveTimeIsPositive(stretches: seq<Stretch>)
    requires forall i :: 0 <= i < |stretches| ==> stretches[i].active >= 0.0
    ensures ActiveTime(stretches) >= 0.0
  {
    if stretches != [] {
      ActiveTimeIsPositive(stretches[..|stretches| - 1]);
    }
  }

  // ---------- Closing ----------

  datatype Verdict = Verdict(status: Status, error: string, errorCode: string, keepsCheckpoints: bool)

  /** Which promotion a close makes, in precedence order. */
  datatype Promotion = CancelPending(cause: Cause) | TurnLost(failure: TurnFailure) | TurnUnsettled(reason: Reason) | AsItStands

  function PromotionOf(live: Live): Promotion {
    if live.terminal then AsItStands
    else if live.token.Some? then CancelPending(live.token.value)
    else if live.failure.Some? then TurnLost(live.failure.value)
    else if live.midturn.Some? then TurnUnsettled(live.midturn.value)
    else AsItStands
  }

  function ReasonValue(reason: Reason): string {
    if reason.PausedPark? then "paused" else "interrupted"
  }

  function CancelCode(cause: Cause): string {
    match cause
    case Deadline => "run_timeout"
    case UserCancel => "cancelled"
    case _ => CauseValue(cause)
  }

  function VerdictOf(live: Live): Verdict {
    match PromotionOf(live)
    case CancelPending(Deadline) => Verdict(Limited, "run exceeded max duration", "run_timeout", true)
    case CancelPending(cause) => Verdict(Limited, "run cancelled", CancelCode(cause), true)
    case TurnLost(failure) =>
      Verdict(Failed, if failure.error == "" then "turn failed" else failure.error,
              if failure.errorCode == "" then "model_error" else failure.errorCode, true)
    case TurnUnsettled(reason) =>
      Verdict(Limited, "run closed while its turn was " + ReasonValue(reason) + "; the turn never settled",
              "closed_unsettled", true)
    case AsItStands => Verdict(live.status, live.error, live.errorCode, live.status != Completed)
  }

  /** No promoted close is a success. */
  lemma PromotedCloseIsNotCompleted(live: Live)
    requires PromotionOf(live) != AsItStands
    ensures VerdictOf(live).status != Completed && VerdictOf(live).keepsCheckpoints
  {
  }

  /** Closing after persist, crash and restore gives the verdict of closing in process. */
  lemma CloseSurvivesRestart(live: Live, before: real, lost: seq<Output>, after: real, maxDuration: Option<real>, hook: bool)
    requires Ordinary(live) && !live.shellJobs && ParkIsCommitted(live)
    ensures var cp := TakeSnapshot(live, before).value;
      var reopened := Reopen(cp, lost, after, maxDuration, hook);
      reopened.Success? && VerdictOf(reopened.value) == VerdictOf(live)
  {
    SnapshotsAreRestorable(live, before);
  }

  /** The run whose park is being closed, updated promotion by promotion. */
  class ParkedRun {
    var status: Status
    var error: string
    var errorCode: string
    var finalText: string
    var cause: Option<Cause>
    var terminal: bool
    var failure: Option<TurnFailure>
    var midturn: Option<Reason>
    var token: Option<Cause>
    var checkpointsKept: bool
    ghost const origin: Live

    ghost function View(): Live
      reads this
    {
      origin.(status := status, error := error, errorCode := errorCode, finalText := finalText, cause := cause,
              terminal := terminal, failure := failure, midturn := midturn, token := token)
    }

    constructor (live: Live)
      ensures View() == live && origin == live && checkpointsKept
    {
      status, error, errorCode, finalText, cause := live.status, live.error, live.errorCode, live.finalText, live.cause;
      terminal, failure, midturn, token := live.terminal, live.failure, live.midturn, live.token;
      checkpointsKept := true;
      origin := live;
    }

    /** `_promote_pending_cancel`. */
    method PromotePendingCancel()
      modifies this
      ensures terminal == (old(terminal) || old(token).Some?)
      ensures old(terminal) || old(token).None? ==> View() == old(View())
      ensures !old(terminal) && old(token).Some? ==>
        && status == Limited && cause == old(token)
        && error == (if old(token) == Some(Deadline) then "run exceeded max duration" else "run cancelled")
        && errorCode == CancelCode(old(token).value)
        && (old(token) != Some(Deadline) && old(finalText) != "" ==> finalText == old(finalText))
      ensures failure == old(failure) && midturn == old(midturn) && token == old(token) && checkpointsKept == old(checkpointsKept)
    {
      hide CauseValue, ReasonValue, VerdictOf;
      if terminal || token.None? {
        return;
      }
      status, terminal := Limited, true;
      if token == Some(Deadline) {
        error, errorCode, cause := "run exceeded max duration", "run_timeout", Some(Deadline);
        finalText := "Stopped after reaching max duration.";
      } else {
        error, cause := "run cancelled", token;
        errorCode := CancelCode(token.value);
        if finalText == "" {
          finalText := if token == Some(UserCancel) then "Stopped because the run was cancelled."
                       else "Stopped while the host was draining the run.";
        }
      }
    }

    /** `fail_recoverable`, as `close` calls it. */
    method FailRecoverable(message: string, code: string)
      modifies this
      ensures status == Failed && error == message && errorCode == code && terminal && cause == None && finalText == ""
      ensures failure == old(failure) && midturn == old(midturn) && token == old(token) && checkpointsKept == old(checkpointsKept)
    {
      status, error, errorCode, cause, finalText, terminal := Failed, message, code, None, "", true;
    }

    /** `_promote_unsettled_close`. */
    method PromoteUnsettled()
      modifies this
      ensures old(terminal) || old(midturn).None? ==> View() == old(View())
      ensures !old(terminal) && old(midturn).Some? ==>
        && status == Limited && terminal && errorCode == "closed_unsettled" && cause == None
        && error == "run closed while its turn was " + ReasonValue(old(midturn).value) + "; the turn never settled"
        && finalText == old(finalText)
      ensures checkpointsKept == old(checkpointsKept)
    {
      if terminal || midturn.None? {
        return;
      }
      status, errorCode, cause, terminal := Limited, "closed_unsettled", None, true;
      error := "run closed while its turn was " + ReasonValue(midturn.value) + "; the turn never settled";
    }

    /**
     `close`: three promotions in order, then the completed run's checkpoints go. A pending cancellation wins
     over a lost turn, a lost turn over an unsettled one, and a run that is terminal already stands.
    */
    method Close()
      requires checkpointsKept
      modifies this
      ensures VerdictOf(old(View())) == Verdict(status, error, errorCode, checkpointsKept)
      ensures terminal <==> old(terminal || token.Some? || failure.Some? || midturn.Some?)
      ensures !terminal || old(terminal) ==> View() == old(View())
      ensures !old(terminal) && old(token).Some? ==>
        && status == Limited && cause == old(token)
        && (cause == Some(Deadline) ==> errorCode == "run_timeout" && error == "run exceeded max duration")
        && (cause == Some(UserCancel) ==> errorCode == "cancelled" && error == "run cancelled")
        && (cause == Some(GracefulDrain) ==> errorCode == "graceful_drain" && error == "run cancelled")
        && (cause == Some(HostShutdown) ==> errorCode == "host_shutdown" && error == "run cancelled")
        && (cause != Some(Deadline) && old(finalText) != "" ==> finalText == old(finalText))
      ensures !old(terminal) && old(token).None? && old(failure).Some? ==>
        && status == Failed && cause == None && finalText == ""
        && (old(failure).value.error != "" ==> error == old(failure).value.error) && error != ""
        && (old(failure).value.errorCode != "" ==> errorCode == old(failure).value.errorCode)
        && (old(failure).value.errorCode == "" ==> errorCode == "model_error")
      ensures !old(terminal) && old(token).None? && old(failure).None? && old(midturn).Some? ==>
        status == Limited && errorCode == "closed_unsettled" && cause == None && finalText == old(finalText)
      ensures checkpointsKept <==> status != Completed
    {
      PromotePendingCancel();
      if failure.Some? && !terminal {
        FailRecoverable(if failure.value.error == "" then "turn failed" else failure.value.error,
                        if failure.value.errorCode == "" then "model_error" else failure.value.errorCode);
      }
      PromoteUnsettled();
      if status == Completed {
        checkpointsKept := false;
      }
    }
  }

  /** The live state after `close` has promoted it, with the terminal observation it commits. */
  function Closed(live: Live): Live {
    var verdict := VerdictOf(live);
    match PromotionOf(live)
    case AsItStands => live
    case CancelPending(cause) =>
      live.(status := verdict.status, error := verdict.error, errorCode := verdict.errorCode, terminal := true,
            cause := Some(cause), note := Some(Note(TerminalPark, verdict.error, verdict.errorCode, false, false, false)))
    case TurnLost(_) =>
      live.(status := verdict.status, error := verdict.error, errorCode := verdict.errorCode, terminal := true, cause := None,
            note := Some(Note(TerminalPark, verdict.error, verdict.errorCode, live.retryable, live.configRecoverable, false)))
    case TurnUnsettled(_) =>
      live.(status := verdict.status, error := verdict.error, errorCode := verdict.errorCode, terminal := true, cause := None,
            note := Some(Note(TerminalPark, verdict.error, verdict.errorCode, false, false, false)))
  }

  lemma ClosedFields(live: Live)
    requires PromotionOf(live) != AsItStands
    ensures var closed, verdict := Closed(live), VerdictOf(live);
      && closed == live.(status := verdict.status, error := verdict.error, errorCode := verdict.errorCode, terminal := true,
                         cause := closed.cause, note := closed.note)
      && closed.cause == (if PromotionOf(live).CancelPending? then live.token else None)
      && closed.note.Some? && closed.note.value.reason.TerminalPark?
  {
    hide VerdictOf;
  }

  /** A close interrupted after its own commit, restored and closed again, repeats its verdict. */
  lemma ClosingIsFinal(live: Live, before: real, lost: seq<Output>, after: real, maxDuration: Option<real>, hook: bool)
    requires Ordinary(live) && !live.shellJobs && PromotionOf(live) != AsItStands
    ensures var cp := TakeSnapshot(Closed(live), before).value;
      && Reopen(cp, lost, after, maxDuration, hook).Success?
      && VerdictOf(Reopen(cp, lost, after, maxDuration, hook).value) == VerdictOf(live)
      && (cp.cancellationRequested <==> PromotionOf(live).CancelPending?)
  {
    ClosedFields(live);
    PromotedCloseIsNotCompleted(live);
    var verdict := VerdictOf(live);
    assert verdict == Verdict(verdict.status, verdict.error, verdict.errorCode, verdict.status != Completed);
    var cp := TakeSnapshot(Closed(live), before).value;
    hide VerdictOf, Closed, Max, CauseValue, ReasonValue;
    var reopened := Reopen(cp, lost, after, maxDuration, hook);
    assert reopened.Success? && reopened.value.terminal && reopened.value.status == verdict.status
      && reopened.value.error == verdict.error && reopened.value.errorCode == verdict.errorCode;
    TerminalStands(reopened.value);
  }

  lemma TerminalStands(live: Live)
    requires live.terminal
    ensures VerdictOf(live) == Verdict(live.status, live.error, live.errorCode, live.status != Completed)
  {
  }
}
