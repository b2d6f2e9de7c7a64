/**
 The park of an interrupted batch that nobody keeps: exactly then can a later run take up a batch whose
 answer was never logged.
*/
module RunForgetting {
  import opened Wrappers
  import opened Usage
  import opened RunModel
  import opened RunDispatch
  import opened RunBilling
  import opened RunOnce
  import opened RunApply
  import opened RunReplays

  // ---------- A sound batch ----------

  /** The turn whose calls run is the logged one, and what is pending is the outputs of its first calls. */
  ghost predicate BatchSound(m: Machine) {
    var core := m.session.core;
    match m.pc
    case Calling(turn, next, _) =>
      EndsInBatch(core) && LastTurn(core) == turn && OutputsOf(core.step, turn, next, core.observations)
    case Batch(turn, next, done) =>
      && EndsInBatch(core) && LastTurn(core) == turn
      && OutputsOf(core.step, turn, |core.observations|, core.observations)
      && (next < |turn.calls| && turn.calls[next].id in done ==> next < |core.observations|)
      && (next >= |turn.calls| ==> |core.observations| == |turn.calls|)
    case _ => true
  }

  lemma OrderlyBatchIsSound(m: Machine)
    requires ApplyInv(m)
    ensures BatchSound(m)
  {
    BatchOutputs(m);
    hide DurableApply, CurrentSettled;
  }

  // ---------- A run that goes on with the flag of a forgotten batch ----------

  /** Events that no hypothesis of an orderly run constrains. */
  predicate Harmless(m: Machine, e: Event) {
    && !e.Report?
    && (e.Halt? ==> !m.pc.Top? && !m.pc.Deciding?)
    && (e.Recover? ==> e.evidenceOk)
    && (e.Persist? ==> e.commit.Committed?)
  }

  lemma HarmlessIsOrderly(m: Machine, e: Event)
    requires Harmless(m, e)
    ensures Orderly(m, e)
  {
    hide Buried;
  }

  ghost predicate Later(from: Machine, to: Machine) {
    Leads(Orderly, from, to)
  }

  lemma GoesLater(from: Machine, to: Machine, e: Event)
    requires Later(from, to) && Harmless(to, e)
    ensures Later(from, Next(to, e))
  {
    HarmlessIsOrderly(to, e);
    hide Orderly, Harmless;
    LeadsOn(Orderly, from, to, e);
  }

  /** No logged answer is of a later step. */
  predicate SpeechUpTo(messages: seq<Message>, step: nat) {
    forall i :: 0 <= i < |messages| && messages[i].AssistantMessage? ==> messages[i].step <= step
  }

  /** Parked with pending calls that no observation mentions. */
  ghost predicate Forgotten(m: Machine) {
    && m.pc.Idle? && m.session.callsPending && !m.session.resumeStep && !m.session.core.terminal && m.config.maxSteps > 0
    && EvidenceRecovery(m.session).None? && SpeechUpTo(m.session.core.messages, m.session.core.step)
  }

  /** The same with nothing waiting. */
  ghost predicate Clean(m: Machine) {
    && Forgotten(m)
    && m.session.core.observations == [] && m.session.core.ready == [] && m.session.core.replays == []
  }

  lemma ParkIsForgotten(m: Machine, commit: Commit)
    requires OrderlyInv(m) && m.pc.Parking? && m.pc.suspension.callsPending && !m.session.core.terminal && m.config.maxSteps > 0
    requires !commit.Committed? && !commit.Declined?
    ensures Forgotten(Next(m, Persist(commit)))
  {
    NoObservation(m, false);
    ResumeIsSpent(m);
    hide Inv, JournalInv, DurableOnce, DurableApply, PcOnce, BatchRuns;
  }

  /** Submit, Go: a new step begins, the flag untouched. */
  lemma NewStep(m: Machine)
    requires Forgotten(m)
    ensures var r := Next(Next(m, Submit(0)), Go);
      && r.pc == Replaying(Fresh(false)) && r.config == m.config && r.journal == m.journal
      && r.session.callsPending && !r.session.resumeStep && !r.session.core.terminal && r.session.suspension.None?
      && r.session.core.messages == m.session.core.messages && r.session.core.step == m.session.core.step + 1
      && r.session.core.input == Some(Input(r.session.core.submits, 0)) && r.session.core.ready == []
      && (m.session.core.ready == [] ==>
            r.session.core.replays == m.session.core.replays && r.session.core.observations == m.session.core.observations)
  {
    hide EvidenceRecovery, TaskIds;
    var m1 := Next(m, Submit(0));
    assert m1.pc.Top? && m1.session.core.local == 0;
    if m.session.core.ready == [] {
      NothingDelivered(AllocateStep(m1.session));
    }
  }

  lemma NothingDelivered(s: Session)
    requires s.core.ready == []
    ensures DeliverReady(s).core.replays == s.core.replays && DeliverReady(s).core.observations == s.core.observations
  {
    assert s.core.observations + TaskObservations([]) == s.core.observations;
  }

  /** Prepare over a limit, Persist: the step ends before its call, and whatever was waiting is logged. */
  lemma StepIsSkipped(m: Machine)
    requires m.pc == Replaying(Fresh(false)) && m.session.core.replays == [] && m.session.core.ready == []
    requires m.session.callsPending && !m.session.resumeStep && !m.session.core.terminal && m.config.maxSteps > 0
    requires SpeechUpTo(m.session.core.messages, m.session.core.step)
    ensures var r := Next(Next(m, Prepare(0, true)), Persist(Committed));
      && Next(m, Prepare(0, true)).pc.Parking?
      && Clean(r) && r.session.core.step == m.session.core.step && r.journal == m.journal && r.config == m.config
  {
    hide ObservationMessages, Unapplied;
    InputsAreNoSpeech(m.session);
  }

  lemma InputsAreNoSpeech(s: Session)
    requires SpeechUpTo(s.core.messages, s.core.step)
    ensures SpeechUpTo(AppendObservations(AppendInput(s)).core.messages, s.core.step)
  {
  }

  /** One step later, with nothing waiting. */
  lemma Skips(n: Machine, m: Machine) returns (r: Machine)
    requires Later(n, m) && Forgotten(m)
    ensures Later(n, r) && Clean(r) && r.journal == m.journal && r.session.core.step == m.session.core.step + 1
  {
    NewStep(m);
    assert SpeechUpTo(m.session.core.messages, m.session.core.step);
    hide Next, Forgotten, Clean, Later;
    GoesLater(n, m, Submit(0)) by { ForgottenIsIdle(m); }
    var m1 := Next(m, Submit(0));
    GoesLater(n, m1, Go);
    var m2 := Next(m1, Go);
    var m3 := DrainsLater(n, m2);
    StepIsSkipped(m3) by { ForgottenIsIdle(m); }
    GoesLater(n, m3, Prepare(0, true));
    GoesLater(n, Next(m3, Prepare(0, true)), Persist(Committed));
    r := Next(Next(m3, Prepare(0, true)), Persist(Committed));
  }

  lemma ForgottenIsIdle(m: Machine)
    requires Forgotten(m)
    ensures m.pc.Idle? && m.config.maxSteps > 0
  {
  }

  lemma DrainsLater(n: Machine, m: Machine) returns (r: Machine)
    requires Later(n, m) && m.pc.Replaying?
    ensures Later(n, r) && r.pc == m.pc && r.config == m.config && r.journal == m.journal
    ensures r.session == m.session.(core := m.session.core.(replays := []), seq_ := r.session.seq_)
  {
    forall x, e | RunsHeads(e)
      ensures Orderly(x, e)
    {
      HarmlessIsOrderly(x, e);
    }
    hide Orderly;
    r := Drains(Orderly, n, m);
  }

  function Ahead(journal: Journal, step: nat): set<nat> {
    set s | s in journal.Keys && step < s
  }

  lemma AheadShrinks(journal: Journal, step: nat)
    requires step + 1 in journal
    ensures |Ahead(journal, step + 1)| < |Ahead(journal, step)|
  {
    assert Ahead(journal, step) == Ahead(journal, step + 1) + {step + 1};
  }

  /** Skip until the next step's call is new to the journal. */
  lemma {:induction false} SkipsTo(n: Machine, m: Machine) returns (r: Machine)
    requires Later(n, m) && Clean(m)
    ensures Later(n, r) && Clean(r) && r.session.core.step + 1 !in r.journal
    decreases |Ahead(m.journal, m.session.core.step)|
  {
    hide Later, Ahead, Forgotten;
    if m.session.core.step + 1 !in m.journal {
      r := m;
    } else {
      var next := Skips(n, m);
      AheadShrinks(m.journal, m.session.core.step);
      r := SkipsTo(n, next);
    }
  }

  // ---------- The new turn ----------

  const NEW_TURN := Turn([Call(0, 0)], false, Normal)

  /** Prepare: the new input is all that is logged. */
  lemma NewRequest(m: Machine)
    requires m.pc == Replaying(Fresh(false)) && m.session.core.replays == [] && m.session.core.observations == []
    ensures var r, messages := Next(m, Prepare(0, false)), m.session.core.messages + InputMessages(m.session.core.input);
      r == m.(pc := Requesting(Request(messages, 0), false),
              session := m.session.(core := m.session.core.(messages := messages, input := None)))
  {
    assert ObservationMessages([]) == [];
    assert m.session.core.messages + InputMessages(m.session.core.input) + []
      == m.session.core.messages + InputMessages(m.session.core.input);
  }

  /** Probe, Dispatch: the new step's call. */
  lemma NewCall(m: Machine)
    requires m.pc.Requesting? && m.session.core.step !in m.journal
    ensures var r := Next(Next(m, Probe(true, None, false)), Dispatch);
      && r.pc == InFlight(m.pc.request, 1, map[]) && r.config == m.config
      && r.session == m.session.(core := m.session.core.(invocation := r.session.core.invocation))
  {
    assert Next(m, Probe(true, None, false)).pc == Ready(m.pc.request, 1, map[]);
  }

  /** Settle, Halt: the answer is at hand, and a stop parks it under the old flag. */
  lemma StoppedAnswer(m: Machine)
    requires m.pc.InFlight? && m.pc.attempt == 1 && m.pc.spent == map[] && m.session.callsPending
    requires m.session.core.step >= 1 && !m.session.core.terminal && m.session.core.messages != []
    requires m.session.core.messages[|m.session.core.messages| - 1].UserMessage?
    ensures var request := m.pc.request;
      var entry := Settled(request, 1, map[], Answer(NEW_TURN));
      var answered := Next(m, Settle(map[], Answer(NEW_TURN), true, false));
      var r := Next(answered, Halt(UserStop));
      && answered.pc.Answered?
      && r.pc == Parking(Suspension(InterruptedPark, NoCode, true)) && r.config == m.config
      && r.session.core == m.session.core.(invocation := Some(Invocation(m.session.core.step, entry)))
      && r.session.callsPending && m.session.core.step in r.journal && r.journal[m.session.core.step] == entry
      && Unapplied(r.session) == Some(Invocation(m.session.core.step, entry))
  {
    FreeCall();
    hide Sum, WellFormed, Covers, DeltaOf;
    var entry := Settled(m.pc.request, 1, map[], Answer(NEW_TURN));
    var s := Observe(m.session, m.session.core.step, entry);
    assert Account(s, s.core.step, map[], map[]) == Some(s);
    assert Next(m, Settle(map[], Answer(NEW_TURN), true, false)).pc == Answered(NEW_TURN, false);
  }

  lemma FreeCall()
    ensures Sum(map[], map[]) == map[] && WellFormed(map[]) && Covers(map[], map[]) && DeltaOf(map[], map[]) == map[]
  {
  }

  /** Persist, Resume: the park offers the answer as a batch that is already in the log. */
  lemma OfferedAsBatch(m: Machine, invocation: Invocation)
    requires m.pc == Parking(Suspension(InterruptedPark, NoCode, true)) && !m.session.core.terminal
    requires Unapplied(m.session) == Some(invocation)
    ensures var r := Next(Next(m, Persist(Committed)), Resume);
      && r.pc == Recovering(Recovery(invocation, false, true)) && r.session.core == m.session.core
      && r.config == m.config && r.journal == m.journal && r.session.callsPending == m.session.callsPending
  {
    hide Unapplied;
    SameUnapplied(m.session, Next(m, Persist(Committed)).session);
  }

  lemma SameUnapplied(s: Session, s': Session)
    requires s'.callsPending == s.callsPending && s'.core == s.core
    ensures Unapplied(s') == Unapplied(s)
  {
  }

  /** Recover, Proceed, Prepare, Proceed: its calls are about to run, and its answer is not in the log. */
  lemma UnloggedBatch(m: Machine, entry: Entry)
    requires entry.Settled? && entry.attempt == 1 && entry.receipt == map[] && entry.outcome == Answer(NEW_TURN)
    requires m.pc == Recovering(Recovery(Invocation(m.session.core.step, entry), false, true))
    requires m.session.core.step in m.journal && m.journal[m.session.core.step] == entry
    requires m.session.core.observations == [] && m.session.core.replays == [] && m.session.core.input.None?
    ensures var r := Next(Next(Next(Next(m, Recover(true)), Proceed(false)), Prepare(0, false)), Proceed(false));
      && r.pc == Batch(NEW_TURN, 0, {}) && r.session.core.messages == m.session.core.messages
      && r.session.core.step == m.session.core.step
  {
    FreeCall();
    hide Sum, WellFormed, Covers, DeltaOf;
    assert Account(m.session, m.session.core.step, map[], map[]) == Some(m.session);
    var m1 := Next(m, Recover(true));
    assert m1 == m.(pc := Recovered(m.pc.recovery, map[], Answer(NEW_TURN)));
    hide Account;
    assert ProgressMatches(NEW_TURN, []) && CompletedCalls([]) == {};
    hide ProgressMatches, CompletedCalls;
    var m2 := Next(m1, Proceed(false));
    assert m2.pc == Replaying(Projected(NEW_TURN)) && m2.session.core == m.session.core;
  }

  lemma NewSpeechIsMissing(messages: seq<Message>, extra: seq<Message>, core: Core)
    requires core.step >= 1 && SpeechUpTo(messages, core.step - 1)
    requires core.messages == messages + extra && forall i :: 0 <= i < |extra| ==> !extra[i].AssistantMessage?
    ensures !EndsInBatch(core)
  {
  }

  /** From a clean step on: Submit, Go, Prepare, Probe, Dispatch. */
  lemma AsksAnew(n: Machine, m: Machine) returns (r: Machine)
    requires Later(n, m) && Clean(m) && m.session.core.step + 1 !in m.journal
    ensures Later(n, r) && r.pc.InFlight? && r.pc.attempt == 1 && r.pc.spent == map[] && r.session.callsPending
    ensures var core := r.session.core;
      && core.step == m.session.core.step + 1 && !core.terminal
      && core.messages == m.session.core.messages + [UserMessage(core.submits, 0)]
      && core.observations == [] && core.replays == [] && core.input.None?
  {
    NewStep(m);
    hide Next, Later, Forgotten, Unapplied;
    ForgottenFacts(m);
    GoesLater(n, m, Submit(0));
    GoesLater(n, Next(m, Submit(0)), Go);
    var m1 := Next(Next(m, Submit(0)), Go);
    NewRequest(m1);
    GoesLater(n, m1, Prepare(0, false));
    var m2 := Next(m1, Prepare(0, false));
    NewCall(m2);
    GoesLater(n, m2, Probe(true, None, false));
    GoesLater(n, Next(m2, Probe(true, None, false)), Dispatch);
    r := Next(Next(m2, Probe(true, None, false)), Dispatch);
  }

  /** Then the answer, the stop and the recovery. */
  lemma TakesUpUnlogged(n: Machine, m: Machine) returns (r: Machine)
    requires Later(n, m) && Clean(m) && m.session.core.step + 1 !in m.journal
    ensures Later(n, r) && !BatchSound(r)
  {
    hide Next, Later, Unapplied, EndsInBatch, Forgotten;
    ForgottenFacts(m);
    var asked := AsksAnew(n, m);
    r := AnswersUnlogged(n, asked);
    NewSpeechIsMissing(m.session.core.messages, [UserMessage(asked.session.core.submits, 0)], r.session.core);
    hide SpeechUpTo;
  }

  lemma ForgottenFacts(m: Machine)
    requires Forgotten(m)
    ensures m.pc.Idle? && SpeechUpTo(m.session.core.messages, m.session.core.step)
  {
  }

  lemma AnswersUnlogged(n: Machine, m: Machine) returns (r: Machine)
    requires Later(n, m) && m.pc.InFlight? && m.pc.attempt == 1 && m.pc.spent == map[] && m.session.callsPending
    requires m.session.core.step >= 1 && !m.session.core.terminal && m.session.core.messages != []
    requires m.session.core.messages[|m.session.core.messages| - 1].UserMessage?
    requires m.session.core.observations == [] && m.session.core.replays == [] && m.session.core.input.None?
    ensures Later(n, r) && r.pc == Batch(NEW_TURN, 0, {})
    ensures r.session.core.messages == m.session.core.messages && r.session.core.step == m.session.core.step
  {
    hide Next, Later, Unapplied;
    var entry := Settled(m.pc.request, 1, map[], Answer(NEW_TURN));
    StoppedAnswer(m);
    GoesLater(n, m, Settle(map[], Answer(NEW_TURN), true, false));
    var m1 := Next(m, Settle(map[], Answer(NEW_TURN), true, false));
    GoesLater(n, m1, Halt(UserStop));
    var m2 := Next(m1, Halt(UserStop));
    OfferedAsBatch(m2, Invocation(m.session.core.step, entry));
    GoesLater(n, m2, Persist(Committed));
    GoesLater(n, Next(m2, Persist(Committed)), Resume);
    var m3 := Next(Next(m2, Persist(Committed)), Resume);
    UnloggedBatch(m3, entry);
    GoesLater(n, m3, Recover(true));
    GoesLater(n, Next(m3, Recover(true)), Proceed(false));
    var m4 := Next(Next(m3, Recover(true)), Proceed(false));
    GoesLater(n, m4, Prepare(0, false));
    GoesLater(n, Next(m4, Prepare(0, false)), Proceed(false));
    r := Next(Next(m4, Prepare(0, false)), Proceed(false));
  }

  // ---------- Main result ----------

  lemma ForgottenParkBreaks(m: Machine, commit: Commit)
    requires OrderlyInv(m) && m.pc.Parking? && m.pc.suspension.callsPending && !m.session.core.terminal && m.config.maxSteps > 0
    requires !commit.Committed? && !commit.Declined?
    ensures exists later :: Later(Next(m, Persist(commit)), later) && !BatchSound(later)
  {
    var n := Next(m, Persist(commit));
    ParkIsForgotten(m, commit);
    LeadsNowhere(Orderly, n);
    assert Later(n, n);
    hide OrderlyInv, Next, Later, Forgotten, BatchSound;
    var clean := Skips(n, n);
    var ready := SkipsTo(n, clean);
    var later := TakesUpUnlogged(n, ready);
  }

  lemma KeptParkHolds(m: Machine, commit: Commit)
    requires OrderlyInv(m) && m.pc.Parking? && (commit.Committed? || commit.Declined?)
    ensures forall later :: Later(Next(m, Persist(commit)), later) ==> BatchSound(later)
  {
    var n := Next(m, Persist(commit));
    assert Orderly(m, Persist(commit));
    hide Orderly, Next, BatchSound;
    NextIsOrderly(m, Persist(commit));
    forall later | Later(n, later)
      ensures BatchSound(later)
    {
      var events: seq<Event> :| Allowed(Orderly, n, events) && Run(n, events) == later;
      StaysOrderly(n, events);
      hide Inv, JournalInv, OnceInv, ApplyInv, Allowed, Run;
      OrderlyBatchIsSound(later);
    }
  }

  /**
   The exact condition, for the park of an interrupted batch: some later orderly run comes to a batch whose
   calls are not those of the logged answer, or whose outputs are not those of its first calls, iff the park
   is neither committed nor declined. What is left of it, the pending-calls flag, then passes off the next
   answer as one already logged.
  */
  lemma BatchesBreakIffParkIsForgotten(m: Machine, commit: Commit)
    requires OrderlyInv(m) && m.pc.Parking? && m.pc.suspension.callsPending && !m.session.core.terminal && m.config.maxSteps > 0
    ensures (exists later :: Later(Next(m, Persist(commit)), later) && !BatchSound(later))
      <==> !commit.Committed? && !commit.Declined?
  {
    if commit.Committed? || commit.Declined? {
      KeptParkHolds(m, commit);
    } else {
      ForgottenParkBreaks(m, commit);
    }
  }
}
