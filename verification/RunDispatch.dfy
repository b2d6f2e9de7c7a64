/**
 The paid-call journal over whole runs, with no assumption on how parks and reports are committed: a head
 only moves forward, a final one never again, and no attempt of a step's call enters a provider or reports
 its cost twice.
*/
module RunDispatch {
  import opened Wrappers
  import opened Usage
  import opened RunModel

  type Journal = map<nat, Entry>

  ghost predicate SettledAt(journal: Journal, step: nat) {
    step in journal && journal[step].Settled?
  }

  /** How far one attempt of a head has come. */
  function Rank(entry: Entry): nat {
    match entry
    case Reserved(_, _) => 0
    case Started(_, _) => 1
    case Unknown(_, _) => 2
    case Settled(_, _, _, _) => 2
  }

  /** Nothing follows an ambiguous attempt, an answer, or a refusal that the kernel may not retry. */
  predicate Final(entry: Entry) {
    entry.Unknown? || (entry.Settled? && !(entry.outcome.Refused? && entry.outcome.retryable))
  }

  /** This attempt has been left behind, or has got further than its reservation. */
  predicate Past(entry: Entry, attempt: nat) {
    attempt < entry.attempt || (attempt == entry.attempt && !entry.Reserved?)
  }

  /** Entries into the provider are distinct attempts, each past its reservation and within the plan. */
  ghost predicate DispatchOk(config: Config, dispatched: seq<Dispatched>, journal: Journal) {
    && (forall i, j :: 0 <= i < j < |dispatched| ==> dispatched[i] != dispatched[j])
    && (forall i :: 0 <= i < |dispatched| ==>
          && dispatched[i].step in journal && Past(journal[dispatched[i].step], dispatched[i].attempt)
          && (dispatched[i].attempt == 1 || 1 < dispatched[i].attempt <= config.maxAttempts))
  }

  /** Costs are of distinct attempts that entered the provider; the one in flight has none yet. */
  ghost predicate SpendsOk(spends: seq<Spend>, dispatched: seq<Dispatched>) {
    && (forall i, j :: 0 <= i < j < |spends| ==>
          Dispatched(spends[i].step, spends[i].attempt) != Dispatched(spends[j].step, spends[j].attempt))
    && (forall i :: 0 <= i < |spends| ==> Dispatched(spends[i].step, spends[i].attempt) in dispatched)
  }

  ghost predicate Unspent(spends: seq<Spend>, step: nat, attempt: nat) {
    forall i :: 0 <= i < |spends| ==> !(spends[i].step == step && spends[i].attempt == attempt)
  }

  ghost predicate HeadIs(m: Machine, entry: Entry) {
    m.session.core.step in m.journal && m.journal[m.session.core.step] == entry
  }

  ghost predicate AttemptOk(config: Config, attempt: nat) {
    attempt == 1 || 1 < attempt <= config.maxAttempts
  }

  ghost predicate ProtocolOk(m: Machine) {
    match m.pc
    case Ready(request, attempt, _) => HeadIs(m, Reserved(request, attempt)) && AttemptOk(m.config, attempt)
    case InFlight(request, attempt, _) =>
      && HeadIs(m, Started(request, attempt)) && AttemptOk(m.config, attempt)
      && Dispatched(m.session.core.step, attempt) in m.dispatched
      && Unspent(m.spends, m.session.core.step, attempt)
    case Backoff(request, attempt, spent, _) =>
      && m.session.core.step in m.journal
      && var head := m.journal[m.session.core.step];
         MayRetry(m.config, head) && head.request == request && head.attempt == attempt && head.receipt == spent
         && AttemptOk(m.config, attempt)
    case _ => true
  }

  /** Heads carry attempts the plan allows. */
  ghost predicate HeadsOk(config: Config, journal: Journal) {
    forall step :: step in journal ==> AttemptOk(config, journal[step].attempt)
  }

  ghost predicate JournalInv(m: Machine) {
    && DispatchOk(m.config, m.dispatched, m.journal) && SpendsOk(m.spends, m.dispatched)
    && HeadsOk(m.config, m.journal) && ProtocolOk(m)
  }

  /** A head keeps its request, moves forward attempt by attempt, and never once it is final. */
  ghost predicate Moves(before: Entry, after: Entry) {
    && after.request == before.request
    && (before.attempt < after.attempt || (before.attempt == after.attempt && Rank(before) <= Rank(after)))
    && (before.attempt == after.attempt && Rank(before) == 2 ==> after == before)
    && (Final(before) ==> after == before)
  }

  ghost predicate Advances(before: Journal, after: Journal) {
    forall step :: step in before ==> step in after && Moves(before[step], after[step])
  }

  /** The transition touches neither the journal nor the dispatch history, and opens no dispatch. */
  ghost predicate JournalQuiet(m: Machine, m': Machine) {
    && m'.journal == m.journal && m'.dispatched == m.dispatched && m'.spends == m.spends && m'.config == m.config
    && !m'.pc.Ready? && !m'.pc.InFlight? && !m'.pc.Backoff?
  }

  lemma ParksAreQuiet(m: Machine, s: Session, stop: Stop, reason: Reason, code: Code)
    ensures JournalQuiet(m, HaltRun(m, s, stop)) && JournalQuiet(m, FailRun(m, s)) && JournalQuiet(m, FailTurn(m, s, code))
    ensures JournalQuiet(m, SettleRun(m, s, reason, code))
  {
    hide Unapplied;
  }

  lemma RecoveryIsQuiet(m: Machine, e: Event)
    requires m.pc.Recovering? || m.pc.Recovered?
    ensures JournalQuiet(m, Next(m, e)) || e.Report?
  {
    hide FromRecovering, FromRecovered, Reported;
    if m.pc.Recovering? {
      RecoveringIsQuiet(m, e);
    } else {
      RecoveredIsQuiet(m, e);
    }
  }

  lemma RecoveringIsQuiet(m: Machine, e: Event)
    requires m.pc.Recovering?
    ensures JournalQuiet(m, FromRecovering(m, e))
  {
    hide Account, AccountedUsage, FailRun, FailTurn;
    ParksAreQuiet(m, m.session, UserStop, SettledPark, EvidenceUncommitted);
  }

  lemma RecoveredIsQuiet(m: Machine, e: Event)
    requires m.pc.Recovered?
    ensures JournalQuiet(m, FromRecovered(m, e))
  {
    hide HaltRun, Account, ProgressMatches, ProjectTurn, AccountedUsage, BeginCalls, ClearObservations;
    if e.Halt? {
      ParksAreQuiet(m, m.session, e.stop, SettledPark, NoCode);
    }
  }

  lemma HeadIsQuiet(m: Machine, e: Event)
    requires m.pc.Idle? || m.pc.Top? || m.pc.Replaying? || m.pc.Handling? || m.pc.Parking?
    ensures JournalQuiet(m, Next(m, e)) || e.Report?
  {
    hide HaltRun, DeliverReady, AppendObservations, AppendInput, EvidenceRecovery, CompleteReplay, Reported,
         AcceptInput, AbandonRecovery, ClearObservations, SettleRun, AllocateStep;
    hide LimitRun;
    if e.Halt? {
      ParksAreQuiet(m, m.session, e.stop, SettledPark, NoCode);
    } else if m.pc.Top? {
      LimitIsQuiet(m, m.session, MaxSteps);
    } else if m.pc.Replaying? {
      LimitIsQuiet(m, ClearObservations(AppendObservations(AppendInput(m.session))), SizeLimit);
    }
  }

  lemma LimitIsQuiet(m: Machine, s: Session, code: Code)
    ensures JournalQuiet(m, LimitRun(m, s, code))
  {
  }

  lemma AnsweredIsQuiet(m: Machine, e: Event)
    requires m.pc.Answered?
    ensures JournalQuiet(m, FromAnswered(m, e))
  {
    hide HaltRun, FailRun, ProjectTurn, BeginCalls, CompletedCalls, ClearObservations;
    if e.Halt? {
      ParksAreQuiet(m, m.session, e.stop, SettledPark, NoCode);
    } else {
      var s := if m.pc.projected then m.session else ProjectTurn(m.session, m.pc.turn);
      ParksAreQuiet(m, s, UserStop, SettledPark, NoCode);
    }
  }

  lemma BatchIsQuiet(m: Machine, e: Event)
    requires m.pc.Batch?
    ensures JournalQuiet(m, FromBatch(m, e))
  {
    hide HaltRun, EndBatch;
    if e.Halt? {
      ParksAreQuiet(m, m.session, e.stop, SettledPark, NoCode);
    } else {
      BatchEndIsQuiet(m, m.session, m.pc.turn);
      var s := m.session.(core := m.session.core.(toolCalls := m.session.core.toolCalls + 1));
      BatchEndIsQuiet(m, s.(core := s.core.(status := Limited, code := MaxToolCalls)), m.pc.turn);
    }
  }

  lemma CallIsQuiet(m: Machine, e: Event)
    requires m.pc.Calling? || m.pc.Returned?
    ensures JournalQuiet(m, if m.pc.Calling? then FromCalling(m, e) else FromReturned(m, e))
  {
    hide HaltRun, CompleteCall;
    if e.Halt? {
      ParksAreQuiet(m, m.session, e.stop, SettledPark, NoCode);
    }
  }

  lemma TurnIsQuiet(m: Machine, e: Event)
    requires m.pc.Answered? || m.pc.Batch? || m.pc.Calling? || m.pc.Returned?
    ensures JournalQuiet(m, Next(m, e)) || e.Report?
  {
    hide FromAnswered, FromBatch, FromCalling, FromReturned, Reported;
    if m.pc.Answered? {
      AnsweredIsQuiet(m, e);
    } else if m.pc.Batch? {
      BatchIsQuiet(m, e);
    } else {
      CallIsQuiet(m, e);
    }
  }

  lemma BatchEndIsQuiet(m: Machine, s: Session, turn: Turn)
    ensures JournalQuiet(m, EndBatch(m, s, turn))
  {
    hide SettleRun;
    ParksAreQuiet(m, s.(callsPending := false), UserStop, LimitedPark, s.core.code);
  }

  lemma DecidingIsQuiet(m: Machine, e: Event)
    requires m.pc.Deciding?
    ensures JournalQuiet(m, Next(m, e)) || e.Report?
  {
    hide HaltRun, FailRun, SettleRun, LogFinish, Reported, RecordFailure, DropFinish, WithOutcome, ClearObservations;
    if e.Halt? {
      ParksAreQuiet(m, m.session, e.stop, SettledPark, NoCode);
    } else if e.Decide? {
      VerdictIsQuiet(m, e.verdict);
      hide FromDeciding;
    }
  }

  lemma VerdictIsQuiet(m: Machine, verdict: Verdict)
    requires m.pc.Deciding?
    ensures JournalQuiet(m, FromDeciding(m, Decide(verdict)))
  {
    var s, fromFinish := m.session, m.pc.fromFinish;
    hide LogFinish, RecordFailure, DropFinish, WithOutcome, ClearObservations;
  }

  lemma AwayFromTheJournal(m: Machine, e: Event)
    requires !m.pc.Requesting? && !m.pc.Ready? && !m.pc.InFlight? && !m.pc.Backoff? && !m.pc.Down? && !e.Report?
    ensures JournalQuiet(m, Next(m, e))
  {
    hide Next, JournalQuiet;
    match m.pc
    case Recovering(_) => RecoveryIsQuiet(m, e);
    case Recovered(_, _, _) => RecoveryIsQuiet(m, e);
    case Idle => HeadIsQuiet(m, e);
    case Top => HeadIsQuiet(m, e);
    case Replaying(_) => HeadIsQuiet(m, e);
    case Handling(_, _) => HeadIsQuiet(m, e);
    case Parking(_) => HeadIsQuiet(m, e);
    case Deciding(_, _) => DecidingIsQuiet(m, e);
    case _ => TurnIsQuiet(m, e);
  }

  lemma ReportIsQuiet(m: Machine, task: Task, persist: Option<Commit>)
    ensures var m' := Reported(m, task, persist);
      && m'.journal == m.journal && m'.dispatched == m.dispatched && m'.spends == m.spends && m'.pc == m.pc
      && m'.config == m.config && m'.session.core.step == m.session.core.step
  {
    hide TaskIds;
  }

  /** The journal of the current step moves forward; everything recorded of other steps stays as it was. */
  lemma HeadMoves(m: Machine, entry: Entry)
    requires DispatchOk(m.config, m.dispatched, m.journal) && HeadsOk(m.config, m.journal)
    requires AttemptOk(m.config, entry.attempt)
    requires m.session.core.step in m.journal ==> Moves(m.journal[m.session.core.step], entry)
    ensures var journal := m.journal[m.session.core.step := entry];
      DispatchOk(m.config, m.dispatched, journal) && HeadsOk(m.config, journal) && Advances(m.journal, journal)
  {
  }

  /** Only an absent or reserved head is reserved anew. */
  lemma ReserveAdvances(m: Machine, request: Request, resumed: bool, halt: Option<Stop>)
    requires JournalInv(m) && m.pc.Requesting?
    requires m.session.core.step in m.journal ==>
      m.journal[m.session.core.step].Reserved? && m.journal[m.session.core.step].request == request
    requires halt.None? && m.session.core.step in m.journal ==> m.journal[m.session.core.step].attempt == 1
    ensures var m' := ReserveDispatch(m, request, resumed, halt);
      JournalInv(m') && Advances(m.journal, m'.journal) && m'.config == m.config
  {
    hide HaltRun, DispatchOk, SpendsOk, HeadsOk, Advances;
    if halt.Some? {
      ParksAreQuiet(m, m.session, halt.value, SettledPark, NoCode);
      QuietAdvances(m, m);
      QuietAdvances(m, HaltRun(m, m.session, halt.value));
    } else {
      HeadMoves(m, Reserved(request, 1));
    }
  }

  lemma RefuseAdvances(m: Machine, step: nat, head: Entry)
    requires JournalInv(m) && step == m.session.core.step && step in m.journal
    requires head == m.journal[step]
             || (m.journal[step].Started? && head == Unknown(m.journal[step].request, m.journal[step].attempt))
    ensures var m' := RefuseProbe(m, step, head);
      JournalInv(m') && Advances(m.journal, m'.journal) && m'.config == m.config
  {
    HeadMoves(m, head);
    hide DispatchOk, SpendsOk, HeadsOk, Advances;
  }

  lemma DeliveryIsQuiet(m: Machine, s: Session, entry: Entry, stop: Stop)
    requires entry.Settled?
    ensures JournalQuiet(m, Deliver(m, s, entry)) && JournalQuiet(m, AwaitEvidence(m, s, entry))
    ensures JournalQuiet(m, HaltRun(m, s, stop))
  {
    hide Account, Unapplied;
  }

  lemma PreemptionIsQuiet(m: Machine, head: Entry, spent: Usage, stop: Stop)
    ensures JournalQuiet(m, PreemptCall(m, head, spent, stop))
  {
    hide Account, HaltRun, FailRun;
    var s := Observe(m.session, m.session.core.step, head);
    ParksAreQuiet(m, s, stop, SettledPark, NoCode);
    var r := Account(s, s.core.step, spent, map[]);
    if r.Some? {
      ParksAreQuiet(m, r.value, stop, SettledPark, NoCode);
    }
  }

  lemma QuietAdvances(m: Machine, m': Machine)
    requires JournalInv(m) && (JournalQuiet(m, m') || m' == m)
    ensures JournalInv(m') && Advances(m.journal, m'.journal) && m'.config == m.config
  {
    hide DispatchOk, SpendsOk, HeadsOk;
  }

  lemma RequestingAdvances(m: Machine, e: Event)
    requires JournalInv(m) && m.pc.Requesting?
    ensures JournalInv(FromRequesting(m, e)) && Advances(m.journal, FromRequesting(m, e).journal) && FromRequesting(m, e).config == m.config
  {
    hide AwaitEvidence, RefuseProbe, ReuseSettled, ReserveDispatch, HaltRun, DispatchOk, SpendsOk, HeadsOk, Advances, ProtocolOk;
    var step, request := m.session.core.step, m.pc.request;
    QuietAdvances(m, m);
    if e.Probe? {
      if step !in m.journal {
        ReserveAdvances(m, request, m.pc.resumed, e.halt);
      } else {
        var head := m.journal[step];
        RefuseAdvances(m, step, head);
        if head.Settled? {
          ReuseAdvances(m, head, e.halt, e.again);
        } else if head.Reserved? && head.request == request && (head.attempt == 1 || e.halt.Some?) {
          ReserveAdvances(m, request, m.pc.resumed, e.halt);
        } else if head.Started? && head.request == request {
          RefuseAdvances(m, step, Unknown(request, head.attempt));
        }
      }
    }
  }

  lemma ReuseAdvances(m: Machine, head: Entry, halt: Option<Stop>, again: bool)
    requires JournalInv(m) && m.pc.Requesting? && head.Settled? && HeadIs(m, head)
    ensures var m' := ReuseSettled(m, head, halt, again);
      JournalInv(m') && Advances(m.journal, m'.journal) && m'.config == m.config
    ensures var m' := AwaitEvidence(m, Observe(m.session, m.session.core.step, head), head);
      JournalInv(m') && Advances(m.journal, m'.journal) && m'.config == m.config
  {
    hide AwaitEvidence, Deliver, HaltRun, DispatchOk, SpendsOk;
    var s := Observe(m.session, m.session.core.step, head);
    DeliveryIsQuiet(m, s, head, if halt.Some? then halt.value else UserStop);
    QuietAdvances(m, Deliver(m, s, head));
    QuietAdvances(m, AwaitEvidence(m, s, head));
    QuietAdvances(m, m);
    if halt.Some? {
      QuietAdvances(m, HaltRun(m, s, halt.value));
    }
  }

  /** An attempt that enters the provider is past its reservation, and new. */
  lemma EntersOnce(config: Config, dispatched: seq<Dispatched>, journal: Journal, step: nat, request: Request, attempt: nat)
    requires DispatchOk(config, dispatched, journal) && AttemptOk(config, attempt)
    requires step in journal && journal[step] == Reserved(request, attempt)
    ensures DispatchOk(config, dispatched + [Dispatched(step, attempt)], journal[step := Started(request, attempt)])
    ensures Dispatched(step, attempt) !in dispatched
  {
  }

  lemma SpendsStay(spends: seq<Spend>, dispatched: seq<Dispatched>, entered: Dispatched)
    requires SpendsOk(spends, dispatched) && entered !in dispatched
    ensures SpendsOk(spends, dispatched + [entered]) && Unspent(spends, entered.step, entered.attempt)
  {
  }

  lemma ReadyAdvances(m: Machine, e: Event)
    requires JournalInv(m) && m.pc.Ready?
    ensures JournalInv(FromReady(m, e)) && Advances(m.journal, FromReady(m, e).journal) && FromReady(m, e).config == m.config
  {
    var step, request, attempt := m.session.core.step, m.pc.request, m.pc.attempt;
    match e
    case Dispatch =>
      EntersOnce(m.config, m.dispatched, m.journal, step, request, attempt);
      SpendsStay(m.spends, m.dispatched, Dispatched(step, attempt));
      HeadMoves(m, Started(request, attempt));
      hide DispatchOk, SpendsOk, Advances;
    case Halt(stop) =>
      hide JournalInv, PreemptCall;
      PreemptionIsQuiet(m, Reserved(request, attempt), m.pc.spent, stop);
      QuietAdvances(m, PreemptCall(m, Reserved(request, attempt), m.pc.spent, stop));
      QuietAdvances(m, m);
    case _ =>
  }

  lemma BackoffAdvances(m: Machine, e: Event)
    requires JournalInv(m) && m.pc.Backoff?
    ensures JournalInv(FromBackoff(m, e)) && Advances(m.journal, FromBackoff(m, e).journal) && FromBackoff(m, e).config == m.config
  {
    hide DispatchOk, SpendsOk, HeadsOk, Advances;
    match e
    case Go => HeadMoves(m, Reserved(m.pc.request, m.pc.attempt + 1));
    case Halt(stop) =>
      var head := m.journal[m.session.core.step];
      hide JournalInv, PreemptCall;
      PreemptionIsQuiet(m, head, m.pc.spent, stop);
      QuietAdvances(m, PreemptCall(m, head, m.pc.spent, stop));
      QuietAdvances(m, m);
    case _ => QuietAdvances(m, m);
  }

  /** The attempt in flight ends: its head moves on, and its cost is recorded for the first time. */
  lemma Ending(m: Machine, head: Entry, usage: Usage)
    requires JournalInv(m) && m.pc.InFlight? && !head.Reserved?
    requires head.request == m.pc.request && head.attempt == m.pc.attempt
    ensures var m' := EndAttempt(m, head, usage);
      && DispatchOk(m'.config, m'.dispatched, m'.journal) && SpendsOk(m'.spends, m'.dispatched)
      && HeadsOk(m'.config, m'.journal) && Advances(m.journal, m'.journal)
  {
    HeadMoves(m, head);
    hide DispatchOk, Advances;
  }

  /** Whatever ends the call, with its last head in place. */
  lemma EndedAdvances(m: Machine, ended: Machine, m': Machine)
    requires DispatchOk(ended.config, ended.dispatched, ended.journal) && SpendsOk(ended.spends, ended.dispatched)
    requires HeadsOk(ended.config, ended.journal) && Advances(m.journal, ended.journal)
    requires JournalQuiet(ended, m')
    ensures JournalInv(m') && Advances(m.journal, m'.journal) && m'.config == ended.config
  {
    hide DispatchOk, SpendsOk, HeadsOk, Advances;
  }

  lemma SettleAdvances(m: Machine, usage: Usage, outcome: Outcome, evidenceOk: bool, again: bool)
    requires JournalInv(m) && m.pc.InFlight?
    ensures var m' := SettleDispatch(m, usage, outcome, evidenceOk, again);
      JournalInv(m') && Advances(m.journal, m'.journal) && m'.config == m.config
  {
    var entry := Settled(m.pc.request, m.pc.attempt, Sum(m.pc.spent, usage), outcome);
    hide Sum, Deliver, AwaitEvidence, DispatchOk, SpendsOk, HeadsOk, Advances;
    Ending(m, entry, usage);
    var ended := EndAttempt(m, entry, usage);
    var s := Observe(m.session, m.session.core.step, entry);
    DeliveryIsQuiet(ended, s, entry, UserStop);
    EndedAdvances(m, ended, Deliver(ended, s, entry));
    EndedAdvances(m, ended, AwaitEvidence(ended, s, entry));
  }

  lemma LossAdvances(m: Machine, loss: Loss)
    requires JournalInv(m) && m.pc.InFlight?
    ensures var m' := LoseDispatch(m, loss);
      JournalInv(m') && Advances(m.journal, m'.journal) && m'.config == m.config
  {
    hide Sum, FailRun, DispatchOk, SpendsOk, HeadsOk, Advances, Account;
    var head := LostHead(m.pc, loss);
    Ending(m, head, loss.usage);
    var ended := EndAttempt(m, head, loss.usage);
    var s := Observe(m.session, m.session.core.step, head);
    ParksAreQuiet(ended, s, UserStop, SettledPark, NoCode);
    var r := Account(s, s.core.step, Sum(m.pc.spent, loss.usage), map[]);
    if r.Some? {
      ParksAreQuiet(ended, r.value, UserStop, SettledPark, NoCode);
    }
    EndedAdvances(m, ended, LoseDispatch(m, loss));
  }

  lemma InFlightAdvances(m: Machine, e: Event)
    requires JournalInv(m) && m.pc.InFlight?
    ensures JournalInv(FromInFlight(m, e)) && Advances(m.journal, FromInFlight(m, e).journal) && FromInFlight(m, e).config == m.config
  {
    hide JournalInv, SettleDispatch, LoseDispatch, WellFormed;
    QuietAdvances(m, m);
    match e
    case Settle(usage, outcome, evidenceOk, again) => SettleAdvances(m, usage, outcome, evidenceOk, again);
    case Lose(loss) => LossAdvances(m, loss);
    case _ =>
  }

  lemma NextAdvances(m: Machine, e: Event)
    requires JournalInv(m)
    ensures JournalInv(Next(m, e)) && Advances(m.journal, Next(m, e).journal) && Next(m, e).config == m.config
  {
    hide FromIdle, FromTop, FromRecovering, FromRecovered, FromReplaying, FromHandling, FromRequesting, FromReady,
         FromInFlight, FromBackoff, FromAnswered, FromBatch, FromCalling, FromReturned, FromDeciding, FromParking,
         Reported, Rehydrate;
    if m.pc.Down? || e.Crash? {
      QuietAdvances(m, Next(m, e));
    } else if e.Report? {
      ReportIsQuiet(m, e.task, e.persist);
    } else if m.pc.Requesting? {
      hide JournalInv, Advances;
      RequestingAdvances(m, e);
    } else if m.pc.Ready? {
      hide JournalInv, Advances;
      ReadyAdvances(m, e);
    } else if m.pc.InFlight? {
      hide JournalInv, Advances;
      InFlightAdvances(m, e);
    } else if m.pc.Backoff? {
      hide JournalInv, Advances;
      BackoffAdvances(m, e);
    } else {
      hide Next, JournalInv;
      AwayFromTheJournal(m, e);
      QuietAdvances(m, Next(m, e));
    }
  }

  lemma AdvancesCompose(a: Journal, b: Journal, c: Journal)
    requires Advances(a, b) && Advances(b, c)
    ensures Advances(a, c)
  {
    forall step | step in a
      ensures step in c && Moves(a[step], c[step])
    {
      MovesCompose(a[step], b[step], c[step]);
    }
  }

  lemma MovesCompose(a: Entry, b: Entry, c: Entry)
    requires Moves(a, b) && Moves(b, c)
    ensures Moves(a, c)
  {
  }

  lemma {:induction false} RunAdvances(m: Machine, events: seq<Event>)
    requires JournalInv(m)
    ensures JournalInv(Run(m, events)) && Advances(m.journal, Run(m, events).journal) && Run(m, events).config == m.config
  {
    if events == [] {
    } else {
      var before := events[..|events| - 1];
      RunAdvances(m, before);
      hide Next, JournalInv, Advances;
      NextAdvances(Run(m, before), events[|events| - 1]);
      AdvancesCompose(m.journal, Run(m, before).journal, Run(m, events).journal);
    }
  }

  // ---------- Main results ----------

  /** Whatever happens to a run, no attempt enters a provider twice, and no call more often than its plan allows. */
  lemma ProviderEnteredAtMostOnce(config: Config, events: seq<Event>, i: nat, j: nat)
    requires i < j < |Run(Initial(config), events).dispatched|
    ensures var dispatched := Run(Initial(config), events).dispatched;
      && dispatched[i] != dispatched[j]
      && (dispatched[i].step == dispatched[j].step ==> 1 < config.maxAttempts)
      && (1 < dispatched[j].attempt ==> dispatched[j].attempt <= config.maxAttempts)
  {
    hide Run;
    RunAdvances(Initial(config), events);
  }

  /** No attempt's cost is recorded twice, and only of attempts that entered the provider. */
  lemma CostsAreReportedOnce(config: Config, events: seq<Event>, i: nat, j: nat)
    requires i < j < |Run(Initial(config), events).spends|
    ensures var m := Run(Initial(config), events);
      && Dispatched(m.spends[i].step, m.spends[i].attempt) != Dispatched(m.spends[j].step, m.spends[j].attempt)
      && Dispatched(m.spends[i].step, m.spends[i].attempt) in m.dispatched
  {
    hide Run;
    RunAdvances(Initial(config), events);
  }

  /**
   A settled or ambiguous head outlives every later event, request, receipt and outcome, unless it is a
   refusal the kernel may retry with attempts left in its plan.
  */
  lemma SettledIsFinal(config: Config, events: seq<Event>, later: seq<Event>, step: nat)
    requires var journal := Run(Initial(config), events).journal;
      && step in journal && Rank(journal[step]) == 2
      && (Final(journal[step]) || journal[step].attempt >= config.maxAttempts)
    ensures step in Run(Run(Initial(config), events), later).journal
    ensures Run(Run(Initial(config), events), later).journal[step] == Run(Initial(config), events).journal[step]
  {
    hide Run;
    RunAdvances(Initial(config), events);
    RunAdvances(Run(Initial(config), events), later);
  }
}
