/**
 Billing over whole runs: what the attempts of a call reported is folded into the run totals at most once,
 wherever stops, retries, failures, refused commits and crashes fall, and before its answer is applied.
*/
module RunBilling {
  import opened Wrappers
  import opened Usage
  import opened RunModel
  import opened RunDispatch

  // ---------- What a call has cost ----------

  /** Everything the attempts of one step's call have reported, each once. */
  function Cost(spends: seq<Spend>, step: nat): Usage {
    if spends == [] then map[]
    else
      var before, last := Cost(spends[..|spends| - 1], step), spends[|spends| - 1];
      if last.step == step then Sum(before, last.usage) else before
  }

  lemma CostMore(spends: seq<Spend>, spend: Spend, step: nat)
    ensures Cost(spends + [spend], step)
      == if spend.step == step then Sum(Cost(spends, step), spend.usage) else Cost(spends, step)
  {
    assert (spends + [spend])[..|spends|] == spends;
  }

  /** A cost comes from an attempt of that very call. */
  lemma {:induction false} CostHasSource(spends: seq<Spend>, step: nat)
    requires Cost(spends, step) != map[]
    ensures exists i :: 0 <= i < |spends| && spends[i].step == step
  {
    var last := |spends| - 1;
    if spends[last].step != step {
      CostHasSource(spends[..last], step);
      var i :| 0 <= i < last && spends[..last][i].step == step;
      assert spends[i].step == step;
    }
  }

  // ---------- Invariant ----------

  function Amounts(bills: seq<Bill>): seq<Usage> {
    seq(|bills|, i requires 0 <= i < |bills| => bills[i].amount)
  }

  /** Every bill is the whole cost of its own call, and no call has two. */
  ghost predicate BillsOk(step: nat, usage: Usage, bills: seq<Bill>, spends: seq<Spend>) {
    && usage == TotalOf(Amounts(bills))
    && (forall i, j :: 0 <= i < j < |bills| ==> bills[i].step < bills[j].step)
    && (forall i :: 0 <= i < |bills| ==>
          && 1 <= bills[i].step <= step
          && bills[i].amount == Cost(spends, bills[i].step) != map[])
  }

  /** The current step's call is settled as far as this session knows. */
  ghost predicate CurrentSettled(step: nat, invocation: Option<Invocation>) {
    invocation.Some? && invocation.value.entry.Settled? && invocation.value.step == step
  }

  /** The remembered invocation never runs ahead of the step and agrees with the journal once settled. */
  ghost predicate InvocationOk(step: nat, invocation: Option<Invocation>, journal: Journal) {
    invocation.Some? ==>
      && invocation.value.step <= step
      && (invocation.value.entry.Settled? ==>
            invocation.value.step in journal && journal[invocation.value.step] == invocation.value.entry)
  }

  ghost predicate LedgerOk(step: nat, usage: Usage, bills: seq<Bill>, invocation: Option<Invocation>,
                           replays: seq<nat>, journal: Journal, spends: seq<Spend>) {
    && BillsOk(step, usage, bills, spends)
    && InvocationOk(step, invocation, journal)
    && (CurrentSettled(step, invocation) ==> replays == [])
  }

  /** The step has been allocated and its call has not been accounted. */
  ghost predicate OpenStep(step: nat, bills: seq<Bill>, invocation: Option<Invocation>) {
    && step >= 1
    && (bills != [] ==> bills[|bills| - 1].step < step)
    && !CurrentSettled(step, invocation)
  }

  ghost predicate CoreOk(core: Core, journal: Journal, spends: seq<Spend>) {
    LedgerOk(core.step, core.usage, core.bills, core.invocation, core.replays, journal, spends)
  }

  ghost predicate Open(core: Core) {
    OpenStep(core.step, core.bills, core.invocation)
  }

  /** A settled head's receipt is the cost of its call; an absent head, or a first reservation, has cost nothing. */
  ghost predicate BooksOk(journal: Journal, spends: seq<Spend>) {
    && (forall step :: SettledAt(journal, step) ==>
          journal[step].receipt == Cost(spends, step) && WellFormed(journal[step].receipt))
    && (forall step: nat :: (step in journal ==> journal[step].Reserved? && journal[step].attempt == 1) ==>
          Cost(spends, step) == map[])
    && (forall step :: step in journal ==> journal[step].attempt >= 1)
  }

  ghost predicate RecoveryOk(core: Core, recovery: Recovery) {
    && CurrentSettled(core.step, core.invocation)
    && recovery.invocation == core.invocation.value
    && core.replays == []
  }

  /** A dispatch of the open step: the journal knows it, and its receipt so far is what it has cost so far. */
  ghost predicate DispatchOpen(core: Core, journal: Journal, spends: seq<Spend>, head: Entry, spent: Usage) {
    && Open(core) && core.replays == []
    && core.step in journal && journal[core.step] == head && head.attempt >= 1
    && spent == Cost(spends, core.step) && WellFormed(spent)
  }

  ghost predicate PcOk(m: Machine) {
    var core := m.session.core;
    match m.pc
    case Recovering(recovery) => RecoveryOk(core, recovery)
    case Recovered(recovery, receipt, _) => RecoveryOk(core, recovery) && receipt == AccountedUsage(recovery)
    case Replaying(mode) => if mode.Fresh? then Open(core) else core.replays == []
    case Handling(_, mode) => mode.Fresh? && Open(core)
    case Requesting(_, _) => Open(core) && core.replays == []
    case Ready(request, attempt, spent) => DispatchOpen(core, m.journal, m.spends, Reserved(request, attempt), spent)
    case InFlight(request, attempt, spent) => DispatchOpen(core, m.journal, m.spends, Started(request, attempt), spent)
    case Backoff(request, attempt, spent, _) =>
      && SettledAt(m.journal, core.step) && m.journal[core.step].attempt == attempt
      && DispatchOpen(core, m.journal, m.spends, m.journal[core.step], spent)
    case _ => true
  }

  ghost predicate DurableOk(durable: Option<Checkpoint>, journal: Journal, spends: seq<Spend>) {
    durable.Some? ==>
      && CoreOk(durable.value.core, journal, spends)
      && (durable.value.suspension.None? ==> Open(durable.value.core))
  }

  /** The live core has grown from the stored one. */
  ghost predicate Descends(stored: Core, live: Core) {
    && stored.bills <= live.bills
    && stored.step <= live.step
    && (stored.step == live.step && CurrentSettled(stored.step, stored.invocation) ==>
          CurrentSettled(live.step, live.invocation))
  }

  ghost predicate DescendsFrom(durable: Option<Checkpoint>, live: Core) {
    durable.Some? ==> Descends(durable.value.core, live)
  }

  ghost predicate LiveOk(m: Machine) {
    && CoreOk(m.session.core, m.journal, m.spends)
    && DescendsFrom(m.durable, m.session.core)
    && (m.session.resumeStep ==>
          Open(m.session.core) && m.session.suspension.None? && (m.pc.Idle? || m.pc.Top?))
    && PcOk(m)
  }

  ghost predicate Inv(m: Machine) {
    && BooksOk(m.journal, m.spends)
    && DurableOk(m.durable, m.journal, m.spends)
    && (!m.pc.Down? ==> LiveOk(m))
  }

  /** `at_quiescent_park`. */
  predicate AtQuiescentPark(s: Session) {
    !s.core.terminal && s.suspension.Some?
  }

  /** A host checkpoints a reported task only at a quiescent park. */
  predicate ReportsAtPark(m: Machine, e: Event) {
    e.Report? && e.persist.Some? && !m.pc.Down? ==> AtQuiescentPark(m.session)
  }

  // ---------- How the ledger changes ----------

  lemma LedgerAdvances(core: Core, journal: Journal, spends: seq<Spend>, replays: seq<nat>)
    requires CoreOk(core, journal, spends)
    ensures LedgerOk(core.step + 1, core.usage, core.bills, core.invocation, replays, journal, spends)
    ensures OpenStep(core.step + 1, core.bills, core.invocation)
  {
  }

  lemma LedgerReplays(core: Core, journal: Journal, spends: seq<Spend>, replays: seq<nat>)
    requires CoreOk(core, journal, spends) && (Open(core) || replays == [])
    ensures LedgerOk(core.step, core.usage, core.bills, core.invocation, replays, journal, spends)
  {
  }

  /** Learning the journal head of the current step. */
  lemma LedgerObserves(core: Core, journal: Journal, spends: seq<Spend>, entry: Entry)
    requires CoreOk(core, journal, spends) && core.replays == []
    requires core.step in journal && journal[core.step] == entry
    ensures LedgerOk(core.step, core.usage, core.bills, Some(Invocation(core.step, entry)), core.replays, journal, spends)
    ensures !entry.Settled? && Open(core) ==> OpenStep(core.step, core.bills, Some(Invocation(core.step, entry)))
  {
    hide BillsOk;
  }

  /** Charging the open step's call for the first time. */
  lemma LedgerCharges(core: Core, journal: Journal, spends: seq<Spend>, amount: Usage)
    requires CoreOk(core, journal, spends)
    requires core.step >= 1 && (core.bills != [] ==> core.bills[|core.bills| - 1].step < core.step)
    requires amount == Cost(spends, core.step) != map[]
    ensures LedgerOk(core.step, Sum(core.usage, amount), core.bills + [Bill(core.step, amount)],
                     core.invocation, core.replays, journal, spends)
  {
    hide TotalOf, Sum, Cost;
    var bills := core.bills + [Bill(core.step, amount)];
    assert Amounts(bills) == Amounts(core.bills) + [amount];
    TotalOfAppend(Amounts(core.bills), amount);
    assert BillsOk(core.step, Sum(core.usage, amount), bills, spends) by {
      hide Amounts, CurrentSettled, InvocationOk;
      forall i, j | 0 <= i < j < |bills|
        ensures bills[i].step < bills[j].step
      {
        if j < |core.bills| {
          assert bills[j] == core.bills[j];
        }
      }
    }
  }

  /** Nothing outside one step's call has moved. */
  ghost predicate SameElsewhere(journal: Journal, spends: seq<Spend>, journal': Journal, spends': seq<Spend>, step: nat) {
    && (forall t :: t in journal && t != step ==> t in journal' && journal'[t] == journal[t])
    && (forall t: nat :: t != step ==> Cost(spends', t) == Cost(spends, t))
  }

  /** A ledger that has no bill for a step, and does not know its call as settled, survives whatever moves there. */
  lemma LedgerStable(core: Core, journal: Journal, spends: seq<Spend>, journal': Journal, spends': seq<Spend>, step: nat)
    requires CoreOk(core, journal, spends) && SameElsewhere(journal, spends, journal', spends', step)
    requires core.bills != [] ==> core.bills[|core.bills| - 1].step < step
    requires core.invocation.Some? && core.invocation.value.entry.Settled? ==> core.invocation.value.step != step
    ensures CoreOk(core, journal', spends')
  {
    hide Cost, TotalOf;
    assert forall i :: 0 <= i < |core.bills| ==> core.bills[i].step != step by {
      if core.bills != [] {
        assert forall i :: 0 <= i < |core.bills| ==> core.bills[i].step <= core.bills[|core.bills| - 1].step;
      }
    }
  }

  /** While a step is open, its call may move in the journal and cost more under every ledger. */
  lemma BooksMove(m: Machine, journal: Journal, spends: seq<Spend>)
    requires Inv(m) && !m.pc.Down? && Open(m.session.core)
    requires SameElsewhere(m.journal, m.spends, journal, spends, m.session.core.step)
    ensures DurableOk(m.durable, journal, spends) && CoreOk(m.session.core, journal, spends)
  {
    hide LedgerOk, SameElsewhere, BooksOk, PcOk;
    var core := m.session.core;
    LedgerFacts(core, m.journal, m.spends);
    LedgerStable(core, m.journal, m.spends, journal, spends, core.step);
    if m.durable.Some? {
      var stored := m.durable.value.core;
      LedgerFacts(stored, m.journal, m.spends);
      assert stored.bills != [] ==> stored.bills[|stored.bills| - 1] == core.bills[|stored.bills| - 1];
      LastBillIsLatest(core, m.journal, m.spends);
      LedgerStable(stored, m.journal, m.spends, journal, spends, core.step);
    }
  }

  lemma LedgerFacts(core: Core, journal: Journal, spends: seq<Spend>)
    requires CoreOk(core, journal, spends)
    ensures core.invocation.Some? ==> core.invocation.value.step <= core.step
  {
    hide BillsOk;
  }

  lemma LastBillIsLatest(core: Core, journal: Journal, spends: seq<Spend>)
    requires CoreOk(core, journal, spends)
    ensures forall i :: 0 <= i < |core.bills| ==> core.bills[i].step <= core.bills[|core.bills| - 1].step
  {
    hide Cost, TotalOf;
  }

  /** The open step's head moves, at no cost. */
  lemma JournalMoves(m: Machine, entry: Entry)
    requires Inv(m) && !m.pc.Down? && Open(m.session.core) && entry.attempt >= 1
    requires entry.Settled? ==> entry.receipt == Cost(m.spends, m.session.core.step) && WellFormed(entry.receipt)
    requires entry.Reserved? && entry.attempt == 1 ==> Cost(m.spends, m.session.core.step) == map[]
    ensures var journal := m.journal[m.session.core.step := entry];
      && BooksOk(journal, m.spends) && DurableOk(m.durable, journal, m.spends)
      && CoreOk(m.session.core, journal, m.spends)
  {
    hide Cost, LedgerOk, WellFormed;
    var journal := m.journal[m.session.core.step := entry];
    BooksMove(m, journal, m.spends);
    hide DurableOk, CoreOk, LiveOk;
  }

  /** One more cost of one call: no other call's cost has moved. */
  lemma OneMoreCost(spends: seq<Spend>, spend: Spend)
    ensures Cost(spends + [spend], spend.step) == Sum(Cost(spends, spend.step), spend.usage)
    ensures forall t: nat :: t != spend.step ==> Cost(spends + [spend], t) == Cost(spends, t)
  {
    hide Cost;
    forall t: nat
      ensures Cost(spends + [spend], t) == if t == spend.step then Sum(Cost(spends, t), spend.usage) else Cost(spends, t)
    {
      CostMore(spends, spend, t);
    }
  }

  /** The head that the attempt leaves, and its cost, agree again. */
  lemma BooksEnd(journal: Journal, spends: seq<Spend>, step: nat, head: Entry, usage: Usage, attempt: nat)
    requires BooksOk(journal, spends) && head.attempt >= 1 && !head.Reserved?
    requires head.Settled? ==> head.receipt == Sum(Cost(spends, step), usage) && WellFormed(head.receipt)
    ensures BooksOk(journal[step := head], spends + [Spend(step, attempt, usage)])
  {
    OneMoreCost(spends, Spend(step, attempt, usage));
    hide Cost, Sum, WellFormed;
  }

  /** An attempt of the open step's call ends and reports its cost. */
  lemma AttemptEnds(m: Machine, head: Entry, usage: Usage)
    requires Inv(m) && m.pc.InFlight? && WellFormed(usage) && head.attempt == m.pc.attempt && !head.Reserved?
    requires head.Settled? ==> head.receipt == Sum(m.pc.spent, usage)
    ensures var ended, step := EndAttempt(m, head, usage), m.session.core.step;
      && BooksOk(ended.journal, ended.spends) && DurableOk(m.durable, ended.journal, ended.spends)
      && CoreOk(m.session.core, ended.journal, ended.spends)
      && Cost(ended.spends, step) == Sum(m.pc.spent, usage) && WellFormed(Cost(ended.spends, step))
  {
    hide Cost, LedgerOk, WellFormed, Sum, DurableOk, BooksOk, DescendsFrom;
    var step := m.session.core.step;
    var ended := EndAttempt(m, head, usage);
    OneMoreCost(m.spends, Spend(step, m.pc.attempt, usage));
    SumIsWellFormed(m.pc.spent, usage);
    BooksEnd(m.journal, m.spends, step, head, usage, m.pc.attempt);
    BooksMove(m, ended.journal, ended.spends);
  }

  lemma SumIsWellFormed(a: Usage, b: Usage)
    requires WellFormed(a) && WellFormed(b)
    ensures WellFormed(Sum(a, b))
  {
  }

  // ---------- Every transition keeps the invariant ----------

  /** Program points that ask nothing of the ledger. */
  predicate Unconstrained(pc: Pc) {
    pc.Idle? || pc.Top? || pc.Answered? || pc.Batch? || pc.Calling? || pc.Returned? || pc.Deciding? || pc.Parking?
  }

  /** A transition that leaves the ledger, the journal and the durable state alone. */
  ghost predicate Quiet(m: Machine, m': Machine) {
    && Unconstrained(m'.pc)
    && m'.config == m.config && m'.journal == m.journal && m'.spends == m.spends && m'.durable == m.durable
    && !m.session.resumeStep && !m'.session.resumeStep
    && m'.session.core.step == m.session.core.step
    && m'.session.core.usage == m.session.core.usage
    && m'.session.core.bills == m.session.core.bills
    && m'.session.core.invocation == m.session.core.invocation
    && m'.session.core.replays == m.session.core.replays
  }

  lemma QuietKeeps(m: Machine, m': Machine)
    requires Inv(m) && !m.pc.Down? && Quiet(m, m')
    ensures Inv(m')
  {
    hide LedgerOk, OpenStep, DurableOk;
  }

  /** The resume flag is spent by the time the pump has left its loop head. */
  lemma ResumeIsSpent(m: Machine)
    requires Inv(m) && !m.pc.Down? && !m.pc.Idle? && !m.pc.Top?
    ensures !m.session.resumeStep
  {
  }

  lemma HaltIsQuiet(m: Machine, s: Session, stop: Stop)
    requires Quiet(m, m.(pc := Idle, session := s))
    ensures Quiet(m, HaltRun(m, s, stop))
  {
    hide Unapplied;
  }

  lemma FailsAreQuiet(m: Machine, s: Session, code: Code)
    requires Quiet(m, m.(pc := Idle, session := s))
    ensures Quiet(m, FailRun(m, s))
    ensures Quiet(m, FailTurn(m, s, code))
  {
  }

  lemma WithoutCallsIsQuiet(m: Machine, s: Session, turn: Turn, jobs: bool)
    requires Quiet(m, m.(pc := Idle, session := s))
    ensures Quiet(m, WithoutCalls(m, s, turn, jobs))
  {
  }

  /** Against its own receipt as baseline, an accounting changes nothing. */
  lemma AccountAgain(s: Session, step: nat, receipt: Usage)
    ensures var r := Account(s, step, receipt, receipt); r.Some? ==> r.value == s
  {
    DeltaOfSame(receipt);
  }

  lemma RestoreRefusalKeeps(m: Machine, recoverable: bool)
    requires Inv(m) && m.pc.Recovered?
    ensures Inv(RestoreRefusal(m, m.pc.recovery, m.pc.receipt, recoverable))
  {
    AccountAgain(m.session, m.pc.recovery.invocation.step, m.pc.receipt);
    FailsAreQuiet(m, m.session, NoCode);
    hide LedgerOk, DurableOk, OpenStep, Account, FailRun, FailTurn;
    QuietKeeps(m, RestoreRefusal(m, m.pc.recovery, m.pc.receipt, recoverable));
  }

  lemma RestoreAnswerKeeps(m: Machine, turn: Turn, jobs: bool)
    requires Inv(m) && m.pc.Recovered?
    ensures Inv(RestoreAnswer(m, m.pc.recovery, turn, jobs))
  {
    hide LedgerOk, DurableOk, OpenStep, ProgressMatches, FailRun, WithoutCalls;
    var recovery := m.pc.recovery;
    var s := if recovery.projected then m.session else ProjectTurn(m.session, turn);
    FailsAreQuiet(m, s, NoCode);
    WithoutCallsIsQuiet(m, s, turn, jobs);
    var m' := RestoreAnswer(m, m.pc.recovery, turn, jobs);
    if Unconstrained(m'.pc) {
      QuietKeeps(m, m');
    }
  }

  lemma RecoveredKeeps(m: Machine, e: Event)
    requires Inv(m) && m.pc.Recovered?
    ensures Inv(FromRecovered(m, e))
  {
    ResumeIsSpent(m);
    hide Inv, HaltRun, RestoreRefusal, RestoreAnswer;
    match e
    case Halt(stop) =>
      HaltIsQuiet(m, m.session, stop);
      QuietKeeps(m, FromRecovered(m, e));
    case Proceed(jobs) =>
      match m.pc.outcome {
        case Refused(recoverable, _) => RestoreRefusalKeeps(m, recoverable);
        case Answer(turn) => RestoreAnswerKeeps(m, turn, jobs);
      }
    case _ =>
  }

  lemma IdleKeeps(m: Machine, e: Event)
    requires Inv(m) && m.pc.Idle?
    ensures Inv(FromIdle(m, e))
  {
    hide BillsOk, DurableOk;
  }

  lemma ResumeStepKeeps(m: Machine)
    requires Inv(m) && m.pc.Top? && m.session.resumeStep
    ensures Inv(ResumeStep(m))
  {
    hide LedgerOk, DurableOk, OpenStep, TaskObservations, ApprovedTasks, TaskIds;
    LedgerReplays(m.session.core, m.journal, m.spends, m.session.core.replays + ApprovedTasks(m.session.core.ready));
  }

  lemma BeginStepKeeps(m: Machine)
    requires Inv(m) && m.pc.Top? && !m.session.resumeStep
    ensures Inv(BeginStep(m))
  {
    hide LedgerOk, DurableOk, OpenStep, TaskObservations, ApprovedTasks, TaskIds;
    LedgerAdvances(m.session.core, m.journal, m.spends, m.session.core.replays + ApprovedTasks(m.session.core.ready));
  }

  lemma TopKeeps(m: Machine, e: Event)
    requires Inv(m) && m.pc.Top?
    ensures Inv(FromTop(m, e))
  {
    hide Inv, HaltRun, LimitRun, ResumeStep, BeginStep;
    var s := m.session;
    if s.resumeStep {
      ResumeStepKeeps(m);
    } else if s.core.local >= m.config.maxSteps {
      if e.Go? {
        LimitIsQuiet(m, s, MaxSteps);
        QuietKeeps(m, FromTop(m, e));
      }
    } else {
      match e
      case Go => BeginStepKeeps(m);
      case Halt(stop) =>
        HaltIsQuiet(m, s, stop);
        QuietKeeps(m, FromTop(m, e));
      case Pause =>
        QuietKeeps(m, FromTop(m, e));
      case _ =>
    }
  }

  lemma LimitIsQuiet(m: Machine, s: Session, code: Code)
    requires Quiet(m, m.(pc := Idle, session := s))
    ensures Quiet(m, LimitRun(m, s, code))
  {
  }

  lemma RecoveringKeeps(m: Machine, e: Event)
    requires Inv(m) && m.pc.Recovering?
    ensures Inv(FromRecovering(m, e))
  {
    var recovery := m.pc.recovery;
    assert m.journal[recovery.invocation.step] == recovery.invocation.entry;
    AccountAgain(m.session, recovery.invocation.step, AccountedUsage(recovery));
    hide LedgerOk, DurableOk, OpenStep, Account, FailRun, FailTurn;
    FailsAreQuiet(m, m.session, EvidenceUncommitted);
    if Unconstrained(FromRecovering(m, e).pc) {
      QuietKeeps(m, FromRecovering(m, e));
    }
  }

  lemma ConsumeKeeps(m: Machine, commit: Commit)
    requires Inv(m) && m.pc.Replaying? && m.session.core.replays != []
    ensures Inv(ConsumeHead(m, m.pc.mode, commit))
  {
    LedgerReplays(m.session.core, m.journal, m.spends, m.session.core.replays[1..]);
    hide LedgerOk, OpenStep;
  }

  lemma PrepareKeeps(m: Machine, resumed: bool, config: nat, over: bool)
    requires Inv(m) && m.pc.Replaying? && m.pc.mode.Fresh? && m.session.core.replays == []
    ensures Inv(PrepareRequest(m, resumed, config, over))
  {
    hide LedgerOk, OpenStep, DurableOk, LimitRun, ObservationMessages, InputMessages;
    var s := AppendObservations(AppendInput(m.session));
    LimitIsQuiet(m, ClearObservations(s), SizeLimit);
    if over {
      QuietKeeps(m, PrepareRequest(m, resumed, config, over));
    }
  }

  lemma ReplayingKeeps(m: Machine, e: Event)
    requires Inv(m) && m.pc.Replaying?
    ensures Inv(FromReplaying(m, e))
  {
    ResumeIsSpent(m);
    hide Inv, ConsumeHead, PrepareRequest;
    if m.session.core.replays != [] {
      if e.Consume? {
        ConsumeKeeps(m, e.commit);
      }
    } else if e.Prepare? {
      match m.pc.mode {
        case Fresh(resumed) => PrepareKeeps(m, resumed, e.config, e.over);
        case Projected(_) => QuietKeeps(m, FromReplaying(m, e));
      }
    }
  }

  lemma HandlingKeeps(m: Machine, e: Event)
    requires Inv(m) && m.pc.Handling?
    ensures Inv(FromHandling(m, e))
  {
    hide LedgerOk, OpenStep, DurableOk, HaltRun;
    if e.Halt? {
      HaltIsQuiet(m, m.session, e.stop);
      QuietKeeps(m, FromHandling(m, e));
    }
  }

  // ---------- The paid call ----------

  /** The call of the session's uncharged step has ended, or is about to; this is what it has cost. */
  ghost predicate Chargeable(m: Machine, s: Session, spent: Usage) {
    && BooksOk(m.journal, m.spends) && DurableOk(m.durable, m.journal, m.spends)
    && CoreOk(s.core, m.journal, m.spends) && DescendsFrom(m.durable, s.core)
    && !s.resumeStep
    && s.core.step >= 1 && (s.core.bills != [] ==> s.core.bills[|s.core.bills| - 1].step < s.core.step)
    && spent == Cost(m.spends, s.core.step)
  }

  /** The session has just learned that its open step is settled, and the journal agrees. */
  ghost predicate SettledHere(m: Machine, s: Session, entry: Entry) {
    && entry.Settled?
    && s.core.step in m.journal && m.journal[s.core.step] == entry
    && Chargeable(m, s, entry.receipt)
  }

  lemma ChargedKeeps(m: Machine, s: Session, spent: Usage)
    requires Chargeable(m, s, spent)
    ensures var r := Account(s, s.core.step, spent, map[]);
      r.Some? ==>
        && CoreOk(r.value.core, m.journal, m.spends) && DescendsFrom(m.durable, r.value.core) && !r.value.resumeStep
  {
    DeltaOfEmpty(spent);
    hide LedgerOk, DurableOk, Sum, DeltaOf, Covers, BooksOk, Cost;
    if spent != map[] {
      LedgerCharges(s.core, m.journal, m.spends, spent);
    }
  }

  /** Parks and hand-overs after the charge ask nothing more of the ledger. */
  lemma AfterTheCharge(m: Machine, s: Session, pc: Pc)
    requires BooksOk(m.journal, m.spends) && DurableOk(m.durable, m.journal, m.spends)
    requires CoreOk(s.core, m.journal, m.spends) && DescendsFrom(m.durable, s.core) && !s.resumeStep && Unconstrained(pc)
    ensures Inv(m.(pc := pc, session := s))
  {
    hide LedgerOk, DurableOk, BooksOk, Descends;
  }

  lemma FailAfterTheCharge(m: Machine, s: Session, code: Code)
    requires BooksOk(m.journal, m.spends) && DurableOk(m.durable, m.journal, m.spends)
    requires CoreOk(s.core, m.journal, m.spends) && DescendsFrom(m.durable, s.core) && !s.resumeStep
    ensures Inv(FailRun(m, s)) && Inv(FailTurn(m, s, code))
  {
    hide LedgerOk, DurableOk, Inv, BooksOk;
    var failed := FailRun(m, s);
    AfterTheCharge(m, failed.session, failed.pc);
    var turn := FailTurn(m, s, code);
    AfterTheCharge(m, turn.session, turn.pc);
  }

  lemma HaltAfterTheCharge(m: Machine, s: Session, stop: Stop)
    requires BooksOk(m.journal, m.spends) && DurableOk(m.durable, m.journal, m.spends)
    requires CoreOk(s.core, m.journal, m.spends) && DescendsFrom(m.durable, s.core) && !s.resumeStep
    ensures Inv(HaltRun(m, s, stop))
  {
    hide LedgerOk, DurableOk, Inv, BooksOk, Unapplied;
    var halted := HaltRun(m, s, stop);
    AfterTheCharge(m, halted.session, halted.pc);
  }

  /** The outcome of a settled call reaches the run for the first time. */
  lemma DeliverKeeps(m: Machine, s: Session, entry: Entry)
    requires SettledHere(m, s, entry)
    ensures Inv(Deliver(m, s, entry))
    ensures Inv(AwaitEvidence(m, s, entry))
  {
    hide CoreOk, DurableOk, BooksOk, DescendsFrom, Cost, OpenStep, Account, Inv, FailRun, FailTurn;
    ChargedKeeps(m, s, entry.receipt);
    match Account(s, s.core.step, entry.receipt, map[])
    case None => FailAfterTheCharge(m, s, NoCode);
    case Some(s') =>
      FailAfterTheCharge(m, s', NoCode);
      FailAfterTheCharge(m, s', EvidenceUncommitted);
      if entry.outcome.Answer? {
        AfterTheCharge(m, s', Answered(entry.outcome.turn, false));
      }
  }

  /** A boundary between two dispatches charges what the call has cost so far. */
  lemma PreemptKeeps(m: Machine, head: Entry, spent: Usage, stop: Stop)
    requires Inv(m) && (m.pc.Ready? || m.pc.Backoff?)
    requires DispatchOpen(m.session.core, m.journal, m.spends, head, spent)
    ensures Inv(PreemptCall(m, head, spent, stop))
  {
    var s := Observe(m.session, m.session.core.step, head);
    Observes(m, head);
    ResumeIsSpent(m);
    hide CoreOk, DurableOk, BooksOk, DescendsFrom, Cost, Account, HaltRun, FailRun;
    assert Chargeable(m, s, spent);
    ChargedKeeps(m, s, spent);
    match Account(s, s.core.step, spent, map[])
    case None => FailAfterTheCharge(m, s, NoCode);
    case Some(s') => HaltAfterTheCharge(m, s', stop);
  }

  /** Learning the head of the open step keeps the ledger and its descent. */
  lemma Observes(m: Machine, head: Entry)
    requires Inv(m) && !m.pc.Down? && Open(m.session.core) && m.session.core.replays == []
    requires m.session.core.step in m.journal && m.journal[m.session.core.step] == head
    ensures var core := Observe(m.session, m.session.core.step, head).core;
      && CoreOk(core, m.journal, m.spends) && DescendsFrom(m.durable, core)
      && (!head.Settled? ==> Open(core))
  {
    LedgerObserves(m.session.core, m.journal, m.spends, head);
    hide LedgerOk, DurableOk, BooksOk, PcOk;
  }

  /** The same, for a journal in which that head has just been written. */
  lemma ObservesMoved(m: Machine, head: Entry, journal: Journal, spends: seq<Spend>)
    requires Inv(m) && !m.pc.Down? && Open(m.session.core) && m.session.core.replays == []
    requires CoreOk(m.session.core, journal, spends)
    requires m.session.core.step in journal && journal[m.session.core.step] == head
    ensures var core := Observe(m.session, m.session.core.step, head).core;
      && CoreOk(core, journal, spends) && DescendsFrom(m.durable, core)
      && (!head.Settled? ==> Open(core))
  {
    LedgerObserves(m.session.core, journal, spends, head);
    hide LedgerOk, DurableOk, BooksOk, PcOk;
  }

  lemma RefuseProbeKeeps(m: Machine, head: Entry)
    requires Inv(m) && m.pc.Requesting? && m.session.core.step in m.journal
    requires m.journal[m.session.core.step] == head || (head.Unknown? && head.attempt >= 1)
    ensures Inv(RefuseProbe(m, m.session.core.step, head))
  {
    ResumeIsSpent(m);
    var core := m.session.core;
    var m' := m.(journal := m.journal[core.step := head]);
    if m.journal[core.step] == head {
      assert m'.journal == m.journal;
      assert DurableOk(m.durable, m'.journal, m.spends) && CoreOk(core, m'.journal, m.spends) && BooksOk(m'.journal, m.spends);
    } else {
      JournalMoves(m, head);
    }
    ObservesMoved(m, head, m'.journal, m.spends);
    hide CoreOk, DurableOk, BooksOk, DescendsFrom, FailRun, Inv;
    FailAfterTheCharge(m', Observe(m.session, core.step, head), NoCode);
  }

  /** The probe finds the open step settled. */
  lemma NowSettled(m: Machine, entry: Entry)
    requires Inv(m) && (m.pc.Requesting? || m.pc.Backoff?) && entry.Settled?
    requires m.session.core.step in m.journal && m.journal[m.session.core.step] == entry
    ensures SettledHere(m, Observe(m.session, m.session.core.step, entry), entry)
  {
    ResumeIsSpent(m);
    Observes(m, entry);
    assert SettledAt(m.journal, m.session.core.step);
    hide CoreOk, DurableOk, DescendsFrom, Cost;
  }

  lemma ReuseSettledKeeps(m: Machine, entry: Entry, halt: Option<Stop>, again: bool)
    requires Inv(m) && m.pc.Requesting?
    requires entry.Settled? && m.session.core.step in m.journal && m.journal[m.session.core.step] == entry
    ensures Inv(ReuseSettled(m, entry, halt, again))
    ensures Inv(AwaitEvidence(m, Observe(m.session, m.session.core.step, entry), entry))
  {
    NowSettled(m, entry);
    var s := Observe(m.session, m.session.core.step, entry);
    AbsorbsKeep(m, entry);
    hide Inv, Deliver, AwaitEvidence, HaltRun, MayRetry;
    DeliverKeeps(m, s, entry);
    hide BooksOk, DurableOk, CoreOk, DescendsFrom, Cost;
    if halt.Some? {
      HaltAfterTheCharge(m, s, halt.value);
    }
  }

  /** Absorbing a refusal found in the journal: the step stays open, at what it has cost. */
  lemma AbsorbsKeep(m: Machine, entry: Entry)
    requires Inv(m) && m.pc.Requesting?
    requires entry.Settled? && m.session.core.step in m.journal && m.journal[m.session.core.step] == entry
    ensures Inv(m.(pc := Backoff(entry.request, entry.attempt, entry.receipt, m.pc.resumed)))
  {
    assert SettledAt(m.journal, m.session.core.step);
    hide LedgerOk, DurableOk, Cost, WellFormed;
  }

  lemma ReserveDispatchKeeps(m: Machine, request: Request, resumed: bool, halt: Option<Stop>)
    requires Inv(m) && m.pc.Requesting?
    requires halt.None? && m.session.core.step in m.journal ==>
      m.journal[m.session.core.step].Reserved? && m.journal[m.session.core.step].attempt == 1
    ensures Inv(ReserveDispatch(m, request, resumed, halt))
  {
    var core := m.session.core;
    match halt
    case None =>
      var entry := Reserved(request, 1);
      JournalMoves(m, entry);
      ObservesMoved(m, entry, m.journal[core.step := entry], m.spends);
      hide LedgerOk, DurableOk, OpenStep, Cost, Descends, BooksOk;
    case Some(stop) =>
      ResumeIsSpent(m);
      hide Inv, HaltRun;
      HaltIsQuiet(m, m.session, stop);
      QuietKeeps(m, HaltRun(m, m.session, stop));
  }

  lemma RequestingKeeps(m: Machine, e: Event)
    requires Inv(m) && m.pc.Requesting?
    ensures Inv(FromRequesting(m, e))
  {
    var step := m.session.core.step;
    if step in m.journal {
      AttemptsArePositive(m, step);
    }
    hide Inv, AwaitEvidence, RefuseProbe, ReuseSettled, ReserveDispatch;
    if e.Probe? {
      if step !in m.journal {
        ReserveDispatchKeeps(m, m.pc.request, m.pc.resumed, e.halt);
      } else {
        var head := m.journal[step];
        RefuseProbeKeeps(m, head);
        match head {
          case Reserved(_, attempt) =>
            if attempt == 1 || e.halt.Some? {
              ReserveDispatchKeeps(m, m.pc.request, m.pc.resumed, e.halt);
            }
          case Started(_, attempt) => RefuseProbeKeeps(m, Unknown(m.pc.request, attempt));
          case Unknown(_, _) =>
          case Settled(_, _, _, _) => ReuseSettledKeeps(m, head, e.halt, e.again);
        }
      }
    }
  }

  lemma AttemptsArePositive(m: Machine, step: nat)
    requires Inv(m) && step in m.journal
    ensures m.journal[step].attempt >= 1
  {
    hide DurableOk, LiveOk;
  }

  lemma ReadyKeeps(m: Machine, e: Event)
    requires Inv(m) && m.pc.Ready?
    ensures Inv(FromReady(m, e))
  {
    var core := m.session.core;
    match e
    case Dispatch =>
      var started := Started(m.pc.request, m.pc.attempt);
      JournalMoves(m, started);
      ObservesMoved(m, started, m.journal[core.step := started], m.spends);
      hide LedgerOk, DurableOk, OpenStep, Cost, Descends, BooksOk, WellFormed;
    case Halt(stop) =>
      if !stop.UserStop? {
        PreemptKeeps(m, Reserved(m.pc.request, m.pc.attempt), m.pc.spent, stop);
      }
      hide Inv, PreemptCall;
    case _ =>
  }

  lemma BackoffKeeps(m: Machine, e: Event)
    requires Inv(m) && m.pc.Backoff?
    ensures Inv(FromBackoff(m, e))
  {
    hide LedgerOk, DurableOk, Cost, Descends, WellFormed, PreemptCall;
    var core := m.session.core;
    match e
    case Go =>
      var next := Reserved(m.pc.request, m.pc.attempt + 1);
      JournalMoves(m, next);
      ObservesMoved(m, next, m.journal[core.step := next], m.spends);
      hide OpenStep, BooksOk;
    case Halt(stop) =>
      PreemptKeeps(m, m.journal[core.step], m.pc.spent, stop);
      hide Inv, PreemptCall;
    case _ =>
  }

  /** The last attempt has ended with this head: its session may be charged. */
  lemma Ended(m: Machine, head: Entry, usage: Usage)
    requires Inv(m) && m.pc.InFlight? && WellFormed(usage) && !head.Reserved?
    requires head.attempt == m.pc.attempt && head.request == m.pc.request
    requires head.Settled? ==> head.receipt == Sum(m.pc.spent, usage)
    ensures var ended := EndAttempt(m, head, usage);
      Chargeable(ended, Observe(m.session, m.session.core.step, head), Sum(m.pc.spent, usage))
  {
    hide LedgerOk, DurableOk, BooksOk, Cost, Sum, WellFormed, Descends;
    ResumeIsSpent(m);
    AttemptEnds(m, head, usage);
    var ended := EndAttempt(m, head, usage);
    ObservesMoved(m, head, ended.journal, ended.spends);
  }

  /** Or its refusal is absorbed, and the step stays open. */
  lemma Absorbed(m: Machine, head: Entry, usage: Usage)
    requires Inv(m) && m.pc.InFlight? && WellFormed(usage) && head.Settled?
    requires head.attempt == m.pc.attempt && head.request == m.pc.request && head.receipt == Sum(m.pc.spent, usage)
    ensures Inv(EndAttempt(m, head, usage).(pc := Backoff(head.request, head.attempt, head.receipt, false)))
  {
    hide LedgerOk, DurableOk, BooksOk, Cost, Sum, WellFormed, Descends, OpenStep;
    ResumeIsSpent(m);
    AttemptEnds(m, head, usage);
  }

  lemma SettleDispatchKeeps(m: Machine, usage: Usage, outcome: Outcome, evidenceOk: bool, again: bool)
    requires Inv(m) && m.pc.InFlight? && WellFormed(usage)
    ensures Inv(SettleDispatch(m, usage, outcome, evidenceOk, again))
  {
    var entry := Settled(m.pc.request, m.pc.attempt, Sum(m.pc.spent, usage), outcome);
    Ended(m, entry, usage);
    Absorbed(m, entry, usage);
    var ended := EndAttempt(m, entry, usage);
    hide Inv, Chargeable, Deliver, AwaitEvidence, Sum, WellFormed, MayRetry;
    DeliverKeeps(ended, Observe(m.session, m.session.core.step, entry), entry);
  }

  lemma LossKeeps(m: Machine, loss: Loss)
    requires Inv(m) && m.pc.InFlight? && WellFormed(loss.usage)
    ensures Inv(LoseDispatch(m, loss))
  {
    var head := LostHead(m.pc, loss);
    var spent := Sum(m.pc.spent, loss.usage);
    Ended(m, head, loss.usage);
    var ended := EndAttempt(m, head, loss.usage);
    var s := Observe(m.session, m.session.core.step, head);
    hide Inv, Sum, WellFormed, Account, FailRun, CoreOk, DurableOk, BooksOk, DescendsFrom, Cost;
    ChargedKeeps(ended, s, spent);
    match Account(s, s.core.step, spent, map[])
    case None => FailAfterTheCharge(ended, s, NoCode);
    case Some(s') =>
      FailAfterTheCharge(ended, s', NoCode);
      AfterTheCharge(ended, s', Idle);
  }

  lemma InFlightKeeps(m: Machine, e: Event)
    requires Inv(m) && m.pc.InFlight?
    ensures Inv(FromInFlight(m, e))
  {
    hide Inv, SettleDispatch, LoseDispatch, WellFormed;
    match e
    case Settle(usage, outcome, evidenceOk, again) =>
      if WellFormed(usage) {
        SettleDispatchKeeps(m, usage, outcome, evidenceOk, again);
      }
    case Lose(loss) =>
      if WellFormed(loss.usage) {
        LossKeeps(m, loss);
      }
    case _ =>
  }

  // ---------- The rest of the pump ----------

  lemma AnsweredLeavesLedger(m: Machine, e: Event)
    requires m.pc.Answered? && !m.session.resumeStep
    ensures Quiet(m, FromAnswered(m, e))
  {
    hide HaltRun, WithoutCalls, CompletedCalls;
    if e.Halt? {
      HaltIsQuiet(m, m.session, e.stop);
    } else if e.Proceed? {
      var s := if m.pc.projected then m.session else ProjectTurn(m.session, m.pc.turn);
      WithoutCallsIsQuiet(m, s, m.pc.turn, e.jobs);
    }
  }

  lemma SettleIsQuiet(m: Machine, s: Session, reason: Reason, code: Code)
    requires Quiet(m, m.(pc := Idle, session := s))
    ensures Quiet(m, SettleRun(m, s, reason, code))
  {
  }

  lemma EndBatchIsQuiet(m: Machine, s: Session, turn: Turn)
    requires Quiet(m, m.(pc := Idle, session := s))
    ensures Quiet(m, EndBatch(m, s, turn))
  {
  }

  lemma BatchLeavesLedger(m: Machine, e: Event)
    requires m.pc.Batch? && !m.session.resumeStep
    ensures Quiet(m, FromBatch(m, e))
  {
    hide HaltRun, EndBatch;
    var s, turn := m.session, m.pc.turn;
    if e.Halt? {
      HaltIsQuiet(m, s, e.stop);
    } else {
      var counted := s.(core := s.core.(toolCalls := s.core.toolCalls + 1));
      EndBatchIsQuiet(m, s, turn);
      EndBatchIsQuiet(m, counted.(core := counted.core.(status := Limited, code := MaxToolCalls)), turn);
    }
  }

  lemma CallLeavesLedger(m: Machine, e: Event)
    requires (m.pc.Calling? || m.pc.Returned?) && !m.session.resumeStep
    ensures m.pc.Calling? ==> Quiet(m, FromCalling(m, e))
    ensures m.pc.Returned? ==> Quiet(m, FromReturned(m, e))
  {
    hide HaltRun;
    if e.Halt? {
      HaltIsQuiet(m, m.session, e.stop);
    }
  }

  lemma ExhaustIsQuiet(m: Machine, fromFinish: bool)
    requires !m.session.resumeStep
    ensures Quiet(m, Exhaust(m, fromFinish)) && Quiet(m, Reprompt(m, fromFinish))
  {
    hide ObservationMessages;
  }

  lemma LoggedIsQuiet(m: Machine, s: Session, fromFinish: bool)
    requires Quiet(m, m.(pc := Idle, session := s))
    ensures Quiet(m, m.(pc := Idle, session := LogFinish(s, fromFinish)))
  {
  }

  /** Every verdict logs the finish observations, if any, and parks or pumps again. */
  lemma DecidedIsQuiet(m: Machine, s: Session, fromFinish: bool, reason: Reason, code: Code)
    requires Quiet(m, m.(pc := Idle, session := s))
    ensures Quiet(m, SettleRun(m, LogFinish(s, fromFinish), reason, code))
  {
    hide LogFinish, SettleRun, Quiet;
    LoggedIsQuiet(m, s, fromFinish);
    SettleIsQuiet(m, LogFinish(s, fromFinish), reason, code);
  }

  lemma VerdictIsQuiet(m: Machine, verdict: Verdict)
    requires m.pc.Deciding? && !m.session.resumeStep
    ensures Quiet(m, FromDeciding(m, Decide(verdict)))
  {
    hide FailRun, SettleRun, Exhaust, Reprompt, LogFinish;
    var s, fromFinish := m.session, m.pc.fromFinish;
    if m.pc.turn.stop.Refusal? {
      DecidedIsQuiet(m, WithOutcome(s, Failed, OutputRefused), fromFinish, SettledPark, OutputRefused);
    } else if m.pc.turn.stop.Length? {
      DecidedIsQuiet(m, WithOutcome(s, Limited, OutputTruncated), fromFinish, LimitedPark, OutputTruncated);
    } else {
      DecidedIsQuiet(m, s, fromFinish, SettledPark, NoCode);
      FailsAreQuiet(m, s, NoCode);
      ExhaustIsQuiet(m, fromFinish);
    }
  }

  lemma DecidingLeavesLedger(m: Machine, e: Event)
    requires m.pc.Deciding? && !m.session.resumeStep
    ensures Quiet(m, FromDeciding(m, e))
  {
    if e.Halt? {
      HaltIsQuiet(m, m.session, e.stop);
    } else if e.Decide? {
      VerdictIsQuiet(m, e.verdict);
    }
    hide HaltRun, FailRun, SettleRun, Exhaust, Reprompt, LogFinish, WithOutcome;
  }

  predicate Applying(pc: Pc) {
    pc.Answered? || pc.Batch? || pc.Calling? || pc.Returned? || pc.Deciding?
  }

  /** Applying an answer never touches the ledger. */
  lemma TurnLeavesLedger(m: Machine, e: Event)
    requires Applying(m.pc) && !m.session.resumeStep && !e.Crash? && !e.Report?
    ensures Quiet(m, Next(m, e))
  {
    hide FromAnswered, FromBatch, FromCalling, FromReturned, FromDeciding, Quiet;
    match m.pc
    case Answered(_, _) => AnsweredLeavesLedger(m, e);
    case Batch(_, _, _) => BatchLeavesLedger(m, e);
    case Deciding(_, _) => DecidingLeavesLedger(m, e);
    case _ => CallLeavesLedger(m, e);
  }

  lemma TurnKeeps(m: Machine, e: Event)
    requires Inv(m) && Applying(m.pc) && !e.Crash? && !e.Report?
    ensures Inv(Next(m, e))
  {
    ResumeIsSpent(m);
    hide Inv, Next, Quiet;
    TurnLeavesLedger(m, e);
    QuietKeeps(m, Next(m, e));
  }

  /** A park is committed, refused, lost, or stored and then lost; either way the driver gets the session. */
  lemma ParkingKeeps(m: Machine, e: Event)
    requires Inv(m) && m.pc.Parking?
    ensures Inv(FromParking(m, e))
  {
    hide LedgerOk, OpenStep;
  }

  /** A reported task only joins the reentry queue; its checkpoint is taken at a quiescent park. */
  lemma ReportKeeps(m: Machine, task: Task, persist: Option<Commit>)
    requires Inv(m) && !m.pc.Down?
    requires persist.Some? ==> AtQuiescentPark(m.session)
    ensures Inv(Reported(m, task, persist))
  {
    hide LedgerOk, OpenStep, TaskIds;
    var queued := m.(session := m.session.(core := m.session.core.(ready := m.session.core.ready + [task])));
    assert Inv(queued);
    if persist.Some? {
      PersistAtPark(queued, persist.value);
    }
  }

  lemma PersistAtPark(m: Machine, commit: Commit)
    requires Inv(m) && !m.pc.Down? && m.session.suspension.Some?
    ensures Inv(PersistAs(m, None, commit))
  {
    hide LedgerOk, OpenStep;
  }

  /** A restored session holds exactly what the last stored checkpoint proves. */
  lemma RestoreKeeps(m: Machine)
    requires Inv(m) && m.pc.Down?
    ensures Inv(m.(pc := Idle, session := Rehydrate(m.durable)))
  {
    hide OpenStep, Cost;
    assert LedgerOk(0, InitialTotal, [], None, [], m.journal, m.spends) by {
      assert Amounts([]) == [];
    }
  }

  lemma NextKeeps(m: Machine, e: Event)
    requires Inv(m) && ReportsAtPark(m, e)
    ensures Inv(Next(m, e))
  {
    hide FromIdle, FromTop, FromRecovering, FromRecovered, FromReplaying, FromHandling, FromRequesting, FromReady,
         FromInFlight, FromBackoff, FromAnswered, FromBatch, FromCalling, FromReturned, FromDeciding, FromParking,
         Reported, Rehydrate, LiveOk;
    if m.pc.Down? {
      hide Inv;
      RestoreKeeps(m);
    } else if e.Crash? {
    } else if e.Report? {
      hide Inv;
      ReportKeeps(m, e.task, e.persist);
    } else {
      hide Inv;
      match m.pc
      case Idle => IdleKeeps(m, e);
      case Top => TopKeeps(m, e);
      case Recovering(_) => RecoveringKeeps(m, e);
      case Recovered(_, _, _) => RecoveredKeeps(m, e);
      case Replaying(_) => ReplayingKeeps(m, e);
      case Handling(_, _) => HandlingKeeps(m, e);
      case Requesting(_, _) => RequestingKeeps(m, e);
      case Ready(_, _, _) => ReadyKeeps(m, e);
      case InFlight(_, _, _) => InFlightKeeps(m, e);
      case Backoff(_, _, _, _) => BackoffKeeps(m, e);
      case Parking(_) => ParkingKeeps(m, e);
      case _ => TurnKeeps(m, e);
    }
  }

  // ---------- Runs ----------

  lemma {:induction false} RunKeeps(config: Config, events: seq<Event>)
    requires Allowed(ReportsAtPark, Initial(config), events)
    ensures Inv(Run(Initial(config), events))
  {
    var m := Initial(config);
    if events == [] {
      assert Amounts([]) == [];
    } else {
      var before, last := events[..|events| - 1], events[|events| - 1];
      AllowedPrefix(ReportsAtPark, m, events);
      RunKeeps(config, before);
      hide Inv, Next, ReportsAtPark, Allowed;
      NextKeeps(Run(m, before), last);
    }
  }

  /** What a reader of the totals is owed. */
  ghost predicate BilledOnce(core: Core, journal: Journal, spends: seq<Spend>) {
    && (forall key :: Get(core.usage, key) == SumOfKey(Amounts(core.bills), key))
    && (forall i, j :: 0 <= i < j < |core.bills| ==> core.bills[i].step != core.bills[j].step)
    && (forall i :: 0 <= i < |core.bills| ==> WholeCost(core.bills[i], journal, spends))
  }

  /** A bill is all that the attempts of its call have reported, and the call's receipt once it is settled. */
  ghost predicate WholeCost(bill: Bill, journal: Journal, spends: seq<Spend>) {
    && bill.amount == Cost(spends, bill.step)
    && (exists k :: 0 <= k < |spends| && spends[k].step == bill.step)
    && (SettledAt(journal, bill.step) ==> bill.amount == journal[bill.step].receipt)
  }

  lemma CoreIsBilledOnce(core: Core, journal: Journal, spends: seq<Spend>)
    requires CoreOk(core, journal, spends) && BooksOk(journal, spends)
    ensures BilledOnce(core, journal, spends)
  {
    hide Cost, WellFormed, TotalOf;
    forall key
      ensures Get(core.usage, key) == SumOfKey(Amounts(core.bills), key)
    {
      TotalOfIsComponentwise(Amounts(core.bills), key);
    }
    forall i | 0 <= i < |core.bills|
      ensures WholeCost(core.bills[i], journal, spends)
    {
      CostHasSource(spends, core.bills[i].step);
    }
  }

  /**
   Exactly-once billing. After any run whose reported tasks are checkpointed at quiescent parks, the
   totals of the live session and of the committed checkpoint are, meter by meter, the sum over distinct
   calls of everything the attempts of the call have reported, whether it settled, was refused, was left
   between two attempts, or ended without a proven outcome.
  */
  lemma UsageIsBilledOnce(config: Config, events: seq<Event>)
    requires Allowed(ReportsAtPark, Initial(config), events)
    ensures var m := Run(Initial(config), events);
      && (!m.pc.Down? ==> BilledOnce(m.session.core, m.journal, m.spends))
      && (m.durable.Some? ==> BilledOnce(m.durable.value.core, m.journal, m.spends))
  {
    RunKeeps(config, events);
    hide Run, BilledOnce, CoreOk, BooksOk;
    var m := Run(Initial(config), events);
    if !m.pc.Down? {
      CoreIsBilledOnce(m.session.core, m.journal, m.spends);
    }
    if m.durable.Some? {
      CoreIsBilledOnce(m.durable.value.core, m.journal, m.spends);
    }
  }

  // ---------- No call ends uncharged ----------

  /** The call of this step is on the bill, at all it has cost. */
  ghost predicate ChargedWhole(m: Machine, step: nat) {
    Cost(m.spends, step) != map[] ==> Bill(step, Cost(m.spends, step)) in m.session.core.bills
  }

  /** A well-formed cost is never refused. */
  lemma ChargesWhole(s: Session, spent: Usage)
    requires WellFormed(spent)
    ensures var r := Account(s, s.core.step, spent, map[]);
      && r.Some?
      && r.value.core.bills == s.core.bills + if spent == map[] then [] else [Bill(s.core.step, spent)]
  {
    DeltaOfEmpty(spent);
    assert Covers(spent, map[]);
    hide Sum, DeltaOf, Covers;
  }

  lemma ParksKeepBills(m: Machine, s: Session, stop: Stop, code: Code)
    ensures var bills := s.core.bills;
      && HaltRun(m, s, stop).session.core.bills == bills && HaltRun(m, s, stop).spends == m.spends
      && FailRun(m, s).session.core.bills == bills && FailRun(m, s).spends == m.spends
      && FailTurn(m, s, code).session.core.bills == bills && FailTurn(m, s, code).spends == m.spends
  {
    hide Unapplied;
  }

  lemma DeliveryCharges(m: Machine, s: Session, entry: Entry)
    requires entry.Settled? && WellFormed(entry.receipt) && entry.receipt == Cost(m.spends, s.core.step)
    ensures ChargedWhole(Deliver(m, s, entry), s.core.step) && ChargedWhole(AwaitEvidence(m, s, entry), s.core.step)
  {
    hide Account, Cost, WellFormed, FailRun, FailTurn;
    ChargesWhole(s, entry.receipt);
    var s' := Account(s, s.core.step, entry.receipt, map[]).value;
    ParksKeepBills(m, s', UserStop, NoCode);
    ParksKeepBills(m, s', UserStop, EvidenceUncommitted);
    assert entry.receipt != map[] ==> Bill(s.core.step, entry.receipt) in s'.core.bills;
  }

  lemma PreemptionCharges(m: Machine, head: Entry, spent: Usage, stop: Stop)
    requires WellFormed(spent) && spent == Cost(m.spends, m.session.core.step)
    ensures ChargedWhole(PreemptCall(m, head, spent, stop), m.session.core.step)
  {
    hide Account, Cost, WellFormed, FailRun, HaltRun;
    var s := Observe(m.session, m.session.core.step, head);
    ChargesWhole(s, spent);
    var s' := Account(s, s.core.step, spent, map[]).value;
    ParksKeepBills(m, s', stop, NoCode);
    assert spent != map[] ==> Bill(s.core.step, spent) in s'.core.bills;
  }

  lemma SettlementCharges(m: Machine, usage: Usage, outcome: Outcome, evidenceOk: bool, again: bool)
    requires Inv(m) && m.pc.InFlight? && WellFormed(usage)
    ensures var m' := SettleDispatch(m, usage, outcome, evidenceOk, again);
      m'.pc.Backoff? || ChargedWhole(m', m.session.core.step)
  {
    var entry := Settled(m.pc.request, m.pc.attempt, Sum(m.pc.spent, usage), outcome);
    AttemptEnds(m, entry, usage);
    var ended := EndAttempt(m, entry, usage);
    hide Inv, Cost, WellFormed, Sum, Deliver, AwaitEvidence, ChargedWhole, BooksOk, DurableOk, CoreOk;
    DeliveryCharges(ended, Observe(m.session, m.session.core.step, entry), entry);
  }

  lemma LossCharges(m: Machine, loss: Loss)
    requires Inv(m) && m.pc.InFlight? && WellFormed(loss.usage)
    ensures ChargedWhole(LoseDispatch(m, loss), m.session.core.step)
  {
    var head, spent := LostHead(m.pc, loss), Sum(m.pc.spent, loss.usage);
    AttemptEnds(m, head, loss.usage);
    var ended := EndAttempt(m, head, loss.usage);
    var s := Observe(m.session, m.session.core.step, head);
    hide Inv, Cost, WellFormed, Sum, Account, FailRun, BooksOk, DurableOk, CoreOk;
    ChargesWhole(s, spent);
    var s' := Account(s, s.core.step, spent, map[]).value;
    ParksKeepBills(ended, s', UserStop, NoCode);
    assert spent != map[] ==> Bill(s.core.step, spent) in s'.core.bills;
  }

  /** However a paid call ends, its whole cost is on the bill of the session it leaves. */
  lemma NoCallEndsUncharged(m: Machine, e: Event)
    requires Inv(m) && (m.pc.Ready? || m.pc.InFlight? || m.pc.Backoff?) && !e.Crash? && !e.Report?
    ensures var m' := Next(m, e);
      m'.pc.Ready? || m'.pc.InFlight? || m'.pc.Backoff? || ChargedWhole(m', m.session.core.step)
  {
    hide Inv, PreemptCall, SettleDispatch, LoseDispatch, ChargedWhole, WellFormed, Cost;
    match m.pc
    case InFlight(_, _, _) =>
      if e.Settle? && WellFormed(e.usage) {
        SettlementCharges(m, e.usage, e.outcome, e.evidenceOk, e.again);
      } else if e.Lose? && WellFormed(e.loss.usage) {
        LossCharges(m, e.loss);
      }
    case Ready(request, attempt, spent) =>
      if e.Halt? {
        DispatchSpent(m, Reserved(request, attempt));
        PreemptionCharges(m, Reserved(request, attempt), spent, e.stop);
      }
    case Backoff(_, _, spent, _) =>
      if e.Halt? && m.session.core.step in m.journal {
        DispatchSpent(m, m.journal[m.session.core.step]);
        PreemptionCharges(m, m.journal[m.session.core.step], spent, e.stop);
      }
  }

  lemma DispatchSpent(m: Machine, head: Entry)
    requires Inv(m) && (m.pc.Ready? || m.pc.Backoff?)
    requires m.pc.Ready? ==> head == Reserved(m.pc.request, m.pc.attempt)
    requires m.pc.Backoff? ==> m.session.core.step in m.journal && head == m.journal[m.session.core.step]
    ensures WellFormed(m.pc.spent) && m.pc.spent == Cost(m.spends, m.session.core.step)
  {
    hide BooksOk, DurableOk, CoreOk, Cost, WellFormed;
  }
}
