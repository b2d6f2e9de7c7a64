/**
 The paid-dispatch protocol over any lifecycle hook: identity checks around reserve and recover, the three
 ways a started dispatch can end, and the retry loop that must put each attempt's spend on the receipt once.
*/
module Dispatch {
  import opened Wrappers
  import opened Usage

  const GENERATION: nat := 1

  // A dispatch identifier is an injective function of the call and the attempt.
  datatype DispatchId = DispatchId(callId: nat, attempt: nat)

  datatype Reservation = Reservation(callId: nat, attempt: nat, dispatchId: DispatchId, digest: nat, generation: nat,
                                     key: nat)

  datatype Query = Query(callId: nat, digest: nat, generation: nat, requireEvidence: bool)

  datatype Recovered = Recovered(reservation: Reservation, receipt: Usage, refusal: bool)

  datatype Code = DispatchUnknownCode | SettlementUncommitted | ProviderCode(code: nat)

  datatype Raised =
    | TypeFault
    | ReservationConflict
    | RecoveryConflict
    | RecoveryMissing
    | HookRaised(code: nat)
    | EvidenceUncommitted(usage: Usage)
    | DispatchUnknown(usage: Usage)

  // ---------- The hook ----------

  datatype ReserveAnswer = Gives(reservation: Reservation) | GivesOther | ReserveRaises(code: nat)

  datatype SettleAnswer = Commits | CommitsWithoutEvidence | FailsToCommit

  datatype RecoverAnswer = NothingStored | Stored(recovered: Recovered) | StoredOther | EvidenceFails | RecoverRaises(code: nat)

  datatype HookCall =
    | ReserveCall(proposed: Reservation)
    | StartedCall(reservation: Reservation)
    | SettledCall(reservation: Reservation, usage: Usage, refusal: bool)
    | UnknownCall(reservation: Reservation, code: Code)

  /** Any hook: it answers as it likes, and every call it receives is on record. */
  class Hook {
    const onReserve: Reservation -> ReserveAnswer
    const onSettled: Reservation -> SettleAnswer
    const notesUnknown: Reservation -> bool
    const onRecover: Query -> RecoverAnswer
    var calls: seq<HookCall>

    constructor (onReserve: Reservation -> ReserveAnswer, onSettled: Reservation -> SettleAnswer,
                 notesUnknown: Reservation -> bool, onRecover: Query -> RecoverAnswer)
      ensures calls == []
      ensures this.onReserve == onReserve && this.onSettled == onSettled
      ensures this.notesUnknown == notesUnknown && this.onRecover == onRecover
    {
      this.onReserve, this.onSettled, this.notesUnknown, this.onRecover := onReserve, onSettled, notesUnknown, onRecover;
      calls := [];
    }

    method Reserve(proposed: Reservation) returns (answer: ReserveAnswer)
      modifies this`calls
      ensures answer == onReserve(proposed) && calls == old(calls) + [ReserveCall(proposed)]
    {
      answer := onReserve(proposed);
      calls := calls + [ReserveCall(proposed)];
    }

    method DispatchStarted(reservation: Reservation)
      modifies this`calls
      ensures calls == old(calls) + [StartedCall(reservation)]
    {
      calls := calls + [StartedCall(reservation)];
    }

    method Settled(reservation: Reservation, usage: Usage, refusal: bool) returns (answer: SettleAnswer)
      modifies this`calls
      ensures answer == onSettled(reservation) && calls == old(calls) + [SettledCall(reservation, usage, refusal)]
    {
      answer := onSettled(reservation);
      calls := calls + [SettledCall(reservation, usage, refusal)];
    }

    method Unknown(reservation: Reservation, code: Code) returns (noted: bool)
      modifies this`calls
      ensures noted == notesUnknown(reservation) && calls == old(calls) + [UnknownCall(reservation, code)]
    {
      noted := notesUnknown(reservation);
      calls := calls + [UnknownCall(reservation, code)];
    }
  }

  // ---------- Identity ----------

  function Proposed(callId: nat, attempt: nat, digest: nat, key: nat): Reservation {
    Reservation(callId, attempt, DispatchId(callId, attempt), digest, GENERATION, key)
  }

  /** The hook may replace the idempotency key and nothing else. */
  predicate SameDispatch(a: Reservation, b: Reservation) {
    a == b.(key := a.key)
  }

  /** `reserve_model_dispatch`. */
  method ReserveModelDispatch(hook: Hook, callId: nat, attempt: nat, digest: nat, key: nat)
    returns (r: Result<Reservation, Raised>)
    modifies hook`calls
    ensures hook.calls == old(hook.calls) + [ReserveCall(Proposed(callId, attempt, digest, key))]
    ensures var answer := hook.onReserve(Proposed(callId, attempt, digest, key));
      r == match answer
           case GivesOther => Failure(TypeFault)
           case ReserveRaises(code) => Failure(HookRaised(code))
           case Gives(given) =>
             if SameDispatch(given, Proposed(callId, attempt, digest, key)) then Success(given) else Failure(ReservationConflict)
  {
    var proposed := Proposed(callId, attempt, digest, key);
    var answer := hook.Reserve(proposed);
    match answer
    case GivesOther => return Failure(TypeFault);
    case ReserveRaises(code) => return Failure(HookRaised(code));
    case Gives(given) =>
      if given.callId != callId || given.attempt != attempt || given.dispatchId != proposed.dispatchId ||
         given.digest != digest || given.generation != GENERATION
      {
        return Failure(ReservationConflict);
      }
      return Success(given);
  }

  /** `recover_model_dispatch`; the settled outcome must carry the queried identity. */
  function RecoverModelDispatch(hook: Hook, callId: nat, digest: nat, requireEvidence: bool)
    : (r: Result<Option<Recovered>, Raised>)
    ensures r.Success? && r.value.Some? ==>
      var reservation := r.value.value.reservation;
      reservation.callId == callId && reservation.digest == digest && reservation.generation == GENERATION
  {
    match hook.onRecover(Query(callId, digest, GENERATION, requireEvidence))
    case NothingStored => Success(None)
    case StoredOther => Failure(TypeFault)
    case EvidenceFails => Failure(EvidenceUncommitted(map[]))
    case RecoverRaises(code) => Failure(HookRaised(code))
    case Stored(recovered) =>
      if recovered.reservation.callId != callId || recovered.reservation.digest != digest
         || recovered.reservation.generation != GENERATION
      then Failure(RecoveryConflict)
      else Success(Some(recovered))
  }

  /** `_recover_evidence_dispatch`: the recovery of a known settled invocation. */
  function RecoverEvidenceDispatch(hook: Hook, known: Reservation, blocks: bool): (r: Result<Recovered, Raised>)
  {
    match RecoverModelDispatch(hook, known.callId, known.digest, blocks)
    case Failure(error) => Failure(if error.EvidenceUncommitted? then EvidenceUncommitted(map[]) else error)
    case Success(None) => Failure(RecoveryMissing)
    case Success(Some(recovered)) =>
      if recovered.reservation.attempt != known.attempt || recovered.reservation.dispatchId != known.dispatchId
         || recovered.reservation.key != known.key
      then Failure(RecoveryConflict)
      else Success(recovered)
  }

  /** A recovery succeeds with the very dispatch that was settled, iff that is what the hook has stored. */
  lemma EvidenceRecoveryIsExact(hook: Hook, known: Reservation, blocks: bool)
    requires known.generation == GENERATION
    ensures var answer := hook.onRecover(Query(known.callId, known.digest, GENERATION, blocks));
      RecoverEvidenceDispatch(hook, known, blocks).Success? <==>
      answer.Stored? && answer.recovered.reservation == known
    ensures RecoverEvidenceDispatch(hook, known, blocks).Success? ==>
      RecoverEvidenceDispatch(hook, known, blocks).value.reservation == known
    ensures var answer, r := hook.onRecover(Query(known.callId, known.digest, GENERATION, blocks)),
                             RecoverEvidenceDispatch(hook, known, blocks);
      && (r == Failure(RecoveryMissing) <==> answer.NothingStored?)
      && (r == Failure(EvidenceUncommitted(map[])) <==> answer.EvidenceFails?)
      && (r == Failure(RecoveryConflict) <==> answer.Stored? && answer.recovered.reservation != known)
      && (r == Failure(TypeFault) <==> answer.StoredOther?)
      && (answer.RecoverRaises? ==> r == Failure(HookRaised(answer.code)))
  {
  }

  // ---------- How a started dispatch ends ----------

  /** `raise_model_dispatch_unknown`: ambiguity is raised whether or not the hook could note it. */
  method RaiseUnknown(hook: Hook, reservation: Reservation, usage: Usage, code: Code) returns (raised: Raised)
    modifies hook`calls
    ensures raised == DispatchUnknown(usage)
    ensures hook.calls == old(hook.calls) + [UnknownCall(reservation, code)]
  {
    var noted := hook.Unknown(reservation, code);
    if !noted {
      return DispatchUnknown(usage);
    }
    return DispatchUnknown(usage);
  }

  /** `settle_model_dispatch`: normal return means committed; an evidence failure never becomes ambiguity. */
  method SettleModelDispatch(hook: Hook, reservation: Reservation, usage: Usage, refusal: bool)
    returns (raised: Option<Raised>)
    modifies hook`calls
    ensures raised.None? <==> hook.onSettled(reservation).Commits?
    ensures raised == Some(EvidenceUncommitted(usage)) <==> hook.onSettled(reservation).CommitsWithoutEvidence?
    ensures raised == Some(DispatchUnknown(usage)) <==> hook.onSettled(reservation).FailsToCommit?
    ensures hook.calls == old(hook.calls) + [SettledCall(reservation, usage, refusal)]
      + if hook.onSettled(reservation).FailsToCommit? then [UnknownCall(reservation, SettlementUncommitted)] else []
  {
    var answer := hook.Settled(reservation, usage, refusal);
    match answer
    case Commits => return None;
    case CommitsWithoutEvidence => return Some(EvidenceUncommitted(usage));
    case FailsToCommit =>
      var unknown := RaiseUnknown(hook, reservation, usage, SettlementUncommitted);
      return Some(unknown);
  }

  // ---------- The retry loop ----------

  /** What the provider does with one attempt. */
  datatype Attempt = Answers(usage: Usage) | Refuses(usage: Usage, retryable: bool) | Breaks(usage: Usage, code: nat)

  datatype End = Returned(usage: Usage) | Refused(usage: Usage) | Stopped(raised: Raised)

  /** Everything the first attempts cost, each once. */
  function Spent(attempts: seq<Attempt>): Usage {
    if attempts == [] then map[] else Sum(Spent(attempts[..|attempts| - 1]), attempts[|attempts| - 1].usage)
  }

  lemma SpentMore(attempts: seq<Attempt>, count: nat)
    requires count < |attempts|
    ensures Spent(attempts[..count + 1]) == Sum(Spent(attempts[..count]), attempts[count].usage)
  {
    assert attempts[..count + 1][..count] == attempts[..count];
  }

  /** The calls one attempt makes up to and including its start. */
  function Entered(reservation: Reservation, key: nat): seq<HookCall> {
    [ReserveCall(reservation.(key := key)), StartedCall(reservation)]
  }

  /** Attempt `n` of the call carries the identity that was asked for. */
  predicate IsAttempt(reservation: Reservation, callId: nat, digest: nat, n: nat) {
    SameDispatch(reservation, Proposed(callId, n, digest, reservation.key))
  }

  predicate Unambiguous(calls: seq<HookCall>) {
    forall i :: 0 <= i < |calls| ==> !calls[i].UnknownCall?
  }

  /** Starts carry consecutive attempts of the one call. */
  ghost predicate StartsInOrder(calls: seq<HookCall>, callId: nat, digest: nat, first: nat, next: nat) {
    && (forall i :: 0 <= i < |calls| && calls[i].StartedCall? ==>
          first <= calls[i].reservation.attempt < next
          && IsAttempt(calls[i].reservation, callId, digest, calls[i].reservation.attempt))
    && (forall i, j :: 0 <= i < j < |calls| && calls[i].StartedCall? && calls[j].StartedCall? ==>
          calls[i].reservation.attempt < calls[j].reservation.attempt)
  }

  lemma StartsAppend(calls: seq<HookCall>, more: seq<HookCall>, callId: nat, digest: nat, first: nat, next: nat)
    requires StartsInOrder(calls, callId, digest, first, next) && Unambiguous(calls)
    requires forall i :: 0 <= i < |more| ==> !more[i].StartedCall?
    ensures StartsInOrder(calls + more, callId, digest, first, next)
    ensures Unambiguous(more) ==> Unambiguous(calls + more)
  {
  }

  lemma StartsGrow(calls: seq<HookCall>, reservation: Reservation, key: nat, callId: nat, digest: nat, first: nat, next: nat)
    requires StartsInOrder(calls, callId, digest, first, next) && Unambiguous(calls)
    requires IsAttempt(reservation, callId, digest, next) && first <= next
    ensures StartsInOrder(calls + Entered(reservation, key), callId, digest, first, next + 1)
    ensures Unambiguous(calls + Entered(reservation, key))
  {
  }

  /** The hook gives the reservation it was asked for. */
  predicate Accepts(hook: Hook, proposed: Reservation) {
    hook.onReserve(proposed).Gives? && SameDispatch(hook.onReserve(proposed).reservation, proposed)
  }

  /** What is raised where it does not. */
  predicate RefusesWith(answer: ReserveAnswer, raised: Raised) {
    && (answer.GivesOther? <==> raised == TypeFault)
    && (answer.Gives? <==> raised == ReservationConflict)
    && (answer.ReserveRaises? ==> raised == HookRaised(answer.code))
  }

  /** A started attempt ends as the hook's answer to its settlement decides, and only a last or final refusal ends it. */
  predicate EndFits(end: End, answer: SettleAnswer, usage: Usage, attempt: Attempt, last: bool) {
    && (end == Returned(usage) <==> attempt.Answers? && answer.Commits?)
    && (end == Refused(usage) <==> attempt.Refuses? && answer.Commits?)
    && (end == Stopped(EvidenceUncommitted(usage)) <==> !attempt.Breaks? && answer.CommitsWithoutEvidence?)
    && (end == Stopped(DispatchUnknown(usage)) <==> attempt.Breaks? || answer.FailsToCommit?)
    && (end.Refused? ==> last || !attempt.retryable)
  }

  /** Another attempt follows exactly a retryable refusal that committed and is not the last. */
  predicate Retries(answer: SettleAnswer, attempt: Attempt, last: bool) {
    attempt.Refuses? && attempt.retryable && answer.Commits? && !last
  }

  /** One attempt: reserve, start, let the provider act, and commit or raise. None asks for another attempt. */
  method RunAttempt(hook: Hook, callId: nat, digest: nat, key: nat, n: nat, last: bool, spent: Usage, attempt: Attempt)
    returns (end: Option<End>, effective: nat, ghost made: seq<HookCall>)
    modifies hook`calls
    ensures hook.calls == old(hook.calls) + made
    ensures var proposed := Proposed(callId, n, digest, key);
      var answer := hook.onReserve(proposed);
      if !Accepts(hook, proposed) then
        made == [ReserveCall(proposed)] && end.Some? && end.value.Stopped? && RefusesWith(answer, end.value.raised)
      else
        var r, usage := answer.reservation, Sum(spent, attempt.usage);
        && effective == r.key
        && (end.None? <==> Retries(hook.onSettled(r), attempt, last))
        && (end.None? ==> made == Entered(r, key) + [SettledCall(r, usage, true)])
        && (end.Some? ==> made == Entered(r, key) + Closing(end.value, r, usage, attempt)
                          && EndFits(end.value, hook.onSettled(r), usage, attempt, last))
  {
    var r := ReserveModelDispatch(hook, callId, n, digest, key);
    made := [ReserveCall(Proposed(callId, n, digest, key))];
    effective := key;
    if r.Failure? {
      return Some(Stopped(r.error)), effective, made;
    }
    var reservation := r.value;
    effective := reservation.key;
    hook.DispatchStarted(reservation);
    made := Entered(reservation, key);
    var usage := Sum(spent, attempt.usage);
    match attempt
    case Breaks(_, code) =>
      var raised := RaiseUnknown(hook, reservation, usage, ProviderCode(code));
      made := made + [UnknownCall(reservation, ProviderCode(code))];
      return Some(Stopped(raised)), effective, made;
    case Answers(_) =>
      var raised := SettleModelDispatch(hook, reservation, usage, false);
      made := made + [SettledCall(reservation, usage, false)]
        + if hook.onSettled(reservation).FailsToCommit? then [UnknownCall(reservation, SettlementUncommitted)] else [];
      return Some(if raised.None? then Returned(usage) else Stopped(raised.value)), effective, made;
    case Refuses(_, retryable) =>
      var raised := SettleModelDispatch(hook, reservation, usage, true);
      made := made + [SettledCall(reservation, usage, true)]
        + if hook.onSettled(reservation).FailsToCommit? then [UnknownCall(reservation, SettlementUncommitted)] else [];
      if raised.Some? {
        return Some(Stopped(raised.value)), effective, made;
      }
      if last || !retryable {
        return Some(Refused(usage)), effective, made;
      }
      assert made == Entered(reservation, key) + [SettledCall(reservation, usage, true)];
      return None, effective, made;
  }

  /** Settled and returned, settled and raised, or unknown: exactly one of these closes a started dispatch. */
  function Closing(end: End, reservation: Reservation, usage: Usage, attempt: Attempt): seq<HookCall> {
    match end
    case Returned(_) => [SettledCall(reservation, usage, false)]
    case Refused(_) => [SettledCall(reservation, usage, true)]
    case Stopped(EvidenceUncommitted(_)) => [SettledCall(reservation, usage, attempt.Refuses?)]
    case Stopped(_) =>
      if attempt.Breaks? then [UnknownCall(reservation, ProviderCode(attempt.code))]
      else [SettledCall(reservation, usage, attempt.Refuses?), UnknownCall(reservation, SettlementUncommitted)]
  }

  // ---------- The record of a whole call ----------

  /** The idempotency key the next attempt proposes: that of the reservation before it. */
  function KeyAfter(key: nat, given: seq<Reservation>): nat {
    if given == [] then key else given[|given| - 1].key
  }

  /** The proposal after these reservations. */
  function ProposedAfter(given: seq<Reservation>, callId: nat, digest: nat, key: nat, first: nat): Reservation {
    Proposed(callId, first + |given|, digest, KeyAfter(key, given))
  }

  /** Attempts that the kernel absorbs: each was given what it asked for, and its retryable refusal committed. */
  ghost predicate Absorbed(hook: Hook, given: seq<Reservation>, callId: nat, digest: nat, key: nat, first: nat, provider: seq<Attempt>) {
    && |given| < |provider|
    && forall k :: 0 <= k < |given| ==>
         && hook.onReserve(ProposedAfter(given[..k], callId, digest, key, first)) == Gives(given[k])
         && SameDispatch(given[k], ProposedAfter(given[..k], callId, digest, key, first))
         && Retries(hook.onSettled(given[k]), provider[k], false)
  }

  /** What they leave on the hook's record: each settled with all that was spent by then. */
  ghost function Rounds(given: seq<Reservation>, key: nat, provider: seq<Attempt>): seq<HookCall>
    requires |given| <= |provider|
  {
    if given == [] then []
    else
      var before, last := given[..|given| - 1], given[|given| - 1];
      Rounds(before, key, provider) + Entered(last, KeyAfter(key, before))
        + [SettledCall(last, Spent(provider[..|given|]), true)]
  }

  /** The record and the end of a call whose attempts before the last were absorbed. */
  ghost predicate CallLog(hook: Hook, made: seq<HookCall>, end: End, given: seq<Reservation>,
                          callId: nat, digest: nat, key: nat, first: nat, provider: seq<Attempt>)
  {
    && Absorbed(hook, given, callId, digest, key, first, provider)
    && var attempt, usage, last := provider[|given|], Spent(provider[..|given| + 1]), |given| + 1 == |provider|;
      var proposed, rounds := ProposedAfter(given, callId, digest, key, first), Rounds(given, key, provider);
      if !Accepts(hook, proposed) then
        made == rounds + [ReserveCall(proposed)] && end.Stopped? && RefusesWith(hook.onReserve(proposed), end.raised)
      else
        var r := hook.onReserve(proposed).reservation;
        && made == rounds + (Entered(r, proposed.key) + Closing(end, r, usage, attempt))
        && EndFits(end, hook.onSettled(r), usage, attempt, last)
        && !Retries(hook.onSettled(r), attempt, last)
  }

  /**
   The whole call: attempts run until one ends it. Each attempt but the last was given what it asked for and
   its retryable refusal committed; how the last one ends is decided by what the hook answers to it.
  */
  method DispatchCall(hook: Hook, callId: nat, digest: nat, key: nat, first: nat, provider: seq<Attempt>)
    returns (end: End, attempts: nat, ghost given: seq<Reservation>)
    requires provider != []
    modifies hook`calls
    ensures old(hook.calls) <= hook.calls
    ensures attempts == |given| + 1
    ensures CallLog(hook, hook.calls[|old(hook.calls)|..], end, given, callId, digest, key, first, provider)
  {
    hide Spent, Entered, Sum, Rounds, Absorbed, RefusesWith, EndFits, Closing;
    NothingAbsorbed(hook, callId, digest, key, first, provider);
    ghost var earlier := hook.calls;
    ghost var made: seq<HookCall> := [];
    given := [];
    var i, spent, current := 0, map[], key;
    while true
      invariant 0 <= i < |provider| && |given| == i && hook.calls == earlier + made
      invariant spent == Spent(provider[..i]) && current == KeyAfter(key, given)
      invariant Absorbed(hook, given, callId, digest, key, first, provider) && made == Rounds(given, key, provider)
      decreases |provider| - i
    {
      ghost var proposed := ProposedAfter(given, callId, digest, key, first);
      var outcome, effective, now := RunAttempt(hook, callId, digest, current, first + i, i + 1 == |provider|, spent, provider[i]);
      SpentMore(provider, i);
      if outcome.Some? {
        assert hook.calls[|earlier|..] == made + now;
        return outcome.value, i + 1, given;
      }
      ghost var r := hook.onReserve(proposed).reservation;
      OneMoreRound(hook, given, r, callId, digest, key, first, provider);
      given, made := given + [r], made + now;
      spent, current := Sum(spent, provider[i].usage), effective;
      i := i + 1;
    }
  }

  lemma NothingAbsorbed(hook: Hook, callId: nat, digest: nat, key: nat, first: nat, provider: seq<Attempt>)
    requires provider != []
    ensures Absorbed(hook, [], callId, digest, key, first, provider) && Rounds([], key, provider) == []
    ensures Spent(provider[..0]) == map[]
  {
  }

  lemma OneMoreRound(hook: Hook, given: seq<Reservation>, r: Reservation, callId: nat, digest: nat, key: nat, first: nat,
                     provider: seq<Attempt>)
    requires Absorbed(hook, given, callId, digest, key, first, provider) && |given| + 1 < |provider|
    requires var proposed := ProposedAfter(given, callId, digest, key, first);
      hook.onReserve(proposed) == Gives(r) && SameDispatch(r, proposed)
    requires Retries(hook.onSettled(r), provider[|given|], false)
    ensures Absorbed(hook, given + [r], callId, digest, key, first, provider)
    ensures Rounds(given + [r], key, provider)
      == Rounds(given, key, provider) + (Entered(r, KeyAfter(key, given)) + [SettledCall(r, Spent(provider[..|given| + 1]), true)])
  {
    hide Spent, Entered;
    var longer := given + [r];
    assert longer[..|given|] == given;
    forall k | 0 <= k < |longer|
      ensures longer[..k] == (given + [r])[..k] && (k < |given| ==> longer[..k] == given[..k])
    {
    }
    hide ProposedAfter, SameDispatch;
  }

  // ---------- What the record says ----------

  lemma {:induction false} RoundsAreOrdered(hook: Hook, given: seq<Reservation>, callId: nat, digest: nat, key: nat, first: nat,
                                            provider: seq<Attempt>)
    requires Absorbed(hook, given, callId, digest, key, first, provider)
    ensures var made := Rounds(given, key, provider);
      StartsInOrder(made, callId, digest, first, first + |given|) && Unambiguous(made)
  {
    hide Entered, IsAttempt, Spent;
    if given != [] {
      var before, last := given[..|given| - 1], given[|given| - 1];
      FewerAbsorbed(hook, given, callId, digest, key, first, provider);
      RoundsAreOrdered(hook, before, callId, digest, key, first, provider);
      hide StartsInOrder, Unambiguous, Absorbed;
      var made, settled := Rounds(before, key, provider), SettledCall(last, Spent(provider[..|given|]), true);
      StartsGrow(made, last, KeyAfter(key, before), callId, digest, first, first + |before|);
      NoUnknown(settled);
      StartsAppend(made + Entered(last, KeyAfter(key, before)), [settled], callId, digest, first, first + |given|);
    }
  }

  lemma FewerAbsorbed(hook: Hook, given: seq<Reservation>, callId: nat, digest: nat, key: nat, first: nat, provider: seq<Attempt>)
    requires given != [] && Absorbed(hook, given, callId, digest, key, first, provider)
    ensures Absorbed(hook, given[..|given| - 1], callId, digest, key, first, provider)
    ensures IsAttempt(given[|given| - 1], callId, digest, first + |given| - 1)
  {
    var before := given[..|given| - 1];
    forall k | 0 <= k < |before|
      ensures before[..k] == given[..k] && before[k] == given[k]
    {
    }
    assert SameDispatch(given[|given| - 1], ProposedAfter(given[..|given| - 1], callId, digest, key, first));
    hide Retries;
  }

  lemma NoUnknown(call: HookCall)
    requires !call.UnknownCall?
    ensures Unambiguous([call])
  {
  }

  /** An evidence failure leaves a settled head and no ambiguity; a broken attempt leaves no settled head. */
  lemma EndsExclude(end: End, answer: SettleAnswer, reservation: Reservation, usage: Usage, attempt: Attempt, last: bool)
    requires EndFits(end, answer, usage, attempt, last) && !Retries(answer, attempt, last)
    ensures var closing := Closing(end, reservation, usage, attempt);
      && (end == Stopped(EvidenceUncommitted(usage)) ==> |closing| == 1 && closing[0].SettledCall?)
      && (attempt.Breaks? ==> end == Stopped(DispatchUnknown(usage)) && |closing| == 1 && closing[0].UnknownCall?)
      && (closing[|closing| - 1].UnknownCall? <==> end.Stopped? && end.raised.DispatchUnknown?)
      && (!closing[|closing| - 1].UnknownCall? ==> Unambiguous(closing))
      && (forall i :: 0 <= i < |closing| ==> !closing[i].StartedCall?)
    ensures end.Returned? || end.Refused? ==> end.usage == usage
    ensures end.Stopped? ==> (end.raised == EvidenceUncommitted(usage) || end.raised == DispatchUnknown(usage))
  {
  }

  /**
   Whatever the hook and the provider do, starts carry consecutive attempts of this very call, no attempt but
   the last is ambiguous, and what a paid end reports is the sum of every attempt's spend, each once.
  */
  lemma CallIsOrdered(hook: Hook, made: seq<HookCall>, end: End, given: seq<Reservation>,
                      callId: nat, digest: nat, key: nat, first: nat, provider: seq<Attempt>)
    requires CallLog(hook, made, end, given, callId, digest, key, first, provider)
    ensures StartsInOrder(made, callId, digest, first, first + |given| + 1)
    ensures !Unambiguous(made) <==> end.Stopped? && end.raised.DispatchUnknown?
    ensures var spent := Spent(provider[..|given| + 1]);
      && (end.Returned? || end.Refused? ==> end.usage == spent)
      && (end.Stopped? && (end.raised.EvidenceUncommitted? || end.raised.DispatchUnknown?) ==> end.raised.usage == spent)
  {
    RoundsAreOrdered(hook, given, callId, digest, key, first, provider);
    hide Spent, Rounds, Absorbed, StartsInOrder, Unambiguous, Entered, Closing, EndFits, Retries;
    var rounds, proposed := Rounds(given, key, provider), ProposedAfter(given, callId, digest, key, first);
    if !Accepts(hook, proposed) {
      NoUnknown(ReserveCall(proposed));
      StartsAppend(rounds, [ReserveCall(proposed)], callId, digest, first, first + |given|);
      LaterBound(made, callId, digest, first, first + |given|);
    } else {
      var r, last := hook.onReserve(proposed).reservation, |given| + 1 == |provider|;
      LastAttemptIsOrdered(rounds, r, proposed.key, hook.onSettled(r), end, callId, digest, first, first + |given|,
                           Spent(provider[..|given| + 1]), provider[|given|], last);
    }
  }

  lemma LastAttemptIsOrdered(rounds: seq<HookCall>, r: Reservation, key: nat, answer: SettleAnswer, end: End,
                             callId: nat, digest: nat, first: nat, n: nat, usage: Usage, attempt: Attempt, last: bool)
    requires StartsInOrder(rounds, callId, digest, first, n) && Unambiguous(rounds) && first <= n
    requires IsAttempt(r, callId, digest, n) && EndFits(end, answer, usage, attempt, last) && !Retries(answer, attempt, last)
    ensures var made := rounds + (Entered(r, key) + Closing(end, r, usage, attempt));
      && StartsInOrder(made, callId, digest, first, n + 1)
      && (!Unambiguous(made) <==> end.Stopped? && end.raised.DispatchUnknown?)
    ensures end.Returned? || end.Refused? ==> end.usage == usage
    ensures end.Stopped? ==> (end.raised == EvidenceUncommitted(usage) || end.raised == DispatchUnknown(usage))
  {
    EndsExclude(end, answer, r, usage, attempt, last);
    hide StartsInOrder, Unambiguous, Entered, Closing, EndFits, Retries, IsAttempt;
    var closing := Closing(end, r, usage, attempt);
    StartsGrow(rounds, r, key, callId, digest, first, n);
    StartsAppend(rounds + Entered(r, key), closing, callId, digest, first, n + 1);
    assert rounds + (Entered(r, key) + closing) == rounds + Entered(r, key) + closing;
    ClosingIsAmbiguous(rounds + Entered(r, key), end, closing);
  }

  lemma LaterBound(calls: seq<HookCall>, callId: nat, digest: nat, first: nat, next: nat)
    requires StartsInOrder(calls, callId, digest, first, next)
    ensures StartsInOrder(calls, callId, digest, first, next + 1)
  {
  }

  lemma ClosingIsAmbiguous(before: seq<HookCall>, end: End, closing: seq<HookCall>)
    requires Unambiguous(before) && closing != []
    requires closing[|closing| - 1].UnknownCall? <==> end.Stopped? && end.raised.DispatchUnknown?
    requires !closing[|closing| - 1].UnknownCall? ==> Unambiguous(closing)
    ensures !Unambiguous(before + closing) <==> end.Stopped? && end.raised.DispatchUnknown?
  {
    var all := before + closing;
    assert all[|all| - 1] == closing[|closing| - 1];
  }

  /** One hook and one provider have one call: which attempts are made, what is recorded and how it ends. */
  lemma CallIsDetermined(hook: Hook, made: seq<HookCall>, end: End, given: seq<Reservation>,
                         made': seq<HookCall>, end': End, given': seq<Reservation>,
                         callId: nat, digest: nat, key: nat, first: nat, provider: seq<Attempt>)
    requires CallLog(hook, made, end, given, callId, digest, key, first, provider)
    requires CallLog(hook, made', end', given', callId, digest, key, first, provider)
    ensures made == made' && end == end' && given == given'
  {
    if |given| <= |given'| {
      SameReservations(hook, given, given', |given|, callId, digest, key, first, provider);
    } else {
      SameReservations(hook, given', given, |given'|, callId, digest, key, first, provider);
    }
    assert given[..|given|] == given && given'[..|given'|] == given';
    hide Rounds, Spent, Entered;
  }

  lemma {:induction false} SameReservations(hook: Hook, given: seq<Reservation>, given': seq<Reservation>, count: nat,
                                            callId: nat, digest: nat, key: nat, first: nat, provider: seq<Attempt>)
    requires Absorbed(hook, given, callId, digest, key, first, provider)
    requires Absorbed(hook, given', callId, digest, key, first, provider)
    requires count <= |given| && count <= |given'|
    ensures given[..count] == given'[..count]
  {
    if count > 0 {
      SameReservations(hook, given, given', count - 1, callId, digest, key, first, provider);
      hide Retries, SameDispatch, ProposedAfter;
      assert Gives(given[count - 1]) == Gives(given'[count - 1]);
    }
  }
}
