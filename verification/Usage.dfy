/**
 Token accounting: the remainder of one call's aggregate bill over what an earlier park already
 charged (`_usage_delta`), and the one summation rule that feeds the run totals
 (`_accumulate_usage_mapping`).
*/
module Usage {
  import opened Wrappers

  // The canonical counters a receipt may carry.
  datatype Meter =
    | InputTokens | OutputTokens | TotalTokens
    | CacheReadTokens | CacheCreationTokens | ReasoningTokens | AudioTokens

  // A receipt as it arrives; a value is portable when it is a non-negative integer.
  type Usage = map<Meter, int>

  datatype UsageError = Corrupt | Regressed

  function Get(u: Usage, key: Meter): int {
    if key in u then u[key] else 0
  }

  ghost predicate WellFormed(u: Usage) {
    forall key :: key in u ==> 0 <= u[key]
  }

  /** The complaint `_usage_delta` raises when it reaches `key`, if any. */
  function ProblemAt(aggregate: Usage, accounted: Usage, key: Meter): Option<UsageError> {
    var current, previous := Get(aggregate, key), Get(accounted, key);
    if current < 0 || previous < 0 then Some(Corrupt)
    else if current < previous then Some(Regressed)
    else None
  }

  /** No key is malformed and none shrank: exactly the inputs on which a delta exists. */
  ghost predicate Covers(aggregate: Usage, accounted: Usage) {
    forall key :: key in aggregate.Keys + accounted.Keys ==> ProblemAt(aggregate, accounted, key) == None
  }

  /** A key charged for the first time keeps a reported zero; a key seen before appears only if it grew. */
  function DeltaOf(aggregate: Usage, accounted: Usage): Usage {
    map key | key in aggregate && (key !in accounted || aggregate[key] > accounted[key]) ::
      if key !in accounted then aggregate[key] else aggregate[key] - accounted[key]
  }

  function Sum(total: Usage, usage: Usage): Usage {
    map key | key in total.Keys + usage.Keys :: Get(total, key) + Get(usage, key)
  }

  const InitialTotal: Usage := map[InputTokens := 0, OutputTokens := 0, TotalTokens := 0]

  /** The totals after charging `bills` in order. */
  function TotalOf(bills: seq<Usage>): Usage {
    if bills == [] then InitialTotal
    else Sum(TotalOf(bills[..|bills| - 1]), bills[|bills| - 1])
  }

  lemma DeltaIsWellFormed(aggregate: Usage, accounted: Usage)
    requires Covers(aggregate, accounted)
    ensures WellFormed(DeltaOf(aggregate, accounted))
  {
    forall key | key in aggregate
      ensures 0 <= aggregate[key]
    {
      assert ProblemAt(aggregate, accounted, key) == None;
    }
  }

  /** `_usage_delta`: walks the union of the keys in set order, stopping at the first bad one. */
  method UsageDelta(aggregate: Usage, accounted: Usage) returns (r: Result<Usage, UsageError>)
    ensures r.Success? <==> Covers(aggregate, accounted)
    ensures r.Success? ==> r.value == DeltaOf(aggregate, accounted) && WellFormed(r.value)
    ensures r.Failure? ==> exists key :: ProblemAt(aggregate, accounted, key) == Some(r.error)
    ensures r == Failure(Corrupt) ==> exists key :: Get(aggregate, key) < 0 || Get(accounted, key) < 0
    ensures r == Failure(Regressed) ==> exists key :: 0 <= Get(aggregate, key) < Get(accounted, key)
  {
    var keys := aggregate.Keys + accounted.Keys;
    ghost var target := DeltaOf(aggregate, accounted);
    var pending := keys;
    var delta: Usage := map[];
    while pending != {}
      invariant pending <= keys
      invariant forall key :: key in keys && key !in pending ==> ProblemAt(aggregate, accounted, key) == None
      invariant forall key :: key in delta <==> key in target && key !in pending
      invariant forall key :: key in target && key !in pending ==> delta[key] == target[key]
      decreases pending
    {
      var key :| key in pending;
      var current, previous := Get(aggregate, key), Get(accounted, key);
      var problem := ProblemAt(aggregate, accounted, key);
      if problem != None {
        return Failure(problem.value);
      }
      pending := pending - {key};
      if key in aggregate && key !in accounted {
        delta := delta[key := current];
      } else if current > previous {
        delta := delta[key := current - previous];
      }
    }
    assert Covers(aggregate, accounted);
    assert delta == target;
    DeltaIsWellFormed(aggregate, accounted);
    return Success(delta);
  }

  /** Charging an unchanged aggregate again charges nothing. */
  lemma DeltaOfSame(u: Usage)
    ensures DeltaOf(u, u) == map[]
  {
  }

  lemma DeltaOfEmpty(u: Usage)
    ensures DeltaOf(u, map[]) == u
  {
  }

  /** Delta plus baseline is the aggregate, on every key. */
  lemma DeltaCompletesBaseline(aggregate: Usage, accounted: Usage, key: Meter)
    requires Covers(aggregate, accounted)
    ensures Get(accounted, key) + Get(DeltaOf(aggregate, accounted), key) == Get(aggregate, key)
  {
    if key in aggregate.Keys + accounted.Keys {
      assert ProblemAt(aggregate, accounted, key) == None;
    }
  }

  /**
   Charging a call in two instalments gives the totals of charging it once, exactly when the second
   receipt still reports every key of the first (or the run already carried that key).
   */
  lemma TwoInstalmentsAreOne(total: Usage, aggregate: Usage, accounted: Usage)
    requires Covers(aggregate, accounted)
    ensures Sum(Sum(total, accounted), DeltaOf(aggregate, accounted)) == Sum(total, aggregate)
      <==> accounted.Keys <= total.Keys + aggregate.Keys
  {
    var twice := Sum(Sum(total, accounted), DeltaOf(aggregate, accounted));
    var once := Sum(total, aggregate);
    forall key {:trigger Get(twice, key)}
      ensures Get(twice, key) == Get(once, key)
    {
      DeltaCompletesBaseline(aggregate, accounted, key);
    }
    if accounted.Keys <= total.Keys + aggregate.Keys {
      assert twice.Keys == once.Keys;
      forall key | key in twice
        ensures twice[key] == once[key]
      {
        assert Get(twice, key) == Get(once, key);
      }
    } else {
      var key :| key in accounted.Keys && key !in total.Keys + aggregate.Keys;
      assert key in twice && key !in once;
    }
  }

  lemma TotalOfAppend(bills: seq<Usage>, bill: Usage)
    ensures TotalOf(bills + [bill]) == Sum(TotalOf(bills), bill)
  {
    assert (bills + [bill])[..|bills|] == bills;
  }

  /** Component-wise: each key's total is the sum of what the bills report for it. */
  function SumOfKey(bills: seq<Usage>, key: Meter): int {
    if bills == [] then 0 else SumOfKey(bills[..|bills| - 1], key) + Get(bills[|bills| - 1], key)
  }

  lemma {:induction false} TotalOfIsComponentwise(bills: seq<Usage>, key: Meter)
    ensures Get(TotalOf(bills), key) == SumOfKey(bills, key)
  {
    if bills != [] {
      TotalOfIsComponentwise(bills[..|bills| - 1], key);
    }
  }
}
