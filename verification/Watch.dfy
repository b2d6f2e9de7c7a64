/**
 The watch cursor over a run's event log while another process appends to it: bounded batches, no record
 missed or repeated, and progress on every batch that leaves records behind.
*/
module Watch {
  import opened Wrappers

  const MAX_RECORDS: nat := 256
  const MAX_BYTES: nat := 1048576

  // One newline-committed physical line; a blank one is skipped by readers but still occupies its bytes.
  datatype Line = Line(id: nat, size: nat, blank: bool)

  datatype Record = Record(id: nat, offset: nat, next: nat)

  datatype Tail = Tail(exists_: bool, identity: nat, committedEnd: nat)

  datatype WatchError = Replaced | Truncated

  datatype Batch = Batch(records: seq<Record>, next: nat, drained: bool)

  // ---------- The log ----------

  function Size(log: seq<Line>): nat {
    if log == [] then 0 else Size(log[..|log| - 1]) + log[|log| - 1].size
  }

  ghost predicate Committed(log: seq<Line>) {
    forall i :: 0 <= i < |log| ==> log[i].size > 0
  }

  /** The records that start in [from, to), in log order. */
  function Between(log: seq<Line>, from: nat, to: nat): seq<Record> {
    if log == [] then []
    else
      var rest, last, start := log[..|log| - 1], log[|log| - 1], Size(log[..|log| - 1]);
      Between(rest, from, to)
        + (if !last.blank && from <= start < to then [Record(last.id, start, start + last.size)] else [])
  }

  lemma {:induction false} SizeGrows(log: seq<Line>, i: nat, j: nat)
    requires i <= j <= |log|
    ensures Size(log[..i]) <= Size(log[..j]) <= Size(log)
    ensures Committed(log) && i < j ==> Size(log[..i]) < Size(log[..j])
    ensures Committed(log) && j < |log| ==> Size(log[..j]) < Size(log)
    decreases |log|
  {
    if log != [] {
      var rest := log[..|log| - 1];
      if j < |log| {
        assert log[..i] == rest[..i] && log[..j] == rest[..j];
        SizeGrows(rest, i, j);
      } else {
        assert log[..j] == log;
        if i < |log| {
          assert log[..i] == rest[..i] && rest[..|rest|] == rest;
          SizeGrows(rest, i, |rest|);
        }
      }
    }
  }

  /** Appending lines after `to` changes nothing before it. */
  lemma {:induction false} BetweenIsStable(log: seq<Line>, more: seq<Line>, from: nat, to: nat)
    requires log <= more && to <= Size(log)
    ensures Between(more, from, to) == Between(log, from, to)
    decreases |more|
  {
    if |more| > |log| {
      var rest := more[..|more| - 1];
      assert log <= rest;
      SizeGrows(rest, |log|, |rest|);
      assert rest[..|log|] == log && rest[..|rest|] == rest;
      BetweenIsStable(log, rest, from, to);
    } else {
      assert more == log;
    }
  }

  /** Nothing starts at or after the end. */
  lemma {:induction false} BetweenClips(log: seq<Line>, from: nat, to: nat)
    requires to >= Size(log) && Committed(log)
    ensures Between(log, from, to) == Between(log, from, Size(log))
    ensures from >= Size(log) ==> Between(log, from, to) == []
    decreases |log|
  {
    if log != [] {
      var rest := log[..|log| - 1];
      SizeGrows(log, |rest|, |rest|);
      BetweenClips(rest, from, to);
      BetweenClips(rest, from, Size(log));
    }
  }

  /** Two adjoining stretches make one, without a gap or a repeat. */
  lemma {:induction false} BetweenJoins(log: seq<Line>, a: nat, b: nat, c: nat)
    requires a <= b <= c && Committed(log)
    ensures Between(log, a, b) + Between(log, b, c) == Between(log, a, c)
    decreases |log|
  {
    if log != [] {
      var rest, last := log[..|log| - 1], log[|log| - 1];
      BetweenJoins(rest, a, b, c);
      if b <= Size(rest) {
        assert Between(log, a, b) == Between(rest, a, b);
      } else {
        BetweenClips(rest, b, c);
        assert Between(log, b, c) == Between(rest, b, c);
        assert Between(rest, b, c) == [];
      }
    }
  }

  // ---------- One batch ----------

  function Bytes(records: seq<Record>): int {
    if records == [] then 0 else Bytes(records[..|records| - 1]) + (records[|records| - 1].next - records[|records| - 1].offset)
  }

  /** `_read_watch_batch`, over the log as inspected before, as read, and as inspected after. */
  method ReadWatchBatch(before: Tail, seen: seq<Line>, after: Tail, offset: nat, identity: nat)
    returns (r: Result<Batch, WatchError>)
    requires Committed(seen)
    ensures r == Failure(Replaced) <==>
      || !before.exists_ || before.identity != identity
      || (before.committedEnd >= offset && (!after.exists_ || after.identity != identity))
    ensures r == Failure(Truncated) ==>
      || before.committedEnd < offset
      || exists batch :: IsBatch(before.committedEnd, seen, offset, batch) && after.committedEnd < batch.next
    ensures r.Success? ==>
      var batch := r.value;
      && before.committedEnd >= offset && after.committedEnd >= batch.next >= offset
      && IsBatch(before.committedEnd, seen, offset, batch)
  {
    if !before.exists_ || before.identity != identity {
      return Failure(Replaced);
    }
    if before.committedEnd < offset {
      return Failure(Truncated);
    }
    var records: seq<Record> := [];
    var batchBytes, drained, pos := 0, true, 0;
    for i := 0 to |seen|
      invariant pos == Size(seen[..i]) && drained
      invariant records == Between(seen[..i], offset, pos)
      invariant batchBytes == Bytes(records) && Within(records)
      invariant records != [] ==> offset < records[|records| - 1].next <= pos
    {
      var line := seen[i];
      PrefixStep(seen, i, offset);
      if !line.blank && offset <= pos {
        if records != [] && (|records| >= MAX_RECORDS || batchBytes + line.size > MAX_BYTES) {
          drained := false;
          StopsHere(seen, i, offset, records);
          break;
        }
        records := records + [Record(line.id, pos, pos + line.size)];
        batchBytes := batchBytes + line.size;
      }
      pos := pos + line.size;
    }
    var next := if records != [] then records[|records| - 1].next else offset;
    assert !drained ==> IsFull(records, Between(seen, next, Size(seen)));
    if drained {
      next := if next >= before.committedEnd then next else before.committedEnd;
      assert seen[..|seen|] == seen;
    }
    if !after.exists_ || after.identity != identity {
      return Failure(Replaced);
    }
    assert IsBatch(before.committedEnd, seen, offset, Batch(records, next, drained));
    if after.committedEnd < next {
      return Failure(Truncated);
    }
    return Success(Batch(records, next, drained));
  }

  predicate Within(records: seq<Record>) {
    |records| <= MAX_RECORDS && (|records| <= 1 || Bytes(records) <= MAX_BYTES)
  }

  /** The cursor of a batch: past its last record, and when drained past everything committed before it. */
  ghost predicate IsBatch(committedBefore: nat, seen: seq<Line>, offset: nat, batch: Batch) {
    && Within(batch.records)
    && (if batch.drained then
          && batch.records == Between(seen, offset, Size(seen))
          && batch.next == (var last := if batch.records != [] then batch.records[|batch.records| - 1].next else offset;
                            if last >= committedBefore then last else committedBefore)
        else
          && batch.next > offset
          && batch.records != [] && batch.next == batch.records[|batch.records| - 1].next <= Size(seen)
          && batch.records == Between(seen, offset, batch.next)
          && IsFull(batch.records, Between(seen, batch.next, Size(seen))))
  }

  /** More records are there, and the first of them no longer fits. */
  predicate IsFull(records: seq<Record>, rest: seq<Record>) {
    && rest != []
    && (|records| >= MAX_RECORDS || Bytes(records) + (rest[0].next - rest[0].offset) > MAX_BYTES)
  }

  ghost predicate Sized(records: seq<Record>) {
    forall k :: 0 <= k < |records| ==> records[k].offset <= records[k].next
  }

  lemma {:induction false} BetweenIsSized(log: seq<Line>, from: nat, to: nat)
    ensures Sized(Between(log, from, to))
  {
    if log != [] {
      BetweenIsSized(log[..|log| - 1], from, to);
    }
  }

  lemma {:induction false} BytesGrow(records: seq<Record>, k: nat)
    requires Sized(records) && k <= |records|
    ensures Bytes(records[..k]) <= Bytes(records)
  {
    if k < |records| {
      var init := records[..|records| - 1];
      assert init[..k] == records[..k];
      BytesGrow(init, k);
    } else {
      assert records[..k] == records;
    }
  }

  /** A batch within bounds takes no more of the records than a full one. */
  lemma NoLonger(a: seq<Record>, rest: seq<Record>, b: seq<Record>)
    requires a != [] && IsFull(a, rest) && Within(b) && b <= a + rest && Sized(b)
    ensures |b| <= |a|
  {
    if |b| > |a| {
      var one := b[..|a| + 1];
      assert one == a + [rest[0]];
      assert one[..|a|] == a;
      BytesGrow(b, |a| + 1);
    }
  }

  /** Any two batches of one log from one offset: the second takes no more than the first, and all of it if drained. */
  lemma BatchesCompare(committedBefore: nat, seen: seq<Line>, offset: nat, a: Batch, b: Batch)
    requires Committed(seen)
    requires IsBatch(committedBefore, seen, offset, a) && IsBatch(committedBefore, seen, offset, b)
    ensures !a.drained ==> |b.records| <= |a.records| < |Between(seen, offset, Size(seen))|
    ensures a.records <= Between(seen, offset, Size(seen))
  {
    hide IsFull, Within;
    var all := Between(seen, offset, Size(seen));
    BetweenIsSized(seen, offset, Size(seen));
    if !b.drained {
      BetweenJoins(seen, offset, b.next, Size(seen));
    }
    if !a.drained {
      BetweenJoins(seen, offset, a.next, Size(seen));
      var rest := Between(seen, a.next, Size(seen));
      assert rest != [] by {
        FullHasMore(a.records, rest);
      }
      assert forall k :: 0 <= k < |b.records| ==> b.records[k] == all[k];
      NoLonger(a.records, rest, b.records);
    }
  }

  lemma FullHasMore(records: seq<Record>, rest: seq<Record>)
    requires IsFull(records, rest)
    ensures rest != []
  {
  }

  /** One log read from one offset has one batch: the longest prefix of its records that fits. */
  lemma BatchIsDetermined(committedBefore: nat, seen: seq<Line>, offset: nat, a: Batch, b: Batch)
    requires Committed(seen)
    requires IsBatch(committedBefore, seen, offset, a) && IsBatch(committedBefore, seen, offset, b)
    ensures a == b
  {
    hide Between, IsFull, Within;
    BatchesCompare(committedBefore, seen, offset, a, b);
    BatchesCompare(committedBefore, seen, offset, b, a);
  }

  lemma PrefixStep(seen: seq<Line>, i: nat, offset: nat)
    requires i < |seen| && Committed(seen)
    ensures Size(seen[..i + 1]) == Size(seen[..i]) + seen[i].size
    ensures var pos := Size(seen[..i]);
      Between(seen[..i + 1], offset, pos + seen[i].size) ==
        Between(seen[..i], offset, pos)
          + (if !seen[i].blank && offset <= pos then [Record(seen[i].id, pos, pos + seen[i].size)] else [])
  {
    assert seen[..i + 1][..i] == seen[..i];
    BetweenClips(seen[..i], offset, Size(seen[..i]) + seen[i].size);
  }

  /** Stopping before line `i`, the records so far are those before the last one's end. */
  lemma StopsHere(seen: seq<Line>, i: nat, offset: nat, records: seq<Record>)
    requires i < |seen| && Committed(seen)
    requires records == Between(seen[..i], offset, Size(seen[..i])) && records != []
    requires offset < records[|records| - 1].next <= Size(seen[..i])
    ensures records[|records| - 1].next <= Size(seen)
    ensures records == Between(seen, offset, records[|records| - 1].next)
    ensures !seen[i].blank && offset <= Size(seen[..i]) ==>
      var rest := Between(seen, records[|records| - 1].next, Size(seen));
      rest != [] && rest[0].next - rest[0].offset == seen[i].size
  {
    hide Between, Size;
    var next := records[|records| - 1].next;
    SizeGrows(seen, i, i);
    LastEndsAt(seen[..i], offset);
    BetweenIsStable(seen[..i], seen, offset, next);
    if !seen[i].blank && offset <= Size(seen[..i]) {
      NextStartsHere(seen, i, offset, records);
    }
  }

  lemma NextStartsHere(seen: seq<Line>, i: nat, offset: nat, records: seq<Record>)
    requires i < |seen| && Committed(seen) && !seen[i].blank && records != []
    requires var pos := Size(seen[..i]);
      && records == Between(seen[..i], offset, pos) == Between(seen[..i], offset, records[|records| - 1].next)
      && offset <= records[|records| - 1].next <= pos
    ensures var rest := Between(seen, records[|records| - 1].next, Size(seen));
      rest != [] && rest[0].next - rest[0].offset == seen[i].size
  {
    hide Between, Size;
    var next := records[|records| - 1].next;
    BetweenJoins(seen[..i], offset, next, Size(seen[..i]));
    assert |Between(seen[..i], next, Size(seen[..i]))| == 0;
    PrefixStep(seen, i, next);
    BetweenOfPrefix(seen, i + 1, next);
  }

  /** What starts before a line starts within the whole log too, and first. */
  lemma {:induction false} BetweenOfPrefix(log: seq<Line>, i: nat, from: nat)
    requires i <= |log| && Committed(log)
    ensures Between(log[..i], from, Size(log[..i])) <= Between(log, from, Size(log))
    decreases |log|
  {
    if i < |log| {
      var rest := log[..|log| - 1];
      assert rest[..i] == log[..i];
      BetweenOfPrefix(rest, i, from);
      BetweenClips(rest, from, Size(log));
    } else {
      assert log[..i] == log;
    }
  }

  /** Nothing starts after the end of the last record that was read. */
  lemma {:induction false} LastEndsAt(log: seq<Line>, offset: nat)
    requires Committed(log) && Between(log, offset, Size(log)) != []
    ensures var records := Between(log, offset, Size(log));
      var next := records[|records| - 1].next;
      offset < next <= Size(log) && Between(log, offset, next) == records
    decreases |log|
  {
    var rest, last := log[..|log| - 1], log[|log| - 1];
    BetweenClips(rest, offset, Size(log));
    var start := Size(rest);
    if !last.blank && offset <= start {
    } else {
      LastEndsAt(rest, offset);
      var records := Between(log, offset, Size(log));
      BetweenIsStable(rest, log, offset, records[|records| - 1].next);
    }
  }

  // ---------- The cursor loop ----------

  /** What one read met: the log when inspected before, when read, and what it gave. */
  datatype Read = Read(before: seq<Line>, seen: seq<Line>, batch: Batch)

  /** One read saw a log that had only grown, from the cursor the read before it left. */
  ghost predicate FollowsAt(visits: seq<Read>, start: nat, k: nat)
    requires k < |visits|
  {
    && Committed(visits[k].seen)
    && visits[k].before <= visits[k].seen
    && (if k > 0 then visits[k - 1].seen <= visits[k].before else start <= Size(visits[0].before))
    && IsBatch(Size(visits[k].before), visits[k].seen, Cursor(visits[..k], start), visits[k].batch)
  }

  ghost predicate Follows(visits: seq<Read>, start: nat) {
    forall k :: 0 <= k < |visits| ==> FollowsAt(visits, start, k)
  }

  function Cursor(visits: seq<Read>, start: nat): nat {
    if visits == [] then start else visits[|visits| - 1].batch.next
  }

  function Delivered(visits: seq<Read>): seq<Record> {
    if visits == [] then [] else Delivered(visits[..|visits| - 1]) + visits[|visits| - 1].batch.records
  }

  /** One batch delivers exactly the records between its cursor and the next, and never goes back. */
  lemma BatchIsBetween(committedBefore: nat, seen: seq<Line>, offset: nat, batch: Batch)
    requires Committed(seen) && IsBatch(committedBefore, seen, offset, batch)
    requires offset <= committedBefore <= Size(seen)
    ensures offset <= batch.next <= Size(seen)
    ensures batch.records == Between(seen, offset, batch.next)
  {
    if batch.drained {
      if batch.records == [] {
        BetweenJoins(seen, offset, batch.next, Size(seen));
      } else {
        LastEndsAt(seen, offset);
        var last := batch.records[|batch.records| - 1].next;
        BetweenJoins(seen, offset, last, batch.next);
        BetweenJoins(seen, offset, batch.next, Size(seen));
        assert |Between(seen, offset, batch.next)| >= |batch.records|;
      }
    }
  }

  lemma FollowsPrefix(visits: seq<Read>, start: nat)
    requires visits != [] && Follows(visits, start)
    ensures Follows(visits[..|visits| - 1], start)
  {
    var init := visits[..|visits| - 1];
    forall k | 0 <= k < |init|
      ensures FollowsAt(init, start, k)
    {
      assert FollowsAt(visits, start, k);
      assert init[..k] == visits[..k];
      hide IsBatch, Committed, Size;
    }
  }

  /**
   For every growth of one log, the batches delivered so far, put together, are the committed records from
   the start offset up to the cursor: none missing, none twice.
  */
  lemma {:induction false} WatchDeliversEverythingOnce(visits: seq<Read>, start: nat)
    requires visits != [] && Follows(visits, start)
    ensures var seen := visits[|visits| - 1].seen;
      && start <= Cursor(visits, start) <= Size(seen)
      && Delivered(visits) == Between(seen, start, Cursor(visits, start))
  {
    var init, last := visits[..|visits| - 1], visits[|visits| - 1];
    var cursor := Cursor(init, start);
    assert FollowsAt(visits, start, |visits| - 1);
    SizeGrows(last.seen, |last.before|, |last.before|);
    assert last.seen[..|last.before|] == last.before;
    assert visits[..|visits| - 1] == init;
    if init == [] {
      BatchIsBetween(Size(last.before), last.seen, cursor, last.batch);
      assert Delivered(init) + last.batch.records == last.batch.records;
    } else {
      FollowsPrefix(visits, start);
      WatchDeliversEverythingOnce(init, start);
      var previous := init[|init| - 1].seen;
      assert previous <= last.before by {
        assert visits[|visits| - 2] == init[|init| - 1];
      }
      SizeGrows(last.before, |previous|, |previous|);
      assert last.before[..|previous|] == previous;
      BatchIsBetween(Size(last.before), last.seen, cursor, last.batch);
      BetweenIsStable(previous, last.seen, start, cursor);
      BetweenJoins(last.seen, start, cursor, last.batch.next);
    }
  }

  /** Once the log stands still, a drained batch has delivered all of it. */
  lemma DrainedWatchIsComplete(visits: seq<Read>, start: nat)
    requires visits != [] && Follows(visits, start)
    requires var last := visits[|visits| - 1]; last.batch.drained && last.before == last.seen
    ensures Delivered(visits) == Between(visits[|visits| - 1].seen, start, Size(visits[|visits| - 1].seen))
    ensures Cursor(visits, start) == Size(visits[|visits| - 1].seen)
  {
    WatchDeliversEverythingOnce(visits, start);
    assert FollowsAt(visits, start, |visits| - 1);
  }

  /** Batches are bounded, and one that leaves records behind moves the cursor. */
  lemma BatchesAreBoundedAndAdvance(visits: seq<Read>, start: nat, k: nat)
    requires Follows(visits, start) && k < |visits|
    ensures var batch := visits[k].batch;
      && |batch.records| <= 256
      && (Bytes(batch.records) <= 1024 * 1024 || |batch.records| == 1)
      && (!batch.drained ==> batch.next > Cursor(visits[..k], start))
  {
    hide Between, Cursor;
    assert FollowsAt(visits, start, k);
    hide Follows;
    if |visits[k].batch.records| == 0 {
      assert Bytes([]) == 0;
    }
  }
}
