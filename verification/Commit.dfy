/**
 Accepting a checkpoint commit: what the activation remembers of it, when a refused one is rolled back, and
 when a parked run may be released.
*/
module Commit {
  import opened Wrappers

  // `core` is everything the fingerprint covers besides the observation; `remaining` is excluded from it.
  datatype State = State(core: nat, tasks: set<nat>, inputs: set<nat>)

  datatype Checkpoint = Checkpoint(state: State, observation: Option<nat>, seq_: nat, remaining: Option<real>)

  // The fingerprint is injective on what it covers, so the covered part stands for it.
  datatype Digest = Digest(state: State, observation: Option<nat>, seq_: nat)

  /** `_checkpoint_state_sha256`. */
  function DigestOf(checkpoint: Checkpoint): Digest {
    Digest(checkpoint.state, checkpoint.observation, checkpoint.seq_)
  }

  /** What the store, the callback or the fenced sink does with one commit. */
  datatype Answer = Accepts | ReturnsFalse | Throws(stored: bool)

  /** When this activation loses its lease, relative to one `_persist_checkpoint`. */
  datatype Loss = Keeps | LostBefore | LostAtSnapshot | LostDuring

  datatype Outcome =
    | NotDurable                        // snapshot refused: not an error
    | Declined                          // the callback returned False
    | Accepted
    | AuthorityRevoked
    | StorageFailed

  /** Facts of the last accepted checkpoint. */
  datatype Memory = Memory(digest: Digest, tasks: set<nat>, inputs: set<nat>)

  /** Committed numbers strictly increase between the activation's first and its latest. */
  ghost predicate Increasing(committed: seq<Checkpoint>, first: nat, last: nat) {
    && first <= last
    && (forall i :: 0 <= i < |committed| ==> first <= committed[i].seq_ <= last)
    && (forall i, j :: 0 <= i < j < |committed| ==> committed[i].seq_ < committed[j].seq_)
  }

  lemma IncreasingGrows(committed: seq<Checkpoint>, first: nat, last: nat, checkpoint: Checkpoint)
    requires Increasing(committed, first, last) && checkpoint.seq_ == last + 1
    ensures Increasing(committed, first, last + 1) && Increasing(committed + [checkpoint], first, last + 1)
  {
  }

  class Activation {
    var state: State
    var observation: Option<nat>        // last_suspension
    var seq_: nat
    var remaining: Option<real>
    var shellJobs: bool
    var revoked: bool
    var released: bool
    var memory: Option<Memory>
    ghost var committed: seq<Checkpoint>
    ghost var first: nat                // the sequence number this activation started from
    ghost var accepted: nat             // which commit the memory is about

    ghost predicate Valid()
      reads this
    {
      && Increasing(committed, first, seq_)
      && (memory.Some? ==> accepted < |committed| && Describes(memory.value, committed[accepted]))
    }

    /** A restored activation remembers the checkpoint it was opened from; a fresh one remembers none. */
    constructor (state: State, from: Option<Checkpoint>)
      ensures Valid() && !released && !revoked
      ensures from.Some? ==>
        && memory.Some? && Describes(memory.value, from.value) && committed == [from.value]
        && !shellJobs && Snapshot() == from
      ensures from.None? ==> memory.None? && committed == [] && this.state == state && observation.None? && seq_ == 0
    {
      this.state := if from.Some? then from.value.state else state;
      observation := if from.Some? then from.value.observation else None;
      seq_ := if from.Some? then from.value.seq_ else 0;
      remaining := if from.Some? then from.value.remaining else None;
      shellJobs, revoked, released := false, false, false;
      memory := if from.Some?
                then Some(Memory(DigestOf(from.value), from.value.state.tasks, from.value.state.inputs)) else None;
      committed := if from.Some? then [from.value] else [];
      first := if from.Some? then from.value.seq_ else 0;
      accepted := 0;
    }

    /** `snapshot`: a pure read that refuses while a shell job is parked on. */
    function Snapshot(): (r: Option<Checkpoint>)
      reads this
      ensures r.Some? <==> !shellJobs
    {
      if shellJobs then None else Some(Checkpoint(state, observation, seq_, remaining))
    }

    /** Any work between two checkpoints. */
    method Work(newState: State, left: Option<real>, jobs: bool)
      requires Valid()
      modifies this`state, this`remaining, this`shellJobs
      ensures Valid() && state == newState && remaining == left && shellJobs == jobs
    {
      state, remaining, shellJobs := newState, left, jobs;
    }

    /** `_persist_checkpoint`. */
    method Persist(park: Option<nat>, loss: Loss, answer: Answer) returns (outcome: Outcome)
      requires Valid() && !revoked
      modifies this
      ensures Valid() && first == old(first) && state == old(state) && shellJobs == old(shellJobs) && released == old(released)
      // Which outcome, and whether the number is spent.
      ensures outcome.NotDurable? <==> loss.Keeps? && shellJobs
      ensures outcome.AuthorityRevoked? <==> !loss.Keeps?
      ensures outcome.StorageFailed? <==> loss.Keeps? && !shellJobs && answer.Throws?
      ensures outcome.Declined? <==> loss.Keeps? && !shellJobs && answer.ReturnsFalse?
      ensures revoked <==> outcome.AuthorityRevoked?
      ensures seq_ == old(seq_) + if shellJobs || loss.LostBefore? then 0 else 1
      // The new observation stands unless the snapshot was refused, the commit threw, or the lease went.
      ensures observation ==
        if park.Some? && (outcome.Accepted? || outcome.Declined?) then park else old(observation)
      // Only an accepted commit is remembered, and then it is the one just committed.
      ensures !outcome.Accepted? ==> memory == old(memory)
      ensures outcome.Accepted? ==>
        && memory.Some? && accepted + 1 == |committed| && Describes(memory.value, committed[accepted])
        && Snapshot().Some? && DigestOf(Snapshot().value) == memory.value.digest
      // What the store received.
      ensures committed == old(committed)
        + if old(shellJobs) || loss.LostBefore? || loss.LostAtSnapshot? || !(answer.Accepts? || answer == Throws(true)) then []
          else [Checkpoint(state, if park.Some? then park else old(observation), seq_, remaining)]
    {
      hide Increasing, DigestOf;
      if loss.LostBefore? {
        revoked := true;
        return AuthorityRevoked;
      }
      var prior := observation;
      if park.Some? {
        observation := park;
      }
      var snapshot := Snapshot();
      if snapshot.None? {
        observation := prior;
        revoked := !loss.Keeps?;
        return if revoked then AuthorityRevoked else NotDurable;
      }
      seq_ := seq_ + 1;
      var checkpoint := snapshot.value.(seq_ := seq_);
      IncreasingGrows(committed, first, seq_ - 1, checkpoint);
      if loss.LostAtSnapshot? {
        observation, revoked := prior, true;
        return AuthorityRevoked;
      }
      if answer.Accepts? || answer == Throws(true) {
        committed := committed + [checkpoint];
      }
      if loss.LostDuring? || answer.Throws? {
        observation, revoked := prior, loss.LostDuring?;
        return if revoked then AuthorityRevoked else StorageFailed;
      }
      if answer.ReturnsFalse? {
        return Declined;
      }
      memory := Some(Memory(DigestOf(checkpoint), checkpoint.state.tasks, checkpoint.state.inputs));
      accepted := |committed| - 1;
      return Accepted;
    }

    /** `release_parked`: only a session whose checkpointable state is the committed one may go. */
    method ReleaseParked() returns (ok: bool)
      requires Valid() && !revoked && !released
      modifies this`released
      ensures Valid() && released == ok
      ensures ok <==> observation.Some? && !shellJobs && memory.Some? && memory.value.digest == Digest(state, observation, seq_)
      ensures ok ==> exists i ::
        && 0 <= i < |committed|
        && committed[i].state == state && committed[i].observation == observation && committed[i].seq_ == seq_
    {
      var snapshot := Snapshot();
      assert memory.Some? ==> 0 <= accepted < |committed|;
      ok := observation.Some? && snapshot.Some? && memory.Some? && DigestOf(snapshot.value) == memory.value.digest;
      released := ok;
    }
  }

  /** The memory is about this checkpoint: its fingerprint, its hosted tasks and its applied inputs together. */
  predicate Describes(memory: Memory, checkpoint: Checkpoint) {
    && memory.digest == DigestOf(checkpoint)
    && memory.tasks == checkpoint.state.tasks
    && memory.inputs == checkpoint.state.inputs
  }

  /** A park just accepted can be released at once. */
  method ParkThenRelease(run: Activation, park: nat) returns (ok: bool)
    requires run.Valid() && !run.revoked && !run.released && !run.shellJobs
    modifies run
    ensures ok && run.observation == Some(park)
  {
    var outcome := run.Persist(Some(park), Keeps, Accepts);
    ok := run.ReleaseParked();
  }

  /** A later commit that is declined, refused or fails leaves a number spent, or work behind: no release. */
  method DeclinedParkIsNotReleasable(run: Activation, park: nat, answer: Answer) returns (ok: bool)
    requires run.Valid() && !run.revoked && !run.released && !run.shellJobs && !answer.Accepts?
    modifies run
    ensures !ok
    ensures answer.ReturnsFalse? ==> run.observation == Some(park)
  {
    ghost var before := run.seq_;
    var outcome := run.Persist(Some(park), Keeps, answer);
    ok := run.ReleaseParked();
    assert run.seq_ == before + 1;
  }

  /** Work after the commit is seen as work: the park is no longer releasable. */
  method WorkedParkIsNotReleasable(run: Activation, park: nat, newState: State) returns (ok: bool)
    requires run.Valid() && !run.revoked && !run.released && !run.shellJobs && newState != run.state
    modifies run
    ensures !ok
  {
    var outcome := run.Persist(Some(park), Keeps, Accepts);
    run.Work(newState, None, false);
    ok := run.ReleaseParked();
  }
}
