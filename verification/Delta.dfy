/**
 The workspace delta of a checkpoint: captured against the base, stored by content address, replayed onto a
 re-provisioned base, under the same size limits on both sides.
*/
module Delta {
  import opened Wrappers

  type Path = seq<string>

  type Bytes = seq<nat>

  // A content address is injective, so it stands for the content it names.
  datatype Digest = Digest(content: Bytes)

  type Tree = map<Path, Bytes>

  datatype Entry = Put(path: Path, digest: Digest) | Drop(path: Path) | DropDirectory(path: Path)

  datatype Limits = Limits(maxFile: nat, maxTotal: nat)

  // ---------- Trees ----------

  /** No file lies below another, and the workspace root is no file. */
  ghost predicate Consistent(tree: Tree) {
    [] !in tree && forall p, q :: p in tree && q in tree ==> !(p < q)
  }

  /** Something lies below the path; the workspace root itself is never an entry. */
  predicate IsDirectory(tree: Tree, p: Path) {
    p != [] && exists q :: q in tree && p < q
  }

  predicate BelowFile(tree: Tree, p: Path) {
    exists q :: q in tree && q < p
  }

  // ---------- Capture ----------

  /** What `changed_entries` reports at one path: its file change, then its directory's disappearance. */
  function EntriesAt(base: Tree, current: Tree, p: Path): seq<Entry> {
    (if p in current && (p !in base || base[p] != current[p]) then [Put(p, Digest(current[p]))]
     else if p in base && p !in current then [Drop(p)]
     else [])
      + (if IsDirectory(base, p) && !IsDirectory(current, p) then [DropDirectory(p)] else [])
  }

  /** The delta, path by path in listing order. */
  function Capture(base: Tree, current: Tree, order: seq<Path>): seq<Entry> {
    if order == [] then []
    else Capture(base, current, order[..|order| - 1]) + EntriesAt(base, current, order[|order| - 1])
  }

  /** `collect_checkpoint_blobs`. */
  function Blobs(current: Tree): map<Digest, Bytes> {
    map p | p in current :: Digest(current[p]) := current[p]
  }

  /** A listing in path order: every path is listed, and none after one that extends it. */
  ghost predicate Lists(order: seq<Path>, base: Tree, current: Tree) {
    && (forall p :: p in base || p in current || IsDirectory(base, p) || IsDirectory(current, p) ==> p in order)
    && (forall i, j :: 0 <= i < j < |order| ==> order[i] != order[j] && !(order[j] < order[i]))
  }

  /** The entry is what has changed at its path. */
  predicate Differs(base: Tree, current: Tree, e: Entry) {
    match e
    case Put(p, digest) => p in current && digest == Digest(current[p]) && (p in base ==> base[p] != current[p])
    case Drop(p) => p in base && p !in current
    case DropDirectory(p) => IsDirectory(base, p) && !IsDirectory(current, p)
  }

  lemma EntriesAreDifferences(base: Tree, current: Tree, p: Path, e: Entry)
    ensures e in EntriesAt(base, current, p) <==> e.path == p && Differs(base, current, e)
    ensures base == current ==> EntriesAt(base, current, p) == []
  {
    hide IsDirectory;
  }

  /** A path is captured exactly when it differs from the base, and a workspace that did not change captures nothing. */
  lemma {:induction false} CaptureIsTheDifference(base: Tree, current: Tree, order: seq<Path>, e: Entry)
    ensures e in Capture(base, current, order) <==> e.path in order && Differs(base, current, e)
    ensures base == current ==> Capture(base, current, order) == []
  {
    hide EntriesAt, Differs;
    if order != [] {
      var before, last := order[..|order| - 1], order[|order| - 1];
      CaptureIsTheDifference(base, current, before, e);
      EntriesAreDifferences(base, current, last, e);
      assert order == before + [last];
    }
  }

  // ---------- Restore ----------

  /** One entry through the workspace's write surface; None is a refused write. */
  function Apply(tree: Tree, blobs: map<Digest, Bytes>, entry: Entry): Option<Tree> {
    match entry
    case Put(p, digest) =>
      if digest !in blobs || IsDirectory(tree, p) || BelowFile(tree, p) then None else Some(tree[p := blobs[digest]])
    case Drop(p) =>
      if p in tree then Some(tree - {p}) else if IsDirectory(tree, p) then None else Some(tree)
    case DropDirectory(p) =>
      Some(Without(tree, p))
  }

  function ApplyAll(tree: Tree, blobs: map<Digest, Bytes>, entries: seq<Entry>): Option<Tree> {
    if entries == [] then Some(tree)
    else match ApplyAll(tree, blobs, entries[..|entries| - 1])
      case None => None
      case Some(before) => Apply(before, blobs, entries[|entries| - 1])
  }

  lemma {:induction false} ApplyConcat(tree: Tree, blobs: map<Digest, Bytes>, a: seq<Entry>, b: seq<Entry>)
    ensures ApplyAll(tree, blobs, a + b) ==
      match ApplyAll(tree, blobs, a)
      case None => None
      case Some(t) => ApplyAll(t, blobs, b)
  {
    hide Apply;
    if b == [] {
      assert a + b == a;
    } else {
      ApplyConcat(tree, blobs, a, b[..|b| - 1]);
      assert (a + b)[..|a + b| - 1] == a + b[..|b| - 1];
    }
  }

  // ---------- Replaying a delta ----------

  /** A directory of the base has become a file. */
  ghost predicate Conflict(base: Tree, current: Tree) {
    exists p :: p in current && IsDirectory(base, p)
  }

  /** A directory that is gone was dropped by now, and this path lay in it. */
  ghost predicate Dropped(base: Tree, current: Tree, done: seq<Path>, q: Path) {
    exists i :: 0 <= i < |done| && done[i] < q && IsDirectory(base, done[i]) && !IsDirectory(current, done[i])
  }

  ghost predicate Captured(current: Tree, tree: Tree, q: Path) {
    (q in tree <==> q in current) && (q in tree ==> tree[q] == current[q])
  }

  ghost predicate Untouched(base: Tree, current: Tree, done: seq<Path>, tree: Tree, q: Path) {
    (q in tree <==> q in base && !Dropped(base, current, done, q)) && (q in tree ==> tree[q] == base[q])
  }

  /** Listed paths are as captured; the others are as in the base, less what dropped directories took. */
  ghost predicate Progress(base: Tree, current: Tree, done: seq<Path>, tree: Tree) {
    forall q: Path :: if q in done then Captured(current, tree, q) else Untouched(base, current, done, tree, q)
  }

  lemma StepSucceeds(base: Tree, current: Tree, order: seq<Path>, i: nat, tree: Tree)
    requires Consistent(base) && Consistent(current) && Lists(order, base, current) && i < |order|
    requires Progress(base, current, order[..i], tree)
    requires !(order[i] in current && IsDirectory(base, order[i]))
    ensures var r := ApplyAll(tree, Blobs(current), EntriesAt(base, current, order[i]));
      r.Some? && Progress(base, current, order[..i + 1], r.value)
  {
    var p, done := order[i], order[..i];
    assert p !in done;
    var first :=
      if p in current && (p !in base || base[p] != current[p]) then [Put(p, Digest(current[p]))]
      else if p in base && p !in current then [Drop(p)]
      else [];
    var second := if IsDirectory(base, p) && !IsDirectory(current, p) then [DropDirectory(p)] else [];
    assert EntriesAt(base, current, p) == first + second;
    ApplyConcat(tree, Blobs(current), first, second);
    FileStep(base, current, order, i, tree, first);
    var middle := ApplyAll(tree, Blobs(current), first).value;
    DirectoryStep(base, current, order, i, middle, second);
  }

  /** After the file entry at `p`, the path itself is as captured and nothing else has moved. */
  ghost predicate Halfway(base: Tree, current: Tree, order: seq<Path>, i: nat, tree: Tree)
    requires i < |order|
  {
    forall q: Path ::
      if q in order[..i] || q == order[i] then Captured(current, tree, q)
      else Untouched(base, current, order[..i], tree, q)
  }

  lemma FileStep(base: Tree, current: Tree, order: seq<Path>, i: nat, tree: Tree, first: seq<Entry>)
    requires Consistent(base) && Consistent(current) && Lists(order, base, current) && i < |order|
    requires Progress(base, current, order[..i], tree)
    requires !(order[i] in current && IsDirectory(base, order[i]))
    requires var p := order[i];
      first == if p in current && (p !in base || base[p] != current[p]) then [Put(p, Digest(current[p]))]
               else if p in base && p !in current then [Drop(p)]
               else []
    ensures var r := ApplyAll(tree, Blobs(current), first); r.Some? && Halfway(base, current, order, i, r.value)
  {
    var p, done := order[i], order[..i];
    assert p !in done;
    NotDroppedAt(base, current, order, i);
    NothingInTheWay(base, current, order, i, tree);
    assert Untouched(base, current, done, tree, p);
    assert first == [] ==> Captured(current, tree, p);
    FileApplied(current, p, tree, first);
    hide *;
    var result := ApplyAll(tree, Blobs(current), first).value;
    forall q: Path
      ensures if q in done || q == p then Captured(current, result, q) else Untouched(base, current, done, result, q)
    {
      assert Same(tree, result, q) || q == p;
      FileAt(base, current, done, tree, result, q);
    }
    HalfwayHolds(base, current, order, i, result);
  }

  lemma HalfwayHolds(base: Tree, current: Tree, order: seq<Path>, i: nat, tree: Tree)
    requires i < |order|
    requires forall q: Path ::
      if q in order[..i] || q == order[i] then Captured(current, tree, q) else Untouched(base, current, order[..i], tree, q)
    ensures Halfway(base, current, order, i, tree)
  {
    hide Captured, Untouched;
  }

  ghost predicate Same(tree: Tree, result: Tree, q: Path) {
    (q in result <==> q in tree) && (q in result ==> result[q] == tree[q])
  }

  lemma FileAt(base: Tree, current: Tree, done: seq<Path>, tree: Tree, result: Tree, q: Path)
    ensures Same(tree, result, q) && Captured(current, tree, q) ==> Captured(current, result, q)
    ensures Same(tree, result, q) && Untouched(base, current, done, tree, q) ==> Untouched(base, current, done, result, q)
  {
    hide Dropped;
  }

  /** The file entry at `p`, where nothing is in its way. */
  lemma FileApplied(current: Tree, p: Path, tree: Tree, first: seq<Entry>)
    requires first == [] || (p in current && first == [Put(p, Digest(current[p]))]) || (p !in current && first == [Drop(p)])
    requires first == [] ==> Captured(current, tree, p)
    requires p in current ==> !IsDirectory(tree, p) && !BelowFile(tree, p)
    requires first == [Drop(p)] && p !in tree ==> !IsDirectory(tree, p)
    ensures var r := ApplyAll(tree, Blobs(current), first);
      r.Some? && Captured(current, r.value, p) && forall q: Path :: q != p ==> Same(tree, r.value, q)
  {
    AppliesFirst(tree, Blobs(current), first);
    assert p in current ==> Digest(current[p]) in Blobs(current);
    hide IsDirectory, BelowFile, ApplyAll;
  }

  lemma AppliesFirst(tree: Tree, blobs: map<Digest, Bytes>, first: seq<Entry>)
    requires |first| <= 1
    ensures ApplyAll(tree, blobs, first) == if first == [] then Some(tree) else Apply(tree, blobs, first[0])
  {
    if first != [] {
      assert first[..0] == [] && ApplyAll(tree, blobs, first[..0]) == Some(tree);
    }
    hide Apply;
  }

  /** A path still in the capture, or still a file of the base, was in no dropped directory. */
  lemma NotDroppedAt(base: Tree, current: Tree, order: seq<Path>, i: nat)
    requires Consistent(base) && Consistent(current) && Lists(order, base, current) && i < |order|
    ensures order[i] in current ==> !Dropped(base, current, order[..i], order[i])
  {
  }

  /** Nothing is written over a directory or below a file. */
  lemma NothingInTheWay(base: Tree, current: Tree, order: seq<Path>, i: nat, tree: Tree)
    requires Consistent(base) && Consistent(current) && Lists(order, base, current) && i < |order|
    requires Progress(base, current, order[..i], tree)
    ensures order[i] in current && !IsDirectory(base, order[i]) ==> !IsDirectory(tree, order[i]) && !BelowFile(tree, order[i])
    ensures order[i] in base && order[i] !in current && order[i] !in tree ==> !IsDirectory(tree, order[i])
  {
    var p := order[i];
    forall q | q in tree && p < q
      ensures q !in order[..i] && q in base
    {
    }
    assert [] !in tree by {
      assert if [] in order[..i] then Captured(current, tree, []) else Untouched(base, current, order[..i], tree, []);
    }
    forall q | q in tree && q < p && p in current
      ensures q in order[..i]
    {
      ListedBefore(base, current, order, i, q);
    }
  }

  lemma ListedBefore(base: Tree, current: Tree, order: seq<Path>, i: nat, q: Path)
    requires Lists(order, base, current) && i < |order| && q != [] && q < order[i] && (order[i] in current || order[i] in base)
    ensures q in order[..i]
  {
    assert q in order;
    var k :| 0 <= k < |order| && order[k] == q;
    assert k < i;
    assert order[..i][k] == q;
  }

  lemma DirectoryStep(base: Tree, current: Tree, order: seq<Path>, i: nat, tree: Tree, second: seq<Entry>)
    requires Consistent(base) && Consistent(current) && Lists(order, base, current) && i < |order|
    requires Halfway(base, current, order, i, tree)
    requires !(order[i] in current && IsDirectory(base, order[i]))
    requires second == if IsDirectory(base, order[i]) && !IsDirectory(current, order[i]) then [DropDirectory(order[i])] else []
    ensures var r := ApplyAll(tree, Blobs(current), second); r.Some? && Progress(base, current, order[..i + 1], r.value)
  {
    hide Consistent, Lists, ApplyAll, Blobs, Without, Captured, Untouched, Dropped;
    var p := order[i];
    DroppedMore(base, current, order, i);
    ListedOutside(base, current, order, i);
    AppliesSecond(tree, Blobs(current), p, second);
    var vanished := second != [];
    assert vanished ==> p !in current;
    var result := if vanished then Without(tree, p) else tree;
    var done, more := order[..i], order[..i + 1];
    assert more == done + [p];
    forall q: Path
      ensures if q in more then Captured(current, result, q) else Untouched(base, current, more, result, q)
    {
      hide *;
      DirectoryAt(base, current, done, more, p, tree, result, q, vanished);
    }
    hide Captured, Untouched, Without;
  }

  lemma DirectoryAt(base: Tree, current: Tree, done: seq<Path>, more: seq<Path>, p: Path, tree: Tree, result: Tree, q: Path,
                    vanished: bool)
    requires more == done + [p] && result == if vanished then Without(tree, p) else tree
    requires if q in done || q == p then Captured(current, tree, q) else Untouched(base, current, done, tree, q)
    requires Dropped(base, current, more, q) <==> Dropped(base, current, done, q) || (p < q && vanished)
    requires q in done ==> !(p <= q)
    requires vanished ==> p !in current
    ensures if q in more then Captured(current, result, q) else Untouched(base, current, more, result, q)
  {
    hide Dropped;
    assert p <= q <==> q == p || p < q;
  }

  function Without(tree: Tree, p: Path): Tree {
    map q | q in tree && !(p <= q) :: tree[q]
  }

  lemma AppliesSecond(tree: Tree, blobs: map<Digest, Bytes>, p: Path, second: seq<Entry>)
    requires second == [] || second == [DropDirectory(p)]
    ensures ApplyAll(tree, blobs, second) == Some(if second == [] then tree else Without(tree, p))
  {
    if second != [] {
      assert second[..0] == [] && ApplyAll(tree, blobs, second[..0]) == Some(tree);
    }
  }

  /** No listed path lies at or below the next one, and a vanished directory is no file of the capture. */
  lemma ListedOutside(base: Tree, current: Tree, order: seq<Path>, i: nat)
    requires Lists(order, base, current) && i < |order|
    ensures forall q :: q in order[..i] ==> !(order[i] <= q)
  {
    forall q | q in order[..i]
      ensures !(order[i] <= q)
    {
      var k :| 0 <= k < i && order[..i][k] == q;
      assert order[k] == q;
    }
  }

  lemma DroppedMore(base: Tree, current: Tree, order: seq<Path>, i: nat)
    requires i < |order|
    ensures forall q :: Dropped(base, current, order[..i + 1], q) <==>
      Dropped(base, current, order[..i], q) || (order[i] < q && IsDirectory(base, order[i]) && !IsDirectory(current, order[i]))
  {
    var done, more := order[..i], order[..i + 1];
    forall q
      ensures Dropped(base, current, more, q) <==>
        Dropped(base, current, done, q) || (order[i] < q && IsDirectory(base, order[i]) && !IsDirectory(current, order[i]))
    {
      assert more[i] == order[i];
      assert forall k :: 0 <= k < i ==> more[k] == done[k];
    }
  }

  /** No conflict among the first paths. */
  ghost predicate ClearUpTo(base: Tree, current: Tree, order: seq<Path>, n: nat)
    requires n <= |order|
  {
    forall k :: 0 <= k < n ==> !(order[k] in current && IsDirectory(base, order[k]))
  }

  lemma {:induction false} ReplayProgresses(base: Tree, current: Tree, order: seq<Path>, n: nat)
    requires Consistent(base) && Consistent(current) && Lists(order, base, current) && n <= |order|
    requires ClearUpTo(base, current, order, n)
    ensures var r := ApplyAll(base, Blobs(current), Capture(base, current, order[..n]));
      r.Some? && Progress(base, current, order[..n], r.value)
  {
    if n == 0 {
      assert order[..0] == [];
    } else {
      ReplayProgresses(base, current, order, n - 1);
      var before := Capture(base, current, order[..n - 1]);
      var tree := ApplyAll(base, Blobs(current), before).value;
      assert order[..n][..n - 1] == order[..n - 1];
      ApplyConcat(base, Blobs(current), before, EntriesAt(base, current, order[n - 1]));
      hide Consistent, Lists, Progress, EntriesAt, ApplyAll, Blobs;
      StepSucceeds(base, current, order, n - 1, tree);
    }
  }

  lemma {:induction false} CaptureSplits(base: Tree, current: Tree, order: seq<Path>, n: nat)
    requires n <= |order|
    ensures Capture(base, current, order[..n]) <= Capture(base, current, order)
    decreases |order| - n
  {
    if n == |order| {
      assert order[..n] == order;
    } else {
      CaptureSplits(base, current, order, n + 1);
      assert order[..n + 1][..n] == order[..n];
    }
  }

  /** A write over a directory that is still there refuses the whole restore. */
  lemma ConflictRefuses(base: Tree, current: Tree, order: seq<Path>, i: nat)
    requires Consistent(base) && Consistent(current) && Lists(order, base, current) && i < |order|
    requires ClearUpTo(base, current, order, i) && order[i] in current && IsDirectory(base, order[i])
    ensures ApplyAll(base, Blobs(current), Capture(base, current, order)).None?
  {
    hide *;
    ReplayProgresses(base, current, order, i);
    var p, blobs := order[i], Blobs(current);
    var before, here := Capture(base, current, order[..i]), EntriesAt(base, current, p);
    var tree := ApplyAll(base, blobs, before).value;
    DirectoryStillThere(base, current, order, i, tree);
    PutRefused(tree, blobs, p, current, here);
    CaptureStep(base, current, order, i);
    CaptureSplits(base, current, order, i + 1);
    ApplyConcat(base, blobs, before, here);
    var all := Capture(base, current, order);
    var rest := all[|before + here|..];
    assert all == before + here + rest;
    ApplyConcat(base, blobs, before + here, rest);
  }

  lemma CaptureStep(base: Tree, current: Tree, order: seq<Path>, i: nat)
    requires i < |order|
    ensures Capture(base, current, order[..i + 1])
      == Capture(base, current, order[..i]) + EntriesAt(base, current, order[i])
  {
    assert order[..i + 1][..i] == order[..i];
    hide EntriesAt;
  }

  lemma PutRefused(tree: Tree, blobs: map<Digest, Bytes>, p: Path, current: Tree, here: seq<Entry>)
    requires p in current && IsDirectory(tree, p)
    requires here != [] && here[0] == Put(p, Digest(current[p]))
    ensures ApplyAll(tree, blobs, here).None?
  {
    assert here == [here[0]] + here[1..];
    ApplyConcat(tree, blobs, [here[0]], here[1..]);
    AppliesFirst(tree, blobs, [here[0]]);
  }

  lemma DirectoryStillThere(base: Tree, current: Tree, order: seq<Path>, i: nat, tree: Tree)
    requires Consistent(base) && Consistent(current) && Lists(order, base, current) && i < |order|
    requires Progress(base, current, order[..i], tree) && order[i] in current && IsDirectory(base, order[i])
    ensures IsDirectory(tree, order[i])
    ensures var here := EntriesAt(base, current, order[i]);
      here != [] && here[0] == Put(order[i], Digest(current[order[i]]))
  {
    var p := order[i];
    var q :| q in base && p < q;
    ListedOutside(base, current, order, i);
    assert q !in order[..i];
    forall k | 0 <= k < i && order[..i][k] < q
      ensures IsDirectory(base, order[..i][k]) ==> IsDirectory(current, order[..i][k])
    {
      PrefixesCompare(order[k], p, q);
      assert order[k] != p;
    }
    assert !Dropped(base, current, order[..i], q);
    assert Untouched(base, current, order[..i], tree, q);
  }

  lemma PrefixesCompare(a: Path, b: Path, q: Path)
    requires a < q && b < q
    ensures a < b || b < a || a == b
  {
  }

  /**
   Replaying a captured delta, with its blobs, on the base rebuilds exactly the captured files, if and only
   if no directory of the base has become a file.
  */
  lemma ReplayRebuildsIffNoConflict(base: Tree, current: Tree, order: seq<Path>)
    requires Consistent(base) && Consistent(current) && Lists(order, base, current)
    ensures ApplyAll(base, Blobs(current), Capture(base, current, order)) == Some(current) <==> !Conflict(base, current)
  {
    var n := FirstConflict(base, current, order);
    hide Consistent, EntriesAt, ApplyAll, Capture, Blobs, FirstConflict, IsDirectory;
    if n == |order| {
      ReplayProgresses(base, current, order, n);
      assert order[..n] == order;
      var tree := ApplyAll(base, Blobs(current), Capture(base, current, order)).value;
      hide Progress;
      forall q
        ensures Captured(current, tree, q)
      {
        EverythingListed(base, current, order, tree, q);
      }
      CapturedEverywhere(current, tree);
      assert !Conflict(base, current);
    } else {
      ConflictRefuses(base, current, order, n);
      assert Conflict(base, current);
    }
  }

  lemma CapturedEverywhere(current: Tree, tree: Tree)
    requires forall q :: Captured(current, tree, q)
    ensures tree == current
  {
    forall q
      ensures (q in tree <==> q in current) && (q in tree ==> tree[q] == current[q])
    {
      assert Captured(current, tree, q);
    }
  }

  const WITH_DIRECTORY: Tree := map[["a", "x"] := [1]]
  const WITH_FILE: Tree := map[["a"] := [2]]

  /** Deleting a directory and writing a file in its place is captured, and cannot be restored. */
  lemma FileOverDirectoryIsRefused()
    ensures ApplyAll(WITH_DIRECTORY, Blobs(WITH_FILE), Capture(WITH_DIRECTORY, WITH_FILE, [["a"], ["a", "x"]])).None?
  {
    var order: seq<Path> := [["a"], ["a", "x"]];
    assert ["a"] < ["a", "x"] && ["a", "x"] in WITH_DIRECTORY && ["a"] in WITH_FILE;
    assert IsDirectory(WITH_DIRECTORY, ["a"]);
    forall p: Path | p in WITH_DIRECTORY || p in WITH_FILE || IsDirectory(WITH_DIRECTORY, p) || IsDirectory(WITH_FILE, p)
      ensures p in order
    {
      OnlyTwoPaths(p);
    }
    hide ApplyAll, Capture, Blobs;
    ConflictRefuses(WITH_DIRECTORY, WITH_FILE, order, 0);
  }

  lemma OnlyTwoPaths(p: Path)
    ensures p in WITH_DIRECTORY || IsDirectory(WITH_DIRECTORY, p) ==> p == ["a"] || p == ["a", "x"]
    ensures p in WITH_FILE || IsDirectory(WITH_FILE, p) ==> p == ["a"]
  {
    if IsDirectory(WITH_DIRECTORY, p) {
      assert p < ["a", "x"];
      assert |p| == 1 && p[0] == "a";
    }
  }

  lemma EverythingListed(base: Tree, current: Tree, order: seq<Path>, tree: Tree, q: Path)
    requires Lists(order, base, current) && Progress(base, current, order, tree)
    ensures Captured(current, tree, q)
  {
  }

  /** The first listed path in conflict, or the number of paths. */
  ghost function FirstConflict(base: Tree, current: Tree, order: seq<Path>): (n: nat)
    ensures n <= |order| && ClearUpTo(base, current, order, n)
    ensures n < |order| ==> order[n] in current && IsDirectory(base, order[n])
  {
    if order == [] then 0
    else
      var init := order[..|order| - 1];
      var n := FirstConflict(base, current, init);
      if n < |init| then n
      else if order[|init|] in current && IsDirectory(base, order[|init|]) then |init| else |order|
  }

  // ---------- Size limits ----------

  function Sizes(contents: seq<Bytes>): nat {
    if contents == [] then 0 else Sizes(contents[..|contents| - 1]) + |contents[|contents| - 1]|
  }

  /** What the limits allow, independent of order. */
  ghost predicate Fits(limits: Limits, contents: seq<Bytes>) {
    (forall i :: 0 <= i < |contents| ==> |contents[i]| <= limits.maxFile) && Sizes(contents) <= limits.maxTotal
  }

  datatype Excess = FileTooLarge | DeltaTooLarge

  lemma {:induction false} SizesGrow(contents: seq<Bytes>, i: nat)
    requires i <= |contents|
    ensures Sizes(contents[..i]) <= Sizes(contents)
    ensures i < |contents| ==> Sizes(contents[..i + 1]) == Sizes(contents[..i]) + |contents[i]|
    decreases |contents| - i
  {
    if i < |contents| {
      assert contents[..i + 1][..i] == contents[..i];
      SizesGrow(contents, i + 1);
    } else {
      assert contents[..i] == contents;
    }
  }

  /** `_workspace_delta_limit_exceeded`, over the contents that have any. */
  method DeltaLimitExceeded(limits: Limits, contents: seq<Bytes>) returns (r: Option<Excess>)
    ensures r.None? <==> Fits(limits, contents)
    ensures r == Some(FileTooLarge) ==> exists i :: 0 <= i < |contents| && |contents[i]| > limits.maxFile
    ensures r == Some(DeltaTooLarge) ==> Sizes(contents) > limits.maxTotal
  {
    var total := 0;
    for i := 0 to |contents|
      invariant total == Sizes(contents[..i]) && total <= limits.maxTotal
      invariant forall k :: 0 <= k < i ==> |contents[k]| <= limits.maxFile
    {
      SizesGrow(contents, i);
      if |contents[i]| > limits.maxFile {
        return Some(FileTooLarge);
      }
      total := total + |contents[i]|;
      SizesGrow(contents, i + 1);
      if total > limits.maxTotal {
        return Some(DeltaTooLarge);
      }
    }
    assert contents[..|contents|] == contents;
    return None;
  }

  /** The contents a restore reads, in entry order. */
  function PutContents(entries: seq<Entry>): seq<Bytes> {
    if entries == [] then []
    else
      var last := entries[|entries| - 1];
      PutContents(entries[..|entries| - 1]) + if last.Put? then [last.digest.content] else []
  }

  /** `_apply_workspace_delta`: the same limits are enforced as the bytes are read. */
  method ApplyWorkspaceDelta(base: Tree, blobs: map<Digest, Bytes>, entries: seq<Entry>, limits: Limits)
    returns (r: Result<Tree, Option<Excess>>)
    requires forall d :: d in blobs ==> blobs[d] == d.content
    ensures r.Success? <==> Fits(limits, PutContents(entries)) && ApplyAll(base, blobs, entries).Some?
    ensures r.Success? ==> ApplyAll(base, blobs, entries) == Some(r.value)
    ensures Fits(limits, PutContents(entries)) ==>
      r == match ApplyAll(base, blobs, entries) { case Some(tree) => Success(tree) case None => Failure(None) }
  {
    var tree, total := base, 0;
    FitsNothing(limits);
    for i := 0 to |entries|
      invariant ApplyAll(base, blobs, entries[..i]) == Some(tree)
      invariant total == Sizes(PutContents(entries[..i])) && Fits(limits, PutContents(entries[..i]))
    {
      ApplyOneMore(base, blobs, entries, i);
      ContentsSnoc(entries, i);
      var entry := entries[i];
      if entry.Put? {
        if entry.digest !in blobs {
          return Failure(None);
        }
        var size := |blobs[entry.digest]|;
        if size > limits.maxFile {
          return Failure(Some(FileTooLarge));
        }
        total := total + size;
        if total > limits.maxTotal {
          return Failure(Some(DeltaTooLarge));
        }
      }
      var next := Apply(tree, blobs, entry);
      if next.None? {
        return Failure(None);
      }
      tree := next.value;
    }
    assert entries[..|entries|] == entries;
    return Success(tree);
  }

  lemma ApplyOneMore(base: Tree, blobs: map<Digest, Bytes>, entries: seq<Entry>, i: nat)
    requires i < |entries| && ApplyAll(base, blobs, entries[..i]).Some?
    ensures ApplyAll(base, blobs, entries[..i + 1]) == Apply(ApplyAll(base, blobs, entries[..i]).value, blobs, entries[i])
    ensures Apply(ApplyAll(base, blobs, entries[..i]).value, blobs, entries[i]).None? ==> ApplyAll(base, blobs, entries).None?
  {
    assert entries[..i + 1][..i] == entries[..i];
    assert entries == entries[..i + 1] + entries[i + 1..];
    ApplyConcat(base, blobs, entries[..i + 1], entries[i + 1..]);
    hide Apply;
  }

  lemma FitsNothing(limits: Limits)
    ensures Fits(limits, PutContents([]))
  {
  }

  /** The contents read so far are part of what the limits allow for all of them. */
  lemma {:induction false} ContentsSnoc(entries: seq<Entry>, i: nat)
    requires i < |entries|
    ensures PutContents(entries[..i + 1]) == PutContents(entries[..i]) + if entries[i].Put? then [entries[i].digest.content] else []
    ensures Sizes(PutContents(entries[..i + 1])) == Sizes(PutContents(entries[..i])) + if entries[i].Put? then |entries[i].digest.content| else 0
    ensures Sizes(PutContents(entries[..i + 1])) <= Sizes(PutContents(entries))
    ensures entries[i].Put? ==> entries[i].digest.content in PutContents(entries)
    decreases |entries| - i
  {
    assert entries[..i + 1][..i] == entries[..i];
    var before := PutContents(entries[..i]);
    assert before + [] == before;
    if entries[i].Put? {
      assert (before + [entries[i].digest.content])[..|before|] == before;
    }
    if i + 1 < |entries| {
      ContentsSnoc(entries, i + 1);
      ContentsStay(entries, i + 1);
    } else {
      assert entries[..i + 1] == entries;
    }
  }

  lemma {:induction false} ContentsStay(entries: seq<Entry>, i: nat)
    requires i <= |entries|
    ensures forall c :: c in PutContents(entries[..i]) ==> c in PutContents(entries)
    decreases |entries| - i
  {
    if i < |entries| {
      assert entries[..i + 1][..i] == entries[..i];
      ContentsStay(entries, i + 1);
    } else {
      assert entries[..i] == entries;
    }
  }

  /** Limits do not depend on order. */
  lemma FitsIgnoresOrder(limits: Limits, a: seq<Bytes>, b: seq<Bytes>)
    requires multiset(a) == multiset(b)
    ensures Fits(limits, a) <==> Fits(limits, b)
  {
    SizesIgnoreOrder(a, b);
    hide Sizes;
    forall x
      ensures x in a <==> x in b
    {
      assert x in multiset(a) <==> x in multiset(b);
    }
    FitsByMembers(limits, a);
    FitsByMembers(limits, b);
    hide Fits;
  }

  lemma FitsByMembers(limits: Limits, contents: seq<Bytes>)
    ensures Fits(limits, contents) <==> (forall x :: x in contents ==> |x| <= limits.maxFile) && Sizes(contents) <= limits.maxTotal
  {
    hide Sizes;
  }

  lemma {:induction false} SizesIgnoreOrder(a: seq<Bytes>, b: seq<Bytes>)
    requires multiset(a) == multiset(b)
    ensures Sizes(a) == Sizes(b)
    decreases |a|
  {
    if a == [] {
      assert |multiset(b)| == 0;
    } else {
      var init, last := a[..|a| - 1], a[|a| - 1];
      assert a == init + [last];
      assert last in multiset(b);
      var k :| 0 <= k < |b| && b[k] == last;
      SizesWithout(b, k);
      OneLess(a, b, k);
      SizesIgnoreOrder(init, b[..k] + b[k + 1..]);
    }
  }

  lemma OneLess(a: seq<Bytes>, b: seq<Bytes>, k: nat)
    requires a != [] && k < |b| && b[k] == a[|a| - 1] && multiset(a) == multiset(b)
    ensures multiset(a[..|a| - 1]) == multiset(b[..k] + b[k + 1..])
  {
    var last := b[k];
    assert a == a[..|a| - 1] + [last];
    assert b == b[..k] + [last] + b[k + 1..];
    assert multiset(a) == multiset(a[..|a| - 1]) + multiset{last};
    assert multiset(b) == multiset(b[..k] + b[k + 1..]) + multiset{last};
    assert multiset(a[..|a| - 1]) == multiset(a) - multiset{last};
  }

  lemma {:induction false} SizesWithout(s: seq<Bytes>, k: nat)
    requires k < |s|
    ensures Sizes(s) == Sizes(s[..k] + s[k + 1..]) + |s[k]|
    decreases |s|
  {
    var n := |s| - 1;
    if k == n {
      assert s[..k] + s[k + 1..] == s[..n];
    } else {
      SizesWithout(s[..n], k);
      var rest := s[..k] + s[k + 1..];
      assert rest[..|rest| - 1] == s[..n][..k] + s[..n][k + 1..];
      assert rest[|rest| - 1] == s[n];
    }
  }

  /** A delta whose capture was accepted never trips the restore limits, in whatever order its entries come. */
  method AcceptedDeltaNeverTrips(base: Tree, blobs: map<Digest, Bytes>, entries: seq<Entry>, captured: seq<Bytes>, limits: Limits)
    returns (r: Result<Tree, Option<Excess>>)
    requires forall d :: d in blobs ==> blobs[d] == d.content
    requires multiset(PutContents(entries)) == multiset(captured)
    ensures Fits(limits, captured) ==> (r.Failure? ==> r.error == None) && (r.Success? <==> ApplyAll(base, blobs, entries).Some?)
  {
    FitsIgnoresOrder(limits, captured, PutContents(entries));
    r := ApplyWorkspaceDelta(base, blobs, entries, limits);
  }
}
