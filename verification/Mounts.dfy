/**
 Nested memory mounts: longest-prefix resolution, shadowing, and search over every mount below a namespace.
 Paths are given by their segments, virtual ones already decoded and free of traversal. All mounts stand for
 directories of one tree, whose plain files are listed in order. Symbolic links are not part of this model.
*/
module Mounts {
  import opened Wrappers

  type Path = seq<string>

  // Where it is in the tree, and the lines a search reads; an unreadable file has none.
  datatype File = File(path: Path, lines: seq<string>)

  // The directory `root` under the name `virtual`.
  datatype Mount = Mount(virtual: Path, root: Path)

  datatype Resolved = Resolved(virtual: Path, mount: Mount, inner: Path)

  /** A file found by a search: where it is named, and where it is. */
  datatype Found = Found(virtual: Path, file: File)

  datatype SearchError = NotFound | Unmounted

  datatype Hit = Hit(virtual: Path, line: nat, text: string)

  // ---------- Names and prefixes ----------

  predicate Name(s: string) {
    s != "" && '/' !in s
  }

  predicate Named(p: Path) {
    forall i :: 0 <= i < |p| ==> Name(p[i])
  }

  /** The spelling of a virtual path. */
  function Render(p: Path): string {
    if p == [] then "" else "/" + p[0] + Render(p[1..])
  }

  predicate StartsWith(s: string, prefix: string) {
    |prefix| <= |s| && s[..|prefix|] == prefix
  }

  /** The test the store makes on spellings. */
  predicate WithinSpelling(prefix: string, s: string) {
    s == prefix || StartsWith(s, prefix + "/")
  }

  lemma RenderStart(p: Path)
    ensures p != [] ==> Render(p) != "" && Render(p)[0] == '/'
    ensures p == [] <==> Render(p) == ""
  {
  }

  /** Two spellings that agree up to a slash agree on their first segment. */
  lemma FirstSegment(a: string, b: string, x: string, y: string)
    requires Name(a) && Name(b)
    requires x == "" || x[0] == '/'
    requires y == "" || y[0] == '/'
    requires StartsWith(b + y, a + x) && (x == "" ==> |a| == |b + y|)
    ensures a == b
  {
    var s := b + y;
    assert s[..|a + x|] == a + x;
    assert x != "" ==> (a + x)[|a|] == '/';
    assert y != "" ==> s[|b|] == '/';
    assert forall i :: 0 <= i < |a + x| ==> (a + x)[i] == s[i];
    assert forall i :: 0 <= i < |b| ==> s[i] == b[i];
    assert forall i :: 0 <= i < |a| ==> (a + x)[i] == a[i];
    assert |a| == |b| ==> s[..|a|] == a && s[..|b|] == b;
  }

  /** The string test is the test on segments. */
  lemma {:induction false} SpellingIsSegments(p: Path, q: Path)
    requires Named(p) && Named(q)
    ensures WithinSpelling(Render(p), Render(q)) <==> p <= q
  {
    RenderStart(p);
    RenderStart(q);
    if p == [] {
      if q != [] {
        assert Render(q)[..1] == "/";
        assert "" + "/" == "/";
      }
    } else if q == [] {
    } else {
      RenderStart(p[1..]);
      RenderStart(q[1..]);
      SpellingIsSegments(p[1..], q[1..]);
      SameHead(p[0], q[0], Render(p[1..]), Render(q[1..]));
      assert p <= q <==> p[0] == q[0] && p[1..] <= q[1..] by {
        assert p == [p[0]] + p[1..] && q == [q[0]] + q[1..];
      }
    }
  }

  lemma SameHead(a: string, b: string, x: string, y: string)
    requires Name(a) && Name(b)
    requires (x == "" || x[0] == '/') && (y == "" || y[0] == '/')
    ensures WithinSpelling("/" + a + x, "/" + b + y) <==> a == b && WithinSpelling(x, y)
  {
    hide WithinSpelling;
    if WithinSpelling("/" + a + x, "/" + b + y) {
      TailsWithin(a, b, x, y);
    } else if a == b && WithinSpelling(x, y) {
      HeadsWithin(a, x, y);
    }
  }

  lemma HeadsWithin(a: string, x: string, y: string)
    requires WithinSpelling(x, y)
    ensures WithinSpelling("/" + a + x, "/" + a + y)
  {
    var s, t := "/" + a + y, "/" + a + x;
    assert x == y ==> s == t;
    if StartsWith(y, x + "/") {
      assert s[..|t + "/"|] == "/" + a + y[..|x + "/"|];
      assert "/" + a + (x + "/") == t + "/";
    }
  }

  lemma TailsWithin(a: string, b: string, x: string, y: string)
    requires Name(a) && Name(b)
    requires (x == "" || x[0] == '/') && (y == "" || y[0] == '/')
    requires WithinSpelling("/" + a + x, "/" + b + y)
    ensures a == b && WithinSpelling(x, y)
  {
    var s, t := "/" + b + y, "/" + a + x;
    assert s[1..] == b + y && t[1..] == a + x;
    if s == t {
      assert (b + y)[..|a + x|] == a + x;
      assert |b + y| == |a + x|;
      FirstSegment(a, b, x, y);
      assert y == (b + y)[|b|..] && x == (a + x)[|a|..];
    } else {
      TailsBelow(a, b, x, y);
    }
  }

  lemma TailsBelow(a: string, b: string, x: string, y: string)
    requires Name(a) && Name(b) && (y == "" || y[0] == '/') && (x == "" || x[0] == '/')
    requires StartsWith("/" + b + y, "/" + a + x + "/")
    ensures a == b && StartsWith(y, x + "/")
  {
    var u := x + "/";
    var s := "/" + b + y;
    assert "/" + a + x + "/" == "/" + (a + u);
    assert s[1..] == b + y;
    assert s[..|a + u| + 1][1..] == a + u;
    assert (b + y)[..|a + u|] == a + u;
    FirstSegment(a, b, u, y);
    hide Name;
    assert y == (b + y)[|b|..] && u == (a + u)[|a|..];
    assert y[..|u|] == (b + y)[..|a + u|][|a|..];
  }

  // ---------- The store ----------

  datatype Store = Store(mounts: seq<Mount>, files: seq<File>)

  /** Below and including. */
  predicate Within(p: Path, q: Path) {
    p <= q
  }

  predicate TableOk(mounts: seq<Mount>) {
    && (forall i, j :: 0 <= i < j < |mounts| ==> mounts[i].virtual != mounts[j].virtual)
    // `sorted(..., key=len, reverse=True)` on spellings puts no mount after one that extends it.
    && (forall i, j :: 0 <= i < j < |mounts| ==> !(mounts[i].virtual < mounts[j].virtual))
  }

  /** Nothing lies below a plain file, and every mount is of a directory. */
  predicate TreeOk(mounts: seq<Mount>, files: seq<File>) {
    && (forall i, j :: 0 <= i < j < |files| ==> !(files[i].path <= files[j].path) && !(files[j].path <= files[i].path))
    && (forall i, k :: 0 <= i < |mounts| && 0 <= k < |files| ==> !(files[k].path <= mounts[i].root))
  }

  predicate WellFormed(store: Store) {
    TableOk(store.mounts) && TreeOk(store.mounts, store.files)
  }

  /** Sorting by spelling length, longest first, is enough for that order. */
  lemma LongestFirst(mounts: seq<Mount>)
    requires forall i :: 0 <= i < |mounts| ==> Named(mounts[i].virtual)
    requires forall i, j :: 0 <= i < j < |mounts| ==> |Render(mounts[i].virtual)| >= |Render(mounts[j].virtual)|
    ensures forall i, j :: 0 <= i < j < |mounts| ==> !(mounts[i].virtual < mounts[j].virtual)
  {
    forall i, j | 0 <= i < j < |mounts|
      ensures !(mounts[i].virtual < mounts[j].virtual)
    {
      SpellingIsSegments(mounts[i].virtual, mounts[j].virtual);
      SpellingIsSegments(mounts[j].virtual, mounts[i].virtual);
    }
  }

  /** `_find_mount`: the first of the mounts, longest spelling first, that the path is within. */
  method FindMount(mounts: seq<Mount>, virtual: Path) returns (r: Option<Mount>)
    requires Named(virtual) && forall i :: 0 <= i < |mounts| ==> Named(mounts[i].virtual)
    ensures r == MountOf(mounts, virtual)
  {
    for i := 0 to |mounts|
      invariant MountOf(mounts, virtual) == MountOf(mounts[i..], virtual)
    {
      SpellingIsSegments(mounts[i].virtual, virtual);
      assert mounts[i..][0] == mounts[i] && mounts[i..][1..] == mounts[i + 1..];
      if Render(virtual) == Render(mounts[i].virtual) || StartsWith(Render(virtual), Render(mounts[i].virtual) + "/") {
        return Some(mounts[i]);
      }
    }
    return None;
  }

  function MountOf(mounts: seq<Mount>, virtual: Path): Option<Mount> {
    if mounts == [] then None
    else if Within(mounts[0].virtual, virtual) then Some(mounts[0]) else MountOf(mounts[1..], virtual)
  }

  /** The mount of a path is the longest one it is within, whatever order the mounts were declared in. */
  lemma {:induction false} MountIsLongest(mounts: seq<Mount>, virtual: Path)
    requires forall i, j :: 0 <= i < j < |mounts| ==> !(mounts[i].virtual < mounts[j].virtual)
    ensures var r := MountOf(mounts, virtual);
      && (r.Some? ==> r.value in mounts && Within(r.value.virtual, virtual))
      && (forall m :: m in mounts && Within(m.virtual, virtual) ==> r.Some? && Within(m.virtual, r.value.virtual))
  {
    if mounts != [] {
      MountIsLongest(mounts[1..], virtual);
      var r := MountOf(mounts, virtual);
      forall m | m in mounts && Within(m.virtual, virtual)
        ensures r.Some? && Within(m.virtual, r.value.virtual)
      {
        if m != mounts[0] {
          assert m in mounts[1..];
        }
        if Within(mounts[0].virtual, virtual) {
          PrefixesCompare(mounts[0].virtual, m.virtual, virtual);
          var i :| 0 <= i < |mounts| && mounts[i] == m;
          assert i == 0 || !(mounts[0].virtual < mounts[i].virtual);
        }
      }
    }
  }

  lemma PrefixesCompare(a: Path, b: Path, q: Path)
    requires a <= q && b <= q
    ensures a <= b || b < a
  {
  }

  /** `_resolve_mounted`: the part of the path below its mount. */
  function Resolve(store: Store, virtual: Path): Option<Resolved> {
    match MountOf(store.mounts, virtual)
    case None => None
    case Some(m) =>
      if |m.virtual| <= |virtual| then Some(Resolved(virtual, m, virtual[|m.virtual|..])) else None
  }

  /** Where a resolved path is in the tree. */
  function Place(r: Resolved): Path {
    r.mount.root + r.inner
  }

  predicate IsFile(store: Store, r: Resolved) {
    exists i :: 0 <= i < |store.files| && store.files[i].path == Place(r)
  }

  /** A directory is a mount's root or a path some file lies strictly below. */
  predicate IsDirectory(store: Store, r: Resolved) {
    r.inner == [] || exists i :: 0 <= i < |store.files| && Place(r) < store.files[i].path
  }

  predicate Exists(store: Store, r: Resolved) {
    IsFile(store, r) || IsDirectory(store, r)
  }

  /** `_child_mounts`, in the order `mounts` is listed by name. */
  function ChildMounts(byName: seq<Mount>, virtual: Path): seq<Mount> {
    if byName == [] then []
    else (if virtual < byName[0].virtual then [byName[0]] else []) + ChildMounts(byName[1..], virtual)
  }

  lemma ChildrenStep(byName: seq<Mount>, virtual: Path)
    requires byName != []
    ensures ChildMounts(byName, virtual)
      == (if virtual < byName[0].virtual then [byName[0]] else []) + ChildMounts(byName[1..], virtual)
  {
  }

  lemma {:induction false} ChildMountsAre(byName: seq<Mount>, virtual: Path)
    ensures forall m :: m in ChildMounts(byName, virtual) <==> m in byName && virtual < m.virtual
    ensures Distinct(byName) ==> Distinct(ChildMounts(byName, virtual))
  {
    if byName == [] {
      assert ChildMounts(byName, virtual) == [];
    } else {
      var rest := byName[1..];
      ChildMountsAre(rest, virtual);
      ChildrenStep(byName, virtual);
      hide ChildMounts, Distinct;
      assert byName == [byName[0]] + rest;
      var tail := ChildMounts(rest, virtual);
      if Distinct(byName) {
        HeadIsDistinct(byName);
        OneMoreDistinct(byName[0], tail);
        assert [] + tail == tail;
      }
    }
  }

  predicate Distinct(mounts: seq<Mount>) {
    forall i, j :: 0 <= i < j < |mounts| ==> mounts[i].virtual != mounts[j].virtual
  }

  lemma HeadIsDistinct(mounts: seq<Mount>)
    requires mounts != [] && Distinct(mounts)
    ensures Distinct(mounts[1..]) && forall m :: m in mounts[1..] ==> m.virtual != mounts[0].virtual
  {
  }

  lemma OneMoreDistinct(m: Mount, mounts: seq<Mount>)
    requires Distinct(mounts) && forall n :: n in mounts ==> n.virtual != m.virtual
    ensures Distinct([m] + mounts)
  {
  }

  function RootOf(m: Mount): Resolved {
    Resolved(m.virtual, m, [])
  }

  function RootsOf(mounts: seq<Mount>): seq<Resolved> {
    seq(|mounts|, i requires 0 <= i < |mounts| => RootOf(mounts[i]))
  }

  /** `_search_roots`. */
  function SearchRoots(store: Store, byName: seq<Mount>, virtual: Path): Result<seq<Resolved>, SearchError> {
    var children := RootsOf(ChildMounts(byName, virtual));
    match Resolve(store, virtual)
    case Some(resolved) =>
      if Exists(store, resolved) then Success([resolved] + children)
      else if children != [] then Success(children) else Failure(NotFound)
    case None => if children != [] then Success(children) else Failure(Unmounted)
  }

  predicate HiddenPart(part: string) {
    (part != "" && part[0] == '.') || part == "node_modules"
  }

  predicate Hidden(parts: Path) {
    exists i :: 0 <= i < |parts| && HiddenPart(parts[i])
  }

  /** `_is_shadowed_by_mount`. */
  predicate Shadowed(virtual: Path, children: seq<Mount>) {
    exists i :: 0 <= i < |children| && Within(children[i].virtual, virtual)
  }

  /** A directory root yields this file of its mount. */
  predicate Yields(root: Resolved, children: seq<Mount>, file: File) {
    && Place(root) < file.path
    && var rel := file.path[|Place(root)|..];
      !Shadowed(root.virtual + rel, children) && !Hidden(rel)
  }

  function YieldedAs(root: Resolved, file: File): Found {
    Found(root.virtual + if |Place(root)| <= |file.path| then file.path[|Place(root)|..] else [], file)
  }

  function Filtered(root: Resolved, children: seq<Mount>, files: seq<File>): seq<Found> {
    if files == [] then []
    else
      var init, last := Filtered(root, children, files[..|files| - 1]), files[|files| - 1];
      if Yields(root, children, last) then init + [YieldedAs(root, last)] else init
  }

  function Exactly(root: Resolved, files: seq<File>): seq<Found> {
    if files == [] then []
    else
      var init, last := Exactly(root, files[..|files| - 1]), files[|files| - 1];
      if last.path == Place(root) then init + [YieldedAs(root, last)] else init
  }

  /** What one root contributes. */
  function RootFiles(store: Store, byName: seq<Mount>, root: Resolved): seq<Found> {
    var files := store.files;
    if IsFile(store, root) then Exactly(root, files)
    else Filtered(root, ChildMounts(byName, root.virtual), files)
  }

  /** `_iter_search_files`. */
  method IterSearchFiles(store: Store, byName: seq<Mount>, root: Resolved) returns (found: seq<Found>)
    ensures found == RootFiles(store, byName, root)
  {
    hide Yields, YieldedAs, ChildMounts;
    var files := store.files;
    var children := ChildMounts(byName, root.virtual);
    var single := IsFile(store, root);
    found := [];
    for i := 0 to |files|
      invariant found == if single then Exactly(root, files[..i]) else Filtered(root, children, files[..i])
    {
      assert files[..i + 1][..i] == files[..i];
      if single {
        if files[i].path == Place(root) {
          found := found + [YieldedAs(root, files[i])];
        }
      } else if Yields(root, children, files[i]) {
        found := found + [YieldedAs(root, files[i])];
      }
    }
    assert files[..|files|] == files;
  }

  /** The whole scan: every root in turn. */
  function Scan(store: Store, byName: seq<Mount>, roots: seq<Resolved>): seq<Found> {
    if roots == [] then [] else Scan(store, byName, roots[..|roots| - 1]) + RootFiles(store, byName, roots[|roots| - 1])
  }

  // ---------- What a search may find ----------

  /** The search root that a path below the namespace belongs to. */
  function Owner(store: Store, namespace: Path, virtual: Path): Path {
    match MountOf(store.mounts, virtual)
    case Some(m) => if namespace < m.virtual then m.virtual else namespace
    case None => namespace
  }

  /** A file of the namespace, by resolution alone: it is below, it resolves to it, and it is not hidden. */
  ghost predicate Visible(store: Store, namespace: Path, found: Found) {
    && namespace <= found.virtual
    && var r := Resolve(store, found.virtual);
      && r.Some?
      && found.file in store.files && found.file.path == Place(r.value)
      && var owner := Owner(store, namespace, found.virtual);
        |owner| <= |found.virtual| && !Hidden(found.virtual[|owner|..])
  }

  /** The listings `sorted` gives of the same mounts by length and by name. */
  ghost predicate SameMounts(store: Store, byName: seq<Mount>) {
    && (forall m :: m in store.mounts <==> m in byName)
    && (forall i, j :: 0 <= i < j < |byName| ==> byName[i].virtual != byName[j].virtual)
  }

  lemma {:induction false} FilteredAre(root: Resolved, children: seq<Mount>, files: seq<File>, f: Found)
    ensures f in Filtered(root, children, files) <==>
      exists i :: 0 <= i < |files| && Yields(root, children, files[i]) && f == YieldedAs(root, files[i])
  {
    hide Yields, YieldedAs;
    if files != [] {
      var before, last := files[..|files| - 1], files[|files| - 1];
      FilteredAre(root, children, before, f);
      if i :| 0 <= i < |before| && Yields(root, children, before[i]) && f == YieldedAs(root, before[i]) {
        assert files[i] == before[i];
      }
      if i :| 0 <= i < |files| && Yields(root, children, files[i]) && f == YieldedAs(root, files[i]) {
        assert i < |before| ==> before[i] == files[i];
      }
    }
  }

  lemma {:induction false} ExactlyAre(root: Resolved, files: seq<File>, f: Found)
    ensures f in Exactly(root, files) <==>
      exists i :: 0 <= i < |files| && files[i].path == Place(root) && f == YieldedAs(root, files[i])
  {
    hide YieldedAs;
    if files != [] {
      var before, last := files[..|files| - 1], files[|files| - 1];
      ExactlyAre(root, before, f);
      if i :| 0 <= i < |before| && before[i].path == Place(root) && f == YieldedAs(root, before[i]) {
        assert files[i] == before[i];
      }
      if i :| 0 <= i < |files| && files[i].path == Place(root) && f == YieldedAs(root, files[i]) {
        assert i < |before| ==> before[i] == files[i];
      }
    }
  }

  lemma {:induction false} ScanAre(store: Store, byName: seq<Mount>, roots: seq<Resolved>, f: Found)
    ensures f in Scan(store, byName, roots) <==> exists i :: 0 <= i < |roots| && f in RootFiles(store, byName, roots[i])
  {
    hide RootFiles;
    if roots != [] {
      var before := roots[..|roots| - 1];
      ScanAre(store, byName, before, f);
      if i :| 0 <= i < |before| && f in RootFiles(store, byName, before[i]) {
        assert roots[i] == before[i];
      }
      if i :| 0 <= i < |roots| && f in RootFiles(store, byName, roots[i]) {
        assert i < |before| ==> before[i] == roots[i];
      }
    }
  }

  // ---------- One root ----------

  /** A root of the search: the namespace where it resolves, or a mount below it. */
  ghost predicate IsRoot(store: Store, namespace: Path, root: Resolved) {
    || (Resolve(store, namespace) == Some(root) && Exists(store, root))
    || (namespace < root.virtual && root.mount in store.mounts && root == RootOf(root.mount))
  }

  lemma ResolvesToItself(store: Store, m: Mount)
    requires WellFormed(store) && m in store.mounts
    ensures MountOf(store.mounts, m.virtual) == Some(m)
    ensures Resolve(store, m.virtual) == Some(RootOf(m))
  {
    MountIsLongest(store.mounts, m.virtual);
    var r := MountOf(store.mounts, m.virtual).value;
    assert r.virtual == m.virtual && m.virtual[|m.virtual|..] == [];
    var i :| 0 <= i < |store.mounts| && store.mounts[i] == m;
    var j :| 0 <= j < |store.mounts| && store.mounts[j] == r;
    assert i == j;
  }

  /** Every root resolves, from its own name, to the mount and inner path it searches. */
  lemma RootsResolve(store: Store, namespace: Path, root: Resolved)
    requires WellFormed(store) && IsRoot(store, namespace, root)
    ensures Resolve(store, root.virtual) == Some(root) && namespace <= root.virtual
    ensures root.virtual == root.mount.virtual + root.inner
  {
    if Resolve(store, namespace) != Some(root) {
      ResolvesToItself(store, root.mount);
    }
    MountIsLongest(store.mounts, root.virtual);
  }

  lemma SameVirtual(store: Store, m: Mount, n: Mount)
    requires WellFormed(store) && m in store.mounts && n in store.mounts && m.virtual == n.virtual
    ensures m == n
  {
    var i :| 0 <= i < |store.mounts| && store.mounts[i] == m;
    var j :| 0 <= j < |store.mounts| && store.mounts[j] == n;
    assert i == j;
  }

  /** Unshadowed, the longest mount of a path below the root is the root's own. */
  lemma UnshadowedKeepsMount(store: Store, byName: seq<Mount>, root: Resolved, virtual: Path)
    requires WellFormed(store) && SameMounts(store, byName)
    requires Resolve(store, root.virtual) == Some(root) && root.virtual <= virtual
    ensures !Shadowed(virtual, ChildMounts(byName, root.virtual)) <==> MountOf(store.mounts, virtual) == Some(root.mount)
  {
    MountIsLongest(store.mounts, root.virtual);
    MountIsLongest(store.mounts, virtual);
    ChildMountsAre(byName, root.virtual);
    var children := ChildMounts(byName, root.virtual);
    var longest := MountOf(store.mounts, virtual);
    assert longest.Some?;
    PrefixesCompare(root.mount.virtual, root.virtual, virtual);
    if i :| 0 <= i < |children| && Within(children[i].virtual, virtual) {
      assert children[i] in children && children[i] in store.mounts;
      assert |children[i].virtual| > |root.virtual|;
    } else {
      PrefixesCompare(longest.value.virtual, root.virtual, virtual);
      assert longest.value in store.mounts && longest.value !in children;
      assert longest.value.virtual <= root.mount.virtual;
      var i :| 0 <= i < |store.mounts| && store.mounts[i] == root.mount;
      var j :| 0 <= j < |store.mounts| && store.mounts[j] == longest.value;
      assert i == j;
    }
  }

  lemma HiddenBelow(virtual: Path, rel: Path)
    ensures (virtual + rel)[|virtual|..] == rel && virtual <= virtual + rel
  {
  }

  /** The owner of a path that resolves into the root's mount below the root is the root. */
  lemma OwnerIsRoot(store: Store, namespace: Path, root: Resolved, virtual: Path)
    requires WellFormed(store) && IsRoot(store, namespace, root) && root.virtual <= virtual
    requires MountOf(store.mounts, virtual) == Some(root.mount)
    ensures Owner(store, namespace, virtual) == root.virtual
  {
    RootsResolve(store, namespace, root);
    MountIsLongest(store.mounts, root.virtual);
  }

  /** And a path owned by the root resolves into the root's mount. */
  lemma OwnedResolves(store: Store, namespace: Path, root: Resolved, virtual: Path)
    requires WellFormed(store) && IsRoot(store, namespace, root)
    requires namespace <= virtual && Owner(store, namespace, virtual) == root.virtual && MountOf(store.mounts, virtual).Some?
    ensures MountOf(store.mounts, virtual) == Some(root.mount) && root.virtual <= virtual
  {
    RootsResolve(store, namespace, root);
    MountIsLongest(store.mounts, virtual);
    MountIsLongest(store.mounts, root.virtual);
    var m := MountOf(store.mounts, virtual).value;
    PrefixesCompare(m.virtual, namespace, virtual);
    assert m.virtual == root.mount.virtual by {
      if namespace < m.virtual {
        assert m.virtual == root.virtual;
      } else {
        assert root.virtual == namespace;
        assert Within(m.virtual, namespace) && Within(root.mount.virtual, virtual);
      }
    }
    var i :| 0 <= i < |store.mounts| && store.mounts[i] == root.mount;
    var j :| 0 <= j < |store.mounts| && store.mounts[j] == m;
    assert i == j;
  }

  /** A found file is at the root's inner path plus what its name adds to the root's. */
  ghost predicate FoundUnder(store: Store, byName: seq<Mount>, root: Resolved, f: Found) {
    && root.virtual <= f.virtual
    && f.file in store.files
    && var rel := f.virtual[|root.virtual|..];
      f.file.path == Place(root) + rel && !Hidden(rel) && !Shadowed(f.virtual, ChildMounts(byName, root.virtual))
  }

  lemma YieldedIsUnder(store: Store, byName: seq<Mount>, root: Resolved, f: Found)
    requires f in RootFiles(store, byName, root)
    ensures FoundUnder(store, byName, root, f)
  {
    var files, children := store.files, ChildMounts(byName, root.virtual);
    NothingAbove(store, byName, root);
    hide ChildMounts, Shadowed;
    if IsFile(store, root) {
      ExactlyAre(root, files, f);
      var i :| 0 <= i < |files| && files[i].path == Place(root) && f == YieldedAs(root, files[i]);
      assert f.virtual == root.virtual;
    } else {
      FilteredAre(root, children, files, f);
      var i :| 0 <= i < |files| && Yields(root, children, files[i]) && f == YieldedAs(root, files[i]);
      var rel := files[i].path[|Place(root)|..];
      HiddenBelow(root.virtual, rel);
      assert f.virtual == root.virtual + rel && f.virtual[|root.virtual|..] == rel;
      assert f.file == files[i] && f.file.path == Place(root) + rel;
    }
  }

  /** In a listing where no file path extends another, that is all a root yields. */
  lemma UnderIsYielded(store: Store, byName: seq<Mount>, root: Resolved, f: Found)
    requires WellFormed(store) && FoundUnder(store, byName, root, f)
    ensures f in RootFiles(store, byName, root)
  {
    var files, children := store.files, ChildMounts(byName, root.virtual);
    var rel := f.virtual[|root.virtual|..];
    assert f.file.path[|Place(root)|..] == rel && f.virtual == root.virtual + rel;
    assert Place(root) <= f.file.path;
    var i :| 0 <= i < |files| && files[i] == f.file;
    hide ChildMounts, Shadowed;
    if IsFile(store, root) {
      ExactlyAre(root, files, f);
      var k :| 0 <= k < |files| && files[k].path == Place(root);
      PathsApart(store, i, k);
    } else {
      FilteredAre(root, children, files, f);
      assert rel != [];
      assert Yields(root, children, files[i]);
    }
  }

  lemma PathsApart(store: Store, i: nat, k: nat)
    requires WellFormed(store) && i < |store.files| && k < |store.files|
    ensures store.files[k].path <= store.files[i].path ==> i == k
  {
  }

  lemma UnderResolves(store: Store, byName: seq<Mount>, namespace: Path, root: Resolved, f: Found)
    requires WellFormed(store) && SameMounts(store, byName) && IsRoot(store, namespace, root)
    requires FoundUnder(store, byName, root, f)
    ensures Visible(store, namespace, f) && Owner(store, namespace, f.virtual) == root.virtual
  {
    RootsResolve(store, namespace, root);
    UnshadowedKeepsMount(store, byName, root, f.virtual);
    OwnerIsRoot(store, namespace, root, f.virtual);
    hide WellFormed, SameMounts, IsRoot, Shadowed, ChildMounts, Hidden, MountOf, Owner;
    var rel := f.virtual[|root.virtual|..];
    assert f.virtual == root.virtual + rel;
    assert f.virtual == root.mount.virtual + (root.inner + rel);
    assert f.virtual[|root.mount.virtual|..] == root.inner + rel;
    assert root.mount.root + (root.inner + rel) == Place(root) + rel;
  }

  lemma YieldedIsVisible(store: Store, byName: seq<Mount>, namespace: Path, root: Resolved, f: Found)
    requires WellFormed(store) && SameMounts(store, byName) && IsRoot(store, namespace, root)
    requires f in RootFiles(store, byName, root)
    ensures Visible(store, namespace, f) && Owner(store, namespace, f.virtual) == root.virtual
  {
    YieldedIsUnder(store, byName, root, f);
    UnderResolves(store, byName, namespace, root, f);
  }

  /** A root is not shadowed by the mounts below it. */
  lemma NothingAbove(store: Store, byName: seq<Mount>, root: Resolved)
    ensures !Shadowed(root.virtual, ChildMounts(byName, root.virtual))
  {
    ChildMountsAre(byName, root.virtual);
    var children := ChildMounts(byName, root.virtual);
    forall i | 0 <= i < |children|
      ensures !Within(children[i].virtual, root.virtual)
    {
      assert children[i] in children;
    }
  }

  lemma VisibleIsYielded(store: Store, byName: seq<Mount>, namespace: Path, root: Resolved, f: Found)
    requires WellFormed(store) && SameMounts(store, byName) && IsRoot(store, namespace, root)
    requires Visible(store, namespace, f) && Owner(store, namespace, f.virtual) == root.virtual
    ensures f in RootFiles(store, byName, root)
  {
    RootsResolve(store, namespace, root);
    OwnedResolves(store, namespace, root, f.virtual);
    UnshadowedKeepsMount(store, byName, root, f.virtual);
    assert FoundUnder(store, byName, root, f) by {
      hide WellFormed, SameMounts, IsRoot, Shadowed, ChildMounts, Hidden, Owner, MountOf;
      var rel := f.virtual[|root.virtual|..];
      assert f.virtual == root.virtual + rel;
      assert f.virtual == root.mount.virtual + (root.inner + rel);
      assert f.virtual[|root.mount.virtual|..] == root.inner + rel;
      assert root.mount.root + (root.inner + rel) == Place(root) + rel;
    }
    UnderIsYielded(store, byName, root, f);
  }

  // ---------- Search agrees with resolution ----------

  lemma RootsAre(store: Store, byName: seq<Mount>, namespace: Path)
    requires WellFormed(store) && SameMounts(store, byName) && SearchRoots(store, byName, namespace).Success?
    ensures var roots := SearchRoots(store, byName, namespace).value;
      && (forall i :: 0 <= i < |roots| ==> IsRoot(store, namespace, roots[i]))
      && (forall i, j :: 0 <= i < j < |roots| ==> roots[i].virtual != roots[j].virtual)
      && (forall m :: m in store.mounts && namespace < m.virtual ==> RootOf(m) in roots)
      && (Resolve(store, namespace).Some? && Exists(store, Resolve(store, namespace).value) ==>
            Resolve(store, namespace).value in roots)
  {
    ChildMountsAre(byName, namespace);
    var mounts := ChildMounts(byName, namespace);
    var children := RootsOf(mounts);
    forall i | 0 <= i < |children|
      ensures IsRoot(store, namespace, children[i]) && children[i] == RootOf(mounts[i])
    {
      assert mounts[i] in mounts;
    }
    forall m | m in mounts
      ensures RootOf(m) in children
    {
      var i :| 0 <= i < |mounts| && mounts[i] == m;
      assert children[i] == RootOf(m);
    }
    hide Exists, Resolve, WellFormed;
    if Resolve(store, namespace).Some? {
      ResolveKeepsName(store, namespace);
    }
  }

  lemma ResolveKeepsName(store: Store, namespace: Path)
    requires Resolve(store, namespace).Some?
    ensures Resolve(store, namespace).value.virtual == namespace
  {
  }

  /**
   Searching a namespace finds, over all its roots, exactly the files that resolve below it and are not
   hidden, each under the name that resolves back to it.
  */
  lemma SearchAgreesWithResolution(store: Store, byName: seq<Mount>, namespace: Path, f: Found)
    requires WellFormed(store) && SameMounts(store, byName) && SearchRoots(store, byName, namespace).Success?
    ensures f in Scan(store, byName, SearchRoots(store, byName, namespace).value) <==> Visible(store, namespace, f)
  {
    var roots := SearchRoots(store, byName, namespace).value;
    RootsAre(store, byName, namespace);
    ScanAre(store, byName, roots, f);
    hide SearchRoots, RootFiles, Visible, IsRoot, Scan, WellFormed, SameMounts;
    if i :| 0 <= i < |roots| && f in RootFiles(store, byName, roots[i]) {
      YieldedIsVisible(store, byName, namespace, roots[i], f);
    }
    if Visible(store, namespace, f) {
      OwnerIsSearched(store, byName, namespace, f);
      var i :| 0 <= i < |roots| && roots[i].virtual == Owner(store, namespace, f.virtual);
      VisibleIsYielded(store, byName, namespace, roots[i], f);
    }
  }

  lemma OwnerIsSearched(store: Store, byName: seq<Mount>, namespace: Path, f: Found)
    requires WellFormed(store) && SameMounts(store, byName) && SearchRoots(store, byName, namespace).Success?
    requires Visible(store, namespace, f)
    ensures var roots := SearchRoots(store, byName, namespace).value;
      exists i :: 0 <= i < |roots| && roots[i].virtual == Owner(store, namespace, f.virtual)
  {
    var roots := SearchRoots(store, byName, namespace).value;
    RootsAre(store, byName, namespace);
    MountIsLongest(store.mounts, f.virtual);
    MountIsLongest(store.mounts, namespace);
    var m := MountOf(store.mounts, f.virtual).value;
    PrefixesCompare(m.virtual, namespace, f.virtual);
    if namespace < m.virtual {
      assert RootOf(m) in roots;
      var i :| 0 <= i < |roots| && roots[i] == RootOf(m);
      assert roots[i].virtual == m.virtual;
    } else {
      NamespaceExists(store, namespace, f);
      hide SearchRoots;
      var resolved := Resolve(store, namespace).value;
      var i :| 0 <= i < |roots| && roots[i] == resolved;
      ResolveKeepsName(store, namespace);
    }
  }

  lemma NamespaceExists(store: Store, namespace: Path, f: Found)
    requires WellFormed(store) && Visible(store, namespace, f)
    requires var m := MountOf(store.mounts, f.virtual).value; m.virtual <= namespace
    ensures Resolve(store, namespace).Some? && Exists(store, Resolve(store, namespace).value)
  {
    MountIsLongest(store.mounts, f.virtual);
    MountIsLongest(store.mounts, namespace);
    var m := MountOf(store.mounts, f.virtual).value;
    var n := MountOf(store.mounts, namespace).value;
    assert n.virtual == m.virtual;
    SameVirtual(store, m, n);
    hide WellFormed, Within, MountOf, Owner, Hidden;
    var inner, rel := namespace[|m.virtual|..], f.virtual[|namespace|..];
    assert f.virtual[..|namespace|] == namespace;
    assert f.virtual[|m.virtual|..] == inner + rel;
    assert f.file.path == m.root + (inner + rel) == m.root + inner + rel;
    var files := store.files;
    var k :| 0 <= k < |files| && files[k] == f.file;
  }

  /** Below the search root it belongs to, no name on a found file's path starts with a dot or is `node_modules`. */
  lemma HiddenIsNotFound(store: Store, byName: seq<Mount>, namespace: Path, f: Found, i: nat)
    requires WellFormed(store) && SameMounts(store, byName) && SearchRoots(store, byName, namespace).Success?
    requires f in Scan(store, byName, SearchRoots(store, byName, namespace).value)
    requires |Owner(store, namespace, f.virtual)| <= i < |f.virtual|
    ensures f.virtual[i] != "node_modules" && (f.virtual[i] != "" ==> f.virtual[i][0] != '.')
  {
    SearchAgreesWithResolution(store, byName, namespace, f);
    hide SearchRoots, Scan, WellFormed, SameMounts;
    var start := |Owner(store, namespace, f.virtual)|;
    assert f.virtual[start..][i - start] == f.virtual[i];
    assert !HiddenPart(f.virtual[start..][i - start]);
  }

  /** A search fails for want of a mount exactly where none is above or below the name, and for want of a file where
      nothing is at the resolved place and no mount lies below. */
  lemma SearchFailsIff(store: Store, byName: seq<Mount>, namespace: Path)
    requires WellFormed(store) && SameMounts(store, byName)
    ensures var r := SearchRoots(store, byName, namespace);
      && (r == Failure(Unmounted) <==> forall m :: m in store.mounts ==> !(m.virtual <= namespace) && !(namespace < m.virtual))
      && (r == Failure(NotFound) <==>
            && Resolve(store, namespace).Some? && !Exists(store, Resolve(store, namespace).value)
            && forall m :: m in store.mounts ==> !(namespace < m.virtual))
  {
    hide WellFormed, Exists;
    ChildMountsAre(byName, namespace);
    LongestExists(store, namespace);
    var children := ChildMounts(byName, namespace);
    assert |RootsOf(children)| == |children|;
    if children != [] {
      assert children[0] in children;
    }
  }

  lemma LongestExists(store: Store, virtual: Path)
    requires WellFormed(store)
    ensures Resolve(store, virtual).Some? <==> exists m :: m in store.mounts && m.virtual <= virtual
  {
    MountIsLongest(store.mounts, virtual);
    hide MountOf;
  }

  // ---------- Exactly once ----------

  ghost predicate NamedOnce(found: seq<Found>) {
    forall i, j :: 0 <= i < j < |found| ==> found[i].virtual != found[j].virtual
  }

  lemma NamedOnceAppends(a: seq<Found>, b: seq<Found>)
    requires NamedOnce(a) && NamedOnce(b)
    requires forall f, g :: f in a && g in b ==> f.virtual != g.virtual
    ensures NamedOnce(a + b)
  {
  }

  lemma {:induction false} FilteredOnce(root: Resolved, children: seq<Mount>, files: seq<File>)
    requires forall i, j :: 0 <= i < j < |files| ==> files[i].path != files[j].path
    ensures NamedOnce(Filtered(root, children, files)) && NamedOnce(Exactly(root, files))
  {
    if files != [] {
      var before, last := files[..|files| - 1], files[|files| - 1];
      FilteredOnce(root, children, before);
      forall f | f in Filtered(root, children, before)
        ensures Yields(root, children, last) ==> f.virtual != YieldedAs(root, last).virtual
      {
        FilteredAre(root, children, before, f);
        var i :| 0 <= i < |before| && Yields(root, children, before[i]) && f == YieldedAs(root, before[i]);
        if Yields(root, children, last) {
          NamesApart(root, files[i], last);
        }
      }
      forall f | f in Exactly(root, before)
        ensures last.path == Place(root) ==> f.virtual != YieldedAs(root, last).virtual
      {
        ExactlyAre(root, before, f);
        var i :| 0 <= i < |before| && before[i].path == Place(root) && f == YieldedAs(root, before[i]);
        assert files[i].path != last.path;
      }
    }
  }

  lemma NamesApart(root: Resolved, a: File, b: File)
    requires Place(root) <= a.path && Place(root) <= b.path && a.path != b.path
    ensures YieldedAs(root, a).virtual != YieldedAs(root, b).virtual
  {
    var x, y := a.path[|Place(root)|..], b.path[|Place(root)|..];
    assert a.path == Place(root) + x && b.path == Place(root) + y;
    assert (root.virtual + x)[|root.virtual|..] == x && (root.virtual + y)[|root.virtual|..] == y;
  }

  lemma RootFilesOnce(store: Store, byName: seq<Mount>, root: Resolved)
    requires WellFormed(store)
    ensures NamedOnce(RootFiles(store, byName, root))
  {
    FilteredOnce(root, ChildMounts(byName, root.virtual), store.files);
  }

  lemma {:induction false} ScanOnce(store: Store, byName: seq<Mount>, namespace: Path, roots: seq<Resolved>)
    requires WellFormed(store) && SameMounts(store, byName)
    requires forall i :: 0 <= i < |roots| ==> IsRoot(store, namespace, roots[i])
    requires forall i, j :: 0 <= i < j < |roots| ==> roots[i].virtual != roots[j].virtual
    ensures NamedOnce(Scan(store, byName, roots))
  {
    hide RootFiles, WellFormed, SameMounts, IsRoot, NamedOnce;
    if roots == [] {
      assert NamedOnce([]) by {
        NothingNamed();
      }
    } else {
      var before, last := roots[..|roots| - 1], roots[|roots| - 1];
      ScanOnce(store, byName, namespace, before);
      RootFilesOnce(store, byName, last);
      forall f, g | f in Scan(store, byName, before) && g in RootFiles(store, byName, last)
        ensures f.virtual != g.virtual
      {
        ScanAre(store, byName, before, f);
        var i :| 0 <= i < |before| && f in RootFiles(store, byName, before[i]);
        YieldedIsVisible(store, byName, namespace, roots[i], f);
        YieldedIsVisible(store, byName, namespace, last, g);
      }
      NamedOnceAppends(Scan(store, byName, before), RootFiles(store, byName, last));
    }
  }

  lemma NothingNamed()
    ensures NamedOnce([])
  {
  }

  /** No two files are found under one name. */
  lemma SearchFindsOnce(store: Store, byName: seq<Mount>, namespace: Path)
    requires WellFormed(store) && SameMounts(store, byName) && SearchRoots(store, byName, namespace).Success?
    ensures NamedOnce(Scan(store, byName, SearchRoots(store, byName, namespace).value))
  {
    RootsAre(store, byName, namespace);
    hide SearchRoots;
    ScanOnce(store, byName, namespace, SearchRoots(store, byName, namespace).value);
  }

  // ---------- No file twice ----------

  ghost predicate FilesOnce(found: seq<Found>) {
    forall i, j :: 0 <= i < j < |found| ==> found[i].file.path != found[j].file.path
  }

  /** The search of the namespace finds no file of this tree under two names. */
  ghost predicate FindsFilesOnce(store: Store, byName: seq<Mount>, namespace: Path) {
    SearchRoots(store, byName, namespace).Success? ==>
      FilesOnce(Scan(store, byName, SearchRoots(store, byName, namespace).value))
  }

  /** A place the search may look in, whatever the tree holds: the namespace itself, or a mount below it. */
  ghost predicate Searched(mounts: seq<Mount>, namespace: Path, root: Resolved) {
    || Resolve(Store(mounts, []), namespace) == Some(root)
    || (namespace < root.virtual && root.mount in mounts && root == RootOf(root.mount))
  }

  /** The second place is in the first, and a search from the first walks into it. */
  predicate Overlap(byName: seq<Mount>, outer: Resolved, inner: Resolved) {
    && Place(outer) <= Place(inner)
    && var rel := Place(inner)[|Place(outer)|..];
      !Hidden(rel) && !Shadowed(outer.virtual + rel, ChildMounts(byName, outer.virtual))
  }

  /**
   Over everything the tree can hold: no file is found under two names exactly when no searched place is
   walked into from another.
  */
  lemma FilesFoundOnceIffApart(mounts: seq<Mount>, byName: seq<Mount>, namespace: Path)
    requires TableOk(mounts) && SameMounts(Store(mounts, []), byName)
    ensures (forall files :: TreeOk(mounts, files) ==> FindsFilesOnce(Store(mounts, files), byName, namespace))
      <==> (forall r, s :: Searched(mounts, namespace, r) && Searched(mounts, namespace, s) && r != s ==> !Overlap(byName, r, s))
  {
    hide TableOk, SameMounts, TreeOk, FindsFilesOnce, Searched, Overlap;
    if r, s :| Searched(mounts, namespace, r) && Searched(mounts, namespace, s) && r != s && Overlap(byName, r, s) {
      OverlapIsFoundTwice(mounts, byName, namespace, r, s);
      assert !(forall files :: TreeOk(mounts, files) ==> FindsFilesOnce(Store(mounts, files), byName, namespace));
    } else {
      forall files | TreeOk(mounts, files)
        ensures FindsFilesOnce(Store(mounts, files), byName, namespace)
      {
        ApartFindsOnce(mounts, files, byName, namespace);
      }
    }
  }

  lemma RootsAreSearched(store: Store, namespace: Path, root: Resolved)
    requires IsRoot(store, namespace, root)
    ensures Searched(store.mounts, namespace, root)
  {
  }

  /** One file below two places lies below the inner one, which the outer one walks into. */
  lemma SharedFileOverlaps(store: Store, byName: seq<Mount>, r: Resolved, s: Resolved, f: Found, g: Found)
    requires FoundUnder(store, byName, r, f) && FoundUnder(store, byName, s, g) && f.file.path == g.file.path
    requires |Place(r)| <= |Place(s)|
    ensures Overlap(byName, r, s)
  {
    hide ChildMounts;
    var path := f.file.path;
    var below := f.virtual[|r.virtual|..];
    assert path[..|Place(r)|] == Place(r) && path[..|Place(s)|] == Place(s);
    assert Place(r) == Place(s)[..|Place(r)|];
    var rel := Place(s)[|Place(r)|..];
    assert below == path[|Place(r)|..] && rel == below[..|rel|];
    assert f.virtual == r.virtual + below && r.virtual + rel <= f.virtual;
    assert forall i :: 0 <= i < |rel| ==> rel[i] == below[i];
    forall m: Mount | m.virtual <= r.virtual + rel
      ensures m.virtual <= f.virtual
    {
      assert (r.virtual + rel)[..|m.virtual|] == f.virtual[..|m.virtual|];
    }
  }

  lemma ApartFindsOnce(mounts: seq<Mount>, files: seq<File>, byName: seq<Mount>, namespace: Path)
    requires TableOk(mounts) && SameMounts(Store(mounts, []), byName) && TreeOk(mounts, files)
    requires forall r, s :: Searched(mounts, namespace, r) && Searched(mounts, namespace, s) && r != s ==> !Overlap(byName, r, s)
    ensures FindsFilesOnce(Store(mounts, files), byName, namespace)
  {
    hide TableOk, TreeOk, Searched, Overlap, SearchRoots, Scan, NamedOnce, RootFiles, IsRoot;
    var store := Store(mounts, files);
    if SearchRoots(store, byName, namespace).Success? {
      var roots := SearchRoots(store, byName, namespace).value;
      var found := Scan(store, byName, roots);
      RootsAre(store, byName, namespace);
      SearchFindsOnce(store, byName, namespace);
      forall i, j | 0 <= i < j < |found|
        ensures found[i].file.path != found[j].file.path
      {
        var f, g := found[i], found[j];
        NamesDiffer(found, i, j);
        ScanAre(store, byName, roots, f);
        ScanAre(store, byName, roots, g);
        var a :| 0 <= a < |roots| && f in RootFiles(store, byName, roots[a]);
        var b :| 0 <= b < |roots| && g in RootFiles(store, byName, roots[b]);
        ApartPair(store, byName, namespace, roots[a], roots[b], f, g);
      }
    }
  }

  lemma NamesDiffer(found: seq<Found>, i: nat, j: nat)
    requires NamedOnce(found) && i < j < |found|
    ensures found[i].virtual != found[j].virtual
  {
  }

  lemma ApartPair(store: Store, byName: seq<Mount>, namespace: Path, r: Resolved, s: Resolved, f: Found, g: Found)
    requires f in RootFiles(store, byName, r) && g in RootFiles(store, byName, s) && f.virtual != g.virtual
    requires IsRoot(store, namespace, r) && IsRoot(store, namespace, s)
    requires forall r, s ::
               Searched(store.mounts, namespace, r) && Searched(store.mounts, namespace, s) && r != s ==> !Overlap(byName, r, s)
    ensures f.file.path != g.file.path
  {
    RootsAreSearched(store, namespace, r);
    RootsAreSearched(store, namespace, s);
    hide IsRoot, Searched, Overlap, RootFiles;
    YieldedIsUnder(store, byName, r, f);
    YieldedIsUnder(store, byName, s, g);
    if f.file.path == g.file.path {
      if r == s {
        SameNameUnder(store, byName, r, f, g);
      } else if |Place(r)| <= |Place(s)| {
        SharedFileOverlaps(store, byName, r, s, f, g);
      } else {
        SharedFileOverlaps(store, byName, s, r, g, f);
      }
    }
  }

  lemma SameNameUnder(store: Store, byName: seq<Mount>, root: Resolved, f: Found, g: Found)
    requires FoundUnder(store, byName, root, f) && FoundUnder(store, byName, root, g) && f.file.path == g.file.path
    ensures f.virtual == g.virtual
  {
    hide Hidden, Shadowed, ChildMounts;
    var below, beneath := f.virtual[|root.virtual|..], g.virtual[|root.virtual|..];
    assert below == f.file.path[|Place(root)|..] == beneath;
    assert f.virtual == root.virtual + below && g.virtual == root.virtual + beneath;
  }

  // ---------- A file two places share ----------

  function Xs(count: nat): string {
    seq(count, i => 'x')
  }

  /** Longer than every segment of the path. */
  function Longer(p: Path): (n: nat)
    ensures n > 0 && forall i :: 0 <= i < |p| ==> |p[i]| < n
  {
    if p == [] then 1 else
      var rest := Longer(p[1..]);
      assert p == [p[0]] + p[1..];
      |p[0]| + rest
  }

  /** Longer than every segment of the mounts, so a name no mount uses. */
  function LongerThanAll(mounts: seq<Mount>): (n: nat)
    ensures n > 0
    ensures forall i, k :: 0 <= i < |mounts| && 0 <= k < |mounts[i].virtual| ==> |mounts[i].virtual[k]| < n
    ensures forall i, k :: 0 <= i < |mounts| && 0 <= k < |mounts[i].root| ==> |mounts[i].root[k]| < n
  {
    if mounts == [] then 1 else
      var rest := LongerThanAll(mounts[1..]);
      assert mounts == [mounts[0]] + mounts[1..];
      Longer(mounts[0].virtual) + Longer(mounts[0].root) + rest
  }

  function Unused(mounts: seq<Mount>): string {
    Xs(LongerThanAll(mounts))
  }

  /** A tree of one file, of an unused name, in this place. */
  function OneFile(mounts: seq<Mount>, place: Path): seq<File> {
    [File(place + [Unused(mounts)], [])]
  }

  lemma OneFileIsATree(mounts: seq<Mount>, place: Path)
    ensures TreeOk(mounts, OneFile(mounts, place))
  {
    var path := place + [Unused(mounts)];
    forall i | 0 <= i < |mounts|
      ensures !(path <= mounts[i].root)
    {
      var root := mounts[i].root;
      assert |place| < |root| ==> |root[|place|]| < |path[|place|]|;
    }
  }

  /** No mount has the unused name, so it shadows nothing. */
  lemma UnusedIsUnshadowed(mounts: seq<Mount>, byName: seq<Mount>, at: Path, virtual: Path)
    requires SameMounts(Store(mounts, []), byName) && !Shadowed(virtual, ChildMounts(byName, at))
    ensures !Shadowed(virtual + [Unused(mounts)], ChildMounts(byName, at))
  {
    var children, named := ChildMounts(byName, at), virtual + [Unused(mounts)];
    ChildMountsAre(byName, at);
    forall i | 0 <= i < |children|
      ensures !Within(children[i].virtual, named)
    {
      var child := children[i];
      assert child in children && child in byName && child in mounts;
      assert !Within(child.virtual, virtual);
      var k :| 0 <= k < |mounts| && mounts[k] == child;
      assert |virtual| < |child.virtual| ==> |mounts[k].virtual[|virtual|]| < |named[|virtual|]|;
      assert |child.virtual| <= |virtual| ==> virtual[..|child.virtual|] == named[..|child.virtual|];
    }
  }

  lemma UnusedIsUnhidden(mounts: seq<Mount>, rel: Path)
    requires !Hidden(rel)
    ensures !Hidden(rel + [Unused(mounts)])
  {
    var s := Unused(mounts);
    assert s[0] == 'x' && "node_modules"[0] == 'n';
    assert !HiddenPart(s);
  }

  /** Both places yield the file below the inner one. */
  lemma OverlapYields(mounts: seq<Mount>, byName: seq<Mount>, outer: Resolved, inner: Resolved)
    requires SameMounts(Store(mounts, []), byName) && Overlap(byName, outer, inner)
    ensures var files := OneFile(mounts, Place(inner));
      FoundUnder(Store(mounts, files), byName, outer, YieldedAs(outer, files[0]))
  {
    var files, unused := OneFile(mounts, Place(inner)), Unused(mounts);
    var rel := Place(inner)[|Place(outer)|..];
    UnusedIsUnshadowed(mounts, byName, outer.virtual, outer.virtual + rel);
    UnusedIsUnhidden(mounts, rel);
    hide Hidden, Shadowed, ChildMounts, SameMounts, Unused;
    var below := rel + [unused];
    assert files[0].path == Place(outer) + below;
    HiddenBelow(Place(outer), below);
    HiddenBelow(outer.virtual, below);
    assert outer.virtual + below == outer.virtual + rel + [unused];
  }

  lemma OverlapsItself(byName: seq<Mount>, root: Resolved)
    ensures Overlap(byName, root, root)
  {
    NothingAbove(Store([], []), byName, root);
    hide Shadowed, ChildMounts;
    assert Place(root)[|Place(root)|..] == [];
    assert root.virtual + [] == root.virtual;
  }

  lemma SearchedIsARoot(store: Store, namespace: Path, root: Resolved)
    requires Searched(store.mounts, namespace, root) && store.files != [] && Place(root) < store.files[0].path
    ensures IsRoot(store, namespace, root)
  {
  }

  lemma SearchedIsFound(store: Store, byName: seq<Mount>, namespace: Path, root: Resolved, f: Found)
    requires WellFormed(store) && SameMounts(store, byName) && IsRoot(store, namespace, root)
    requires FoundUnder(store, byName, root, f)
    ensures SearchRoots(store, byName, namespace).Success?
    ensures f in Scan(store, byName, SearchRoots(store, byName, namespace).value)
    ensures Owner(store, namespace, f.virtual) == root.virtual
  {
    UnderResolves(store, byName, namespace, root, f);
    assert SearchRoots(store, byName, namespace).Success? by {
      hide WellFormed, Exists, Owner, Resolve, Visible;
      ChildMountsAre(byName, namespace);
      var mounts := ChildMounts(byName, namespace);
      if namespace < root.virtual && root.mount in store.mounts && root == RootOf(root.mount) {
        assert root.mount in mounts;
        assert |RootsOf(mounts)| == |mounts|;
      }
    }
    SearchAgreesWithResolution(store, byName, namespace, f);
  }

  lemma SearchedNamesDiffer(mounts: seq<Mount>, namespace: Path, r: Resolved, s: Resolved)
    requires TableOk(mounts) && Searched(mounts, namespace, r) && Searched(mounts, namespace, s) && r != s
    ensures r.virtual != s.virtual
  {
    var store := Store(mounts, []);
    if r.virtual == s.virtual && namespace < r.virtual {
      if Resolve(store, namespace).Some? {
        ResolveKeepsName(store, namespace);
      }
      SameVirtual(store, r.mount, s.mount);
    }
  }

  lemma OverlapIsFoundTwice(mounts: seq<Mount>, byName: seq<Mount>, namespace: Path, outer: Resolved, inner: Resolved)
    requires TableOk(mounts) && SameMounts(Store(mounts, []), byName)
    requires Searched(mounts, namespace, outer) && Searched(mounts, namespace, inner) && outer != inner
    requires Overlap(byName, outer, inner)
    ensures var files := OneFile(mounts, Place(inner));
      TreeOk(mounts, files) && !FindsFilesOnce(Store(mounts, files), byName, namespace)
  {
    var files := OneFile(mounts, Place(inner));
    var store := Store(mounts, files);
    var f, g := YieldedAs(outer, files[0]), YieldedAs(inner, files[0]);
    OneFileIsATree(mounts, Place(inner));
    OverlapYields(mounts, byName, outer, inner);
    OverlapsItself(byName, inner);
    OverlapYields(mounts, byName, inner, inner);
    SearchedNamesDiffer(mounts, namespace, outer, inner);
    assert Place(outer) < files[0].path && Place(inner) < files[0].path;
    SearchedIsARoot(store, namespace, outer);
    SearchedIsARoot(store, namespace, inner);
    hide TableOk, TreeOk, Searched, Overlap, FoundUnder, IsRoot, Owner, SearchRoots, Scan, OneFile, YieldedAs;
    assert SameMounts(store, byName);
    SearchedIsFound(store, byName, namespace, outer, f);
    SearchedIsFound(store, byName, namespace, inner, g);
    var found := Scan(store, byName, SearchRoots(store, byName, namespace).value);
    var i :| 0 <= i < |found| && found[i] == f;
    var j :| 0 <= j < |found| && found[j] == g;
    assert i != j;
    assert f.file == files[0] == g.file by {
      YieldedFile(outer, files[0]);
      YieldedFile(inner, files[0]);
    }
    assert !FilesOnce(found);
  }

  lemma YieldedFile(root: Resolved, file: File)
    ensures YieldedAs(root, file).file == file
  {
  }

  // ---------- Limited search ----------

  function HitsIn(f: Found, hit: string -> bool, count: nat): seq<Hit>
    requires count <= |f.file.lines|
  {
    if count == 0 then []
    else
      var line := f.file.lines[count - 1];
      HitsIn(f, hit, count - 1) + (if hit(line) then [Hit(f.virtual, count, line)] else [])
  }

  /** Every hit of every file, in order. */
  function AllHits(found: seq<Found>, hit: string -> bool): seq<Hit> {
    if found == [] then []
    else AllHits(found[..|found| - 1], hit) + HitsIn(found[|found| - 1], hit, |found[|found| - 1].file.lines|)
  }

  lemma {:induction false} AllHitsConcat(a: seq<Found>, b: seq<Found>, hit: string -> bool)
    ensures AllHits(a + b, hit) == AllHits(a, hit) + AllHits(b, hit)
  {
    hide HitsIn;
    if b == [] {
      assert a + b == a;
      assert AllHits(b, hit) == [];
    } else {
      var init, last := b[..|b| - 1], b[|b| - 1];
      AllHitsConcat(a, init, hit);
      assert (a + b)[..|a + b| - 1] == a + init && (a + b)[|a + b| - 1] == last;
      var own := HitsIn(last, hit, |last.file.lines|);
      assert AllHits(a, hit) + AllHits(init, hit) + own == AllHits(a, hit) + (AllHits(init, hit) + own);
    }
  }

  function First<T>(s: seq<T>, count: nat): seq<T> {
    if count <= |s| then s[..count] else s
  }

  /** `_search_file`: the file's first hits, at most as many as are still wanted. */
  method SearchFile(f: Found, hit: string -> bool, remaining: nat) returns (hits: seq<Hit>)
    requires remaining > 0
    ensures hits == First(HitsIn(f, hit, |f.file.lines|), remaining)
  {
    hits := [];
    for i := 0 to |f.file.lines|
      invariant hits == HitsIn(f, hit, i) && |hits| < remaining
    {
      if hit(f.file.lines[i]) {
        hits := hits + [Hit(f.virtual, i + 1, f.file.lines[i])];
        if |hits| >= remaining {
          HitsGrow(f, hit, i + 1);
          return;
        }
      }
    }
  }

  lemma {:induction false} HitsGrow(f: Found, hit: string -> bool, count: nat)
    requires count <= |f.file.lines|
    ensures HitsIn(f, hit, count) <= HitsIn(f, hit, |f.file.lines|)
    decreases |f.file.lines| - count
  {
    if count < |f.file.lines| {
      HitsGrow(f, hit, count + 1);
    }
  }

  /** `search`: a limited search is the first `k` hits of the full scan. */
  method Search(store: Store, byName: seq<Mount>, namespace: Path, hit: string -> bool, limit: int)
    returns (r: Result<seq<Hit>, SearchError>)
    ensures var wanted := if limit < 1 then 1 else if limit > 100 then 100 else limit;
      var roots := SearchRoots(store, byName, namespace);
      r == if roots.Failure? then Failure(roots.error)
           else Success(First(AllHits(Scan(store, byName, roots.value), hit), wanted))
  {
    hide RootFiles, SearchRoots;
    var wanted := if limit < 1 then 1 else if limit > 100 then 100 else limit;
    var roots := SearchRoots(store, byName, namespace);
    if roots.Failure? {
      return Failure(roots.error);
    }
    var matches: seq<Hit> := [];
    for i := 0 to |roots.value|
      invariant matches == First(AllHits(Scan(store, byName, roots.value[..i]), hit), wanted)
    {
      var before := Scan(store, byName, roots.value[..i]);
      ScanSnoc(store, byName, roots.value, i);
      AllHitsConcat(before, RootFiles(store, byName, roots.value[i]), hit);
      matches := SearchRoot(store, byName, roots.value[i], hit, wanted, before, matches);
    }
    assert roots.value[..|roots.value|] == roots.value;
    return Success(matches);
  }

  lemma ScanSnoc(store: Store, byName: seq<Mount>, roots: seq<Resolved>, i: nat)
    requires i < |roots|
    ensures Scan(store, byName, roots[..i + 1]) == Scan(store, byName, roots[..i]) + RootFiles(store, byName, roots[i])
  {
    hide RootFiles;
    assert roots[..i + 1][..i] == roots[..i];
  }

  /** The files of one root, until enough is found. */
  method SearchRoot(store: Store, byName: seq<Mount>, root: Resolved, hit: string -> bool, wanted: nat,
                    ghost before: seq<Found>, matches: seq<Hit>)
    returns (more: seq<Hit>)
    requires wanted > 0 && matches == First(AllHits(before, hit), wanted)
    ensures more == First(AllHits(before, hit) + AllHits(RootFiles(store, byName, root), hit), wanted)
  {
    hide RootFiles, First, AllHits, HitsIn;
    var found := IterSearchFiles(store, byName, root);
    more := matches;
    HitsNone(AllHits(before, hit), hit, found);
    for i := 0 to |found|
      invariant more == First(AllHits(before, hit) + AllHits(found[..i], hit), wanted)
    {
      HitsSnoc(AllHits(before, hit), hit, found, i);
      var earlier := AllHits(before, hit) + AllHits(found[..i], hit);
      FirstAppends(earlier, HitsIn(found[i], hit, |found[i].file.lines|), wanted);
      if |more| < wanted {
        var hits := SearchFile(found[i], hit, wanted - |more|);
        more := more + hits;
      }
    }
    assert found[..|found|] == found;
  }

  lemma HitsNone(earlier: seq<Hit>, hit: string -> bool, found: seq<Found>)
    ensures earlier + AllHits(found[..0], hit) == earlier
  {
  }

  lemma HitsSnoc(earlier: seq<Hit>, hit: string -> bool, found: seq<Found>, i: nat)
    requires i < |found|
    ensures earlier + AllHits(found[..i + 1], hit)
      == earlier + AllHits(found[..i], hit) + HitsIn(found[i], hit, |found[i].file.lines|)
  {
    assert found[..i + 1][..i] == found[..i];
    hide HitsIn;
  }

  lemma FirstAppends<T>(a: seq<T>, b: seq<T>, count: nat)
    ensures First(a + b, count) == if |First(a, count)| < count then First(a, count) + First(b, count - |First(a, count)|)
                                   else First(a, count)
  {
  }
}
