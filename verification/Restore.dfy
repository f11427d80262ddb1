/** Restoring a snapshot into the workspace (backend/internal/snapshot/restore.go). */
module SnapshotRestore {
  import opened FileTree
  import opened Exclude
  import opened SnapshotCapture
  import opened Workspaces
  import opened Wrappers

  // ---- write-back ----

  function RestorableAmong(dir: Tree, done: set<Path>): map<Path, Node> {
    map p | p in RestorableFiles(dir) && p in done :: dir[p]
  }

  /** The entry is in place: no link on its way, and a directory of the snapshot is no file of the workspace. */
  ghost predicate Cleared(t: Tree, dir: Tree, p: Path)
    requires p in dir
  {
    NoLinkOn(t, p) && (dir[p].Dir? ==> p !in Files(t))
  }

  /** The done entries of the snapshot are back in place and nothing else about regular files changed. */
  ghost predicate WrittenBack(before: Tree, after: Tree, dir: Tree, done: set<Path>)
    requires done <= dir.Keys
  {
    && WellFormed(after)
    && Links(after) <= Links(before)
    && Files(after) == Files(before) + RestorableAmong(dir, done)
    && forall p :: p in done && p != MANIFEST ==> Cleared(after, dir, p)
  }

  /** Extending a written-back part by one entry that was brought into place. */
  lemma WrittenBackStep(before: Tree, t: Tree, after: Tree, dir: Tree, done: set<Path>, p: Path)
    requires done <= dir.Keys && p in dir
    requires WrittenBack(before, t, dir, done) && WellFormed(after) && Links(after) <= Links(t)
    requires Files(after) == if p in RestorableFiles(dir) then Files(t)[p := dir[p]] else Files(t)
    requires p != MANIFEST ==> Cleared(after, dir, p)
    ensures WrittenBack(before, after, dir, done + {p})
  {
    hide WellFormed;
    forall q | q in done && q != MANIFEST
      ensures Cleared(after, dir, q)
    {
      assert Cleared(t, dir, q);
      NoLinkOnMono(t, after, q);
    }
    var files, more := RestorableAmong(dir, done), RestorableAmong(dir, done + {p});
    if p in RestorableFiles(dir) {
      assert more == files[p := dir[p]];
    } else {
      assert more == files;
    }
  }

  method EnsureRealDir(ws: Workspace, p: Path) returns (ok: bool)
    requires WellFormed(ws.tree) && (p.Root? || NoLinkOn(ws.tree, p.parent))
    modifies ws
    ensures WellFormed(ws.tree) && ws.escaped == old(ws.escaped)
    ensures Links(ws.tree) <= Links(old(ws.tree)) && Files(ws.tree) == Files(old(ws.tree))
    ensures ok ==> NoLinkOn(ws.tree, p) && p !in Files(ws.tree)
  {
    ok := ws.MkdirAll(p);
    DirsAddedKeeps(old(ws.tree), ws.tree, p);
    if !ok { return; }
    ok := ws.EnsureNoSymlinkComponents(p);
  }

  /**
   * A link on the way to the parent is followed first and removed after; from a clear way nothing is lost but a link
   * at p.
   */
  method EnsureRealParent(ws: Workspace, p: Path) returns (ok: bool)
    requires WellFormed(ws.tree) && p.Child?
    modifies ws
    ensures WellFormed(ws.tree)
    ensures Links(ws.tree) <= Links(old(ws.tree)) && Files(ws.tree) == Files(old(ws.tree))
    ensures ok ==> NoLinkOn(ws.tree, p)
    ensures NoLinkOn(old(ws.tree), p.parent) ==>
              && ws.escaped == old(ws.escaped)
              && OnlyAt(old(ws.tree), ws.tree, p)
              && (ok ==> p.parent in ws.tree && ws.tree[p.parent].Dir?)
  {
    if NoLinkOn(ws.tree, p.parent) { NoLinkAbove(ws.tree, p.parent); }
    ok := ws.MkdirAll(p.parent);
    DirsAddedKeeps(old(ws.tree), ws.tree, p.parent);
    if !ok { return; }
    ghost var made := ws.tree;
    ok := ws.EnsureNoSymlinkComponents(p);
    if NoLinkOn(old(ws.tree), p.parent) {
      NoLinkOnMono(old(ws.tree), made, p.parent);
      NotAmongAncestors(made, p);
    }
  }

  /** t' differs from t at p only, apart from directories that are new. */
  ghost predicate OnlyAt(t: Tree, t': Tree, p: Path) {
    && (forall q :: q in t && q != p ==> q in t' && t'[q] == t[q])
    && (forall q :: q in t' && q != p && q !in t ==> t'[q].Dir?)
  }

  lemma NoLinkAbove(t: Tree, p: Path)
    requires NoLinkOn(t, p)
    ensures p.Root? || NoLinkOn(t, p.parent)
  {
  }

  lemma {:induction false} NotAmongAncestors(t: Tree, p: Path)
    requires p.Child? && NoLinkOn(t, p.parent)
    ensures forall a :: Above(a, p) ==> a !in Links(t)
    decreases p
  {
    if p.parent.Child? { NotAmongAncestors(t, p.parent); }
  }

  /** Writes every file of the snapshot back, replacing what is there and removing links on the way. */
  method WriteBack(ws: Workspace, dir: Tree) returns (count: nat, ok: bool)
    requires WellFormed(ws.tree) && Readable(dir) && IsComplete(dir)
    modifies ws
    ensures WellFormed(ws.tree) && ws.escaped == old(ws.escaped)
    ensures ok ==>
              && count == |RestorableFiles(dir)|
              && Files(ws.tree) == Files(old(ws.tree)) + RestorableFiles(dir)
              && Links(ws.tree) <= Links(old(ws.tree))
              && forall p :: p in dir && p != MANIFEST ==> Cleared(ws.tree, dir, p)
  {
    assert WellFormed(dir);
    hide Readable, WrittenBack, Cleared, FirstOf, WalkOrder, WellFormed;
    var order := Walk(dir);
    count, ok := 0, true;
    ghost var done: set<Path> := {};
    NothingWrittenYet(ws.tree, dir);
    for i := 0 to |order|
      invariant ok && ws.escaped == old(ws.escaped) && WellFormed(ws.tree)
      invariant FirstOf(order, i, done) && done <= dir.Keys
      invariant WrittenBack(old(ws.tree), ws.tree, dir, done)
      invariant count == |RestorableAmong(dir, done)|
    {
      var p := order[i];
      ghost var t := ws.tree;
      WalkNext(dir, order, i, done);
      OneMore(dir, done, p);
      var copied;
      copied, ok := RestoreEntry(ws, dir, p, old(ws.tree), done);
      if !ok { return; }
      if copied { count := count + 1; }
      done := done + {p};
    }
    WalkDone(dir, order, done);
    AllWritten(old(ws.tree), ws.tree, dir);
  }

  lemma NothingWrittenYet(before: Tree, dir: Tree)
    requires WellFormed(before)
    ensures WrittenBack(before, before, dir, {}) && RestorableAmong(dir, {}) == map[]
  {
  }

  lemma AllWritten(before: Tree, after: Tree, dir: Tree)
    requires WrittenBack(before, after, dir, dir.Keys)
    ensures RestorableAmong(dir, dir.Keys) == RestorableFiles(dir)
    ensures Files(after) == Files(before) + RestorableFiles(dir) && Links(after) <= Links(before)
    ensures forall p :: p in dir && p != MANIFEST ==> Cleared(after, dir, p)
  {
    assert RestorableAmong(dir, dir.Keys) == RestorableFiles(dir);
  }

  /** What write-back does for one entry whose directory is already in place. */
  method RestoreEntry(ws: Workspace, dir: Tree, p: Path, ghost before: Tree, ghost done: set<Path>)
    returns (copied: bool, ok: bool)
    requires Readable(dir) && IsComplete(dir) && done <= dir.Keys && p in dir
    requires WrittenBack(before, ws.tree, dir, done) && (p.Child? ==> p.parent in done)
    modifies ws
    ensures WellFormed(ws.tree) && ws.escaped == old(ws.escaped)
    ensures ok ==> WrittenBack(before, ws.tree, dir, done + {p}) && (copied <==> p in RestorableFiles(dir))
  {
    copied, ok := false, true;
    ghost var t := ws.tree;
    if p != MANIFEST && p.Child? {
      assert Cleared(t, dir, p.parent);
      if dir[p].Dir? {
        ok := EnsureRealDir(ws, p);
        if !ok { return; }
      } else {
        assert p !in Links(dir);
        ok := EnsureRealParent(ws, p);
        if !ok { return; }
        ok := ws.CopyTo(p, dir[p]);
        if !ok { return; }
        copied := true;
        NoLinkOnMono(t, ws.tree, p.parent);
      }
    }
    WrittenBackStep(before, t, ws.tree, dir, done, p);
  }

  lemma OneMore(dir: Tree, done: set<Path>, p: Path)
    requires p in dir && p !in done
    ensures |RestorableAmong(dir, done + {p})| ==
            |RestorableAmong(dir, done)| + if p in RestorableFiles(dir) then 1 else 0
  {
    var before, after := RestorableAmong(dir, done), RestorableAmong(dir, done + {p});
    if p in RestorableFiles(dir) {
      assert after.Keys == before.Keys + {p};
      assert |after.Keys| == |before.Keys| + 1;
    } else {
      assert after == before;
    }
  }

  // ---- deletion of extra files ----

  /** What os.Lstat reports as the size: for a link, the length of its target. */
  function NodeSize(node: Node): nat {
    match node
    case Dir => 0
    case File(_, size) => size
    case Link(target) => |target|
  }

  /** The relative paths the snapshot directory holds, its manifest left out. */
  function SnapshotPaths(dir: Tree): set<Path> {
    dir.Keys - {Root, MANIFEST}
  }

  datatype Fate = IsDirectory | InExcludedDir | Skipped(reason: SkipReason) | InSnapshot | Deleted

  /** What deleteExtras decides for an entry of the workspace. */
  function FateOf(t: Tree, dir: Tree, includeSecrets: bool, p: Path): Fate
    requires p in t
  {
    if p.Root? then IsDirectory
    else if Pruned(p) then InExcludedDir
    else if t[p].Dir? then IsDirectory
    else
      var decision := ShouldSkipFile(includeSecrets, p.name, NodeSize(t[p]));
      if decision.Skip? then Skipped(decision.reason)
      else if p in SnapshotPaths(dir) then InSnapshot
      else Deleted
  }

  function Extras(t: Tree, dir: Tree, includeSecrets: bool): set<Path> {
    set p | p in t && FateOf(t, dir, includeSecrets, p) == Deleted
  }

  function PathLength(p: Path): nat {
    if p.Root? then 0 else PathLength(p.parent) + 1 + |p.name|
  }

  lemma {:induction false} LongestExists(s: set<Path>) returns (p: Path)
    requires s != {}
    ensures p in s && forall q :: q in s ==> PathLength(q) <= PathLength(p)
  {
    p :| p in s;
    var rest := s - {p};
    assert forall q :: q in s ==> q == p || q in rest;
    if rest != {} {
      var q := LongestExists(rest);
      if PathLength(q) > PathLength(p) { p := q; }
    }
  }

  method CollectSnapshotPaths(dir: Tree) returns (paths: set<Path>)
    requires WellFormed(dir)
    ensures paths == SnapshotPaths(dir)
  {
    var order := Walk(dir);
    paths := {};
    ghost var done: set<Path> := {};
    for i := 0 to |order|
      invariant FirstOf(order, i, done) && paths == done - {Root, MANIFEST}
    {
      var p := order[i];
      WalkNext(dir, order, i, done);
      if p != Root && p != MANIFEST { paths := paths + {p}; }
      done := done + {p};
    }
    WalkDone(dir, order, done);
  }

  method CollectExtras(t: Tree, paths: set<Path>, ghost dir: Tree, includeSecrets: bool) returns (toDelete: set<Path>)
    requires WellFormed(t) && paths == SnapshotPaths(dir)
    ensures toDelete == Extras(t, dir, includeSecrets)
  {
    var order := Walk(t);
    toDelete := {};
    ghost var done: set<Path> := {};
    for i := 0 to |order|
      invariant FirstOf(order, i, done) && done <= t.Keys
      invariant toDelete == Extras(t, dir, includeSecrets) * done
    {
      var p := order[i];
      WalkNext(t, order, i, done);
      done := done + {p};
      if p.Root? || Pruned(p) || t[p].Dir? { continue; }
      if ShouldSkipFile(includeSecrets, p.name, NodeSize(t[p])).Skip? { continue; }
      if p in paths { continue; }
      toDelete := toDelete + {p};
    }
    WalkDone(t, order, done);
  }

  /** Removes what is present, not protected and not in the snapshot, the longest paths first. */
  method DeleteExtras(ws: Workspace, dir: Tree, includeSecrets: bool) returns (deleted: seq<Path>, ok: bool)
    requires WellFormed(ws.tree) && WellFormed(dir)
    modifies ws`tree
    ensures WellFormed(ws.tree)
    ensures Distinct(deleted)
    ensures ws.tree == old(ws.tree) - (set p | p in deleted)
    ensures forall p :: p in deleted ==> p in Extras(old(ws.tree), dir, includeSecrets)
    ensures ok ==> forall p :: p in Extras(old(ws.tree), dir, includeSecrets) ==> p in deleted
  {
    var paths := CollectSnapshotPaths(dir);
    var pending := CollectExtras(ws.tree, paths, dir, includeSecrets);
    ghost var all, before := pending, ws.tree;
    assert forall p :: p in all ==> p in before && p.Child?;
    hide Extras, WellFormed, Gone, Distinct;
    deleted, ok := [], true;
    assert Gone(before, ws.tree, all, pending, deleted) by { NothingGone(before, all); }
    while pending != {}
      invariant ok && WellFormed(ws.tree) && pending <= all
      invariant Gone(before, ws.tree, all, pending, deleted)
      decreases |pending|
    {
      ghost var longest := LongestExists(pending);
      var p :| p in pending && forall q :: q in pending ==> PathLength(q) <= PathLength(p);
      GoneNext(before, ws.tree, all, pending, deleted, p);
      ok := ws.Remove(p);
      if !ok { break; }
      deleted := deleted + [p];
      pending := pending - {p};
    }
    GoneMeans(before, ws.tree, all, pending, deleted);
  }

  /** All but the pending paths are gone from the tree, and reported once. */
  ghost predicate Gone(before: Tree, now: Tree, all: set<Path>, pending: set<Path>, deleted: seq<Path>) {
    && Distinct(deleted) && (forall p :: p in all - pending <==> p in deleted)
    && now == before - (all - pending)
  }

  lemma NothingGone(before: Tree, all: set<Path>)
    ensures Gone(before, before, all, all, [])
  {
  }

  lemma GoneNext(before: Tree, now: Tree, all: set<Path>, pending: set<Path>, deleted: seq<Path>, p: Path)
    requires Gone(before, now, all, pending, deleted) && pending <= all <= before.Keys && p in pending
    ensures p in now && now[p] == before[p] && Gone(before, now - {p}, all, pending - {p}, deleted + [p])
  {
    assert p !in all - pending;
    AppendDistinct(deleted, p);
    hide Distinct;
    assert all - (pending - {p}) == (all - pending) + {p};
  }

  lemma GoneMeans(before: Tree, now: Tree, all: set<Path>, pending: set<Path>, deleted: seq<Path>)
    requires Gone(before, now, all, pending, deleted) && pending <= all
    ensures Distinct(deleted) && now == before - (set p | p in deleted) && forall p :: p in deleted ==> p in all
    ensures pending == {} ==> forall p :: p in all ==> p in deleted
  {
    hide Distinct;
    assert (set q | q in deleted) == all - pending;
  }

  // ---- symbolic links ----

  /** Every directory of the snapshot is reached in the workspace without crossing a link. */
  ghost predicate Skeleton(t: Tree, dir: Tree) {
    forall d :: d in dir && dir[d].Dir? ==> NoLinkOn(t, d)
  }

  lemma {:induction false} NoLinkOnExcept(t: Tree, t': Tree, p: Path, d: Path)
    requires NoLinkOn(t, d) && Links(t') <= Links(t) + {p} && d != p && !Above(p, d)
    ensures NoLinkOn(t', d)
    decreases d
  {
    if d.Child? { NoLinkOnExcept(t, t', p, d.parent); }
  }

  lemma SkeletonKept(t: Tree, t': Tree, dir: Tree, p: Path)
    requires WellFormed(dir) && Skeleton(t, dir) && Links(t') <= Links(t) + {p} && (p !in dir || !dir[p].Dir?)
    ensures Skeleton(t', dir)
  {
    forall d | d in dir && dir[d].Dir?
      ensures NoLinkOn(t', d)
    {
      if Above(p, d) { AncestorsAreDirs(dir, p, d); }
      NoLinkOnExcept(t, t', p, d);
    }
  }

  method RebuildSymlink(ws: Workspace, link: SymlinkEntry) returns (ok: bool)
    requires WellFormed(ws.tree)
    modifies ws
    ensures WellFormed(ws.tree) && FilesKept(old(ws.tree), ws.tree, link.path)
    ensures link.path.Child? && NoLinkOn(old(ws.tree), link.path.parent) ==>
              && ws.escaped == old(ws.escaped) && OnlyAt(old(ws.tree), ws.tree, link.path)
              && (ok ==> link.path in ws.tree && ws.tree[link.path] == Link(link.target))
  {
    var p := link.path;
    if p.Root? { return false; }
    ok := EnsureRealParent(ws, p);
    if !ok { return; }
    ghost var cleared := ws.tree;
    if p in ws.tree {
      ok := ws.Remove(p);
      if !ok { return; }
    }
    NoLinkOnMono(cleared, ws.tree, p.parent);
    ok := ws.Symlink(link.target, p);
  }

  /** No regular file is new or changed, and only one at p may be gone. */
  ghost predicate FilesKept(t: Tree, t': Tree, p: Path) {
    && (forall q :: q in Files(t') ==> q in Files(t) && t'[q] == t[q])
    && (forall q :: q in Files(t) && q != p ==> q in Files(t'))
  }

  /** The first n links have been tried, starting from the tree t: files are gone only where a link goes. */
  ghost predicate LinksTried(t: Tree, t': Tree, links: seq<SymlinkEntry>, n: nat)
    requires n <= |links|
  {
    && WellFormed(t')
    && (forall p :: p in Files(t') ==> p in Files(t) && t'[p] == t[p])
    && (forall p :: p in Files(t) && (forall j :: 0 <= j < n ==> links[j].path != p) ==> p in Files(t'))
  }

  /** The first n links are in place or reported, and the snapshot's directories are reached without crossing a link. */
  ghost predicate Linked(t': Tree, dir: Tree, links: seq<SymlinkEntry>, n: nat, failures: seq<Path>)
    requires n <= |links|
  {
    && Skeleton(t', dir)
    && forall j :: 0 <= j < n ==>
         links[j].path in failures || (links[j].path in t' && t'[links[j].path] == Link(links[j].target))
  }

  lemma TriedStep(t: Tree, t1: Tree, t2: Tree, links: seq<SymlinkEntry>, n: nat)
    requires n < |links| && LinksTried(t, t1, links, n) && WellFormed(t2) && FilesKept(t1, t2, links[n].path)
    ensures LinksTried(t, t2, links, n + 1)
  {
  }

  lemma LinkedStep(t1: Tree, t2: Tree, dir: Tree, links: seq<SymlinkEntry>, n: nat, failures: seq<Path>, ok: bool)
    requires ValidSnapshot(dir) && links == LoadManifest(dir).value.symlinks
    requires n < |links| && Linked(t1, dir, links, n, failures) && OnlyAt(t1, t2, links[n].path)
    requires ok ==> links[n].path in t2 && t2[links[n].path] == Link(links[n].target)
    ensures Linked(t2, dir, links, n + 1, if ok then failures else failures + [links[n].path])
  {
    SkeletonKept(t1, t2, dir, links[n].path);
  }

  /** A valid snapshot's links go into directories of its own. */
  lemma LinkParentClear(t: Tree, dir: Tree, links: seq<SymlinkEntry>, n: nat)
    requires ValidSnapshot(dir) && links == LoadManifest(dir).value.symlinks && n < |links| && Skeleton(t, dir)
    ensures links[n].path.Child? && NoLinkOn(t, links[n].path.parent)
  {
  }

  method RebuildSymlinks(ws: Workspace, dir: Tree, links: seq<SymlinkEntry>) returns (failures: seq<Path>)
    requires IsComplete(dir) && links == LoadManifest(dir).value.symlinks && WellFormed(ws.tree)
    modifies ws
    ensures LinksTried(old(ws.tree), ws.tree, links, |links|)
    ensures ValidSnapshot(dir) && Skeleton(old(ws.tree), dir) ==>
              ws.escaped == old(ws.escaped) && Linked(ws.tree, dir, links, |links|, failures)
  {
    failures := [];
    ghost var valid := ValidSnapshot(dir) && Skeleton(ws.tree, dir);
    for i := 0 to |links|
      invariant LinksTried(old(ws.tree), ws.tree, links, i)
      invariant valid ==> ws.escaped == old(ws.escaped) && Linked(ws.tree, dir, links, i, failures)
    {
      hide ValidSnapshot, Skeleton, OnlyAt, FilesKept, WellFormed, Files;
      ghost var t1 := ws.tree;
      if valid { LinkParentClear(t1, dir, links, i); }
      var ok := RebuildSymlink(ws, links[i]);
      TriedStep(old(ws.tree), t1, ws.tree, links, i);
      if valid { LinkedStep(t1, ws.tree, dir, links, i, failures, ok); }
      if !ok { failures := failures + [links[i].path]; }
    }
  }

  // ---- the whole restore ----

  datatype Refusal = NoManifest | Incomplete | OtherProject | PreSnapshotFailed

  datatype RestoreResult =
    | Refused(why: Refusal)
    | Interrupted(preSnapshot: Option<string>)
    | Done(preSnapshot: Option<string>, restored: nat, deleted: seq<Path>, linkFailures: seq<Path>)

  /** What a successful restore of dir makes of the regular files. */
  ghost predicate Restored(before: Tree, after: Tree, dir: Tree, deleteExtras: bool, includeSecrets: bool)
    requires IsComplete(dir)
  {
    && (forall p :: p in RestorableFiles(dir) && p !in LinkPaths(LoadManifest(dir).value) ==>
          p in Files(after) && after[p] == dir[p])
    && (forall p :: p in dir && dir[p].Dir? ==> p !in Files(after))
    && (forall p :: p in Files(after) && p !in RestorableFiles(dir) ==>
          p in Files(before) && after[p] == before[p] && !(deleteExtras && p in Extras(before, dir, includeSecrets)))
    && (forall p :: (p in Files(before) && p !in RestorableFiles(dir) && p !in LinkPaths(LoadManifest(dir).value)
                     && !(deleteExtras && p in Extras(before, dir, includeSecrets))) ==> p in Files(after))
  }

  /** For a regular file that write-back left alone, the verdict of deleteExtras is that on the tree before. */
  lemma SameFate(before: Tree, mid: Tree, dir: Tree, includeSecrets: bool, p: Path)
    requires Files(mid) == Files(before) + RestorableFiles(dir) && Root in dir && Root !in Files(before)
    requires p in Files(mid)
    ensures p in Extras(mid, dir, includeSecrets) <==>
        p in Files(before) && p in Extras(before, dir, includeSecrets) && p !in RestorableFiles(dir)
  {
    hide ShouldSkipFile, Pruned;
    assert p in Files(before) || p in RestorableFiles(dir);
    if p in RestorableFiles(dir) {
      assert p in SnapshotPaths(dir) || p.Root?;
    } else {
      assert mid[p] == Files(mid)[p] == Files(before)[p] == before[p];
    }
  }

  method Restore(ws: Workspace, store: Store, cfg: Config, id: string, deleteExtras: bool,
                 base: string, created: int, budget: nat)
    returns (result: RestoreResult)
    requires WellFormed(ws.tree)
    requires id in store.dirs ==> Readable(store.dirs[id])
    modifies ws, store
    ensures WellFormed(ws.tree)
    // nothing is written through a link, unless a foreign manifest brings links of its own
    ensures !result.Done? || (id in old(store.dirs) && ValidSnapshot(old(store.dirs)[id])) ==>
        ws.escaped == old(ws.escaped)
    // earlier snapshots stay as they are
    ensures forall d :: d in old(store.dirs) ==> d in store.dirs && store.dirs[d] == old(store.dirs)[d]
    // a new directory is that of the pre-restore capture; unless that stopped with a decoy, it passes for complete
    // only if it holds the whole workspace
    ensures forall d :: d in store.dirs && d !in old(store.dirs) ==>
              && Readable(store.dirs[d])
              && (!(result == Refused(PreSnapshotFailed) && Decoy(cfg, old(ws.tree))) && IsComplete(store.dirs[d]) ==>
                    Holds(cfg, old(ws.tree), store.dirs[d]))
    // an unusable snapshot is refused and nothing happens
    ensures !Usable(old(store.dirs), id, cfg) <==> result.Refused? && result.why != PreSnapshotFailed
    ensures !Usable(old(store.dirs), id, cfg) ==> store.dirs == old(store.dirs)
    ensures result.Refused? ==> ws.tree == old(ws.tree)
    ensures result.Done? ==>
              && Restored(old(ws.tree), ws.tree, old(store.dirs)[id], deleteExtras, cfg.includeSecrets)
              && result.restored == |RestorableFiles(old(store.dirs)[id])|
              && DeletedExactly(old(ws.tree), old(store.dirs)[id], deleteExtras, cfg.includeSecrets, result.deleted)
              && (ValidSnapshot(old(store.dirs)[id]) ==>
                    LinksRebuilt(ws.tree, LoadManifest(old(store.dirs)[id]).value, result.linkFailures))
    ensures result.Done? || result.Interrupted? ==>
        PreSnapshotTaken(result.preSnapshot, old(store.dirs), store.dirs, cfg, old(ws.tree))
  {
    hide ValidSnapshot, Restored, PreSnapshotTaken, DeletedExactly, LinksRebuilt, Captured, WalkOrder, Readable, Holds,
      Decoy;
    if id !in store.dirs || LoadManifest(store.dirs[id]).None? {
      return Refused(NoManifest);
    }
    var dir := store.dirs[id];
    var m := LoadManifest(dir).value;
    if !m.complete { return Refused(Incomplete); }
    if m.root != cfg.root { return Refused(OtherProject); }

    var outcome, preId, order := Capture(ws.tree, store, cfg, base, created, budget);
    assert forall d :: d in store.dirs && d != preId ==> d in store.dirs - {preId};
    assert id in store.dirs && store.dirs[id] == dir by {
      assert id in store.dirs - {preId};
    }
    if outcome.Stopped? { return Refused(PreSnapshotFailed); }
    var pre := if outcome.Saved? then Some(preId) else None;
    PreSnapshotFacts(old(store.dirs), store.dirs, cfg, old(ws.tree), outcome, preId, order, created);

    var count, deleted, failures, ok := ApplySnapshot(ws, dir, deleteExtras, cfg.includeSecrets);
    result := if ok then Done(pre, count, deleted, failures) else Interrupted(pre);
  }

  /** Write-back, deletion of extras and links, once the pre-restore snapshot is in the store. */
  method ApplySnapshot(ws: Workspace, dir: Tree, deleteExtras: bool, includeSecrets: bool)
    returns (count: nat, deleted: seq<Path>, failures: seq<Path>, ok: bool)
    requires WellFormed(ws.tree) && Readable(dir) && IsComplete(dir)
    modifies ws
    ensures WellFormed(ws.tree)
    ensures !ok || ValidSnapshot(dir) ==> ws.escaped == old(ws.escaped)
    ensures ok ==>
              && Restored(old(ws.tree), ws.tree, dir, deleteExtras, includeSecrets)
              && count == |RestorableFiles(dir)|
              && DeletedExactly(old(ws.tree), dir, deleteExtras, includeSecrets, deleted)
              && (ValidSnapshot(dir) ==> LinksRebuilt(ws.tree, LoadManifest(dir).value, failures))
  {
    assert WellFormed(dir);
    hide Readable, LinksTried, IsComplete;
    hide ValidSnapshot, Restored, Cleared, WellFormed, RestorableFiles, DeletedExactly, LinksRebuilt, Skeleton, Trimmed,
      Linked;
    deleted, failures := [], [];
    count, ok := WriteBack(ws, dir);
    if !ok { return; }
    ghost var mid := ws.tree;
    deleted, ok := TrimExtras(ws, dir, deleteExtras, includeSecrets);
    if !ok { return; }
    ghost var trimmed := ws.tree;
    SkeletonTrimmed(mid, trimmed, dir, deleteExtras, includeSecrets, deleted);
    failures := RebuildSymlinks(ws, dir, LoadManifest(dir).value.symlinks);
    RestoredFacts(old(ws.tree), mid, trimmed, ws.tree, dir, deleteExtras, includeSecrets, deleted);
  }

  /** The optional deletion of extras. */
  method TrimExtras(ws: Workspace, dir: Tree, deleteExtras: bool, includeSecrets: bool)
    returns (deleted: seq<Path>, ok: bool)
    requires WellFormed(ws.tree) && WellFormed(dir)
    modifies ws`tree
    ensures WellFormed(ws.tree)
    ensures ok ==> Trimmed(old(ws.tree), ws.tree, dir, deleteExtras, includeSecrets, deleted)
  {
    hide Extras, WellFormed;
    deleted, ok := [], true;
    if deleteExtras {
      deleted, ok := DeleteExtras(ws, dir, includeSecrets);
    } else {
      assert ws.tree == old(ws.tree) - (set p | p in deleted);
    }
  }

  ghost predicate Trimmed(mid: Tree, trimmed: Tree, dir: Tree, deleteExtras: bool, includeSecrets: bool,
                          deleted: seq<Path>) {
    && Distinct(deleted)
    && trimmed == mid - (set p | p in deleted)
    && (forall p :: p in deleted ==> p in Extras(mid, dir, includeSecrets))
    && if deleteExtras then forall p :: p in Extras(mid, dir, includeSecrets) ==> p in deleted else deleted == []
  }

  /** The deleted regular files are exactly the extras among those of the workspace before. */
  ghost predicate DeletedExactly(before: Tree, dir: Tree, deleteExtras: bool, includeSecrets: bool,
                                 deleted: seq<Path>) {
    && Distinct(deleted)
    && forall p :: p in Files(before) ==>
         (p in deleted <==> deleteExtras && p in Extras(before, dir, includeSecrets) && p !in RestorableFiles(dir))
  }

  /** Every recorded link is back with its target unless it is reported as failed. */
  ghost predicate LinksRebuilt(t: Tree, m: Manifest, failures: seq<Path>) {
    forall i :: 0 <= i < |m.symlinks| ==>
      m.symlinks[i].path in failures || (m.symlinks[i].path in t && t[m.symlinks[i].path] == Link(m.symlinks[i].target))
  }

  predicate Usable(dirs: map<string, Tree>, id: string, cfg: Config) {
    id in dirs && IsComplete(dirs[id]) && LoadManifest(dirs[id]).value.root == cfg.root
  }

  /** The pre-restore snapshot holds what a capture of the workspace holds; without one there was nothing to hold. */
  ghost predicate PreSnapshotTaken(pre: Option<string>, before: map<string, Tree>, after: map<string, Tree>,
                                   cfg: Config, w: Tree) {
    match pre
    case None =>
      && CapturedFiles(cfg, w) == map[]
      && (forall id :: id in before ==> id in after && after[id] == before[id])
      && forall id :: id in after && id !in before ==> Files(after[id]) == map[]
    case Some(id) =>
      && id !in before && id in after && after - {id} == before
      && Usable(after, id, cfg) && ValidSnapshot(after[id])
      && RestorableFiles(after[id]) == CapturedFiles(cfg, w) - {MANIFEST}
  }

  lemma PreSnapshotFacts(before: map<string, Tree>, after: map<string, Tree>, cfg: Config, w: Tree,
                         outcome: Outcome, id: string, order: seq<Path>, created: int)
    requires WellFormed(w) && WalkOrder(w, order) && id !in before && after - {id} == before && !outcome.Stopped?
    requires Captured(cfg, w, order, id, created, outcome, after)
    ensures PreSnapshotTaken(if outcome.Saved? then Some(id) else None, before, after, cfg, w)
  {
    if outcome.Saved? {
      SavedIsValid(cfg, w, order, id, created, outcome.manifest);
    } else {
      assert forall d :: d in before ==> d in after - {id};
      assert forall d :: d in after && d != id ==> d in after - {id};
    }
  }

  lemma SkeletonTrimmed(mid: Tree, trimmed: Tree, dir: Tree, deleteExtras: bool, includeSecrets: bool,
                        deleted: seq<Path>)
    requires IsComplete(dir) && forall p :: p in dir && p != MANIFEST ==> Cleared(mid, dir, p)
    requires Trimmed(mid, trimmed, dir, deleteExtras, includeSecrets, deleted)
    ensures Skeleton(trimmed, dir)
  {
    forall d | d in dir && dir[d].Dir?
      ensures NoLinkOn(trimmed, d)
    {
      assert Cleared(mid, dir, d);
      NoLinkOnMono(mid, trimmed, d);
    }
  }

  /** The regular files after write-back and deletion. */
  ghost predicate TrimmedFiles(before: Tree, trimmed: Tree, dir: Tree, deleteExtras: bool, includeSecrets: bool) {
    && (forall p :: p in Files(trimmed) <==>
          (p in RestorableFiles(dir) ||
            (p in Files(before) && !(deleteExtras && p in Extras(before, dir, includeSecrets)))))
    && (forall p :: p in Files(trimmed) && p in RestorableFiles(dir) ==> trimmed[p] == RestorableFiles(dir)[p])
    && (forall p :: p in Files(trimmed) && p !in RestorableFiles(dir) ==> p in before && trimmed[p] == before[p])
    && forall p :: p in dir && dir[p].Dir? ==> p !in Files(trimmed)
  }

  /** Puts the three stages of a restore together. */
  lemma RestoredFacts(before: Tree, mid: Tree, trimmed: Tree, after: Tree, dir: Tree,
                      deleteExtras: bool, includeSecrets: bool, deleted: seq<Path>)
    requires WellFormed(before) && Readable(dir) && IsComplete(dir)
    requires Files(mid) == Files(before) + RestorableFiles(dir)
    requires forall p :: p in dir && p != MANIFEST ==> Cleared(mid, dir, p)
    requires Trimmed(mid, trimmed, dir, deleteExtras, includeSecrets, deleted)
    requires var links := LoadManifest(dir).value.symlinks; LinksTried(trimmed, after, links, |links|)
    ensures Restored(before, after, dir, deleteExtras, includeSecrets)
    ensures DeletedExactly(before, dir, deleteExtras, includeSecrets, deleted)
  {
    WellFormedRoots(before, dir);
    DirsStayNoFiles(mid, trimmed, dir, deleteExtras, includeSecrets, deleted);
    hide Extras, Skeleton, WellFormed, RestorableFiles, Cleared, Restored, TrimmedFiles, Files;
    TrimmedFacts(before, mid, trimmed, dir, deleteExtras, includeSecrets, deleted);
    LinkedFacts(before, trimmed, after, dir, deleteExtras, includeSecrets);
  }

  lemma DirsStayNoFiles(mid: Tree, trimmed: Tree, dir: Tree, deleteExtras: bool, includeSecrets: bool,
                        deleted: seq<Path>)
    requires IsComplete(dir) && forall p :: p in dir && p != MANIFEST ==> Cleared(mid, dir, p)
    requires Trimmed(mid, trimmed, dir, deleteExtras, includeSecrets, deleted)
    ensures forall p :: p in dir && dir[p].Dir? ==> p !in Files(trimmed)
  {
    hide Extras;
  }

  /** Rebuilding links takes away files only where a link goes. */
  lemma FilesAfterLinks(trimmed: Tree, after: Tree, dir: Tree)
    requires IsComplete(dir)
    requires var links := LoadManifest(dir).value.symlinks; LinksTried(trimmed, after, links, |links|)
    ensures forall p :: p in Files(after) ==> p in Files(trimmed) && after[p] == trimmed[p]
    ensures forall p :: p in Files(trimmed) && p !in LinkPaths(LoadManifest(dir).value) ==> p in Files(after)
  {
    var links := LoadManifest(dir).value.symlinks;
    assert forall j :: 0 <= j < |links| ==> links[j].path in LinkPaths(LoadManifest(dir).value);
    hide WellFormed, Files;
  }

  lemma LinkedFacts(before: Tree, trimmed: Tree, after: Tree, dir: Tree, deleteExtras: bool, includeSecrets: bool)
    requires IsComplete(dir) && TrimmedFiles(before, trimmed, dir, deleteExtras, includeSecrets)
    requires var links := LoadManifest(dir).value.symlinks; LinksTried(trimmed, after, links, |links|)
    ensures Restored(before, after, dir, deleteExtras, includeSecrets)
  {
    assert forall p :: p in RestorableFiles(dir) ==> p in dir && RestorableFiles(dir)[p] == dir[p];
    hide Extras, RestorableFiles, Files, LinksTried, LinkPaths;
    FilesAfterLinks(trimmed, after, dir);
  }

  lemma RestorableAreNoLinks(dir: Tree)
    requires ValidSnapshot(dir)
    ensures forall p :: p in RestorableFiles(dir) ==> p !in LinkPaths(LoadManifest(dir).value) && dir[p].File?
    ensures forall p :: p in RestorableFiles(dir) ==> p in dir && RestorableFiles(dir)[p] == dir[p]
  {
  }

  lemma TrimmedLeaves(mid: Tree, trimmed: Tree, deleted: seq<Path>)
    requires trimmed == mid - (set p | p in deleted)
    ensures forall p :: p in Files(trimmed) <==> p in Files(mid) && p !in deleted
    ensures forall p :: p in Files(trimmed) ==> trimmed[p] == Files(mid)[p]
  {
  }

  lemma TrimmedFacts(before: Tree, mid: Tree, trimmed: Tree, dir: Tree,
                     deleteExtras: bool, includeSecrets: bool, deleted: seq<Path>)
    requires Root in dir && Root !in Files(before)
    requires Files(mid) == Files(before) + RestorableFiles(dir)
    requires Trimmed(mid, trimmed, dir, deleteExtras, includeSecrets, deleted)
    requires forall p :: p in dir && dir[p].Dir? ==> p !in Files(trimmed)
    ensures TrimmedFiles(before, trimmed, dir, deleteExtras, includeSecrets)
    ensures DeletedExactly(before, dir, deleteExtras, includeSecrets, deleted)
  {
    hide Extras, RestorableFiles, Distinct;
    forall p | p in Files(mid)
      ensures p in deleted <==>
          deleteExtras && p in Files(before) && p in Extras(before, dir, includeSecrets) && p !in RestorableFiles(dir)
    {
      SameFate(before, mid, dir, includeSecrets, p);
    }
    TrimmedLeaves(mid, trimmed, deleted);
    hide Files;
  }

  lemma WellFormedRoots(before: Tree, dir: Tree)
    requires WellFormed(before) && WellFormed(dir)
    ensures Root in dir && Root !in Files(before)
  {
  }
}
