/** What capture and restore guarantee together. */
module SnapshotRoundTrip {
  import opened FileTree
  import opened Exclude
  import opened SnapshotCapture
  import opened SnapshotRestore
  import opened Workspaces
  import opened Wrappers

  /** A restore with deletion leaves exactly the snapshot's files among those the exclusion rules let through. */
  lemma RestoreYieldsSnapshot(before: Tree, after: Tree, dir: Tree, includeSecrets: bool)
    requires ValidSnapshot(dir) && WellFormed(before)
    requires Restored(before, after, dir, true, includeSecrets)
    requires forall p :: p in RestorableFiles(dir) ==> Eligible(includeSecrets, p, dir[p].size)
    ensures EligibleFiles(includeSecrets, after) == RestorableFiles(dir)
  {
    var result := EligibleFiles(includeSecrets, after);
    forall p | p in result
      ensures p in RestorableFiles(dir)
    {
      if p !in RestorableFiles(dir) {
        assert p in Files(before) && before[p] == after[p];
        EligibleExtra(before, dir, includeSecrets, p);
      }
    }
    RestorableAreNoLinks(dir);
    hide ShouldSkipFile, Pruned, Extras, ValidSnapshot;
    assert forall p :: p in RestorableFiles(dir) ==> p in result && result[p] == dir[p];
  }

  /** An eligible file that the snapshot knows neither as a file nor as a directory is an extra. */
  lemma EligibleExtra(t: Tree, dir: Tree, includeSecrets: bool, p: Path)
    requires p in t && t[p].File? && Eligible(includeSecrets, p, t[p].size)
    ensures p in Extras(t, dir, includeSecrets) <==> p !in SnapshotPaths(dir)
  {
  }

  /** The complete snapshot directory of w. */
  function SnapshotOf(cfg: Config, w: Tree, m: Manifest): Tree {
    Apply(cfg, Image(cfg, w), WriteManifest(m))
  }

  /** Round trip: whatever the workspace has become, it gets back the captured files and no other eligible one. */
  lemma RoundTrip(cfg: Config, w: Tree, order: seq<Path>, id: string, created: int, m: Manifest, before: Tree,
                  after: Tree)
    requires WellFormed(w) && WalkOrder(w, order) && Describes(m, id, cfg, w, order, created)
    requires MANIFEST in Image(cfg, w) ==> Image(cfg, w)[MANIFEST].File?
    requires WellFormed(before) && Restored(before, after, SnapshotOf(cfg, w, m), true, cfg.includeSecrets)
    ensures EligibleFiles(cfg.includeSecrets, after) == CapturedFiles(cfg, w) - {MANIFEST}
  {
    SavedIsValid(cfg, w, order, id, created, m);
    var dir := SnapshotOf(cfg, w, m);
    assert forall p :: p in RestorableFiles(dir) ==>
             dir[p] == RestorableFiles(dir)[p] == w[p] && Capturable(cfg, p, w[p].size);
    RestoreYieldsSnapshot(before, after, dir, cfg.includeSecrets);
  }

  /** No eligible file sits where the manifest goes, and an excluded root name costs no top-level file. */
  predicate NothingLost(cfg: Config, w: Tree) {
    && MANIFEST !in EligibleFiles(cfg.includeSecrets, w)
    && (IsExcludedDir(cfg.rootName) ==> forall p :: p in EligibleFiles(cfg.includeSecrets, w) ==> !p.parent.Root?)
  }

  /** The captured files are all eligible files exactly when the workspace meets that condition. */
  lemma CaptureIsFaithfulIff(cfg: Config, w: Tree)
    ensures CapturedFiles(cfg, w) - {MANIFEST} == EligibleFiles(cfg.includeSecrets, w) <==> NothingLost(cfg, w)
  {
    hide ShouldSkipFile, Pruned, IsExcludedDir;
    var captured, eligible := CapturedFiles(cfg, w) - {MANIFEST}, EligibleFiles(cfg.includeSecrets, w);
    assert forall p :: p in captured ==> p in eligible && captured[p] == eligible[p] && p != MANIFEST;
    if NothingLost(cfg, w) {
      assert forall p :: p in eligible ==> p in captured;
    } else if MANIFEST in eligible {
      assert MANIFEST !in captured;
    } else {
      var p :| p in eligible && p.parent.Root?;
      assert p !in captured;
    }
  }

  lemma MissingIsExtra(cfg: Config, w: Tree, m: Manifest, p: Path)
    requires p in EligibleFiles(cfg.includeSecrets, w)
    ensures var dir := SnapshotOf(cfg, w, m);
            p in Extras(w, dir, cfg.includeSecrets) <==> p !in RestorableFiles(dir)
  {
    var dir := SnapshotOf(cfg, w, m);
    EligibleExtra(w, dir, cfg.includeSecrets, p);
    assert p in dir && p != MANIFEST ==> dir[p] == w[p];
  }

  /** Deleting extras right after a capture removes nothing but links, exactly under the same condition. */
  lemma UnchangedTreeKeepsFilesIff(cfg: Config, w: Tree, order: seq<Path>, id: string, created: int, m: Manifest)
    requires WellFormed(w) && WalkOrder(w, order) && Describes(m, id, cfg, w, order, created)
    requires MANIFEST in Image(cfg, w) ==> Image(cfg, w)[MANIFEST].File?
    ensures (forall p :: p in Extras(w, SnapshotOf(cfg, w, m), cfg.includeSecrets) ==> w[p].Link?) <==>
        NothingLost(cfg, w)
  {
    SavedIsValid(cfg, w, order, id, created, m);
    CaptureIsFaithfulIff(cfg, w);
    var dir, eligible := SnapshotOf(cfg, w, m), EligibleFiles(cfg.includeSecrets, w);
    forall p | p in eligible
      ensures p in Extras(w, dir, cfg.includeSecrets) <==> p !in RestorableFiles(dir)
    {
      MissingIsExtra(cfg, w, m, p);
    }
    forall p | p in Extras(w, dir, cfg.includeSecrets)
      ensures w[p].Link? || p in eligible
    {
    }
    hide Extras, NothingLost, Describes, WellFormed;
    assert forall p :: p in RestorableFiles(dir) ==> p in eligible by { CapturedAreEligible(cfg, w); }
    if forall p :: p in Extras(w, dir, cfg.includeSecrets) ==> w[p].Link? {
      assert forall p :: p in eligible ==> p in RestorableFiles(dir);
      assert RestorableFiles(dir).Keys == eligible.Keys;
    }
  }

  lemma CapturedAreEligible(cfg: Config, w: Tree)
    ensures forall p :: p in CapturedFiles(cfg, w) ==>
              p in EligibleFiles(cfg.includeSecrets, w) &&
                EligibleFiles(cfg.includeSecrets, w)[p] == CapturedFiles(cfg, w)[p]
  {
    hide ShouldSkipFile, Pruned, IsExcludedDir;
  }

  // ---- undoing a restore ----

  /**
   * Restores a snapshot and then the pre-restore snapshot it took. If both succeed the workspace again
   * holds exactly the files a capture of it held at the start, and all eligible ones if nothing was lost.
   */
  method RestoreAndUndo(ws: Workspace, store: Store, cfg: Config, id: string, deleteExtras: bool,
                        base: string, created: int, budget1: nat, budget2: nat)
    returns (undone: bool)
    requires WellFormed(ws.tree)
    requires id in store.dirs ==> Readable(store.dirs[id])
    modifies ws, store
    ensures undone ==> EligibleFiles(cfg.includeSecrets, ws.tree) == CapturedFiles(cfg, old(ws.tree)) - {MANIFEST}
    ensures undone && NothingLost(cfg, old(ws.tree)) ==>
              EligibleFiles(cfg.includeSecrets, ws.tree) == EligibleFiles(cfg.includeSecrets, old(ws.tree))
    ensures id in old(store.dirs) && ValidSnapshot(old(store.dirs)[id]) ==> ws.escaped == old(ws.escaped)
  {
    hide ValidSnapshot, Readable, Restored, EligibleFiles, CapturedFiles, RestorableFiles, WellFormed, DeletedExactly,
      LinksRebuilt, NothingLost;
    undone := false;
    var first := Restore(ws, store, cfg, id, deleteExtras, base, created, budget1);
    if !first.Done? || first.preSnapshot.None? { return; }
    var pre := first.preSnapshot.value;
    ghost var before, dir := ws.tree, store.dirs[pre];
    ValidIsReadable(dir);
    var second := Restore(ws, store, cfg, pre, true, base, created, budget2);
    if !second.Done? { return; }
    undone := true;
    PreSnapshotEligible(cfg, old(ws.tree), dir);
    RestoreYieldsSnapshot(before, ws.tree, dir, cfg.includeSecrets);
    CaptureIsFaithfulIff(cfg, old(ws.tree));
  }

  lemma PreSnapshotEligible(cfg: Config, w: Tree, dir: Tree)
    requires RestorableFiles(dir) == CapturedFiles(cfg, w) - {MANIFEST}
    ensures forall p :: p in RestorableFiles(dir) ==> Eligible(cfg.includeSecrets, p, dir[p].size)
  {
    hide ShouldSkipFile, Pruned, IsExcludedDir;
    forall p | p in RestorableFiles(dir)
      ensures Eligible(cfg.includeSecrets, p, dir[p].size)
    {
      assert dir[p] == RestorableFiles(dir)[p] == w[p];
    }
  }

  // ---- the protection list ----

  datatype ProtectedEntry = ProtectedEntry(path: Path, reason: SkipReason)

  /** Why the confirmation dialog lists an entry of the workspace, if it does. */
  function Protection(t: Tree, includeSecrets: bool, p: Path): Option<SkipReason>
    requires p in t
  {
    if p.Root? || Pruned(p) then None
    else match t[p]
      case Dir => if IsExcludedDir(p.name) then Some(ExcludedDir) else None
      case File(_, size) =>
        (match ShouldSkipFile(includeSecrets, p.name, size)
         case Skip(reason) => Some(reason)
         case Keep => None)
      case Link(_) => None
  }

  method ProtectedFiles(t: Tree, includeSecrets: bool) returns (entries: seq<ProtectedEntry>)
    requires WellFormed(t)
    ensures forall p, reason :: ProtectedEntry(p, reason) in entries <==>
              p in t && Protection(t, includeSecrets, p) == Some(reason)
  {
    var order := Walk(t);
    entries := [];
    ghost var done: set<Path> := {};
    for i := 0 to |order|
      invariant FirstOf(order, i, done) && done <= t.Keys
      invariant forall p, reason :: ProtectedEntry(p, reason) in entries <==>
                  p in done && Protection(t, includeSecrets, p) == Some(reason)
    {
      var p := order[i];
      WalkNext(t, order, i, done);
      done := done + {p};
      if p.Root? || Pruned(p) { continue; }
      if t[p].Dir? {
        if IsExcludedDir(p.name) { entries := entries + [ProtectedEntry(p, ExcludedDir)]; }
        continue;
      }
      if t[p].File? {
        var decision := ShouldSkipFile(includeSecrets, p.name, t[p].size);
        if decision.Skip? { entries := entries + [ProtectedEntry(p, decision.reason)]; }
      }
    }
    WalkDone(t, order, done);
  }

  /** Nothing the dialog lists, and nothing below a directory it lists, is ever an extra. */
  lemma ProtectedNeverDeleted(t: Tree, dir: Tree, includeSecrets: bool, listed: Path, p: Path)
    requires WellFormed(t) && listed in t && Protection(t, includeSecrets, listed).Some?
    requires p == listed || Above(listed, p)
    ensures p !in Extras(t, dir, includeSecrets)
  {
    hide ShouldSkipFile;
    if p in t && Above(listed, p) {
      AncestorsAreDirs(t, listed, p);
      PrunedIff(p);
      assert IsExcludedDir(listed.name);
    }
  }

  /** Every entry below the root has one fate; the extras are what no rule protects and the snapshot does not know. */
  lemma FatesPartition(t: Tree, dir: Tree, includeSecrets: bool, p: Path)
    requires WellFormed(t) && p in t && !t[p].Dir?
    ensures FateOf(t, dir, includeSecrets, p).InExcludedDir? <==>
        exists a :: Above(a, p) && a.Child? && IsExcludedDir(a.name)
    ensures FateOf(t, dir, includeSecrets, p).Skipped? ==>
              t[p].Link? || Protection(t, includeSecrets, p) == Some(FateOf(t, dir, includeSecrets, p).reason)
    ensures FateOf(t, dir, includeSecrets, p).InSnapshot? ==> p in dir && p != MANIFEST
    ensures p in Extras(t, dir, includeSecrets) <==>
              && !FateOf(t, dir, includeSecrets, p).InExcludedDir?
              && !FateOf(t, dir, includeSecrets, p).Skipped?
              && (p !in dir || p == MANIFEST)
  {
    PrunedIff(p);
  }
}
