/**
 * A project over any run of what the manager does to it (backend/internal/snapshot/manager.go): captures and cleanups
 * that may stop at any disk operation, restores, and the user's changes in between. opMu runs them one after the other.
 */
module SnapshotProject {
  import opened FileTree
  import opened TreeRemoval
  import opened Exclude
  import opened SnapshotCapture
  import opened SnapshotRestore
  import opened SnapshotRoundTrip
  import opened Workspaces

  /** The workspace a capture saw, and its secrets switch. */
  datatype Source = Source(includeSecrets: bool, tree: Tree)

  function WithSecrets(cfg: Config, includeSecrets: bool): Config { cfg.(includeSecrets := includeSecrets) }

  /** The directory is the whole of the workspace that some capture saw. */
  ghost predicate Whole(cfg: Config, dir: Tree, from: Source) {
    Holds(WithSecrets(cfg, from.includeSecrets), from.tree, dir)
  }

  /** Apart from the broken ones, whatever passes for a complete snapshot is whole. */
  ghost predicate Sound(cfg: Config, dirs: map<string, Tree>, sources: map<string, Source>, broken: set<string>) {
    forall id :: id in dirs && id !in broken && IsComplete(dirs[id]) ==>
      id in sources && Whole(cfg, dirs[id], sources[id])
  }

  ghost predicate AllReadable(dirs: map<string, Tree>) {
    forall id :: id in dirs ==> Readable(dirs[id])
  }

  /** The broken directories pass for complete. */
  ghost predicate Misleading(dirs: map<string, Tree>, broken: set<string>) {
    forall id :: id in broken ==> id in dirs && IsComplete(dirs[id])
  }

  // ---- removals that stop ----

  /** No captured file is gone, nor a directory in which a recorded link lies. */
  ghost predicate Intact(left: Tree, dir: Tree)
    requires IsComplete(dir)
  {
    var links := LoadManifest(dir).value.symlinks;
    && RestorableFiles(left) == RestorableFiles(dir)
    && forall i :: 0 <= i < |links| ==> links[i].path.Child? ==> links[i].path.parent in left
  }

  /** A removal of a whole snapshot that stops misleads nobody iff the manifest is gone or the rest is intact. */
  lemma StoppedRemovalIff(cfg: Config, w: Tree, dir: Tree, left: Tree)
    requires Holds(cfg, w, dir) && Remains(left, dir)
    ensures (IsComplete(left) ==> Holds(cfg, w, left)) <==> MANIFEST !in left || Intact(left, dir)
  {
    assert forall p :: p in RestorableFiles(left) ==> p in RestorableFiles(dir);
    if MANIFEST in left {
      assert LoadManifest(left) == LoadManifest(dir);
      assert Links(left) == {} by {
        assert forall p :: p in Links(left) ==> p in Links(dir);
      }
    }
  }

  /**
   * A removal that stops keeps a store sound exactly if the directory was not complete, or its manifest is gone, or
   * the rest of it is intact.
   */
  lemma RemovalKeepsSoundIff(cfg: Config, dirs: map<string, Tree>, sources: map<string, Source>, broken: set<string>,
                             id: string, left: Tree)
    requires Sound(cfg, dirs, sources, broken) && id in dirs && id !in broken && Remains(left, dirs[id])
    ensures Sound(cfg, dirs[id := left], sources, broken) <==>
        !IsComplete(dirs[id]) || MANIFEST !in left || Intact(left, dirs[id])
  {
    if IsComplete(dirs[id]) {
      StoppedRemovalIff(WithSecrets(cfg, sources[id].includeSecrets), sources[id].tree, dirs[id], left);
    }
    hide Holds, Intact, Remains;
    var after := dirs[id := left];
    assert IsComplete(left) ==> IsComplete(dirs[id]) && MANIFEST in left by { RemainsComplete(left, dirs[id]); }
    if Sound(cfg, after, sources, broken) {
      assert id in after && after[id] == left;
    }
  }

  lemma RemainsReadable(left: Tree, dir: Tree)
    requires Remains(left, dir) && Readable(dir)
    ensures Readable(left)
  {
    assert forall p :: p in Links(left) ==> p in Links(dir);
  }

  lemma RemainsComplete(left: Tree, dir: Tree)
    requires Remains(left, dir)
    ensures IsComplete(left) <==> IsComplete(dir) && MANIFEST in left
  {
  }

  /**
   * A removal may begin with any captured file. If it stops there, the directory passes for a valid snapshot, and
   * restoring it with deletion takes the file from a workspace that has not changed since the capture.
   */
  lemma FileRemovedFirst(cfg: Config, w: Tree, dir: Tree, p: Path, after: Tree)
    requires WellFormed(w) && Holds(cfg, w, dir) && p in RestorableFiles(dir)
    ensures RemovalOrder(dir, [p]) && After(dir, [p]) == dir - {p}
    ensures ValidSnapshot(dir - {p}) && !Holds(cfg, w, dir - {p})
    ensures p in Files(w) && p in Extras(w, dir - {p}, cfg.includeSecrets)
    ensures Restored(w, after, dir - {p}, true, cfg.includeSecrets) ==> p !in Files(after)
  {
    var left := dir - {p};
    assert RestorableFiles(dir)[p] == CapturedFiles(cfg, w)[p] == w[p];
    assert Leaf(dir, p);
    assert [p][..0] == [];
    assert After(dir, []) == dir;
    assert Remains(left, dir);
    assert p !in RestorableFiles(left);
    PreSnapshotEligible(cfg, w, dir);
    EligibleExtra(w, left, cfg.includeSecrets, p);
  }

  /** The broken directories after a removal of id, which may have stopped. */
  ghost function BrokenAfter(before: map<string, Tree>, after: map<string, Tree>, broken: set<string>, id: string)
    : (now: set<string>)
    requires id in before && (id in after ==> Remains(after[id], before[id]))
    ensures now <= broken + {id} && (id !in after ==> now == broken - {id})
  {
    if id in after && IsComplete(after[id]) && (id in broken || !Intact(after[id], before[id]))
    then broken + {id}
    else broken - {id}
  }

  /** The other directories are as before. */
  ghost predicate OthersKept(before: map<string, Tree>, after: map<string, Tree>, id: string) {
    && (forall d :: d in before && d != id ==> d in after && after[d] == before[d])
    && forall d :: d in after && d != id ==> d in before
  }

  lemma OthersStay(before: map<string, Tree>, after: map<string, Tree>, id: string)
    requires after - {id} == before - {id}
    ensures OthersKept(before, after, id)
  {
    assert forall d :: d in before && d != id ==> d in before - {id};
    assert forall d :: d in after && d != id ==> d in after - {id};
  }

  lemma RemovalKeepsAll(cfg: Config, before: map<string, Tree>, after: map<string, Tree>, sources: map<string, Source>,
                        broken: set<string>, id: string)
    requires AllReadable(before) && Misleading(before, broken) && Sound(cfg, before, sources, broken)
    requires id in before && after - {id} == before - {id} && (id in after ==> Remains(after[id], before[id]))
    ensures var now := BrokenAfter(before, after, broken, id);
            AllReadable(after) && Misleading(after, now) && Sound(cfg, after, sources, now)
  {
    hide Intact, Readable, Remains, IsComplete, Whole;
    OthersStay(before, after, id);
    if id in after {
      RemainsReadable(after[id], before[id]);
      RemainsComplete(after[id], before[id]);
      if id !in broken {
        RemovalKeepsSoundIff(cfg, before, sources, broken, id, after[id]);
        assert after == before[id := after[id]];
      }
    }
  }

  // ---- the store grows ----

  /** The new directories come from this workspace. */
  function Learned(sources: map<string, Source>, added: set<string>, from: Source): map<string, Source> {
    map id | id in sources.Keys + added :: if id in added then from else sources[id]
  }

  lemma SoundGrows(cfg: Config, before: map<string, Tree>, after: map<string, Tree>, sources: map<string, Source>,
                   broken: set<string>, broken': set<string>, from: Source)
    requires Sound(cfg, before, sources, broken) && broken <= broken'
    requires forall id :: id in before ==> id in after && after[id] == before[id]
    requires forall id :: id in after && id !in before && id !in broken' && IsComplete(after[id]) ==>
               Whole(cfg, after[id], from)
    ensures Sound(cfg, after, Learned(sources, after.Keys - before.Keys, from), broken')
  {
    hide IsComplete, Whole;
  }

  class Project {
    /** The project's settings; the secrets switch may change from call to call. */
    const cfg: Config
    const ws: Workspace
    const store: Store
    /** What the finished captures held. */
    ghost var sources: map<string, Source>
    /** Left by a capture that stopped with a decoy in place, or by a removal that stopped before the manifest. */
    ghost var broken: set<string>

    /** Every directory of the store can be read, and what passes for complete is whole or known to be broken. */
    ghost predicate Valid()
      reads this, ws, store
    {
      && WellFormed(ws.tree) && AllReadable(store.dirs)
      && Misleading(store.dirs, broken) && Sound(cfg, store.dirs, sources, broken)
    }

    constructor (cfg: Config, tree: Tree, leadsToDir: (Tree, Path) -> bool)
      requires WellFormed(tree)
      ensures Valid() && fresh(ws) && fresh(store) && ws.tree == tree && store.dirs == map[]
      ensures broken == {} && !ws.escaped && this.cfg == cfg
    {
      this.cfg := cfg;
      ws := new Workspace(tree, leadsToDir);
      store := new Store();
      sources, broken := map[], {};
    }

    /** The user changes the workspace. */
    method Edit(tree: Tree)
      requires Valid() && WellFormed(tree)
      modifies ws`tree
      ensures Valid() && ws.tree == tree
    {
      ws.tree := tree;
    }

    /**
     * The removal of one directory, which may stop after any number of entries. It breaks the directory if that was
     * complete and still passes for it without being intact. A cleanup is a series of removals up to one that stops.
     */
    method Remove(id: string, budget: nat)
      requires Valid() && id in store.dirs
      modifies this, store
      ensures Valid() && sources == old(sources)
      ensures OthersKept(old(store.dirs), store.dirs, id)
      ensures id in store.dirs <==> budget < |old(store.dirs)[id]|
      ensures id in store.dirs ==> Remains(store.dirs[id], old(store.dirs)[id])
      ensures broken == BrokenAfter(old(store.dirs), store.dirs, old(broken), id)
    {
      assert Readable(store.dirs[id]) && WellFormed(store.dirs[id]);
      hide Intact, IsComplete, Readable, Remains, Sound, Misleading, BrokenAfter;
      ghost var before := store.dirs;
      store.RemoveAll(id, budget);
      OthersStay(before, store.dirs, id);
      RemovalKeepsAll(cfg, before, store.dirs, sources, broken, id);
      broken := BrokenAfter(before, store.dirs, broken, id);
    }

    /** A capture, stopped after `budget` disk writes if those do not suffice. */
    method Snapshot(includeSecrets: bool, base: string, created: int, budget: nat)
      returns (outcome: Outcome, id: string)
      requires Valid()
      modifies this, store
      ensures Valid() && id !in old(store.dirs) && store.dirs - {id} == old(store.dirs)
      ensures broken == old(broken) +
          if outcome.Stopped? && id in store.dirs && IsComplete(store.dirs[id]) then {id} else {}
      ensures outcome.Stopped? && id in broken ==> Decoy(WithSecrets(cfg, includeSecrets), ws.tree)
      ensures outcome.Saved? ==>
                && id in store.dirs && IsComplete(store.dirs[id])
                && Whole(cfg, store.dirs[id], Source(includeSecrets, ws.tree))
                && id in sources && sources[id] == Source(includeSecrets, ws.tree)
    {
      hide Readable, Holds, Captured, WalkOrder, Decoy, IsComplete, Sound;
      ghost var order;
      outcome, id, order := Capture(ws.tree, store, WithSecrets(cfg, includeSecrets), base, created, budget);
      assert forall d :: d in store.dirs && d != id ==> d in store.dirs - {id};
      assert forall d :: d in old(store.dirs) ==> d in store.dirs - {id};
      ghost var from, was := Source(includeSecrets, ws.tree), broken;
      if outcome.Stopped? && id in store.dirs && IsComplete(store.dirs[id]) { broken := broken + {id}; }
      SoundGrows(cfg, old(store.dirs), store.dirs, sources, was, broken, from);
      sources := Learned(sources, store.dirs.Keys - old(store.dirs).Keys, from);
      if outcome.Saved? {
        HeldIsEligible(WithSecrets(cfg, includeSecrets), ws.tree, store.dirs[id]);
      }
    }

    /**
     * A restore. What it reads is the whole of a captured workspace unless it is broken: with deletion, it ends with
     * exactly the files that capture held among the eligible ones, and it never writes through a link.
     */
    method RestoreFrom(id: string, deleteExtras: bool, includeSecrets: bool, base: string, created: int, budget: nat)
      returns (result: RestoreResult)
      requires Valid()
      modifies this, ws, store
      ensures Valid()
      ensures forall d :: d in old(store.dirs) ==> d in store.dirs && store.dirs[d] == old(store.dirs)[d]
      ensures old(broken) <= broken && forall d :: d in broken ==> d in old(broken) || d !in old(store.dirs)
      ensures broken != old(broken) ==>
          result == Refused(PreSnapshotFailed) && Decoy(WithSecrets(cfg, includeSecrets), old(ws.tree))
      ensures result.Refused? ==> ws.tree == old(ws.tree)
      ensures id !in old(broken) ==> ws.escaped == old(ws.escaped)
      ensures result.Done? ==>
                && id in old(store.dirs) && IsComplete(old(store.dirs)[id])
                && Restored(old(ws.tree), ws.tree, old(store.dirs)[id], deleteExtras, includeSecrets)
      ensures result.Done? && id !in old(broken) ==>
                && id in old(sources)
                && (deleteExtras && old(sources)[id].includeSecrets == includeSecrets ==>
                      EligibleFiles(includeSecrets, ws.tree) ==
                      CapturedFiles(WithSecrets(cfg, includeSecrets), old(sources)[id].tree) - {MANIFEST})
    {
      hide Readable, Holds, Decoy, IsComplete, Restored, DeletedExactly, LinksRebuilt, PreSnapshotTaken, EligibleFiles,
        CapturedFiles, Sound, Learned, LoadManifest, RestorableFiles, ValidSnapshot;
      if id !in broken { SoundMeans(cfg, store.dirs, sources, broken, id); }
      ghost var was := broken;
      result := Restore(ws, store, WithSecrets(cfg, includeSecrets), id, deleteExtras, base, created, budget);
      ghost var from := Source(includeSecrets, old(ws.tree));
      if result == Refused(PreSnapshotFailed) && Decoy(WithSecrets(cfg, includeSecrets), old(ws.tree)) {
        broken := broken + set d | d in store.dirs && d !in old(store.dirs) && IsComplete(store.dirs[d]);
      }
      SoundGrows(cfg, old(store.dirs), store.dirs, sources, was, broken, from);
      sources := Learned(sources, store.dirs.Keys - old(store.dirs).Keys, from);
      if result.Done? && id !in was && deleteExtras && old(sources)[id].includeSecrets == includeSecrets {
        RestoreYieldsSnapshot(old(ws.tree), ws.tree, old(store.dirs)[id], includeSecrets);
      }
    }
  }

  lemma SoundMeans(cfg: Config, dirs: map<string, Tree>, sources: map<string, Source>, broken: set<string>, id: string)
    requires Sound(cfg, dirs, sources, broken) && id !in broken
    ensures id in dirs && IsComplete(dirs[id]) ==>
              && id in sources && ValidSnapshot(dirs[id])
              && RestorableFiles(dirs[id]) ==
                 CapturedFiles(WithSecrets(cfg, sources[id].includeSecrets), sources[id].tree) - {MANIFEST}
              && forall p :: p in RestorableFiles(dirs[id]) ==>
                   Eligible(sources[id].includeSecrets, p, dirs[id][p].size)
  {
    if id in dirs && IsComplete(dirs[id]) {
      HeldIsEligible(WithSecrets(cfg, sources[id].includeSecrets), sources[id].tree, dirs[id]);
    }
  }

  lemma HeldIsEligible(cfg: Config, w: Tree, dir: Tree)
    requires Holds(cfg, w, dir)
    ensures ValidSnapshot(dir) && IsComplete(dir) && RestorableFiles(dir) == CapturedFiles(cfg, w) - {MANIFEST}
    ensures forall p :: p in RestorableFiles(dir) ==> Eligible(cfg.includeSecrets, p, dir[p].size)
  {
    PreSnapshotEligible(cfg, w, dir);
  }
}
