/** Taking a snapshot (backend/internal/snapshot/capture.go, manifest.go). */
module SnapshotCapture {
  import opened FileTree
  import opened TreeRemoval
  import opened Exclude
  import opened Decimal
  import opened Wrappers

  const MANIFEST: Path := Child(Root, "manifest.json")

  /**
   * The workspace root in normal form, its last component, and the secrets switch.
   * manifestBytes is the length of the manifest's JSON text, which is not modelled.
   */
  datatype Config = Config(root: string, rootName: string, includeSecrets: bool, manifestBytes: nat)

  function LoadManifest(dir: Tree): Option<Manifest> {
    if MANIFEST in dir && dir[MANIFEST].File? && dir[MANIFEST].content.Json?
    then Some(dir[MANIFEST].content.manifest)
    else None
  }

  predicate IsComplete(dir: Tree) {
    LoadManifest(dir).Some? && LoadManifest(dir).value.complete
  }

  // ---- what one visited entry contributes ----

  /** The walk copies this regular file: besides being eligible it needs a parent without an excluded name. */
  predicate Capturable(cfg: Config, p: Path, size: nat) {
    Eligible(cfg.includeSecrets, p, size) && (p.parent.Root? ==> !IsExcludedDir(cfg.rootName))
  }

  datatype Write = MakeDir(path: Path) | CopyFile(path: Path, node: Node) | WriteManifest(manifest: Manifest)

  function VisitWrites(cfg: Config, w: Tree, p: Path): (steps: seq<Write>)
    requires p in w
    ensures |steps| <= 1
  {
    if p.Root? || Pruned(p) then []
    else match w[p]
      case Dir => if IsExcludedDir(p.name) then [] else [MakeDir(p)]
      case File(_, size) => if Capturable(cfg, p, size) then [CopyFile(p, w[p])] else []
      case Link(_) => []
  }

  function Writes(cfg: Config, w: Tree, order: seq<Path>, n: nat): seq<Write>
    requires n <= |order| && forall p :: p in order ==> p in w
  {
    if n == 0 then [] else Writes(cfg, w, order, n - 1) + VisitWrites(cfg, w, order[n - 1])
  }

  function VisitLinks(w: Tree, p: Path): seq<SymlinkEntry>
    requires p in w
  {
    if p.Child? && !Pruned(p) && w[p].Link? then [SymlinkEntry(p, w[p].target)] else []
  }

  function SymlinksOf(w: Tree, order: seq<Path>, n: nat): seq<SymlinkEntry>
    requires n <= |order| && forall p :: p in order ==> p in w
  {
    if n == 0 then [] else SymlinksOf(w, order, n - 1) + VisitLinks(w, order[n - 1])
  }

  function VisitSkips(cfg: Config, w: Tree, p: Path): seq<SkippedFile>
    requires p in w
  {
    if p.Root? || Pruned(p) then []
    else match w[p]
      case Dir => if IsExcludedDir(p.name) then [SkippedFile(p, ExcludedDir)] else []
      case File(_, size) =>
        var decision := ShouldSkipFile(cfg.includeSecrets, p.name, size);
        if p.parent.Root? && IsExcludedDir(cfg.rootName) then []
        else if decision.Skip? then [SkippedFile(p, decision.reason)] else []
      case Link(_) => []
  }

  function SkipsOf(cfg: Config, w: Tree, order: seq<Path>, n: nat): seq<SkippedFile>
    requires n <= |order| && forall p :: p in order ==> p in w
  {
    if n == 0 then [] else SkipsOf(cfg, w, order, n - 1) + VisitSkips(cfg, w, order[n - 1])
  }

  // ---- the snapshot directory after a number of writes ----

  function Apply(cfg: Config, dir: Tree, step: Write): Tree {
    match step
    case MakeDir(p) => dir[p := Dir]
    case CopyFile(p, node) => dir[p := node]
    case WriteManifest(m) => dir[MANIFEST := File(Json(m), cfg.manifestBytes)]
  }

  function Replay(cfg: Config, steps: seq<Write>): Tree {
    if steps == [] then map[Root := Dir]
    else Apply(cfg, Replay(cfg, steps[..|steps| - 1]), steps[|steps| - 1])
  }

  lemma ReplayAppend(cfg: Config, steps: seq<Write>, more: seq<Write>)
    requires |more| <= 1
    ensures Replay(cfg, steps + more) ==
            if more == [] then Replay(cfg, steps) else Apply(cfg, Replay(cfg, steps), more[0])
  {
    if more == [] {
      assert steps + more == steps;
    } else {
      assert (steps + more)[..|steps + more| - 1] == steps;
    }
  }

  // ---- independent description of the result ----

  /** The entry is reproduced in the snapshot directory. */
  predicate Stored(cfg: Config, w: Tree, p: Path)
    requires p in w
  {
    match w[p]
    case Dir => p.Root? || (!Pruned(p) && !IsExcludedDir(p.name))
    case File(_, size) => p.Child? && Capturable(cfg, p, size)
    case Link(_) => false
  }

  lemma ImageHasNoLinks(cfg: Config, w: Tree)
    ensures Links(Image(cfg, w)) == {}
  {
  }

  function StoredPaths(cfg: Config, w: Tree): set<Path> {
    set p | p in w && Stored(cfg, w, p)
  }

  function Image(cfg: Config, w: Tree): Tree {
    map p | p in w && Stored(cfg, w, p) :: w[p]
  }

  function CapturedFiles(cfg: Config, w: Tree): map<Path, Node> {
    map p | p in w && w[p].File? && Capturable(cfg, p, w[p].size) :: w[p]
  }

  /** What a restore can take from a snapshot directory: the manifest's own place is not read as a file. */
  function RestorableFiles(dir: Tree): map<Path, Node> {
    map p | p in dir && dir[p].File? && p != MANIFEST :: dir[p]
  }

  ghost function SizeOver(files: map<Path, Node>, keys: set<Path>): nat
    requires keys <= files.Keys && forall p :: p in keys ==> files[p].File?
    decreases keys
  {
    if keys == {} then 0
    else
      var p :| p in keys;
      files[p].size + SizeOver(files, keys - {p})
  }

  lemma {:induction false} SizeOverWithout(files: map<Path, Node>, keys: set<Path>, p: Path)
    requires keys <= files.Keys && forall q :: q in keys ==> files[q].File?
    requires p in keys
    ensures SizeOver(files, keys) == files[p].size + SizeOver(files, keys - {p})
    decreases keys
  {
    var q :| q in keys && SizeOver(files, keys) == files[q].size + SizeOver(files, keys - {q});
    if q != p {
      SizeOverWithout(files, keys - {q}, p);
      SizeOverWithout(files, keys - {p}, q);
      assert keys - {q} - {p} == keys - {p} - {q};
    }
  }

  // ---- replaying a whole walk ----

  /** What copying the entry takes. */
  function CopyOf(w: Tree, keep: set<Path>, p: Path): seq<Write>
    requires p in w
  {
    if p.Root? || p !in keep then [] else [if w[p].Dir? then MakeDir(p) else CopyFile(p, w[p])]
  }

  /** One write for each kept path other than the root. */
  function Copies(w: Tree, keep: set<Path>, order: seq<Path>, n: nat): seq<Write>
    requires n <= |order| && forall p :: p in order ==> p in w
  {
    if n == 0 then []
    else Copies(w, keep, order, n - 1) + CopyOf(w, keep, order[n - 1])
  }

  lemma {:induction false} WritesAreCopies(cfg: Config, w: Tree, order: seq<Path>, n: nat)
    requires n <= |order| && forall p :: p in order ==> p in w
    ensures Writes(cfg, w, order, n) == Copies(w, StoredPaths(cfg, w), order, n)
  {
    if n == 0 {
    } else {
      WritesAreCopies(cfg, w, order, n - 1);
      assert order[n - 1] in StoredPaths(cfg, w) <==> Stored(cfg, w, order[n - 1]);
    }
  }

  function Kept(w: Tree, keep: set<Path>, visited: seq<Path>): Tree {
    map p | p in w && (p.Root? || (p in visited && p in keep)) :: w[p]
  }

  lemma {:induction false} ReplayCopies(cfg: Config, w: Tree, keep: set<Path>, order: seq<Path>, n: nat)
    requires WellFormed(w) && n <= |order| && forall p :: p in order ==> p in w
    ensures Replay(cfg, Copies(w, keep, order, n)) == Kept(w, keep, order[..n])
  {
    if n == 0 {
      assert Kept(w, keep, []) == map[Root := Dir];
    } else {
      ReplayCopies(cfg, w, keep, order, n - 1);
      assert order[..n] == order[..n - 1] + [order[n - 1]];
      hide Replay, Kept, WellFormed, CopyOf;
      ReplayOneMore(cfg, w, keep, Copies(w, keep, order, n - 1), order[..n - 1], order[n - 1]);
    }
  }

  lemma ReplayOneMore(cfg: Config, w: Tree, keep: set<Path>, steps: seq<Write>, visited: seq<Path>, p: Path)
    requires WellFormed(w) && p in w && Replay(cfg, steps) == Kept(w, keep, visited)
    ensures Replay(cfg, steps + CopyOf(w, keep, p)) == Kept(w, keep, visited + [p])
  {
    KeptGrows(w, keep, visited, p);
    hide Replay, Kept, WellFormed;
    ReplayAppend(cfg, steps, CopyOf(w, keep, p));
  }

  lemma KeptGrows(w: Tree, keep: set<Path>, visited: seq<Path>, p: Path)
    requires WellFormed(w) && p in w
    ensures Kept(w, keep, visited + [p]) ==
            if p.Root? || p !in keep then Kept(w, keep, visited) else Kept(w, keep, visited)[p := w[p]]
  {
  }

  /** Walking the whole tree reproduces exactly the stored entries, whatever the order. */
  lemma ReplayWalk(cfg: Config, w: Tree, order: seq<Path>)
    requires WellFormed(w) && WalkOrder(w, order)
    ensures Replay(cfg, Writes(cfg, w, order, |order|)) == Image(cfg, w)
  {
    WritesAreCopies(cfg, w, order, |order|);
    ReplayCopies(cfg, w, StoredPaths(cfg, w), order, |order|);
    assert order[..|order|] == order;
    assert Kept(w, StoredPaths(cfg, w), order).Keys == StoredPaths(cfg, w) == Image(cfg, w).Keys;
  }

  /** Every prefix of the writes only ever holds copies of kept entries. */
  lemma {:induction false} PrefixWithinKept(cfg: Config, w: Tree, keep: set<Path>, order: seq<Path>, n: nat, k: nat)
    requires WellFormed(w) && n <= |order| && (forall p :: p in order ==> p in w)
    requires k <= |Copies(w, keep, order, n)|
    ensures var dir := Replay(cfg, Copies(w, keep, order, n)[..k]);
            forall p :: p in dir ==> p in w && dir[p] == w[p] && (p.Root? || p in keep)
    decreases n
  {
    var all := Copies(w, keep, order, n);
    if k == |all| {
      ReplayCopies(cfg, w, keep, order, n);
      assert all[..k] == all;
    } else {
      PrefixWithinKept(cfg, w, keep, order, n - 1, k);
      assert all[..k] == Copies(w, keep, order, n - 1)[..k];
    }
  }

  // ---- crash safety ----

  /** A captured workspace file that a reader of the snapshot directory takes for a complete manifest. */
  predicate Decoy(cfg: Config, w: Tree) {
    && MANIFEST in CapturedFiles(cfg, w)
    && w[MANIFEST].content.Json?
    && w[MANIFEST].content.manifest.complete
  }

  /** The snapshot directory of a capture of w that stopped after k copies. */
  function StoppedDir(cfg: Config, w: Tree, order: seq<Path>, k: nat): Tree
    requires (forall p :: p in order ==> p in w) && k <= |Writes(cfg, w, order, |order|)|
  {
    Replay(cfg, Writes(cfg, w, order, |order|)[..k])
  }

  /**
   * Stopping before the manifest is in place leaves a directory that every reader takes for
   * incomplete, at each possible point, exactly when the workspace has no decoy.
   */
  lemma CrashSafeIff(cfg: Config, w: Tree, order: seq<Path>)
    requires WellFormed(w) && WalkOrder(w, order)
    ensures (forall k :: 0 <= k <= |Writes(cfg, w, order, |order|)| ==> !IsComplete(StoppedDir(cfg, w, order, k)))
            <==> !Decoy(cfg, w)
  {
    hide VisitWrites, Stored, Capturable, StoppedDir;
    var steps := Writes(cfg, w, order, |order|);
    if Decoy(cfg, w) {
      ReplayWalk(cfg, w, order);
      MidwayDir(cfg, w, order, |order|);
      assert order[..|order|] == order;
      StoredFile(cfg, w, MANIFEST);
      assert IsComplete(StoppedDir(cfg, w, order, |steps|));
    } else {
      forall k | 0 <= k <= |steps|
        ensures !IsComplete(StoppedDir(cfg, w, order, k))
      {
        StoppedWithinStored(cfg, w, order, k);
        if MANIFEST in w && w[MANIFEST].File? { StoredFile(cfg, w, MANIFEST); }
      }
    }
  }

  lemma StoppedWithinStored(cfg: Config, w: Tree, order: seq<Path>, k: nat)
    requires WellFormed(w) && (forall p :: p in order ==> p in w) && k <= |Writes(cfg, w, order, |order|)|
    ensures forall p :: p in StoppedDir(cfg, w, order, k) ==>
                          p in w && StoppedDir(cfg, w, order, k)[p] == w[p] && (p.Root? || p in StoredPaths(cfg, w))
  {
    hide VisitWrites, Stored;
    WritesAreCopies(cfg, w, order, |order|);
    PrefixWithinKept(cfg, w, StoredPaths(cfg, w), order, |order|, k);
  }

  /**
   * With a decoy, stopping right after it was copied leaves a directory that counts as complete
   * and lacks every captured file the walk had not reached.
   */
  lemma DecoyLosesFiles(cfg: Config, w: Tree, order: seq<Path>, i: nat)
    requires WellFormed(w) && WalkOrder(w, order) && Decoy(cfg, w) && i < |order| && order[i] == MANIFEST
    ensures exists k :: && 0 <= k <= |Writes(cfg, w, order, |order|)|
                        && IsComplete(StoppedDir(cfg, w, order, k))
                        && forall p :: p in CapturedFiles(cfg, w) && p !in order[..i + 1] ==>
                             p !in StoppedDir(cfg, w, order, k)
  {
    hide Stored, VisitWrites, Capturable, StoppedDir;
    MidwayDir(cfg, w, order, i + 1);
    var dir := StoppedDir(cfg, w, order, |Writes(cfg, w, order, i + 1)|);
    assert MANIFEST in order[..i + 1];
    StoredFile(cfg, w, MANIFEST);
  }

  lemma StoredFile(cfg: Config, w: Tree, p: Path)
    requires p in w && w[p].File?
    ensures p in StoredPaths(cfg, w) <==> p in CapturedFiles(cfg, w)
  {
  }

  /** The directory after the first n entries of the walk. */
  lemma MidwayDir(cfg: Config, w: Tree, order: seq<Path>, n: nat)
    requires WellFormed(w) && (forall p :: p in order ==> p in w) && n <= |order|
    ensures var k := |Writes(cfg, w, order, n)|;
            k <= |Writes(cfg, w, order, |order|)|
            && StoppedDir(cfg, w, order, k) == Kept(w, StoredPaths(cfg, w), order[..n])
  {
    hide VisitWrites, Stored;
    WritesOfPrefix(cfg, w, order, n, |order|);
    assert Writes(cfg, w, order, |order|)[..|Writes(cfg, w, order, n)|] == Writes(cfg, w, order, n);
    WritesAreCopies(cfg, w, order, n);
    ReplayCopies(cfg, w, StoredPaths(cfg, w), order, n);
  }

  /** Such workspaces exist: any that keeps a complete manifest at its top next to another file. */
  lemma DecoyWorkspace(cfg: Config, foreign: Manifest, name: string)
    requires cfg.includeSecrets && !IsExcludedDir(cfg.rootName) && foreign.complete && name != "manifest.json"
    ensures var other := Child(Root, name);
            var w := map[Root := Dir, MANIFEST := File(Json(foreign), 300), other := File(Raw("x"), 1)];
            WellFormed(w) && Decoy(cfg, w) && other in CapturedFiles(cfg, w)
  {
    hide IsExcludedDir;
    assert Capturable(cfg, MANIFEST, 300) && Capturable(cfg, Child(Root, name), 1);
  }

  // ---- the operation ----

  /** Stopped: the process ended, or a write to the store failed, before the removal of an empty snapshot. */
  datatype Outcome = Saved(manifest: Manifest) | NothingToSave | Stopped

  function Candidate(base: string, i: nat): string {
    if i < 2 then base else base + "-" + Itoa(i) + ""
  }

  /** The snapshot directories of one project. */
  class Store {
    var dirs: map<string, Tree>

    constructor ()
      ensures dirs == map[]
    {
      dirs := map[];
    }

    /** Removes a snapshot directory entry by entry; after `budget` entries the removal stops. */
    method RemoveAll(id: string, budget: nat)
      requires id in dirs && WellFormed(dirs[id])
      modifies this
      ensures dirs - {id} == old(dirs) - {id}
      ensures id in dirs ==> Remains(dirs[id], old(dirs)[id])
      ensures id in dirs <==> budget < |old(dirs)[id]|
    {
      hide Remains, WellFormed, After, RemovalOrder;
      var left, _ := RemoveEntries(dirs[id], budget);
      dirs := if left == map[] then dirs - {id} else dirs[id := left];
    }

    /** The search for an unused name ends, because its candidates are pairwise different. */
    method NewSnapshotId(base: string) returns (id: string)
      ensures id !in dirs
      ensures exists i :: 1 <= i && id == Candidate(base, i) && forall j :: 1 <= j < i ==> Candidate(base, j) in dirs
    {
      var i := 1;
      id := base;
      ghost var untried := dirs.Keys;
      ghost var tried: seq<string> := [];
      while id in dirs
        invariant 1 <= i && id == Candidate(base, i)
        invariant untried <= dirs.Keys && |tried| == i - 1
        invariant forall j :: 1 <= j < i ==> tried[j - 1] == Candidate(base, j) && tried[j - 1] in dirs
        invariant forall d :: d in dirs && d !in untried ==> d in tried
        decreases |untried|
      {
        if id in tried {
          var k :| 0 <= k < |tried| && tried[k] == id;
          assert id == Candidate(base, k + 1);
          if k >= 1 {
            AffixedInjective(base + "-", "", i, k + 1);
          }
          assert false;
        }
        untried := untried - {id};
        tried := tried + [id];
        i := i + 1;
        id := base + "-" + Itoa(i) + "";
      }
    }
  }

  /** The captured files among the first n visited entries. */
  function CapturedAmong(cfg: Config, w: Tree, order: seq<Path>, n: nat): set<Path>
    requires n <= |order|
  {
    set p | p in order[..n] && p in CapturedFiles(cfg, w)
  }

  /** The manifest as it stands after n entries of the walk. */
  ghost predicate Drafted(m: Manifest, id: string, cfg: Config, w: Tree, order: seq<Path>, n: nat, created: int)
    requires n <= |order| && forall p :: p in order ==> p in w
  {
    m == Manifest(id, cfg.root, created,
                  |CapturedAmong(cfg, w, order, n)|, SizeOver(w, CapturedAmong(cfg, w, order, n)),
                  false, SkipsOf(cfg, w, order, n), SymlinksOf(w, order, n))
  }

  /** The manifest a finished capture of w writes. */
  ghost predicate Describes(m: Manifest, id: string, cfg: Config, w: Tree, order: seq<Path>, created: int)
    requires forall p :: p in order ==> p in w
  {
    m == Manifest(id, cfg.root, created,
                  |CapturedFiles(cfg, w)|, SizeOver(w, CapturedFiles(cfg, w).Keys),
                  true, SkipsOf(cfg, w, order, |order|), SymlinksOf(w, order, |order|))
  }

  lemma VisitedOnce(cfg: Config, w: Tree, order: seq<Path>, i: nat)
    requires Distinct(order) && (forall p :: p in order ==> p in w) && i < |order|
    ensures var before, after := CapturedAmong(cfg, w, order, i), CapturedAmong(cfg, w, order, i + 1);
            if order[i] in CapturedFiles(cfg, w)
            then after == before + {order[i]} && |after| == |before| + 1
                 && SizeOver(w, after) == SizeOver(w, before) + w[order[i]].size
            else after == before
  {
    var before, after, p := CapturedAmong(cfg, w, order, i), CapturedAmong(cfg, w, order, i + 1), order[i];
    assert NewAt(order, i);
    assert order[..i + 1] == order[..i] + [p];
    if p in CapturedFiles(cfg, w) {
      assert after == before + {p} && p !in before;
      SizeOverWithout(w, after, p);
      assert after - {p} == before;
    } else {
      assert after == before;
    }
  }

  /** The writes of a walk cut short are a prefix of those of the whole walk. */
  lemma {:induction false} WritesOfPrefix(cfg: Config, w: Tree, order: seq<Path>, i: nat, n: nat)
    requires (forall p :: p in order ==> p in w) && i <= n <= |order|
    ensures Writes(cfg, w, order, i) <= Writes(cfg, w, order, n)
  {
    if i < n {
      WritesOfPrefix(cfg, w, order, i, n - 1);
    }
  }

  lemma StoppedAt(cfg: Config, w: Tree, order: seq<Path>, i: nat)
    requires (forall p :: p in order ==> p in w) && i < |order| && VisitWrites(cfg, w, order[i]) != []
    ensures var done := |Writes(cfg, w, order, i)|;
            done < |Writes(cfg, w, order, |order|)|
            && Writes(cfg, w, order, i) == Writes(cfg, w, order, |order|)[..done]
  {
    WritesOfPrefix(cfg, w, order, i, |order|);
    WritesOfPrefix(cfg, w, order, i + 1, |order|);
  }

  /**
   * What the walk does at one entry: at most one disk write, which may fail, and a longer manifest.
   */
  method Visit(w: Tree, cfg: Config, p: Path, dir: Tree, draft: Manifest, left: nat)
    returns (dir': Tree, draft': Manifest, left': nat, ok: bool)
    requires p in w
    ensures ok <==> left > 0 || VisitWrites(cfg, w, p) == []
    ensures !ok ==> dir' == dir
    ensures ok ==> left' == left - |VisitWrites(cfg, w, p)|
    ensures ok ==> dir' == if VisitWrites(cfg, w, p) == [] then dir else Apply(cfg, dir, VisitWrites(cfg, w, p)[0])
    ensures ok ==> draft' == draft.(
                     fileCount := draft.fileCount + (if p in CapturedFiles(cfg, w) then 1 else 0),
                     totalSize := draft.totalSize + (if p in CapturedFiles(cfg, w) then w[p].size else 0),
                     skipped := draft.skipped + VisitSkips(cfg, w, p),
                     symlinks := draft.symlinks + VisitLinks(w, p))
  {
    dir', draft', left', ok := dir, draft, left, true;
    if p.Root? || Pruned(p) {
      return;
    }
    match w[p] {
      case Link(target) =>
        draft' := draft.(symlinks := draft.symlinks + [SymlinkEntry(p, target)]);
      case Dir =>
        if IsExcludedDir(p.name) {
          draft' := draft.(skipped := draft.skipped + [SkippedFile(p, ExcludedDir)]);
        } else if left > 0 {
          dir', left' := dir[p := Dir], left - 1;
        } else {
          ok := false;
        }
      case File(_, size) =>
        if p.parent.Root? && IsExcludedDir(cfg.rootName) {
          return;
        }
        var decision := ShouldSkipFile(cfg.includeSecrets, p.name, size);
        if decision.Skip? {
          draft' := draft.(skipped := draft.skipped + [SkippedFile(p, decision.reason)]);
        } else if left > 0 {
          dir', left' := dir[p := w[p]], left - 1;
          draft' := draft.(fileCount := draft.fileCount + 1, totalSize := draft.totalSize + size);
        } else {
          ok := false;
        }
    }
  }

  /** n entries of the walk are done and `left` of the budget remains. */
  ghost predicate Progress(dir: Tree, draft: Manifest, left: nat, id: string, cfg: Config, w: Tree,
                           order: seq<Path>, n: nat, created: int, budget: nat)
    requires n <= |order| && forall p :: p in order ==> p in w
  {
    && dir == Replay(cfg, Writes(cfg, w, order, n))
    && Drafted(draft, id, cfg, w, order, n, created)
    && left == budget - |Writes(cfg, w, order, n)|
  }

  lemma ProgressStep(dir: Tree, draft: Manifest, left: nat, id: string, cfg: Config, w: Tree,
                     order: seq<Path>, i: nat, created: int, budget: nat)
    requires Distinct(order) && i < |order| && forall p :: p in order ==> p in w
    requires Progress(dir, draft, left, id, cfg, w, order, i, created, budget)
    requires left >= |VisitWrites(cfg, w, order[i])|
    ensures var p, steps := order[i], VisitWrites(cfg, w, order[i]);
            Progress(if steps == [] then dir else Apply(cfg, dir, steps[0]),
                     draft.(fileCount := draft.fileCount + (if p in CapturedFiles(cfg, w) then 1 else 0),
                            totalSize := draft.totalSize + (if p in CapturedFiles(cfg, w) then w[p].size else 0),
                            skipped := draft.skipped + VisitSkips(cfg, w, p),
                            symlinks := draft.symlinks + VisitLinks(w, p)),
                     left - |steps|, id, cfg, w, order, i + 1, created, budget)
  {
    hide VisitWrites, VisitSkips, VisitLinks, CapturedFiles;
    VisitedOnce(cfg, w, order, i);
    ReplayAppend(cfg, Writes(cfg, w, order, i), VisitWrites(cfg, w, order[i]));
  }

  /** The walk's callback at entry i, against the progress made so far. */
  method CopyEntry(w: Tree, cfg: Config, id: string, created: int, budget: nat, order: seq<Path>, i: nat,
                   dir: Tree, draft: Manifest, left: nat)
    returns (dir': Tree, draft': Manifest, left': nat, ok: bool)
    requires Distinct(order) && i < |order| && forall p :: p in order ==> p in w
    requires Progress(dir, draft, left, id, cfg, w, order, i, created, budget)
    ensures ok ==> Progress(dir', draft', left', id, cfg, w, order, i + 1, created, budget)
    ensures !ok ==> budget < |Writes(cfg, w, order, |order|)| && dir' == StoppedDir(cfg, w, order, budget)
  {
    hide VisitWrites, VisitSkips, VisitLinks, CapturedFiles;
    if left >= |VisitWrites(cfg, w, order[i])| {
      ProgressStep(dir, draft, left, id, cfg, w, order, i, created, budget);
    } else {
      StoppedAt(cfg, w, order, i);
    }
    dir', draft', left', ok := Visit(w, cfg, order[i], dir, draft, left);
  }

  /** The walk over the entries in the given order, stopping after `budget` successful writes. */
  method WalkAndCopy(w: Tree, cfg: Config, id: string, created: int, budget: nat, order: seq<Path>)
    returns (dir: Tree, draft: Manifest, left: nat, ok: bool)
    requires Distinct(order) && forall p :: p in order ==> p in w
    ensures ok ==> Progress(dir, draft, left, id, cfg, w, order, |order|, created, budget)
    ensures !ok ==> budget < |Writes(cfg, w, order, |order|)| && dir == StoppedDir(cfg, w, order, budget)
  {
    dir, draft, left, ok := map[Root := Dir], Manifest(id, cfg.root, created, 0, 0, false, [], []), budget, true;
    var i := 0;
    while i < |order| && ok
      invariant 0 <= i <= |order|
      invariant ok ==> Progress(dir, draft, left, id, cfg, w, order, i, created, budget)
      invariant !ok ==> budget < |Writes(cfg, w, order, |order|)| && dir == StoppedDir(cfg, w, order, budget)
    {
      dir, draft, left, ok := CopyEntry(w, cfg, id, created, budget, order, i, dir, draft, left);
      i := i + 1;
    }
  }

  /**
   * What is on disk when a capture of w ends: the image and its manifest, the first k copies, or at most the empty
   * directories of an image without files.
   */
  ghost predicate Captured(cfg: Config, w: Tree, order: seq<Path>, id: string, created: int, outcome: Outcome,
                           dirs: map<string, Tree>)
    requires forall p :: p in order ==> p in w
  {
    match outcome
    case Saved(m) =>
      && Describes(m, id, cfg, w, order, created)
      && (MANIFEST in Image(cfg, w) ==> Image(cfg, w)[MANIFEST].File?)
      && id in dirs && dirs[id] == Apply(cfg, Image(cfg, w), WriteManifest(m))
    case NothingToSave =>
      && CapturedFiles(cfg, w) == map[] && SymlinksOf(w, order, |order|) == []
      && (id in dirs ==> Readable(dirs[id]) && Files(dirs[id]) == map[])
    case Stopped =>
      id in dirs ==> exists k :: 0 <= k <= |Writes(cfg, w, order, |order|)| && dirs[id] == StoppedDir(cfg, w, order, k)
  }

  /** When a capture ends before its manifest is in place. */
  predicate StopsShort(cfg: Config, w: Tree, order: seq<Path>, budget: nat)
    requires forall p :: p in order ==> p in w
  {
    var copies := |Writes(cfg, w, order, |order|)|;
    var nothing := CapturedFiles(cfg, w) == map[] && SymlinksOf(w, order, |order|) == [];
    || budget < 1 + copies
    || (!nothing && (budget == 1 + copies || (MANIFEST in Image(cfg, w) && Image(cfg, w)[MANIFEST].Dir?)))
  }

  /** What a walk that ran to its end has copied. */
  lemma WholeWalk(cfg: Config, w: Tree, order: seq<Path>)
    requires WellFormed(w) && WalkOrder(w, order)
    ensures var steps := Writes(cfg, w, order, |order|);
            Replay(cfg, steps) == Image(cfg, w) == StoppedDir(cfg, w, order, |steps|)
    ensures MANIFEST in Image(cfg, w) ==> !Image(cfg, w)[MANIFEST].Link?
    ensures CapturedAmong(cfg, w, order, |order|) == CapturedFiles(cfg, w).Keys
  {
    var steps := Writes(cfg, w, order, |order|);
    assert steps[..|steps|] == steps && order[..|order|] == order;
    ReplayWalk(cfg, w, order);
    ImageHasNoLinks(cfg, w);
    assert MANIFEST !in Links(Image(cfg, w));
  }

  /** The state of a walk that ran to its end. */
  lemma WalkEnded(dir: Tree, draft: Manifest, left: nat, id: string, cfg: Config, w: Tree,
                  order: seq<Path>, created: int, budget: nat)
    requires WellFormed(w) && WalkOrder(w, order) &&
        Progress(dir, draft, left, id, cfg, w, order, |order|, created, budget)
    ensures var copies := |Writes(cfg, w, order, |order|)|;
            dir == Image(cfg, w) == StoppedDir(cfg, w, order, copies) && left == budget - copies
    ensures MANIFEST in dir ==> !dir[MANIFEST].Link?
    ensures Describes(draft.(complete := true), id, cfg, w, order, created)
    ensures draft.symlinks == SymlinksOf(w, order, |order|) &&
        (draft.fileCount == 0 <==> CapturedFiles(cfg, w) == map[])
  {
    hide Image, WellFormed, WalkOrder, Writes, Stored, VisitWrites;
    WholeWalk(cfg, w, order);
    assert |CapturedFiles(cfg, w)| == |CapturedFiles(cfg, w).Keys|;
  }

  /** The walk, and the manifest behind it if there is anything to save. */
  method CaptureInto(w: Tree, store: Store, cfg: Config, id: string, created: int, budget: nat, order: seq<Path>)
    returns (outcome: Outcome)
    requires WellFormed(w) && WalkOrder(w, order) && id !in store.dirs
    modifies store
    ensures store.dirs - {id} == old(store.dirs)
    ensures Captured(cfg, w, order, id, created, outcome, store.dirs)
    ensures outcome.Stopped? <==> StopsShort(cfg, w, order, budget)
  {
    hide Image, CapturedFiles, Writes, SymlinksOf, StoppedDir, Apply, WellFormed, Describes, Progress;
    outcome := Stopped;
    assert store.dirs - {id} == store.dirs;
    if budget == 0 { return; }
    var dir, draft, left, ok := WalkAndCopy(w, cfg, id, created, budget - 1, order);
    store.dirs := store.dirs[id := dir];
    assert store.dirs - {id} == old(store.dirs);
    if !ok { return; }
    WalkEnded(dir, draft, left, id, cfg, w, order, created, budget - 1);
    if draft.fileCount == 0 && draft.symlinks == [] {
      ImageWellFormed(cfg, w);
      store.RemoveAll(id, left);
      NothingButDirs(cfg, w, store.dirs, id);
      outcome := NothingToSave;
      return;
    }
    if left == 0 || (MANIFEST in dir && dir[MANIFEST].Dir?) { return; }
    draft := draft.(complete := true);
    ManifestInPlace(cfg, dir, draft);
    store.dirs := store.dirs[id := dir[MANIFEST := File(Json(draft), cfg.manifestBytes)]];
    outcome := Saved(draft);
  }

  /** What an interrupted removal leaves of an image without files. */
  lemma NothingButDirs(cfg: Config, w: Tree, dirs: map<string, Tree>, id: string)
    requires WellFormed(w) && CapturedFiles(cfg, w) == map[]
    requires id in dirs ==> Remains(dirs[id], Image(cfg, w))
    ensures WellFormed(Image(cfg, w))
    ensures id in dirs ==> Readable(dirs[id]) && Files(dirs[id]) == map[]
  {
    ImageWellFormed(cfg, w);
    ImageHasNoLinks(cfg, w);
    if id in dirs {
      forall p | p in dirs[id]
        ensures dirs[id][p].Dir?
      {
        assert p in Image(cfg, w) && p !in Links(Image(cfg, w)) && p !in CapturedFiles(cfg, w);
      }
    }
  }

  lemma ManifestInPlace(cfg: Config, dir: Tree, m: Manifest)
    ensures Apply(cfg, dir, WriteManifest(m)) == dir[MANIFEST := File(Json(m), cfg.manifestBytes)]
  {
  }

  /**
   * One capture. Creating the directory, the copies and the final rename of the manifest, or the removals if there
   * is nothing to save, are disk writes, of which `budget` succeed; every budget is a possible run.
   */
  method Capture(w: Tree, store: Store, cfg: Config, base: string, created: int, budget: nat)
    returns (outcome: Outcome, id: string, ghost order: seq<Path>)
    requires WellFormed(w)
    modifies store
    ensures id !in old(store.dirs) && store.dirs - {id} == old(store.dirs)
    ensures WalkOrder(w, order) && Captured(cfg, w, order, id, created, outcome, store.dirs)
    ensures outcome.Stopped? <==> StopsShort(cfg, w, order, budget)
    // readers take the new directory for complete exactly if the capture went through, or stopped with a decoy
    ensures id in store.dirs && !(outcome.Stopped? && Decoy(cfg, w)) ==>
              (IsComplete(store.dirs[id]) <==> outcome.Saved?)
    ensures outcome.Saved? ==> Holds(cfg, w, store.dirs[id])
    ensures id in store.dirs ==> Readable(store.dirs[id])
  {
    id := store.NewSnapshotId(base);
    var visits := Walk(w);
    order := visits;
    outcome := CaptureInto(w, store, cfg, id, created, budget, visits);
    if id in store.dirs { CapturedFacts(cfg, w, order, id, created, outcome, store.dirs); }
  }

  lemma CapturedFacts(cfg: Config, w: Tree, order: seq<Path>, id: string, created: int, outcome: Outcome,
                      dirs: map<string, Tree>)
    requires WellFormed(w) && WalkOrder(w, order) && id in dirs && Captured(cfg, w, order, id, created, outcome, dirs)
    ensures !(outcome.Stopped? && Decoy(cfg, w)) ==> (IsComplete(dirs[id]) <==> outcome.Saved?)
    ensures outcome.Saved? ==> Holds(cfg, w, dirs[id])
    ensures Readable(dirs[id])
  {
    hide Describes, Image, Apply, Writes, StoppedDir, Decoy, IsComplete, ValidSnapshot, Readable, WellFormed,
      RestorableFiles;
    CrashSafeIff(cfg, w, order);
    if outcome.Saved? {
      SavedIsValid(cfg, w, order, id, created, outcome.manifest);
      ValidIsReadable(dirs[id]);
    } else if outcome.NothingToSave? {
      FilelessIsIncomplete(dirs[id]);
    } else {
      var k :| 0 <= k <= |Writes(cfg, w, order, |order|)| && dirs[id] == StoppedDir(cfg, w, order, k);
      StoppedIsReadable(cfg, w, order, k);
    }
  }

  lemma FilelessIsIncomplete(dir: Tree)
    requires Files(dir) == map[]
    ensures !IsComplete(dir)
  {
    assert MANIFEST !in Files(dir);
  }

  /** The directory is a whole snapshot of w. */
  ghost predicate Holds(cfg: Config, w: Tree, dir: Tree) {
    ValidSnapshot(dir) && RestorableFiles(dir) == CapturedFiles(cfg, w) - {MANIFEST}
  }

  lemma ValidIsReadable(dir: Tree)
    requires ValidSnapshot(dir)
    ensures IsComplete(dir) && Readable(dir)
  {
  }

  // ---- what every directory of the store satisfies ----

  /** A tree of directories and regular files, complete or not. */
  ghost predicate Readable(dir: Tree) { WellFormed(dir) && Links(dir) == {} }

  /** Every stop of a walk falls right behind some entry. */
  lemma {:induction false} StopBehind(cfg: Config, w: Tree, order: seq<Path>, n: nat, k: nat) returns (i: nat)
    requires (forall p :: p in order ==> p in w) && n <= |order| && k <= |Writes(cfg, w, order, n)|
    ensures i <= n && |Writes(cfg, w, order, i)| == k
  {
    if k == |Writes(cfg, w, order, n)| {
      i := n;
    } else {
      i := StopBehind(cfg, w, order, n - 1, k);
    }
  }

  /** Wherever a capture stops, its directory holds directories and files only, each with its directories above it. */
  lemma StoppedIsReadable(cfg: Config, w: Tree, order: seq<Path>, k: nat)
    requires WellFormed(w) && WalkOrder(w, order) && k <= |Writes(cfg, w, order, |order|)|
    ensures Readable(StoppedDir(cfg, w, order, k))
  {
    hide StoppedDir, VisitWrites, Stored, Replay;
    var n := StopBehind(cfg, w, order, |order|, k);
    MidwayDir(cfg, w, order, n);
    KeptIsReadable(cfg, w, order, n);
  }

  lemma StoredParent(cfg: Config, w: Tree, p: Path)
    requires WellFormed(w) && p in w && p.Child? && Stored(cfg, w, p)
    ensures p.parent in w && w[p.parent].Dir? && Stored(cfg, w, p.parent)
  {
    hide ShouldSkipFile, IsExcludedDir;
  }

  lemma KeptIsReadable(cfg: Config, w: Tree, order: seq<Path>, n: nat)
    requires WellFormed(w) && WalkOrder(w, order) && n <= |order|
    ensures Readable(Kept(w, StoredPaths(cfg, w), order[..n]))
  {
    var dir := Kept(w, StoredPaths(cfg, w), order[..n]);
    forall p | p in dir && p.Child?
      ensures p.parent in dir && dir[p.parent].Dir?
    {
      StoredParent(cfg, w, p);
      var i :| 0 <= i < n && order[i] == p;
      assert ParentSeen(order, i);
    }
  }

  // ---- what every finished snapshot directory satisfies ----

  function LinkPaths(m: Manifest): set<Path> {
    set i | 0 <= i < |m.symlinks| :: m.symlinks[i].path
  }

  /** A snapshot directory that restore may read. */
  ghost predicate ValidSnapshot(dir: Tree) {
    && WellFormed(dir) && Links(dir) == {} && IsComplete(dir)
    && var links := LoadManifest(dir).value.symlinks;
       && (forall i :: 0 <= i < |links| ==>
             && links[i].path.Child? && links[i].path !in RestorableFiles(dir)
             && (links[i].path in dir ==> links[i].path == MANIFEST)
             && links[i].path.parent in dir && dir[links[i].path.parent].Dir?)
       && (forall i, j :: 0 <= i < j < |links| ==> links[i].path != links[j].path)
  }

  lemma {:induction false} SymlinksRecorded(w: Tree, order: seq<Path>, n: nat)
    requires Distinct(order) && n <= |order| && forall p :: p in order ==> p in w
    ensures forall i :: 0 <= i < |SymlinksOf(w, order, n)| ==>
              var p := SymlinksOf(w, order, n)[i].path;
              p in order[..n] && p.Child? && !Pruned(p) && w[p].Link? &&
                w[p].target == SymlinksOf(w, order, n)[i].target
    ensures forall i, j :: 0 <= i < j < |SymlinksOf(w, order, n)| ==>
              SymlinksOf(w, order, n)[i].path != SymlinksOf(w, order, n)[j].path
  {
    hide Pruned;
    if n > 0 {
      SymlinksRecorded(w, order, n - 1);
      assert order[..n] == order[..n - 1] + [order[n - 1]];
      assert NewAt(order, n - 1);
    }
  }

  lemma ImageWellFormed(cfg: Config, w: Tree)
    requires WellFormed(w)
    ensures WellFormed(Image(cfg, w))
  {
    forall p | p in Image(cfg, w) && p.Child?
      ensures p.parent in Image(cfg, w) && Image(cfg, w)[p.parent].Dir?
    {
      StoredParent(cfg, w, p);
    }
  }

  lemma SavedIsReadable(cfg: Config, w: Tree, m: Manifest)
    requires WellFormed(w) && (MANIFEST in Image(cfg, w) ==> Image(cfg, w)[MANIFEST].File?)
    ensures var dir := Apply(cfg, Image(cfg, w), WriteManifest(m));
            WellFormed(dir) && Links(dir) == {} && RestorableFiles(dir) == CapturedFiles(cfg, w) - {MANIFEST}
  {
    ImageWellFormed(cfg, w);
    ImageHasNoLinks(cfg, w);
  }

  /** Every saved snapshot can be restored. */
  lemma SavedIsValid(cfg: Config, w: Tree, order: seq<Path>, id: string, created: int, m: Manifest)
    requires WellFormed(w) && WalkOrder(w, order) && Describes(m, id, cfg, w, order, created)
    requires MANIFEST in Image(cfg, w) ==> Image(cfg, w)[MANIFEST].File?
    ensures ValidSnapshot(Apply(cfg, Image(cfg, w), WriteManifest(m)))
    ensures RestorableFiles(Apply(cfg, Image(cfg, w), WriteManifest(m))) == CapturedFiles(cfg, w) - {MANIFEST}
  {
    SavedIsReadable(cfg, w, m);
    SymlinksRecorded(w, order, |order|);
  }
}
