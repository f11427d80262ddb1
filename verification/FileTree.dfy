/** File trees as finite maps from paths to nodes, and the order in which a directory walk visits them. */
module FileTree {

  /** A path below a fixed root, one component at a time. */
  datatype Path = Root | Child(parent: Path, name: string)

  datatype SkipReason = Secret | TooLarge | ExcludedDir

  datatype SymlinkEntry = SymlinkEntry(path: Path, target: string)

  datatype SkippedFile = SkippedFile(path: Path, reason: SkipReason)

  /** The manifest fields that a decision of the snapshot code depends on. */
  datatype Manifest = Manifest(
    snapshotId: string,
    root: string,
    created: int,
    fileCount: nat,
    totalSize: nat,
    complete: bool,
    skipped: seq<SkippedFile>,
    symlinks: seq<SymlinkEntry>)

  /** File contents. Text that parses as a manifest is represented by the manifest it encodes. */
  datatype Content = Raw(text: string) | Json(manifest: Manifest)

  datatype Node =
    | Dir
    | File(content: Content, size: nat)
    | Link(target: string)

  type Tree = map<Path, Node>

  /** The regular files of a tree. */
  function Files(t: Tree): map<Path, Node> {
    map p | p in t && t[p].File? :: t[p]
  }

  function Links(t: Tree): set<Path> {
    set p | p in t && t[p].Link?
  }

  /** a is a directory on the way from the root to p, other than p. */
  predicate Above(a: Path, p: Path) {
    p.Child? && (p.parent == a || Above(a, p.parent))
  }

  /** The root is a directory and so is the parent of every other entry. */
  ghost predicate WellFormed(t: Tree) {
    && Root in t && t[Root].Dir?
    && forall p :: p in t && p.Child? ==> p.parent in t && t[p.parent].Dir?
  }

  lemma {:induction false} AncestorsAreDirs(t: Tree, a: Path, p: Path)
    requires WellFormed(t) && p in t && Above(a, p)
    ensures a in t && t[a].Dir?
    decreases p
  {
    if p.parent != a { AncestorsAreDirs(t, a, p.parent); }
  }

  ghost predicate NewAt(s: seq<Path>, i: nat)
    requires i < |s|
  {
    s[i] !in s[..i]
  }

  /** No element occurs twice. */
  ghost predicate Distinct(s: seq<Path>) {
    forall i {:trigger NewAt(s, i)} :: 0 <= i < |s| ==> NewAt(s, i)
  }

  lemma AppendDistinct(s: seq<Path>, p: Path)
    requires Distinct(s) && p !in s
    ensures Distinct(s + [p])
  {
    var longer := s + [p];
    forall i | 0 <= i < |longer|
      ensures NewAt(longer, i)
    {
      assert longer[..i] == s[..i];
      assert i < |s| ==> NewAt(s, i);
    }
  }

  ghost predicate ParentSeen(order: seq<Path>, i: nat)
    requires i < |order|
  {
    order[i].Child? ==> order[i].parent in order[..i]
  }

  ghost predicate ParentsFirst(order: seq<Path>) {
    forall i {:trigger ParentSeen(order, i)} :: 0 <= i < |order| ==> ParentSeen(order, i)
  }

  /** A walk order: every entry exactly once, a directory before what it holds. */
  ghost predicate WalkOrder(t: Tree, order: seq<Path>) {
    && Distinct(order)
    && ParentsFirst(order)
    && (forall p :: p in t <==> p in order)
  }

  lemma AppendParentsFirst(order: seq<Path>, p: Path)
    requires ParentsFirst(order) && (p.Child? ==> p.parent in order)
    ensures ParentsFirst(order + [p])
  {
    var longer := order + [p];
    forall i | 0 <= i < |longer|
      ensures ParentSeen(longer, i)
    {
      assert longer[..i] == order[..i];
      assert i < |order| ==> ParentSeen(order, i);
    }
  }

  /** Among finitely many paths, some path has none of the others above it. */
  lemma {:induction false} OutermostExists(pending: set<Path>, p: Path) returns (q: Path)
    requires p in pending
    ensures q in pending && (q.Child? ==> q.parent !in pending)
    decreases p
  {
    q := p;
    if p.Child? && p.parent in pending { q := OutermostExists(pending, p.parent); }
  }

  /**
   * A directory walk. Which sibling comes next is left open, so what is proved of the result
   * holds for the lexical order of filepath.WalkDir as for any other that keeps parents first.
   */
  method Walk(t: Tree) returns (order: seq<Path>)
    requires WellFormed(t)
    ensures WalkOrder(t, order)
  {
    order := [];
    var pending := t.Keys;
    while pending != {}
      invariant pending <= t.Keys
      invariant forall p :: p in t.Keys - pending <==> p in order
      invariant Distinct(order) && ParentsFirst(order)
      decreases |pending|
    {
      ghost var some :| some in pending;
      ghost var outermost := OutermostExists(pending, some);
      var p :| p in pending && (p.Child? ==> p.parent !in pending);
      assert p !in t.Keys - pending;
      AppendParentsFirst(order, p);
      AppendDistinct(order, p);
      order := order + [p];
      pending := pending - {p};
    }
  }

  /** The first n entries of a walk, as a set. */
  ghost predicate FirstOf(order: seq<Path>, n: nat, done: set<Path>)
    requires n <= |order|
  {
    && (forall j :: 0 <= j < n ==> order[j] in done)
    && (forall q :: q in done ==> q in order[..n])
  }

  lemma WalkNext(t: Tree, order: seq<Path>, i: nat, done: set<Path>)
    requires WalkOrder(t, order) && i < |order| && FirstOf(order, i, done)
    ensures order[i] in t && order[i] !in done && (order[i].Child? ==> order[i].parent in done)
    ensures FirstOf(order, i + 1, done + {order[i]})
  {
    assert NewAt(order, i) && ParentSeen(order, i);
    assert order[i] in order;
    assert order[..i + 1] == order[..i] + [order[i]];
  }

  lemma WalkDone(t: Tree, order: seq<Path>, done: set<Path>)
    requires WalkOrder(t, order) && FirstOf(order, |order|, done)
    ensures done == t.Keys
  {
    assert order[..|order|] == order;
  }
}
