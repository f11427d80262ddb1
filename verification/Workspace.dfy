/** The operating-system calls a restore makes on the workspace, on a tree that may hold symbolic links. */
module Workspaces {
  import opened FileTree

  /** No entry on the way from the root down to p, p included, is a symbolic link. */
  predicate NoLinkOn(t: Tree, p: Path) {
    p !in Links(t) && (p.Child? ==> NoLinkOn(t, p.parent))
  }

  lemma {:induction false} NoLinkOnMono(t: Tree, t': Tree, p: Path)
    requires NoLinkOn(t, p) && Links(t') <= Links(t)
    ensures NoLinkOn(t', p)
    decreases p
  {
    if p.Child? { NoLinkOnMono(t, t', p.parent); }
  }

  lemma {:induction false} AbsentBelow(t: Tree, a: Path, p: Path)
    requires WellFormed(t) && Above(a, p) && (a !in t || !t[a].Dir?)
    ensures p !in t
    decreases p
  {
    if p in t { AncestorsAreDirs(t, a, p); }
  }

  /** Only directories were added, and only on the way to p. */
  ghost predicate DirsAdded(before: Tree, after: Tree, p: Path) {
    && (forall q :: q in before ==> q in after && after[q] == before[q])
    && (forall q :: q in after && q !in before ==> after[q].Dir? && (q == p || Above(q, p)))
  }

  lemma DirsAddedKeeps(before: Tree, after: Tree, p: Path)
    requires DirsAdded(before, after, p)
    ensures Links(after) == Links(before) && Files(after) == Files(before)
  {
  }

  /** The path from the root down to p, the root left out. */
  function Chain(p: Path): seq<Path> {
    if p.Root? then [] else Chain(p.parent) + [p]
  }

  class Workspace {
    var tree: Tree
    /** Set once a call creates or writes an entry by way of a symbolic link. */
    var escaped: bool
    /** Whether os.Stat on a link of the tree finds a directory; where links lead is not modelled. */
    const leadsToDir: (Tree, Path) -> bool

    constructor (tree: Tree, leadsToDir: (Tree, Path) -> bool)
      ensures this.tree == tree && !escaped
    {
      this.tree, this.leadsToDir, escaped := tree, leadsToDir, false;
    }

    /** os.MkdirAll: any call may also fail for a reason outside the model. */
    method MkdirAll(p: Path) returns (ok: bool)
      requires WellFormed(tree)
      modifies this
      ensures WellFormed(tree) && DirsAdded(old(tree), tree, p)
      ensures old(escaped) ==> escaped
      ensures p.Root? || NoLinkOn(old(tree), p.parent) ==>
                && escaped == old(escaped)
                && (ok ==> p in tree && !tree[p].File?)
      decreases p
    {
      if p.Root? {
        return true;
      }
      if !NoLinkOn(tree, p.parent) {
        escaped := true;
        ok := *;
        return;
      }
      if p in tree {
        ok := tree[p].Dir? || (tree[p].Link? && leadsToDir(tree, p));
        return;
      }
      ok := MkdirAll(p.parent);
      var fault: bool := *;
      if !ok || fault {
        return false;
      }
      assert p.parent in tree && p.parent !in Links(tree) by {
        if p.parent in old(tree) { assert p.parent !in Links(old(tree)); }
      }
      tree := tree[p := Dir];
    }

    /** os.Remove */
    method Remove(p: Path) returns (ok: bool)
      requires WellFormed(tree) && p in tree && p.Child?
      modifies this`tree
      ensures WellFormed(tree)
      ensures tree == if ok then old(tree) - {p} else old(tree)
      ensures ok && old(tree[p]).Dir? ==> forall q :: q in old(tree) ==> q.Root? || q.parent != p
    {
      var fault: bool := *;
      if fault || (tree[p].Dir? && exists q :: q in tree && q.Child? && q.parent == p) {
        return false;
      }
      tree := tree - {p};
      ok := true;
    }

    method EnsureNoSymlinkComponents(p: Path) returns (ok: bool)
      requires WellFormed(tree)
      modifies this`tree
      ensures WellFormed(tree)
      ensures tree == old(tree) ||
          exists link :: link in Links(old(tree)) && (link == p || Above(link, p)) && tree == old(tree) - {link}
      ensures ok ==> NoLinkOn(tree, p)
    {
      var chain := Chain(p);
      ChainAt(p);
      for i := 0 to |chain|
        invariant tree == old(tree)
        invariant forall j :: 0 <= j < i ==> chain[j] in tree && chain[j] !in Links(tree)
      {
        var current := chain[i];
        if current !in tree {
          ClearedBy(tree, p, i);
          return true;
        }
        if tree[current].Link? {
          ok := Remove(current);
          if ok {
            ClearedBy(tree, p, i);
            assert current in Links(old(tree));
          }
          return;
        }
      }
      ok := true;
      ClearedBy(tree, p, |chain|);
    }

    /** Copying a file into place: os.MkdirAll on its directory, a temporary file, a rename over the target. */
    method CopyTo(p: Path, node: Node) returns (ok: bool)
      requires WellFormed(tree) && p.Child? && node.File?
      modifies this
      ensures WellFormed(tree)
      ensures old(escaped) ==> escaped
      ensures NoLinkOn(old(tree), p) ==>
                && escaped == old(escaped)
                && Links(tree) == Links(old(tree))
                && Files(tree) == if ok then Files(old(tree))[p := node] else Files(old(tree))
    {
      var made := MkdirAll(p.parent);
      DirsAddedKeeps(old(tree), tree, p.parent);
      if NoLinkOn(old(tree), p) { NoLinkOnMono(old(tree), tree, p.parent); }
      var fault: bool := *;
      if !made || fault {
        return false;
      }
      if !NoLinkOn(tree, p.parent) {
        escaped := true;
        ok := *;
        return;
      }
      NoLinkOnMono(tree, old(tree), p.parent);
      if p in tree && tree[p].Dir? {
        return false;
      }
      tree := tree[p := node];
      ok := true;
    }

    method Symlink(target: string, p: Path) returns (ok: bool)
      requires WellFormed(tree) && p.Child?
      modifies this
      ensures WellFormed(tree)
      ensures old(escaped) ==> escaped
      ensures NoLinkOn(old(tree), p.parent) ==>
                && escaped == old(escaped)
                && tree == (if ok then old(tree)[p := Link(target)] else old(tree))
                && (ok ==> p !in old(tree))
    {
      if !NoLinkOn(tree, p.parent) {
        escaped := true;
        ok := *;
        return;
      }
      var fault: bool := *;
      if fault || p in tree || p.parent !in tree || !tree[p.parent].Dir? {
        return false;
      }
      tree := tree[p := Link(target)];
      ok := true;
    }
  }

  lemma {:induction false} ChainAt(p: Path)
    ensures forall i :: 0 <= i < |Chain(p)| ==>
              && Chain(p)[i].Child?
              && (Chain(p)[i] == p || Above(Chain(p)[i], p))
              && Chain(Chain(p)[i]) == Chain(p)[..i + 1]
    decreases p
  {
    if p.Child? {
      ChainAt(p.parent);
      var shorter := Chain(p.parent);
      assert Chain(p)[..|shorter| + 1] == Chain(p);
      assert forall i :: 0 <= i < |shorter| ==> Chain(p)[i] == shorter[i] && Chain(p)[..i + 1] == shorter[..i + 1];
    }
  }

  /** If the first i components are present and no links and the next is absent, no component of p is a link. */
  lemma {:induction false} ClearedBy(t: Tree, p: Path, i: nat)
    requires WellFormed(t) && i <= |Chain(p)|
    requires forall j :: 0 <= j < i ==> Chain(p)[j] !in Links(t)
    requires i < |Chain(p)| ==> Chain(p)[i] !in t
    ensures NoLinkOn(t, p)
    decreases p
  {
    if p.Child? {
      var shorter := Chain(p.parent);
      assert Chain(p) == shorter + [p];
      assert forall j :: 0 <= j < |shorter| ==> Chain(p)[j] == shorter[j];
      if i < |shorter| {
        ClearedBy(t, p.parent, i);
        ChainAt(p.parent);
        AbsentBelow(t, shorter[i], p);
      } else {
        ClearedBy(t, p.parent, |shorter|);
        assert Chain(p)[|shorter|] == p;
      }
    }
  }
}
