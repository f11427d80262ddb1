/** Removing a directory tree (os.RemoveAll, as backend/internal/snapshot/retain.go and capture.go call it). */
module TreeRemoval {
  import opened FileTree

  /** Nothing in the tree lies directly below p. */
  predicate Leaf(t: Tree, p: Path) {
    p in t && forall q :: q in t && q.Child? ==> q.parent != p
  }

  /** The entries go one by one, a directory once it is empty. */
  predicate RemovalOrder(t: Tree, order: seq<Path>) {
    order == [] ||
    var front := order[..|order| - 1];
    RemovalOrder(t, front) && Leaf(After(t, front), order[|order| - 1])
  }

  function After(t: Tree, order: seq<Path>): Tree {
    if order == [] then t else After(t, order[..|order| - 1]) - {order[|order| - 1]}
  }

  /** What is left of a tree: whole entries, each with the directories above it. */
  ghost predicate Remains(left: Tree, t: Tree) {
    WellFormed(left) && forall p :: p in left ==> p in t && left[p] == t[p]
  }

  lemma OneMore(t: Tree, order: seq<Path>, p: Path)
    requires RemovalOrder(t, order) && Leaf(After(t, order), p)
    ensures RemovalOrder(t, order + [p]) && After(t, order + [p]) == After(t, order) - {p}
  {
    assert (order + [p])[..|order|] == order;
  }

  /** Taking away a leaf leaves a tree, or nothing. */
  lemma LeafGoes(left: Tree, t: Tree, p: Path)
    requires Remains(left, t) && Leaf(left, p)
    ensures left - {p} == map[] || Remains(left - {p}, t)
  {
    var less := left - {p};
    if less != map[] {
      if p == Root {
        var q :| q in less;
        TopExists(left, q);
        assert false;
      }
    }
  }

  /** Above every entry but the root is one that lies directly below the root. */
  lemma {:induction false} TopExists(t: Tree, q: Path)
    requires WellFormed(t) && q in t && q != Root
    ensures exists c :: c in t && c.Child? && c.parent == Root
    decreases q
  {
    if q.parent != Root { TopExists(t, q.parent); }
  }

  function Depth(p: Path): nat { if p.Root? then 0 else 1 + Depth(p.parent) }

  lemma {:induction false} DeepestExists(s: set<Path>) returns (p: Path)
    requires s != {}
    ensures p in s && forall q :: q in s ==> Depth(q) <= Depth(p)
  {
    p :| p in s;
    var rest := s - {p};
    assert forall q :: q in s ==> q == p || q in rest;
    if rest != {} {
      var q := DeepestExists(rest);
      if Depth(q) > Depth(p) { p := q; }
    }
  }

  /** The loop of a removal; `budget` entries are removed before it stops. */
  method RemoveEntries(t: Tree, budget: nat) returns (left: Tree, ghost order: seq<Path>)
    requires WellFormed(t)
    ensures RemovalOrder(t, order) && left == After(t, order)
    ensures |left| == if budget <= |t| then |t| - budget else 0
    ensures left == map[] || Remains(left, t)
  {
    left, order := t, [];
    var done := 0;
    while left != map[] && done < budget
      invariant RemovalOrder(t, order) && left == After(t, order)
      invariant |left| == |t| - done && done <= budget
      invariant left == map[] || Remains(left, t)
    {
      ghost var deepest := DeepestExists(left.Keys);
      assert Leaf(left, deepest);
      var p :| p in left && Leaf(left, p);
      LeafGoes(left, t, p);
      OneMore(t, order, p);
      order := order + [p];
      assert |left.Keys - {p}| == |left| - 1 && (left - {p}).Keys == left.Keys - {p};
      left := left - {p};
      done := done + 1;
    }
  }

  lemma {:induction false} OrderLeaves(t: Tree, order: seq<Path>)
    requires WellFormed(t) && RemovalOrder(t, order)
    ensures After(t, order) == map[] || Remains(After(t, order), t)
    decreases |order|
  {
    if order == [] {
    } else {
      var front, p := order[..|order| - 1], order[|order| - 1];
      OrderLeaves(t, front);
      LeafGoes(After(t, front), t, p);
    }
  }

  lemma {:induction false} OrderExists(t: Tree, left: Tree) returns (order: seq<Path>)
    requires WellFormed(t) && (left == map[] || Remains(left, t))
    ensures RemovalOrder(t, order) && After(t, order) == left
    decreases t.Keys - left.Keys
  {
    var gone := t.Keys - left.Keys;
    if gone == {} {
      order := [];
      assert forall p :: p in t ==> p in left || p in gone;
      assert left == t;
    } else {
      var some :| some in gone;
      var p := OutermostExists(gone, some);
      var more := left[p := t[p]];
      assert p !in left && p.Child? ==> p.parent in left;
      assert Remains(more, t) && Leaf(more, p);
      assert t.Keys - more.Keys == gone - {p};
      order := OrderExists(t, more);
      OneMore(t, order, p);
      assert more - {p} == left;
      order := order + [p];
    }
  }

  /** A removal that stops may leave exactly the trees that hold whole entries with the directories above them. */
  lemma RemainsIff(t: Tree, left: Tree)
    requires WellFormed(t)
    ensures (exists order :: RemovalOrder(t, order) && After(t, order) == left) <==> left == map[] || Remains(left, t)
  {
    if order :| RemovalOrder(t, order) && After(t, order) == left { OrderLeaves(t, order); }
    if left == map[] || Remains(left, t) {
      var order := OrderExists(t, left);
    }
  }
}
