/**
 * The check that workspace and store do not contain each other (ValidateNoNesting in
 * backend/internal/snapshot/manager.go).
 */
module Nesting {
  import opened FileTree
  import opened Text

  /** An absolute path: its names are neither empty nor contain the separator. */
  predicate Proper(p: Path) {
    p.Child? ==> p.name != "" && '/' !in p.name && Proper(p.parent)
  }

  /** The path written out, with nothing for the root of the file system. */
  function Spelled(p: Path): string {
    if p.Root? then "" else Spelled(p.parent) + "/" + p.name
  }

  /** A cleaned absolute path. */
  function Cleaned(p: Path): string { if p.Root? then "/" else Spelled(p) }

  /** Neither cleaned path extends the other one followed by a separator. */
  method ValidateNoNesting(workspace: Path, store: Path) returns (ok: bool)
    requires Proper(workspace) && Proper(store)
    ensures ok <==> !Nested(workspace, store) || workspace.Root? != store.Root?
  {
    AcceptedIff(workspace, store);
    var wd, sd := Cleaned(workspace), Cleaned(store);
    if wd == sd || HasPrefix(sd, wd + "/") { return false; }
    if HasPrefix(wd, sd + "/") { return false; }
    ok := true;
  }

  /** One directory is the other or lies in it. */
  predicate Nested(a: Path, b: Path) { a == b || Above(a, b) || Above(b, a) }

  /** The last separator of a spelled path is the one before its last name. */
  lemma LastSeparator(p: Path)
    requires Proper(p) && p.Child?
    ensures Spelled(p)[|Spelled(p.parent)|] == '/'
    ensures forall i :: |Spelled(p.parent)| < i < |Spelled(p)| ==> Spelled(p)[i] != '/'
  {
    var s, front := Spelled(p), Spelled(p.parent);
    forall i | |front| < i < |s|
      ensures s[i] != '/'
    {
      assert s[i] == p.name[i - |front| - 1];
    }
  }

  lemma {:induction false} SpelledInjective(p: Path, q: Path)
    requires Proper(p) && Proper(q) && Spelled(p) == Spelled(q)
    ensures p == q
    decreases p
  {
    if p.Child? && q.Child? {
      LastSeparator(p);
      LastSeparator(q);
      var s, n := Spelled(p), |Spelled(p.parent)|;
      assert n == |Spelled(q.parent)|;
      assert Spelled(p.parent) == s[..n] == Spelled(q.parent);
      assert p.name == s[n + 1..] == q.name;
      SpelledInjective(p.parent, q.parent);
    }
  }

  /** A directory followed by a separator begins the spelling of just the paths below it. */
  lemma {:induction false} PrefixIffAbove(a: Path, p: Path)
    requires Proper(a) && Proper(p)
    ensures HasPrefix(Spelled(p), Spelled(a) + "/") <==> Above(a, p)
    decreases p
  {
    if p.Child? {
      var s, front, begin := Spelled(p), Spelled(p.parent), Spelled(a) + "/";
      PrefixIffAbove(a, p.parent);
      if |begin| <= |front| {
        assert s[..|begin|] == front[..|begin|];
      } else {
        assert HasPrefix(s, begin) ==> s[|begin| - 1] == '/';
        assert forall i :: |front| < i < |s| ==> s[i] == p.name[i - |front| - 1];
        if |begin| == |front| + 1 {
          assert s[..|begin|] == front + "/";
          if HasPrefix(s, begin) {
            assert Spelled(a) == begin[..|begin| - 1] == front;
            SpelledInjective(a, p.parent);
          }
        } else {
          if Above(a, p) { BelowIsLonger(a, p); }
        }
      }
    }
  }

  lemma {:induction false} BelowIsLonger(a: Path, p: Path)
    requires Above(a, p)
    ensures |Spelled(a)| + 1 <= |Spelled(p.parent)| || p.parent == a
    decreases p
  {
    if p.parent != a { BelowIsLonger(a, p.parent); }
  }

  /**
   * The check rejects just the nested pairs, except that it lets the root of the file system pass next to any
   * other directory: the separator added to "/" begins no cleaned path.
   */
  lemma AcceptedIff(workspace: Path, store: Path)
    requires Proper(workspace) && Proper(store)
    ensures var wd, sd := Cleaned(workspace), Cleaned(store);
            !(wd == sd || HasPrefix(sd, wd + "/") || HasPrefix(wd, sd + "/")) <==>
              !Nested(workspace, store) || workspace.Root? != store.Root?
  {
    NoDoubleSeparator(workspace);
    NoDoubleSeparator(store);
    if !workspace.Root? && !store.Root? {
      PrefixIffAbove(workspace, store);
      PrefixIffAbove(store, workspace);
      if Spelled(workspace) == Spelled(store) { SpelledInjective(workspace, store); }
    }
  }

  /** A cleaned path does not begin with two separators, and only the root's is a single one. */
  lemma {:induction false} NoDoubleSeparator(p: Path)
    requires Proper(p)
    ensures p.Child? ==> |Spelled(p)| >= 2 && Spelled(p)[0] == '/' && Spelled(p)[1] != '/'
    decreases p
  {
    if p.Child? {
      assert p.name[0] in p.name;
      if p.parent.Child? { NoDoubleSeparator(p.parent); }
    }
  }
}
