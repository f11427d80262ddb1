/** The exclusion rules shared by capture and restore (backend/internal/snapshot/exclude.go). */
module Exclude {
  import opened FileTree
  import opened Text

  const EXCLUDED_DIR_NAMES: seq<string> := [
    ".git", "node_modules", "dist", "build", "target", ".venv", "venv", "vendor", "__pycache__"
  ]

  const SECRET_PATTERNS: seq<string> := [
    ".env*", "*.key", "*.pem", "*.p12", "credentials.json", "id_rsa*", "id_ed25519*", "*.pfx", "*.keystore"
  ]

  const MAX_FILE_SIZE_BYTES: nat := 100 * 1024 * 1024

  predicate Contains(s: string, mid: string) {
    exists i :: 0 <= i <= |s| && HasPrefix(s[i..], mid)
  }

  predicate MatchPattern(name: string, pattern: string) {
    if pattern == "*" then
      true
    else if HasPrefix(pattern, "*") && HasSuffix(pattern, "*") then
      var mid := pattern[1..|pattern| - 1];
      |mid| > 0 && Contains(name, mid)
    else if HasSuffix(pattern, "*") then
      HasPrefix(name, pattern[..|pattern| - 1])
    else if HasPrefix(pattern, "*") then
      HasSuffix(name, pattern[1..])
    else
      name == pattern
  }

  predicate MatchesAny(name: string, patterns: seq<string>)
    decreases |name|, |patterns|
  {
    patterns != [] && (MatchPattern(name, patterns[0]) || MatchesAny(name, patterns[1..]))
  }

  predicate IsSecretFile(name: string) {
    MatchesAny(Lower(name), SECRET_PATTERNS)
  }

  predicate IsExcludedDir(name: string) {
    OneOf(name, EXCLUDED_DIR_NAMES)
  }

  datatype SkipDecision = Keep | Skip(reason: SkipReason)

  function ShouldSkipFile(includeSecrets: bool, name: string, size: nat): SkipDecision {
    if !includeSecrets && IsSecretFile(name) then Skip(Secret)
    else if size > MAX_FILE_SIZE_BYTES then Skip(TooLarge)
    else Keep
  }

  /** A directory on the way to p, below the root, has an excluded name: no walk reaches p. */
  predicate Pruned(p: Path) {
    p.Child? && p.parent.Child? && (IsExcludedDir(p.parent.name) || Pruned(p.parent))
  }

  /** The file lies outside every excluded directory and is neither secret nor too large. */
  predicate Eligible(includeSecrets: bool, p: Path, size: nat) {
    p.Child? && !Pruned(p) && ShouldSkipFile(includeSecrets, p.name, size).Keep?
  }

  /** The regular files a snapshot is meant to hold. */
  function EligibleFiles(includeSecrets: bool, t: Tree): map<Path, Node> {
    map p | p in t && t[p].File? && Eligible(includeSecrets, p, t[p].size) :: t[p]
  }

  /** Pruned is what its name says: some excluded directory lies above the path. */
  lemma {:induction false} PrunedIff(p: Path)
    ensures Pruned(p) <==> exists a :: Above(a, p) && a.Child? && IsExcludedDir(a.name)
    decreases p
  {
    if p.Child? {
      PrunedIff(p.parent);
      assert Above(p.parent, p);
      assert forall a :: Above(a, p.parent) ==> Above(a, p);
    }
  }

  // ---- the pattern matcher against the usual meaning of '*' ----

  /** Glob matching by its textbook definition: '*' stands for any run of characters. */
  predicate Glob(name: string, pattern: string)
    decreases |name| + |pattern|
  {
    if pattern == "" then name == ""
    else if pattern[0] == '*' then Glob(name, pattern[1..]) || (name != "" && Glob(name[1..], pattern))
    else name != "" && name[0] == pattern[0] && Glob(name[1..], pattern[1..])
  }

  ghost predicate StarFree(s: string) {
    forall i :: 0 <= i < |s| ==> s[i] != '*'
  }

  lemma {:induction false} GlobLiteral(name: string, pattern: string)
    requires StarFree(pattern)
    ensures Glob(name, pattern) <==> name == pattern
    decreases |pattern|
  {
    if pattern != "" && name != "" {
      GlobLiteral(name[1..], pattern[1..]);
      assert name == [name[0]] + name[1..] && pattern == [pattern[0]] + pattern[1..];
    }
  }

  lemma {:induction false} GlobStar(name: string)
    ensures Glob(name, "*")
    decreases |name|
  {
    if name == "" {
    } else {
      GlobStar(name[1..]);
    }
  }

  lemma {:induction false} GlobPrefix(name: string, prefix: string)
    requires StarFree(prefix)
    ensures Glob(name, prefix + "*") <==> HasPrefix(name, prefix)
    decreases |prefix|
  {
    var pattern := prefix + "*";
    if prefix == "" {
      assert pattern == "*";
      GlobStar(name);
    } else {
      assert pattern[0] == prefix[0] && pattern[1..] == prefix[1..] + "*";
      if name != "" {
        GlobPrefix(name[1..], prefix[1..]);
        if HasPrefix(name[1..], prefix[1..]) && name[0] == prefix[0] {
          assert name[..|prefix|] == [name[0]] + name[1..][..|prefix| - 1];
        }
        if HasPrefix(name, prefix) {
          assert name[1..][..|prefix| - 1] == name[..|prefix|][1..];
        }
      }
    }
  }

  lemma {:induction false} GlobSuffix(name: string, suffix: string)
    requires StarFree(suffix)
    ensures Glob(name, "*" + suffix) <==> HasSuffix(name, suffix)
    decreases |name|
  {
    var pattern := "*" + suffix;
    assert pattern[1..] == suffix;
    GlobLiteral(name, suffix);
    if name != "" {
      GlobSuffix(name[1..], suffix);
      assert |suffix| < |name| ==> name[1..][|name| - 1 - |suffix|..] == name[|name| - |suffix|..];
    }
  }

  lemma {:induction false} GlobMiddle(name: string, mid: string)
    requires StarFree(mid)
    ensures Glob(name, "*" + (mid + "*")) <==> Contains(name, mid)
    decreases |name|
  {
    var pattern := "*" + (mid + "*");
    assert pattern[1..] == mid + "*";
    GlobPrefix(name, mid);
    assert name[0..] == name;
    if name != "" {
      var rest := name[1..];
      GlobMiddle(rest, mid);
      assert forall i :: 0 <= i <= |rest| ==> rest[i..] == name[i + 1..];
      if Contains(rest, mid) {
        var i :| 0 <= i <= |rest| && HasPrefix(rest[i..], mid);
        assert HasPrefix(name[i + 1..], mid);
      }
      if Contains(name, mid) && !HasPrefix(name, mid) {
        var i :| 0 <= i <= |name| && HasPrefix(name[i..], mid);
        assert rest[i - 1..] == name[i..];
      }
    }
  }

  /** Stars occur at most at the two ends. */
  ghost predicate StarsAtEnds(pattern: string) {
    forall i :: 0 < i < |pattern| - 1 ==> pattern[i] != '*'
  }

  /**
   * On patterns with stars only at the ends the matcher is glob matching, except that "**",
   * which a glob lets match everything, matches nothing.
   */
  lemma MatchAtEnds(name: string, pattern: string)
    requires StarsAtEnds(pattern)
    ensures MatchPattern(name, pattern) <==> Glob(name, pattern) && pattern != "**"
  {
    if pattern == "*" {
      GlobStar(name);
    } else if HasPrefix(pattern, "*") && HasSuffix(pattern, "*") {
      var mid := pattern[1..|pattern| - 1];
      assert pattern == "*" + (mid + "*");
      GlobMiddle(name, mid);
    } else if HasSuffix(pattern, "*") {
      var prefix := pattern[..|pattern| - 1];
      assert pattern == prefix + "*";
      assert prefix != "" ==> pattern[..1] == [pattern[0]];
      GlobPrefix(name, prefix);
    } else if HasPrefix(pattern, "*") {
      var suffix := pattern[1..];
      assert pattern == "*" + suffix;
      assert pattern[|pattern| - 1..] == [pattern[|pattern| - 1]];
      GlobSuffix(name, suffix);
    } else {
      assert pattern != "" ==> pattern[..1] == [pattern[0]] && pattern[|pattern| - 1..] == [pattern[|pattern| - 1]];
      GlobLiteral(name, pattern);
    }
  }

  /** The pattern with its stars removed. */
  function Strip(pattern: string): string {
    if pattern == "" then ""
    else if pattern[0] == '*' then Strip(pattern[1..])
    else [pattern[0]] + Strip(pattern[1..])
  }

  /** A glob accepts the name that has nothing where its stars stand. */
  lemma {:induction false} GlobStrip(pattern: string)
    ensures Glob(Strip(pattern), pattern) && StarFree(Strip(pattern))
  {
    if pattern == "" {
    } else {
      GlobStrip(pattern[1..]);
      assert pattern[0] != '*' ==> Strip(pattern)[1..] == Strip(pattern[1..]);
    }
  }

  /** The matcher takes an inner star for a plain character, which no name without stars has. */
  lemma InnerStarRejects(name: string, pattern: string, i: nat)
    requires StarFree(name) && 0 < i < |pattern| - 1 && pattern[i] == '*'
    ensures !MatchPattern(name, pattern)
  {
    if HasPrefix(pattern, "*") && HasSuffix(pattern, "*") {
      var mid := pattern[1..|pattern| - 1];
      forall k | 0 <= k <= |name|
        ensures !HasPrefix(name[k..], mid)
      {
        assert mid[i - 1] == '*';
        assert i - 1 < |name[k..]| ==> name[k..][i - 1] != '*';
      }
    } else if HasSuffix(pattern, "*") {
      var prefix := pattern[..|pattern| - 1];
      assert prefix[i] == '*' && (|prefix| <= |name| ==> name[..|prefix|][i] != '*');
    } else if HasPrefix(pattern, "*") {
      var suffix := pattern[1..];
      assert suffix[i - 1] == '*';
      assert |suffix| <= |name| ==> name[|name| - |suffix|..][i - 1] != '*';
    }
  }

  /**
   * The matcher agrees with glob matching on every name exactly for patterns with stars at the ends only, "**" aside.
   */
  lemma MatchPatternIsGlobIff(pattern: string)
    ensures (forall name :: MatchPattern(name, pattern) <==> Glob(name, pattern)) <==>
              StarsAtEnds(pattern) && pattern != "**"
  {
    hide MatchPattern;
    GlobStrip(pattern);
    if StarsAtEnds(pattern) {
      forall name
        ensures MatchPattern(name, pattern) <==> Glob(name, pattern) && pattern != "**"
      {
        MatchAtEnds(name, pattern);
      }
    } else {
      var i :| 0 < i < |pattern| - 1 && pattern[i] == '*';
      InnerStarRejects(Strip(pattern), pattern, i);
    }
  }

  /** Every pattern of the table is one of those. */
  lemma {:induction false} MatchesAnyIsGlob(name: string, patterns: seq<string>)
    requires forall i :: 0 <= i < |patterns| ==> StarsAtEnds(patterns[i]) && patterns[i] != "**"
    ensures MatchesAny(name, patterns) <==> exists i :: 0 <= i < |patterns| && Glob(name, patterns[i])
    decreases |patterns|
  {
    hide MatchPattern, Glob, StarsAtEnds;
    if patterns == [] {
    } else {
      MatchAtEnds(name, patterns[0]);
      MatchesAnyIsGlob(name, patterns[1..]);
      assert forall i :: 0 < i < |patterns| ==> patterns[i] == patterns[1..][i - 1];
    }
  }

  /** A file is secret iff its lower-case name matches a pattern of the table as a glob. */
  lemma SecretsAreGlobs(name: string)
    ensures IsSecretFile(name) <==> exists i :: 0 <= i < |SECRET_PATTERNS| && Glob(Lower(name), SECRET_PATTERNS[i])
  {
    forall i | 0 <= i < |SECRET_PATTERNS|
      ensures StarsAtEnds(SECRET_PATTERNS[i]) && SECRET_PATTERNS[i] != "**"
    {
    }
    hide Glob, MatchesAny;
    MatchesAnyIsGlob(Lower(name), SECRET_PATTERNS);
  }
}
