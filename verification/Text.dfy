/** Strings as the backend's name tables use them: ASCII case folding and membership in a list of names. */
module Text {

  function LowerChar(c: char): char {
    if 'A' <= c <= 'Z' then c - 'A' + 'a' else c
  }

  function Lower(s: string): (r: string)
    ensures |r| == |s|
  {
    seq(|s|, i requires 0 <= i < |s| => LowerChar(s[i]))
  }

  predicate HasPrefix(s: string, prefix: string) {
    |prefix| <= |s| && s[..|prefix|] == prefix
  }

  predicate HasSuffix(s: string, suffix: string) {
    |suffix| <= |s| && s[|s| - |suffix|..] == suffix
  }

  /** The name is one of those listed. */
  predicate OneOf(name: string, names: seq<string>)
    decreases |name|, |names|
  {
    names != [] && (name == names[0] || OneOf(name, names[1..]))
  }
}
