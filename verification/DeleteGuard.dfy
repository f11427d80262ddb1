/** Detection of shell deletion commands (backend/internal/tools/delete_guard.go). */
module DeleteGuard {
  import opened Text
  import opened ShellLexer

  const DELETION_COMMANDS: seq<string> := [
    "rm", "rmdir", "del", "erase", "rd", "deltree", "remove-item", "ri", "shred", "srm"]

  const PREFIX_COMMANDS: seq<string> := ["sudo", "time", "env", "nice", "busybox"]

  const SUDO_VALUE_OPTIONS: seq<string> := [
    "-u", "-U", "-g", "-C", "-T", "--user", "--group", "--host", "--chdir", "--close-from", "--prompt"]

  const ENV_VALUE_OPTIONS: seq<string> := ["-u", "--unset"]

  const NICE_VALUE_OPTIONS: seq<string> := ["-n", "--adjustment"]

  const SHELL_LAUNCHERS: seq<string> := ["sh", "bash", "cmd", "powershell", "pwsh"]

  const COMMAND_KEYWORDS: seq<string> := [
    "if", "then", "else", "elif", "fi", "while", "until", "for", "do", "done",
    "case", "esac", "function", "select", "{", "}", "!", "coproc"]

  const SEPARATORS: seq<string> := [";", ";;", "&", "|", "&&", "||", "\n", "(", "{"]

  const MAX_ANALYZE_DEPTH: nat := 16

  /** What the name of a simple command means to the analysis, in the order the cases are tried. */
  datatype Role = Prefix | Launcher | Find | Deletion | Other

  function RoleOf(name: string): Role {
    if OneOf(name, PREFIX_COMMANDS) then Prefix
    else if OneOf(name, SHELL_LAUNCHERS) then Launcher
    else if name == "find" then Find
    else if OneOf(name, DELETION_COMMANDS) then Deletion
    else Other
  }

  predicate TakesValue(prefix: string, option: string) {
    if prefix == "sudo" then OneOf(option, SUDO_VALUE_OPTIONS)
    else if prefix == "env" then OneOf(option, ENV_VALUE_OPTIONS)
    else if prefix == "nice" then OneOf(option, NICE_VALUE_OPTIONS)
    else false
  }

  predicate IsLauncherOption(launcher: string, option: string) {
    var o := Lower(option);
    if launcher == "sh" || launcher == "bash" then o == "-c"
    else if launcher == "cmd" then o == "/c"
    else if launcher == "powershell" || launcher == "pwsh" then o == "-c" || o == "-command"
    else false
  }

  predicate IsLetter(c: char) { c == '_' || 'a' <= c <= 'z' || 'A' <= c <= 'Z' }

  /** An identifier followed by '='. */
  predicate IsAssignment(word: string) {
    exists eq :: && 0 < eq < |word| && word[eq] == '=' && IsLetter(word[0])
                 && forall i :: 0 < i < eq ==> IsLetter(word[i]) || '0' <= word[i] <= '9'
  }

  // ---- here-documents and the token stream of a command ----

  datatype Heredoc = Heredoc(delim: string, stripTabs: bool)

  function SplitLines(s: string): (lines: seq<string>)
    ensures lines != []
  {
    if s == "" then [""]
    else if s[0] == '\n' then [""] + SplitLines(s[1..])
    else
      var rest := SplitLines(s[1..]);
      [[s[0]] + rest[0]] + rest[1..]
  }

  function TrimReturn(line: string): string {
    if HasSuffix(line, "\r") then line[..|line| - 1] else line
  }

  function TrimTabs(s: string): string {
    if s != "" && s[0] == '\t' then TrimTabs(s[1..]) else s
  }

  predicate IsSpace(c: char) { c == ' ' || '\t' <= c <= '\r' }

  function TrimFront(s: string): string {
    if s != "" && IsSpace(s[0]) then TrimFront(s[1..]) else s
  }

  function TrimBack(s: string): string {
    if s != "" && IsSpace(s[|s| - 1]) then TrimBack(s[..|s| - 1]) else s
  }

  predicate ClosesHeredoc(line: string, h: Heredoc) {
    TrimBack(TrimFront(if h.stripTabs then TrimTabs(line) else line)) == h.delim
  }

  predicate OpensHeredoc(t: Token) {
    t.kind.Op? && (t.text == "<<" || t.text == "<<-")
  }

  /** The here-documents the first n tokens of a line open. */
  function Opened(tokens: seq<Token>, n: nat): seq<Heredoc>
    requires n <= |tokens|
  {
    if n == 0 then []
    else
      Opened(tokens, n - 1) +
      if OpensHeredoc(tokens[n - 1]) && n < |tokens|
      then [Heredoc(tokens[n].content, tokens[n - 1].text == "<<-")]
      else []
  }

  const NEWLINE: Token := OpToken("\n")

  /** The tokens of the lines outside here-documents; of several open ones the latest is closed first. */
  function Stream(lines: seq<string>, active: seq<Heredoc>): seq<Token>
    decreases |lines|
  {
    if lines == [] then []
    else
      var line := TrimReturn(lines[0]);
      if active != [] then
        Stream(lines[1..], if ClosesHeredoc(line, active[|active| - 1]) then active[..|active| - 1] else active)
      else
        var tokens := Lex(line, true);
        tokens + [NEWLINE] + Stream(lines[1..], Opened(tokens, |tokens|))
  }

  method CollectHeredocs(lineTokens: seq<Token>) returns (active: seq<Heredoc>)
    ensures active == Opened(lineTokens, |lineTokens|)
  {
    active := [];
    for idx := 0 to |lineTokens|
      invariant active == Opened(lineTokens, idx)
    {
      if OpensHeredoc(lineTokens[idx]) && idx + 1 < |lineTokens| {
        active := active + [Heredoc(lineTokens[idx + 1].content, lineTokens[idx].text == "<<-")];
      }
    }
  }

  method ReadCommand(command: string) returns (tokens: seq<Token>)
    ensures tokens == Stream(SplitLines(command), [])
  {
    hide SplitLines, Opened, ClosesHeredoc, TrimReturn;
    var lines := SplitLines(command);
    var active: seq<Heredoc> := [];
    tokens := [];
    for n := 0 to |lines|
      invariant tokens + Stream(lines[n..], active) == Stream(lines, [])
    {
      ghost var rest := lines[n..];
      assert rest[1..] == lines[n + 1..];
      var line := TrimReturn(lines[n]);
      if |active| > 0 {
        if ClosesHeredoc(line, active[|active| - 1]) {
          active := active[..|active| - 1];
        }
        continue;
      }
      var lineTokens := TokenizeLine(line);
      active := CollectHeredocs(lineTokens);
      ghost var before := tokens;
      tokens := tokens + lineTokens + [NEWLINE];
      assert before + (lineTokens + [NEWLINE] + Stream(lines[n + 1..], active)) ==
          tokens + Stream(lines[n + 1..], active);
    }
    assert lines[|lines|..] == [];
  }

  // ---- command positions ----

  /** Whether a word that comes right after the first i tokens stands where a command name is expected. */
  function CommandExpected(ts: seq<Token>, i: nat): bool
    requires i <= |ts|
  {
    if i == 0 then true
    else
      var t := ts[i - 1];
      if t.kind.Op? then OneOf(t.text, SEPARATORS)
      else if IsAssignment(t.text) then CommandExpected(ts, i - 1)
      else OneOf(Lower(t.text), COMMAND_KEYWORDS)
  }

  function Positioned(ts: seq<Token>): (r: seq<Token>)
    ensures |r| == |ts|
  {
    seq(|ts|, i requires 0 <= i < |ts| =>
          if ts[i].kind.Op? then ts[i] else ts[i].(commandPos := CommandExpected(ts, i)))
  }

  method AssignCommandPositions(tokens: array<Token>)
    modifies tokens
    ensures tokens[..] == Positioned(old(tokens[..]))
  {
    ghost var ts := tokens[..];
    var atCommandStart := true;
    for i := 0 to tokens.Length
      invariant atCommandStart == CommandExpected(ts, i)
      invariant forall k :: 0 <= k < tokens.Length ==> tokens[k] == if k < i then Positioned(ts)[k] else ts[k]
    {
      var t := tokens[i];
      assert t == ts[i];
      if t.kind == Op {
        atCommandStart := OneOf(t.text, SEPARATORS);
        continue;
      }
      tokens[i] := t.(commandPos := atCommandStart);
      if IsAssignment(t.text) { continue; }
      atCommandStart := OneOf(Lower(t.text), COMMAND_KEYWORDS);
    }
  }

  /** Assigning positions looks at kinds and texts only, so doing it again changes nothing. */
  lemma {:induction false} PositionsStable(ts: seq<Token>, i: nat)
    requires i <= |ts|
    ensures CommandExpected(Positioned(ts), i) == CommandExpected(ts, i)
  {
    if i == 0 {
    } else {
      PositionsStable(ts, i - 1);
    }
  }

  // ---- what counts as a deletion ----

  /** An unquoted word that is no assignment: it names a command if it stands in command position. */
  predicate NamesCommand(t: Token) {
    t.kind.Word? && !t.quoted && !IsAssignment(t.content)
  }

  /** Past the options of a prefix command and the values they take. */
  function SkipOptions(ts: seq<Token>, prefix: string, j: nat): (k: nat)
    ensures k >= j
    decreases |ts| - j
  {
    if j < |ts| && ts[j].kind.Word? && !ts[j].quoted && HasPrefix(ts[j].text, "-") then
      if ts[j].text == "--" then j + 1
      else if TakesValue(prefix, ts[j].text) then SkipOptions(ts, prefix, j + 2)
      else SkipOptions(ts, prefix, j + 1)
    else j
  }

  function CommandName(t: Token): string { Lower(t.content) }

  /** The position a prefix command hands its command position on to. */
  function Target(ts: seq<Token>, p: nat): nat
    requires p < |ts|
  {
    SkipOptions(ts, CommandName(ts[p]), p + 1)
  }

  ghost predicate PrefixAt(ts: seq<Token>, p: nat)
    requires p < |ts|
  {
    Effective(ts, p) && NamesCommand(ts[p]) && RoleOf(CommandName(ts[p])).Prefix?
  }

  /** In command position by itself, or because a prefix command before it is. */
  ghost predicate Effective(ts: seq<Token>, i: nat)
    requires i < |ts|
    decreases i, 0
  {
    ts[i].commandPos || exists p :: 0 <= p < i && PassesOn(ts, p, i)
  }

  ghost predicate PassesOn(ts: seq<Token>, p: nat, i: nat)
    requires p < i < |ts|
    decreases p, 1
  {
    Effective(ts, p) && NamesCommand(ts[p]) && RoleOf(CommandName(ts[p])).Prefix? && Target(ts, p) == i
  }

  /** A find command with an unquoted -delete before the next operator. */
  ghost predicate FindDeletes(ts: seq<Token>, i: nat)
    requires i < |ts|
  {
    exists k :: i < k < |ts| && !ts[k].quoted && ts[k].text == "-delete" && forall m :: i < m <= k ==> ts[m].kind.Word?
  }

  /** An interpreter with the option that makes it run its next argument. */
  predicate Launches(ts: seq<Token>, i: nat)
    requires i < |ts|
  {
    i + 2 < |ts| && !ts[i + 1].quoted && IsLauncherOption(CommandName(ts[i]), ts[i + 1].text)
  }

  /** The token at i is the name of something that deletes. */
  ghost predicate Witness(ts: seq<Token>, i: nat, depth: nat)
    requires i < |ts| && depth <= MAX_ANALYZE_DEPTH
    decreases MAX_ANALYZE_DEPTH + 1 - depth, 0
  {
    Effective(ts, i) && NamesCommand(ts[i]) &&
    match RoleOf(CommandName(ts[i]))
    case Deletion => true
    case Find => FindDeletes(ts, i)
    case Launcher => Launches(ts, i) && ContainsDeletion(ts[i + 2].content, depth + 1)
    case _ => false
  }

  /** The tokens of a command, with their command positions. */
  function TokensOf(command: string): seq<Token> { Positioned(Stream(SplitLines(command), [])) }

  /** The declarative meaning of "blocked". */
  ghost predicate ContainsDeletion(command: string, depth: nat)
    decreases MAX_ANALYZE_DEPTH + 1 - depth, 2
  {
    && depth <= MAX_ANALYZE_DEPTH && command != ""
    && DeletesBefore(TokensOf(command), |TokensOf(command)|, depth)
  }

  /** One of the first n tokens is a witness. */
  ghost predicate DeletesBefore(ts: seq<Token>, n: nat, depth: nat)
    requires n <= |ts| && depth <= MAX_ANALYZE_DEPTH
    decreases MAX_ANALYZE_DEPTH + 1 - depth, 1
  {
    exists i :: 0 <= i < n && Witness(ts, i, depth)
  }

  // ---- the index jumps of the scan miss nothing ----

  predicate BeginsOption(text: string) { text != "" && (text[0] == '-' || text[0] == '/') }

  /** What the lexer guarantees and the scan relies on. */
  predicate Plain(t: Token) {
    if t.kind.Op? then !BeginsOption(t.text) else !t.quoted ==> t.content == t.text
  }

  ghost predicate AllPlain(ts: seq<Token>) { forall i :: 0 <= i < |ts| ==> Plain(ts[i]) }

  ghost predicate Ready(ts: seq<Token>) { Positioned(ts) == ts && AllPlain(ts) }

  /** An option: an unquoted word that begins with a dash or a slash. */
  predicate OptionWord(t: Token) {
    t.kind.Word? && !t.quoted && BeginsOption(t.text)
  }

  ghost predicate NoOptions(names: seq<string>) {
    forall i :: 0 <= i < |names| ==> names[i] != "" && !BeginsOption(names[i])
  }

  lemma {:induction false} ListedIsNoOption(name: string, names: seq<string>)
    requires NoOptions(names) && OneOf(name, names)
    ensures name != "" && !BeginsOption(name)
    decreases |names|
  {
    if name != names[0] { ListedIsNoOption(name, names[1..]); }
  }

  /** An option names no command, and what follows it is in no command position. */
  lemma OptionIsHarmless(word: string)
    requires BeginsOption(word)
    ensures RoleOf(Lower(word)) == Other && !IsAssignment(word) && !OneOf(Lower(word), COMMAND_KEYWORDS)
  {
    hide OneOf;
    var name := Lower(word);
    assert name[0] == word[0];
    if OneOf(name, PREFIX_COMMANDS) { ListedIsNoOption(name, PREFIX_COMMANDS); }
    if OneOf(name, SHELL_LAUNCHERS) { ListedIsNoOption(name, SHELL_LAUNCHERS); }
    if OneOf(name, DELETION_COMMANDS) { ListedIsNoOption(name, DELETION_COMMANDS); }
    if OneOf(name, COMMAND_KEYWORDS) { ListedIsNoOption(name, COMMAND_KEYWORDS); }
  }

  /** Of the skipped tokens, each is an operator, an option, or the token right after an option. */
  predicate Skippable(ts: seq<Token>, k: nat)
    requires k < |ts|
  {
    ts[k].kind.Op? || OptionWord(ts[k]) || (k > 0 && OptionWord(ts[k - 1]))
  }

  lemma {:induction false} SkipOptionsSkippable(ts: seq<Token>, prefix: string, j: nat)
    ensures forall k :: j <= k < SkipOptions(ts, prefix, j) && k < |ts| ==> Skippable(ts, k)
    decreases |ts| - j
  {
    if j < |ts| && ts[j].kind.Word? && !ts[j].quoted && HasPrefix(ts[j].text, "-") {
      assert ts[j].text[..1] == "-";
      assert OptionWord(ts[j]);
      if ts[j].text != "--" {
        SkipOptionsSkippable(ts, prefix, if TakesValue(prefix, ts[j].text) then j + 2 else j + 1);
      }
    }
  }

  lemma LauncherOptionIsOption(launcher: string, option: string)
    requires IsLauncherOption(launcher, option)
    ensures BeginsOption(option)
  {
    assert Lower(option)[0] == LowerChar(option[0]);
  }

  /** No command starts at k. */
  ghost predicate Inert(ts: seq<Token>, k: nat)
    requires k < |ts|
  {
    !(Effective(ts, k) && NamesCommand(ts[k]) && RoleOf(CommandName(ts[k])) != Other)
  }

  /** Prefix commands before i hand on to positions up to j only. */
  ghost predicate Bounded(ts: seq<Token>, i: nat, j: nat)
    requires i <= |ts|
  {
    forall p :: 0 <= p < i && PrefixAt(ts, p) ==> Target(ts, p) <= j
  }

  lemma {:induction false} SkippedIsInert(ts: seq<Token>, i: nat, j: nat, k: nat)
    requires Ready(ts) && i < |ts| && Bounded(ts, i, i) && (PrefixAt(ts, i) ==> Target(ts, i) == j)
    requires forall m :: i < m < j && m < |ts| ==> Skippable(ts, m)
    requires i < k < j && k < |ts|
    ensures Inert(ts, k)
    decreases k
  {
    if OptionWord(ts[k]) {
      OptionIsHarmless(ts[k].text);
    } else if ts[k].kind.Word? {
      assert Skippable(ts, k);
      var option := ts[k - 1];
      OptionIsHarmless(option.text);
      assert !ts[k].commandPos by {
        assert Positioned(ts)[k].commandPos == CommandExpected(ts, k);
      }
      forall p | 0 <= p < k
        ensures !PassesOn(ts, p, k)
      {
        if i < p { SkippedIsInert(ts, i, j, p); }
        if p < i && PassesOn(ts, p, k) { assert PrefixAt(ts, p); }
      }
    }
  }

  /** After a jump from i to j the invariant of the scan about effective positions holds at j. */
  lemma JumpKeeps(ts: seq<Token>, i: nat, j: nat)
    requires Ready(ts) && i < |ts| && i < j && Bounded(ts, i, i) && (PrefixAt(ts, i) ==> Target(ts, i) == j)
    requires forall m :: i < m < j && m < |ts| ==> Skippable(ts, m)
    ensures forall k :: i < k < j && k < |ts| ==> Inert(ts, k)
    ensures Bounded(ts, if j < |ts| then j else |ts|, j)
    ensures j < |ts| ==> (Effective(ts, j) <==> ts[j].commandPos || PrefixAt(ts, i))
  {
    forall k | i < k < j && k < |ts|
      ensures Inert(ts, k)
    {
      SkippedIsInert(ts, i, j, k);
    }
    hide Ready, Skippable, Effective, NamesCommand, Target;
    forall p | 0 <= p < |ts| && p < j && PrefixAt(ts, p)
      ensures Target(ts, p) <= j
    {
      assert i < p ==> Inert(ts, p);
    }
    if j < |ts| {
      forall p | 0 <= p < j && PassesOn(ts, p, j)
        ensures p == i
      {
        assert PrefixAt(ts, p);
        assert i < p ==> Inert(ts, p);
      }
      HandedOn(ts, i, j);
    }
  }

  lemma HandedOn(ts: seq<Token>, i: nat, j: nat)
    requires i < j < |ts| && (PrefixAt(ts, i) ==> Target(ts, i) == j)
    requires forall p :: 0 <= p < j && PassesOn(ts, p, j) ==> p == i
    ensures Effective(ts, j) <==> ts[j].commandPos || PrefixAt(ts, i)
  {
    hide NamesCommand, Target;
    if PrefixAt(ts, i) { assert PassesOn(ts, i, j); }
  }

  // ---- which command is reported ----

  ghost function ToolAt(ts: seq<Token>, i: nat, depth: nat): string
    requires i < |ts| && depth <= MAX_ANALYZE_DEPTH
    decreases MAX_ANALYZE_DEPTH + 1 - depth, 0
  {
    if !Witness(ts, i, depth) then ""
    else match RoleOf(CommandName(ts[i]))
      case Deletion => ts[i].content
      case Find => "find -delete"
      case Launcher => CommandTool(ts[i + 2].content, depth + 1)
      case _ => ""
  }

  /** The name reported for the first n tokens: that of the first witness. */
  ghost function ToolBefore(ts: seq<Token>, n: nat, depth: nat): string
    requires n <= |ts| && depth <= MAX_ANALYZE_DEPTH
    decreases MAX_ANALYZE_DEPTH + 1 - depth, 1, n
  {
    if n == 0 then ""
    else
      var earlier := ToolBefore(ts, n - 1, depth);
      if earlier != "" then earlier else ToolAt(ts, n - 1, depth)
  }

  ghost function CommandTool(command: string, depth: nat): string
    decreases MAX_ANALYZE_DEPTH + 1 - depth, 2
  {
    if depth > MAX_ANALYZE_DEPTH || command == "" then ""
    else
      var ts := TokensOf(command);
      ToolBefore(ts, |ts|, depth)
  }

  lemma {:induction false} ToolNamesWitness(ts: seq<Token>, i: nat, depth: nat)
    requires i < |ts| && depth <= MAX_ANALYZE_DEPTH
    ensures ToolAt(ts, i, depth) != "" <==> Witness(ts, i, depth)
    decreases MAX_ANALYZE_DEPTH + 1 - depth, 0
  {
    if Witness(ts, i, depth) {
      hide Effective, OneOf, FindDeletes;
      match RoleOf(CommandName(ts[i]))
      case Deletion => EmptyNameIsOther();
      case Launcher => ToolIffBlocked(ts[i + 2].content, depth + 1);
      case _ =>
    }
  }

  lemma EmptyNameIsOther()
    ensures RoleOf("") == Other
  {
    hide OneOf;
    if OneOf("", PREFIX_COMMANDS) { ListedIsNoOption("", PREFIX_COMMANDS); }
    if OneOf("", SHELL_LAUNCHERS) { ListedIsNoOption("", SHELL_LAUNCHERS); }
    if OneOf("", DELETION_COMMANDS) { ListedIsNoOption("", DELETION_COMMANDS); }
  }

  lemma {:induction false} FirstToolIffWitness(ts: seq<Token>, n: nat, depth: nat)
    requires n <= |ts| && depth <= MAX_ANALYZE_DEPTH
    ensures ToolBefore(ts, n, depth) != "" <==> DeletesBefore(ts, n, depth)
    decreases MAX_ANALYZE_DEPTH + 1 - depth, 1, n
  {
    hide Witness, ToolAt;
    if n > 0 {
      FirstToolIffWitness(ts, n - 1, depth);
      ToolNamesWitness(ts, n - 1, depth);
    }
  }

  /** A command is reported with a tool name exactly if it contains a deletion. */
  lemma {:induction false} ToolIffBlocked(command: string, depth: nat)
    ensures CommandTool(command, depth) != "" <==> ContainsDeletion(command, depth)
    decreases MAX_ANALYZE_DEPTH + 1 - depth, 2
  {
    hide TokensOf, Effective, NamesCommand, RoleOf, CommandName, FindDeletes, Launches;
    if depth <= MAX_ANALYZE_DEPTH && command != "" {
      FirstToolIffWitness(TokensOf(command), |TokensOf(command)|, depth);
    }
  }

  // ---- which paths are reported ----

  const MAX_PATHS: nat := 5

  function First(paths: seq<string>, n: nat): seq<string> {
    if |paths| <= n then paths else paths[..n]
  }

  /** The unquoted words from position k up to the next operator that are no options. */
  function PathWords(ts: seq<Token>, k: nat): seq<string>
    decreases |ts| - k
  {
    if k >= |ts| || ts[k].kind.Op? then []
    else (if ts[k].quoted || HasPrefix(ts[k].text, "-") then [] else [ts[k].text]) + PathWords(ts, k + 1)
  }

  /** The paths that the deletion at i names. */
  ghost function PathsAt(ts: seq<Token>, i: nat, depth: nat): seq<string>
    requires i < |ts| && depth <= MAX_ANALYZE_DEPTH
    decreases MAX_ANALYZE_DEPTH + 1 - depth, 0
  {
    if !Witness(ts, i, depth) then []
    else match RoleOf(CommandName(ts[i]))
      case Deletion => PathWords(ts, i + 1)
      case Launcher => CommandPaths(ts[i + 2].content, depth + 1)
      case _ => []
  }

  ghost function PathsBefore(ts: seq<Token>, n: nat, depth: nat): seq<string>
    requires n <= |ts| && depth <= MAX_ANALYZE_DEPTH
    decreases MAX_ANALYZE_DEPTH + 1 - depth, 1, n
  {
    if n == 0 then [] else PathsBefore(ts, n - 1, depth) + PathsAt(ts, n - 1, depth)
  }

  /** All the paths that the deletions in a command name, nested commands included, in order. */
  ghost function CommandPaths(command: string, depth: nat): seq<string>
    decreases MAX_ANALYZE_DEPTH + 1 - depth, 2
  {
    if depth > MAX_ANALYZE_DEPTH || command == "" then []
    else
      var ts := TokensOf(command);
      PathsBefore(ts, |ts|, depth)
  }

  /**
   * What the deletion at i adds to the report: paths up to the fifth, but one at least, of a command; those of a
   * nested command, cut down to five in all.
   */
  ghost function ReportedAt(ts: seq<Token>, i: nat, depth: nat, soFar: seq<string>): seq<string>
    requires i < |ts| && depth <= MAX_ANALYZE_DEPTH
    decreases MAX_ANALYZE_DEPTH + 1 - depth, 0
  {
    if !Witness(ts, i, depth) then soFar
    else match RoleOf(CommandName(ts[i]))
      case Deletion => soFar + First(PathWords(ts, i + 1), if |soFar| < MAX_PATHS then MAX_PATHS - |soFar| else 1)
      case Launcher => First(soFar + CommandReport(ts[i + 2].content, depth + 1), MAX_PATHS)
      case _ => soFar
  }

  ghost function ReportBefore(ts: seq<Token>, n: nat, depth: nat): seq<string>
    requires n <= |ts| && depth <= MAX_ANALYZE_DEPTH
    decreases MAX_ANALYZE_DEPTH + 1 - depth, 1, n
  {
    if n == 0 then [] else ReportedAt(ts, n - 1, depth, ReportBefore(ts, n - 1, depth))
  }

  ghost function CommandReport(command: string, depth: nat): seq<string>
    decreases MAX_ANALYZE_DEPTH + 1 - depth, 2
  {
    if depth > MAX_ANALYZE_DEPTH || command == "" then []
    else
      var ts := TokensOf(command);
      ReportBefore(ts, |ts|, depth)
  }

  /** The first few of a sum depend on the first few of its parts only. */
  lemma FirstOfSum(a: seq<string>, a': seq<string>, b: seq<string>, b': seq<string>, n: nat)
    requires First(a, n) == First(a', n) && First(b, n) == First(b', n)
    ensures First(a + b, n) == First(a' + b', n)
  {
    if |a| >= n {
      assert First(a + b, n) == First(a, n) && First(a' + b', n) == First(a', n);
    } else {
      assert a == a';
      assert First(a + b, n) == First(a + First(b, n), n) == First(a + First(b', n), n) == First(a + b', n);
    }
  }

  /** The report begins with the first five paths named, and has all of them if there are fewer. */
  lemma {:induction false} ReportStartsRight(command: string, depth: nat)
    ensures First(CommandReport(command, depth), MAX_PATHS) == First(CommandPaths(command, depth), MAX_PATHS)
    decreases MAX_ANALYZE_DEPTH + 1 - depth, 2
  {
    hide TokensOf, First;
    if depth > MAX_ANALYZE_DEPTH || command == "" {
    } else {
      ReportBeforeStartsRight(TokensOf(command), |TokensOf(command)|, depth);
    }
  }

  lemma {:induction false} ReportBeforeStartsRight(ts: seq<Token>, n: nat, depth: nat)
    requires n <= |ts| && depth <= MAX_ANALYZE_DEPTH
    ensures First(ReportBefore(ts, n, depth), MAX_PATHS) == First(PathsBefore(ts, n, depth), MAX_PATHS)
    decreases MAX_ANALYZE_DEPTH + 1 - depth, 1, n
  {
    hide Effective, NamesCommand, RoleOf, FindDeletes, ContainsDeletion, PathWords, CommandReport, CommandPaths;
    if n == 0 {
    } else {
      ReportBeforeStartsRight(ts, n - 1, depth);
      var soFar, all := ReportBefore(ts, n - 1, depth), PathsBefore(ts, n - 1, depth);
      if Witness(ts, n - 1, depth) {
        match RoleOf(CommandName(ts[n - 1]))
        case Deletion =>
          var words := PathWords(ts, n);
          var some := First(words, if |soFar| < MAX_PATHS then MAX_PATHS - |soFar| else 1);
          FirstOfSum(soFar, all, words, words, MAX_PATHS);
          assert First(soFar + some, MAX_PATHS) == First(soFar + words, MAX_PATHS);
        case Launcher =>
          var argument := ts[n + 1].content;
          ReportStartsRight(argument, depth + 1);
          FirstOfSum(soFar, all, CommandReport(argument, depth + 1), CommandPaths(argument, depth + 1), MAX_PATHS);
        case _ =>
      }
    }
  }

  /** A deletion command with a path, after five paths were named, and with no nested deletion behind it. */
  ghost predicate Overflows(ts: seq<Token>, i: nat, n: nat, depth: nat)
    requires i < n <= |ts| && depth <= MAX_ANALYZE_DEPTH
  {
    && Witness(ts, i, depth) && RoleOf(CommandName(ts[i])).Deletion? && PathWords(ts, i + 1) != []
    && |PathsBefore(ts, i, depth)| >= MAX_PATHS
    && forall k :: i < k < n && Witness(ts, k, depth) ==> !RoleOf(CommandName(ts[k])).Launcher?
  }

  /** The report is longer than five paths iff a deletion command overflows it. */
  lemma {:induction false} OverflowIff(ts: seq<Token>, n: nat, depth: nat)
    requires n <= |ts| && depth <= MAX_ANALYZE_DEPTH
    ensures |ReportBefore(ts, n, depth)| > MAX_PATHS <==> exists i :: 0 <= i < n && Overflows(ts, i, n, depth)
    decreases n
  {
    hide Witness, RoleOf, PathWords, CommandReport, PathsBefore, CommandName;
    if n == 0 {
    } else {
      OverflowIff(ts, n - 1, depth);
      ReportBeforeStartsRight(ts, n - 1, depth);
      var nested := Witness(ts, n - 1, depth) && RoleOf(CommandName(ts[n - 1])).Launcher?;
      assert forall i :: 0 <= i < n - 1 ==> (Overflows(ts, i, n, depth) <==> Overflows(ts, i, n - 1, depth) && !nested);
      assert |ReportBefore(ts, n - 1, depth)| >= MAX_PATHS <==> |PathsBefore(ts, n - 1, depth)| >= MAX_PATHS;
      if |ReportBefore(ts, n, depth)| > MAX_PATHS {
        if |ReportBefore(ts, n - 1, depth)| > MAX_PATHS {
          var i :| 0 <= i < n - 1 && Overflows(ts, i, n - 1, depth);
          assert !nested && Overflows(ts, i, n, depth);
        } else {
          assert Overflows(ts, n - 1, n, depth);
        }
      }
    }
  }

  const REMOVAL: Token := WordToken("rm")

  /** A word of one letter. */
  predicate Letter(t: Token) {
    t.(commandPos := false) == WordToken(t.text) && |t.text| == 1 && 'a' <= t.text[0] <= 'z'
  }

  /** The tokens of a line like `rm a b c d e ; rm f`. */
  ghost predicate TwoRemovals(line: seq<Token>) {
    && |line| == 9 && line[0] == REMOVAL == line[7] && line[6] == OpToken(";") && Letter(line[8])
    && forall i :: 1 <= i < 6 ==> Letter(line[i])
  }

  /** The command `rm a b c d e ; rm f` makes the report too long. */
  lemma SixPathsReported()
    ensures |CommandReport("rm a b c d e ; rm f ", 0)| > MAX_PATHS
  {
    var line := SixPathsText();
    TwoRemovalsReported(line);
  }

  /** So does every text of that kind. */
  lemma TwoRemovalsReported(line: seq<Token>)
    requires TwoRemovals(line) && forall i :: 0 <= i < |line| ==> !line[i].commandPos
    ensures |CommandReport(Render(line), 0)| > MAX_PATHS
  {
    var command, ts := Render(line), line + [NEWLINE];
    assert TokensOf(command) == Positioned(ts) by { LineRead(line); }
    RemovalPositions(line);
    RemovalsOverflow(Positioned(ts));
    hide TokensOf, ReportBefore, Positioned, Render, TwoRemovals;
    assert CommandReport(command, 0) == ReportBefore(Positioned(ts), 10, 0);
  }

  lemma LineRead(line: seq<Token>)
    requires TwoRemovals(line) && forall i :: 0 <= i < |line| ==> !line[i].commandPos
    ensures Render(line) != "" && TokensOf(Render(line)) == Positioned(line + [NEWLINE])
  {
    LineWritable(line);
    hide TwoRemovals, Writable, Positioned;
    LexRender(line, true);
    RenderedIsOneLine(line);
    LineStreamed(Render(line), line);
  }

  lemma LineWritable(line: seq<Token>)
    requires TwoRemovals(line) && forall i :: 0 <= i < |line| ==> !line[i].commandPos
    ensures line != [] && forall i :: 0 <= i < |line| ==> Writable(line[i]) && '\n' !in line[i].text
  {
    assert OPERATORS[10] == ";";
  }

  /** The tokens of a single line. */
  lemma LineStreamed(command: string, line: seq<Token>)
    requires command != "" && command[|command| - 1] == ' ' && '\n' !in command && Lex(command, true) == line
    ensures Stream(SplitLines(command), []) == line + [NEWLINE]
  {
    OneLine(command);
    assert TrimReturn(command) == command;
    hide Lex, SplitLines, TrimReturn;
    assert Stream([command], []) == line + [NEWLINE] + Stream([], Opened(line, |line|));
    assert line + [NEWLINE] + [] == line + [NEWLINE];
  }

  lemma {:induction false} RenderedIsOneLine(tokens: seq<Token>)
    requires tokens != [] && forall i :: 0 <= i < |tokens| ==> '\n' !in tokens[i].text
    ensures var s := Render(tokens); s != "" && s[|s| - 1] == ' ' && '\n' !in s
    decreases |tokens|
  {
    if |tokens| == 1 {
      assert Render(tokens[1..]) == "";
    } else {
      RenderedIsOneLine(tokens[1..]);
    }
  }

  lemma {:induction false} OneLine(s: string)
    requires '\n' !in s
    ensures SplitLines(s) == [s]
    decreases |s|
  {
    if s == "" {
    } else {
      OneLine(s[1..]);
      assert s == [s[0]] + s[1..];
    }
  }

  lemma RemovalPositions(line: seq<Token>)
    requires TwoRemovals(line)
    ensures var ts := Positioned(line + [NEWLINE]);
            && ts[0] == ts[7] == REMOVAL.(commandPos := true) && ts[9] == NEWLINE && Letter(ts[8])
            && forall i :: 1 <= i < 6 ==> Letter(ts[i])
  {
    ListedIsIn(";", SEPARATORS);
    assert SEPARATORS[0] == ";";
    hide CommandExpected;
    var ts := line + [NEWLINE];
    assert CommandExpected(ts, 0) && CommandExpected(ts, 7);
  }

  lemma RemovalsOverflow(ts: seq<Token>)
    requires |ts| == 10 && ts[0] == ts[7] == REMOVAL.(commandPos := true) && ts[9] == NEWLINE
    requires Letter(ts[8]) && forall i :: 1 <= i < 6 ==> Letter(ts[i])
    ensures |ReportBefore(ts, 10, 0)| > MAX_PATHS
  {
    hide OneOf, Effective, NamesCommand, Lower;
    RemovalAt(ts, 0);
    RemovalAt(ts, 7);
    assert !RoleOf(CommandName(ts[8])).Launcher? by { LetterLaunchesNothing(ts[8].content); }
    assert !RoleOf(CommandName(ts[9])).Launcher? by { NewlineLaunchesNothing(); }
    hide Witness, RoleOf, CommandName, PathWords, ReportBefore;
    LettersAreNamed(ts, 8, 9);
    LettersAreNamed(ts, 1, 6);
    SecondOverflows(ts, 7, 10);
  }

  lemma NewlineLaunchesNothing()
    ensures RoleOf(CommandName(NEWLINE)) == Other
  {
    EmptyNameIsOther();
    assert Lower("") == "";
  }

  /** A text of that kind. */
  lemma SixPathsText() returns (line: seq<Token>)
    ensures TwoRemovals(line) && forall i :: 0 <= i < |line| ==> !line[i].commandPos
    ensures Render(line) == "rm a b c d e ; rm f "
  {
    hide Render;
    var second := OneBefore(WordToken("f"), [], "");
    second := OneBefore(REMOVAL, second, "f ");
    second := OneBefore(OpToken(";"), second, "rm f ");
    assert second == [OpToken(";"), REMOVAL, WordToken("f")];
    var words := FiveBefore(second, "; rm f ");
    line := OneBefore(REMOVAL, words, "a b c d e ; rm f ");
  }

  lemma FiveBefore(rest: seq<Token>, text: string) returns (line: seq<Token>)
    requires rest != [] && Render(rest) == text
    ensures line == [WordToken("a"), WordToken("b"), WordToken("c"), WordToken("d"), WordToken("e")] + rest
    ensures Render(line) == "a b c d e " + text
  {
    hide Render;
    line := OneBefore(WordToken("e"), rest, text);
    line := OneBefore(WordToken("d"), line, "e " + text);
    line := OneBefore(WordToken("c"), line, "d e " + text);
    line := OneBefore(WordToken("b"), line, "c d e " + text);
    line := OneBefore(WordToken("a"), line, "b c d e " + text);
  }

  lemma OneBefore(t: Token, line: seq<Token>, text: string) returns (longer: seq<Token>)
    requires if line == [] then text == "" else Render(line) == text
    ensures longer == [t] + line && Render(longer) == t.text + " " + text
  {
    longer := [t] + line;
  }

  lemma SecondOverflows(ts: seq<Token>, i: nat, n: nat)
    requires 0 < i < n <= |ts|
    requires Witness(ts, 0, 0) && RoleOf(CommandName(ts[0])).Deletion? && |PathWords(ts, 1)| >= MAX_PATHS
    requires Witness(ts, i, 0) && RoleOf(CommandName(ts[i])).Deletion? && PathWords(ts, i + 1) != []
    requires forall k :: i < k < n ==> !RoleOf(CommandName(ts[k])).Launcher?
    ensures |ReportBefore(ts, n, 0)| > MAX_PATHS
  {
    hide Witness, RoleOf, PathWords, ReportBefore;
    PathsGrow(ts, 0, i, 0);
    hide PathsAt, PathsBefore;
    assert Overflows(ts, i, n, 0);
    OverflowIff(ts, n, 0);
  }

  lemma RemovalAt(ts: seq<Token>, i: nat)
    requires i < |ts| && ts[i] == REMOVAL.(commandPos := true)
    ensures Witness(ts, i, 0) && RoleOf(CommandName(ts[i])) == Deletion
  {
    RmDeletes();
    hide RoleOf, Lower;
  }

  lemma RmDeletes()
    ensures Lower("rm") == "rm" && RoleOf("rm") == Deletion
  {
    ListedIsIn("rm", PREFIX_COMMANDS);
    ListedIsIn("rm", SHELL_LAUNCHERS);
    ListedIsIn("rm", DELETION_COMMANDS);
    hide OneOf;
    assert DELETION_COMMANDS[0] == "rm";
    assert Lower("rm") == "rm";
  }

  lemma {:induction false} ListedIsIn(name: string, names: seq<string>)
    ensures OneOf(name, names) <==> name in names
    decreases |names|
  {
    if names == [] {
    } else {
      ListedIsIn(name, names[1..]);
    }
  }

  lemma {:induction false} LettersAreNamed(ts: seq<Token>, k: nat, n: nat)
    requires k <= n <= |ts| && forall i :: k <= i < n ==> Letter(ts[i])
    ensures |PathWords(ts, k)| >= n - k
    decreases n - k
  {
    if k == n {
    } else {
      LettersAreNamed(ts, k + 1, n);
      assert ts[k].text[..1] == ts[k].text;
    }
  }

  lemma LetterLaunchesNothing(word: string)
    requires |word| == 1
    ensures !RoleOf(Lower(word)).Launcher?
  {
    hide Lower, OneOf;
    ListedIsIn(Lower(word), SHELL_LAUNCHERS);
  }

  lemma {:induction false} PathsGrow(ts: seq<Token>, i: nat, n: nat, depth: nat)
    requires i < n <= |ts| && depth <= MAX_ANALYZE_DEPTH
    ensures |PathsBefore(ts, n, depth)| >= |PathsAt(ts, i, depth)|
  {
    hide PathsAt;
    if i == n - 1 {
    } else {
      PathsGrow(ts, i, n - 1, depth);
    }
  }

  // ---- the analysis ----

  datatype Analysis = Analysis(blocked: bool, tool: string, paths: seq<string>)

  const NOTHING_FOUND: Analysis := Analysis(false, "", [])

  /** The scan stands at i: what it found before i, and that it sees the effective position at i. */
  ghost predicate Scanned(ts: seq<Token>, now: seq<Token>, i: nat, depth: nat, res: Analysis)
    requires depth <= MAX_ANALYZE_DEPTH
  {
    && |now| == |ts|
    && (forall k :: i < k < |ts| ==> now[k] == ts[k])
    && (i < |ts| ==> now[i] == ts[i].(commandPos := Effective(ts, i)))
    && Bounded(ts, if i < |ts| then i else |ts|, i)
    && res.tool == ToolBefore(ts, if i < |ts| then i else |ts|, depth)
    && (res.blocked <==> res.tool != "")
    && res.paths == ReportBefore(ts, if i < |ts| then i else |ts|, depth)
  }

  lemma {:induction false} NothingBetween(ts: seq<Token>, i: nat, n: nat, depth: nat)
    requires i <= n <= |ts| && depth <= MAX_ANALYZE_DEPTH && forall k :: i <= k < n ==> Inert(ts, k)
    ensures ToolBefore(ts, n, depth) == ToolBefore(ts, i, depth)
    ensures ReportBefore(ts, n, depth) == ReportBefore(ts, i, depth)
    decreases n
  {
    if i < n {
      NothingBetween(ts, i, n - 1, depth);
      assert Inert(ts, n - 1) && !Witness(ts, n - 1, depth);
    }
  }

  /** The scan moves from i to j; it has reported what is at i, and handed the command position on if i is a prefix. */
  lemma ScanMoves(ts: seq<Token>, now: seq<Token>, now': seq<Token>, i: nat, j: nat, depth: nat, res: Analysis,
                  res': Analysis)
    requires Ready(ts) && i < |ts| && i < j && depth <= MAX_ANALYZE_DEPTH
    requires Scanned(ts, now, i, depth, res)
    requires PrefixAt(ts, i) ==> Target(ts, i) == j
    requires forall m :: i < m < j && m < |ts| ==> Skippable(ts, m)
    requires |now'| == |now| && forall k :: j < k < |ts| ==> now'[k] == now[k]
    requires j < |ts| ==> now'[j] == if PrefixAt(ts, i) then now[j].(commandPos := true) else now[j]
    requires res'.tool == if res.tool != "" then res.tool else ToolAt(ts, i, depth)
    requires (res'.blocked <==> res'.tool != "") && res'.paths == ReportedAt(ts, i, depth, res.paths)
    ensures Scanned(ts, now', j, depth, res')
  {
    hide Ready, Witness, ToolAt, ReportedAt, Target, Skippable, NamesCommand;
    JumpKeeps(ts, i, j);
    NothingBetween(ts, i + 1, if j < |ts| then j else |ts|, depth);
  }

  function Merged(r: Analysis, o: Analysis): Analysis {
    if !o.blocked then r
    else
      Analysis(true, if r.tool == "" then o.tool else r.tool, First(r.paths + o.paths, MAX_PATHS))
  }

  method AnalyzeDeletion(command: string, depth: nat) returns (res: Analysis)
    ensures res.blocked <==> ContainsDeletion(command, depth)
    ensures res.tool == CommandTool(command, depth)
    ensures res.paths == CommandReport(command, depth)
    ensures First(res.paths, MAX_PATHS) == First(CommandPaths(command, depth), MAX_PATHS)
    decreases MAX_ANALYZE_DEPTH + 1 - depth, 3
  {
    ToolIffBlocked(command, depth);
    ReportStartsRight(command, depth);
    hide Stream, SplitLines, Witness, ToolBefore, ReportBefore, CommandPaths;
    if depth > MAX_ANALYZE_DEPTH || command == "" {
      return NOTHING_FOUND;
    }
    var tokens := ReadCommand(command);
    StreamReady(SplitLines(command), []);
    var ts := new Token[|tokens|](i requires 0 <= i < |tokens| => tokens[i]);
    assert ts[..] == tokens;
    AssignCommandPositions(ts);
    res := AnalyzeTokens(ts, depth);
  }

  lemma {:induction false} StreamReady(lines: seq<string>, active: seq<Heredoc>)
    ensures Ready(Positioned(Stream(lines, active)))
  {
    var ts := Stream(lines, active);
    StreamPlain(lines, active);
    forall i | 0 <= i < |ts|
      ensures Positioned(Positioned(ts))[i] == Positioned(ts)[i]
    {
      PositionsStable(ts, i);
    }
  }

  lemma ShapedIsPlain(t: Token)
    requires Shaped(t)
    ensures Plain(t)
  {
  }

  lemma {:induction false} StreamPlain(lines: seq<string>, active: seq<Heredoc>)
    ensures AllPlain(Stream(lines, active))
    decreases |lines|
  {
    if lines == [] {
    } else {
      var line := TrimReturn(lines[0]);
      if active != [] {
        StreamPlain(lines[1..], if ClosesHeredoc(line, active[|active| - 1]) then active[..|active| - 1] else active);
      } else {
        var tokens := Lex(line, true);
        TokensShaped(line, true);
        assert Plain(NEWLINE);
        hide Lex, ClosesHeredoc, Opened, Shaped, Plain;
        forall i | 0 <= i < |tokens|
          ensures Plain(tokens[i])
        {
          ShapedIsPlain(tokens[i]);
        }
        StreamPlain(lines[1..], Opened(tokens, |tokens|));
        assert Stream(lines, active) == tokens + [NEWLINE] + Stream(lines[1..], Opened(tokens, |tokens|));
      }
    }
  }

  method AnalyzeTokens(tokens: array<Token>, depth: nat) returns (res: Analysis)
    requires depth <= MAX_ANALYZE_DEPTH && Ready(tokens[..])
    modifies tokens
    ensures res.tool == ToolBefore(old(tokens[..]), tokens.Length, depth)
    ensures res.blocked <==> res.tool != ""
    ensures res.paths == ReportBefore(old(tokens[..]), tokens.Length, depth)
    decreases MAX_ANALYZE_DEPTH + 1 - depth, 2
  {
    hide Ready;
    ghost var ts := tokens[..];
    res := NOTHING_FOUND;
    var i := 0;
    while i < tokens.Length
      invariant Scanned(ts, tokens[..], i, depth, res)
      decreases tokens.Length - i
    {
      i, res := AnalyzeAt(tokens, ts, i, depth, res);
    }
  }

  /** The scan stands at the name of a command. */
  ghost predicate AtCommand(ts: seq<Token>, now: seq<Token>, i: nat, depth: nat, res: Analysis, role: Role)
    requires depth <= MAX_ANALYZE_DEPTH
  {
    && Ready(ts) && Scanned(ts, now, i, depth, res) && i < |ts|
    && Effective(ts, i) && NamesCommand(ts[i]) && RoleOf(CommandName(ts[i])) == role
  }

  /** One turn of the scan: the token at i, and how far to jump. */
  method AnalyzeAt(tokens: array<Token>, ghost ts: seq<Token>, i: nat, depth: nat, res: Analysis)
    returns (j: nat, res': Analysis)
    requires depth <= MAX_ANALYZE_DEPTH && i < tokens.Length && Ready(ts)
    requires Scanned(ts, tokens[..], i, depth, res)
    modifies tokens
    ensures i < j && Scanned(ts, tokens[..], j, depth, res')
    decreases MAX_ANALYZE_DEPTH + 1 - depth, 1
  {
    hide Ready, Effective, RoleOf, Bounded, ToolBefore, ReportBefore, IsAssignment;
    var t := tokens[i];
    assert t == tokens[..][i] == ts[i].(commandPos := Effective(ts, i));
    if t.kind == Op || !t.commandPos || t.quoted || IsAssignment(t.content) {
      j, res' := i + 1, res;
      PassOver(ts, tokens[..], i, depth, res);
      return;
    }
    var name := Lower(t.content);
    assert AtCommand(ts, tokens[..], i, depth, res, RoleOf(name));
    match RoleOf(name) {
      case Prefix =>
        j := AnalyzePrefix(tokens, ts, i, depth, res);
        res' := res;
      case Launcher => j, res' := AnalyzeLauncher(tokens, ts, i, depth, res);
      case Find => j, res' := AnalyzeFind(tokens, ts, i, depth, res);
      case Deletion => j, res' := AnalyzeDeletionCommand(tokens, ts, i, depth, res);
      case Other =>
        j, res' := i + 1, res;
        PassOver(ts, tokens[..], i, depth, res);
    }
  }

  lemma PassOver(ts: seq<Token>, now: seq<Token>, i: nat, depth: nat, res: Analysis)
    requires depth <= MAX_ANALYZE_DEPTH && Ready(ts) && i < |ts| && Scanned(ts, now, i, depth, res)
    requires Inert(ts, i)
    ensures Scanned(ts, now, i + 1, depth, res)
  {
    hide Ready, Effective, RoleOf, Bounded, ToolBefore, ReportBefore, IsAssignment;
    ScanMoves(ts, now, now, i, i + 1, depth, res, res);
  }

  method AnalyzePrefix(tokens: array<Token>, ghost ts: seq<Token>, i: nat, depth: nat, res: Analysis)
    returns (j: nat)
    requires depth <= MAX_ANALYZE_DEPTH && AtCommand(ts, tokens[..], i, depth, res, Prefix)
    modifies tokens
    ensures i < j && Scanned(ts, tokens[..], j, depth, res)
  {
    hide Ready, Effective, RoleOf, Bounded, ToolBefore, ReportBefore, IsAssignment, TakesValue, HasPrefix, Skippable;
    ghost var now := tokens[..];
    var name := Lower(tokens[i].content);
    j := SkipPrefix(tokens, name, i + 1);
    SameOptions(ts, now, name, i + 1);
    SkipOptionsSkippable(ts, name, i + 1);
    if j < tokens.Length { tokens[j] := tokens[j].(commandPos := true); }
    ScanMoves(ts, now, tokens[..], i, j, depth, res, res);
  }

  method AnalyzeLauncher(tokens: array<Token>, ghost ts: seq<Token>, i: nat, depth: nat, res: Analysis)
    returns (j: nat, res': Analysis)
    requires depth <= MAX_ANALYZE_DEPTH && AtCommand(ts, tokens[..], i, depth, res, Launcher)
    ensures i < j && Scanned(ts, tokens[..], j, depth, res')
    decreases MAX_ANALYZE_DEPTH + 1 - depth, 0
  {
    hide Effective, RoleOf, Bounded, ToolBefore, ReportBefore, IsAssignment, Positioned, AllPlain, NamesCommand, Inert;
    var name := Lower(tokens[i].content);
    res', j := res, i + 1;
    if i + 1 < tokens.Length && !tokens[i + 1].quoted && IsLauncherOption(name, tokens[i + 1].text) {
      OptionSkipsNext(ts, i + 1, name);
      if i + 2 < tokens.Length {
        var nested := AnalyzeDeletion(tokens[i + 2].content, depth + 1);
        ToolIffBlocked(tokens[i + 2].content, depth + 1);
        res', j := Merged(res, nested), i + 3;
      } else {
        j := tokens.Length;
      }
    }
    LauncherReports(ts, i, depth, res.paths);
    hide Launches, Merged, Skippable, IsLauncherOption;
    ScanMoves(ts, tokens[..], tokens[..], i, j, depth, res, res');
  }

  lemma OptionSkipsNext(ts: seq<Token>, o: nat, launcher: string)
    requires o < |ts| && AllPlain(ts) && !ts[o].quoted && IsLauncherOption(launcher, ts[o].text)
    ensures Skippable(ts, o) && (o + 1 < |ts| ==> Skippable(ts, o + 1))
  {
    LauncherOptionIsOption(launcher, ts[o].text);
    assert Plain(ts[o]);
  }

  lemma LauncherReports(ts: seq<Token>, i: nat, depth: nat, soFar: seq<string>)
    requires i < |ts| && depth <= MAX_ANALYZE_DEPTH
    requires Effective(ts, i) && NamesCommand(ts[i]) && RoleOf(CommandName(ts[i])) == Launcher
    ensures ToolAt(ts, i, depth) == if Launches(ts, i) then CommandTool(ts[i + 2].content, depth + 1) else ""
    ensures ReportedAt(ts, i, depth, soFar) ==
            if Launches(ts, i) && ContainsDeletion(ts[i + 2].content, depth + 1)
            then First(soFar + CommandReport(ts[i + 2].content, depth + 1), MAX_PATHS)
            else soFar
  {
    hide TokensOf, Effective, NamesCommand, RoleOf, CommandName, FindDeletes;
    if Launches(ts, i) { ToolIffBlocked(ts[i + 2].content, depth + 1); }
  }

  method AnalyzeFind(tokens: array<Token>, ghost ts: seq<Token>, i: nat, depth: nat, res: Analysis)
    returns (j: nat, res': Analysis)
    requires depth <= MAX_ANALYZE_DEPTH && AtCommand(ts, tokens[..], i, depth, res, Find)
    ensures i < j && Scanned(ts, tokens[..], j, depth, res')
  {
    hide Ready, Effective, RoleOf, Bounded, ToolBefore, ReportBefore, IsAssignment;
    res', j := res, i + 1;
    var found := ScanFind(tokens, i);
    if found {
      res' := res.(blocked := true, tool := if res.tool == "" then "find -delete" else res.tool);
    }
    SameFind(ts, tokens[..], i);
    ScanMoves(ts, tokens[..], tokens[..], i, j, depth, res, res');
  }

  method AnalyzeDeletionCommand(tokens: array<Token>, ghost ts: seq<Token>, i: nat, depth: nat, res: Analysis)
    returns (j: nat, res': Analysis)
    requires depth <= MAX_ANALYZE_DEPTH && AtCommand(ts, tokens[..], i, depth, res, Deletion)
    ensures i < j && Scanned(ts, tokens[..], j, depth, res')
  {
    EmptyNameIsOther();
    hide Ready, Effective, RoleOf, Bounded, ToolBefore, ReportBefore, IsAssignment;
    var paths := CollectPaths(tokens, i, res.paths);
    SamePathWords(ts, tokens[..], i + 1);
    j, res' := i + 1, Analysis(true, if res.tool == "" then tokens[i].content else res.tool, paths);
    ScanMoves(ts, tokens[..], tokens[..], i, j, depth, res, res');
  }

  lemma {:induction false} SamePathWords(a: seq<Token>, b: seq<Token>, k: nat)
    requires |a| == |b| && forall m :: k <= m < |a| ==> a[m] == b[m]
    ensures PathWords(a, k) == PathWords(b, k)
    decreases |a| - k
  {
    if k >= |a| {
    } else {
      SamePathWords(a, b, k + 1);
    }
  }

  lemma SameFind(a: seq<Token>, b: seq<Token>, i: nat)
    requires |a| == |b| && i < |a| && forall k :: i < k < |a| ==> a[k] == b[k]
    ensures FindDeletes(a, i) == FindDeletes(b, i)
  {
  }

  lemma {:induction false} SameOptions(a: seq<Token>, b: seq<Token>, prefix: string, j: nat)
    requires |a| == |b| && forall k :: j <= k < |a| ==> a[k] == b[k]
    ensures SkipOptions(a, prefix, j) == SkipOptions(b, prefix, j)
    decreases |a| - j
  {
    if j < |a| {
      SameOptions(a, b, prefix, j + 1);
      SameOptions(a, b, prefix, j + 2);
    }
  }

  method SkipPrefix(tokens: array<Token>, name: string, start: nat) returns (j: nat)
    ensures j == SkipOptions(tokens[..], name, start)
  {
    j := start;
    while j < tokens.Length && tokens[j].kind == Word && !tokens[j].quoted && HasPrefix(tokens[j].text, "-")
      invariant SkipOptions(tokens[..], name, j) == SkipOptions(tokens[..], name, start)
      decreases tokens.Length - j
    {
      var opt := tokens[j].text;
      j := j + 1;
      if opt == "--" { return; }
      if TakesValue(name, opt) { j := j + 1; }
    }
  }

  method ScanFind(tokens: array<Token>, i: nat) returns (found: bool)
    requires i < tokens.Length
    ensures found <==> FindDeletes(tokens[..], i)
  {
    for k := i + 1 to tokens.Length
      invariant forall m :: i < m < k ==> tokens[m].kind.Word? && (tokens[m].quoted || tokens[m].text != "-delete")
    {
      if tokens[k].kind == Op { return false; }
      if tokens[k].quoted { continue; }
      if tokens[k].text == "-delete" { return true; }
    }
    found := false;
  }

  method CollectPaths(tokens: array<Token>, i: nat, soFar: seq<string>) returns (paths: seq<string>)
    requires i < tokens.Length
    ensures paths == soFar +
        First(PathWords(tokens[..], i + 1), if |soFar| < MAX_PATHS then MAX_PATHS - |soFar| else 1)
  {
    hide HasPrefix;
    paths := soFar;
    for k := i + 1 to tokens.Length
      invariant paths == soFar || |paths| < MAX_PATHS
      invariant soFar <= paths && paths + PathWords(tokens[..], k) == soFar + PathWords(tokens[..], i + 1)
    {
      assert tokens[..][k] == tokens[k];
      if tokens[k].kind == Op { return; }
      if tokens[k].quoted || HasPrefix(tokens[k].text, "-") { continue; }
      assert paths + ([tokens[k].text] + PathWords(tokens[..], k + 1)) ==
          (paths + [tokens[k].text]) + PathWords(tokens[..], k + 1);
      paths := paths + [tokens[k].text];
      if |paths| >= MAX_PATHS {
        var words := PathWords(tokens[..], i + 1);
        assert paths == (soFar + words)[..|paths|] == soFar + words[..|paths| - |soFar|];
        return;
      }
    }
  }

  // ---- recursion works on strictly shorter commands ----

  function ContentLength(ts: seq<Token>): nat {
    if ts == [] then 0 else |ts[0].content| + ContentLength(ts[1..])
  }

  function LinesLength(lines: seq<string>): nat {
    if lines == [] then 0 else |lines[0]| + LinesLength(lines[1..])
  }

  lemma {:induction false} SplitLength(s: string)
    ensures LinesLength(SplitLines(s)) <= |s|
  {
    if s == "" {
    } else {
      SplitLength(s[1..]);
    }
  }

  lemma {:induction false} ContentLengthConcat(a: seq<Token>, b: seq<Token>)
    ensures ContentLength(a + b) == ContentLength(a) + ContentLength(b)
  {
    if a == [] {
      assert a + b == b;
    } else {
      ContentLengthConcat(a[1..], b);
      assert (a + b)[1..] == a[1..] + b;
    }
  }

  lemma {:induction false} ContentWithinText(ts: seq<Token>)
    requires forall i :: 0 <= i < |ts| ==> Shaped(ts[i])
    ensures ContentLength(ts) <= TextLength(ts)
  {
    if ts == [] {
    } else {
      assert Shaped(ts[0]);
      ContentWithinText(ts[1..]);
    }
  }

  lemma {:induction false} StreamLength(lines: seq<string>, active: seq<Heredoc>)
    ensures ContentLength(Stream(lines, active)) <= LinesLength(lines)
    decreases |lines|
  {
    if lines == [] {
    } else {
      var line := TrimReturn(lines[0]);
      if active != [] {
        StreamLength(lines[1..], if ClosesHeredoc(line, active[|active| - 1]) then active[..|active| - 1] else active);
      } else {
        var tokens := Lex(line, true);
        TokensShaped(line, true);
        ContentWithinText(tokens);
        LexLength(line, true);
        StreamLength(lines[1..], Opened(tokens, |tokens|));
        hide Lex, Opened, Shaped, TextLength;
        ContentLengthConcat(tokens + [NEWLINE], Stream(lines[1..], Opened(tokens, |tokens|)));
        ContentLengthConcat(tokens, [NEWLINE]);
      }
    }
  }

  lemma {:induction false} ContentsAdd(ts: seq<Token>, a: nat, b: nat)
    requires a <= b < |ts|
    ensures (if a == b then 0 else |ts[a].content|) + |ts[b].content| <= ContentLength(ts)
  {
    if a > 0 {
      ContentsAdd(ts[1..], a - 1, b - 1);
    } else if b > 0 {
      ContentsAdd(ts[1..], b - 1, b - 1);
    }
  }

  lemma PositionsKeepContent(ts: seq<Token>)
    ensures ContentLength(Positioned(ts)) == ContentLength(ts)
  {
    SameContents(Positioned(ts), ts);
  }

  lemma {:induction false} SameContents(a: seq<Token>, b: seq<Token>)
    requires |a| == |b| && forall k :: 0 <= k < |a| ==> a[k].content == b[k].content
    ensures ContentLength(a) == ContentLength(b)
  {
    if a == [] {
    } else {
      SameContents(a[1..], b[1..]);
    }
  }

  /** The argument an interpreter is given to run is strictly shorter than the command it stands in. */
  lemma ArgumentIsShorter(command: string, i: nat)
    requires i < |TokensOf(command)| && Launches(TokensOf(command), i)
    requires RoleOf(CommandName(TokensOf(command)[i])) == Launcher
    ensures |TokensOf(command)[i + 2].content| < |command|
  {
    var ts := TokensOf(command);
    EmptyNameIsOther();
    hide RoleOf, CommandExpected;
    assert Lower("") == "";
    ContentsAdd(ts, i, i + 2);
    PositionsKeepContent(Stream(SplitLines(command), []));
    StreamLength(SplitLines(command), []);
    SplitLength(command);
  }
}
