/** The lexer of the deletion guard (backend/internal/tools/delete_guard.go). */
module ShellLexer {
  import opened Text

  datatype TokenKind = Word | Op

  datatype Token = Token(kind: TokenKind, text: string, content: string, quoted: bool, commandPos: bool)

  function WordToken(text: string): Token { Token(Word, text, text, false, false) }

  function QuotedToken(text: string, content: string): Token { Token(Word, text, content, true, false) }

  function OpToken(text: string): Token { Token(Op, text, "", false, false) }

  const OPERATORS: seq<string> := [">>", "<<-", "<<", "||", "&&", ";;", ">", "<", "|", "&", ";", "(", ")"]

  predicate IsBlank(c: char) { c == ' ' || c == '\t' || c == '\r' }

  predicate IsQuote(c: char) { c == '\'' || c == '"' || c == '`' }

  /** Every operator begins with one of these characters and each of them begins one. */
  predicate IsOpChar(c: char) {
    c == '>' || c == '<' || c == '|' || c == '&' || c == ';' || c == '(' || c == ')'
  }

  /** The length of the longest operator at the front of s, 0 if none is there. */
  function OperatorLength(s: string): (n: nat)
    ensures n <= |s| && (n > 0 <==> s != "" && IsOpChar(s[0]))
  {
    if s == "" || !IsOpChar(s[0]) then 0
    else if s[0] == '(' || s[0] == ')' || |s| == 1 || s[1] != s[0] then 1
    else if s[0] == '<' && |s| > 2 && s[2] == '-' then 3
    else 2
  }

  /** Trying the operator table in order finds the longest operator. */
  method ReadOperator(rest: string) returns (op: string, ok: bool)
    ensures ok <==> OperatorLength(rest) > 0
    ensures ok ==> op == rest[..OperatorLength(rest)]
  {
    for j := 0 to |OPERATORS|
      invariant forall k :: 0 <= k < j ==> !HasPrefix(rest, OPERATORS[k])
    {
      if HasPrefix(rest, OPERATORS[j]) {
        op, ok := OPERATORS[j], true;
        LongestFirst(rest, j);
        return;
      }
    }
    op, ok := "", false;
    SingleCharacterOperators(rest);
  }

  lemma SingleCharacterOperators(rest: string)
    requires forall k :: 0 <= k < |OPERATORS| ==> !HasPrefix(rest, OPERATORS[k])
    ensures OperatorLength(rest) == 0
  {
    if rest != "" {
      assert rest[..1] == [rest[0]];
      assert !HasPrefix(rest, OPERATORS[6]) && !HasPrefix(rest, OPERATORS[7]) && !HasPrefix(rest, OPERATORS[8]);
      assert !HasPrefix(rest, OPERATORS[9]) && !HasPrefix(rest, OPERATORS[10]) && !HasPrefix(rest, OPERATORS[11]);
      assert !HasPrefix(rest, OPERATORS[12]);
    }
  }

  lemma LongestFirst(rest: string, j: nat)
    requires j < |OPERATORS| && HasPrefix(rest, OPERATORS[j])
    requires forall k :: 0 <= k < j ==> !HasPrefix(rest, OPERATORS[k])
    ensures OPERATORS[j] == rest[..OperatorLength(rest)]
  {
    var op := OPERATORS[j];
    assert forall i :: 0 <= i < |op| ==> rest[i] == op[i];
    if |rest| > 1 {
      assert rest[..2] == [rest[0], rest[1]];
    }
    if |rest| > 2 {
      assert rest[..3] == [rest[0], rest[1], rest[2]];
    }
    if j >= 6 {
      assert !HasPrefix(rest, OPERATORS[0]) && !HasPrefix(rest, OPERATORS[2]) && !HasPrefix(rest, OPERATORS[3]);
      assert !HasPrefix(rest, OPERATORS[4]) && !HasPrefix(rest, OPERATORS[5]);
    }
    if j == 2 {
      assert !HasPrefix(rest, OPERATORS[1]);
    }
  }

  /** Where the quoted text starting before i ends: at the first unescaped quote, or at the end of the line. */
  function CloseQuote(s: string, i: nat, quote: char): (e: nat)
    requires i <= |s|
    ensures i <= e <= |s|
    ensures e < |s| ==> s[e] == quote
    decreases |s| - i
  {
    if i == |s| then i
    else if s[i] == '\\' && i + 1 < |s| then CloseQuote(s, i + 2, quote)
    else if s[i] == quote then i
    else CloseQuote(s, i + 1, quote)
  }

  /** The content read is the raw text between the quotes, backslashes included. */
  method ReadQuoted(s: string) returns (content: string, end: nat)
    requires s != ""
    ensures var e := CloseQuote(s, 1, s[0]);
            content == s[1..e] && end == (if e < |s| then e + 1 else |s|)
  {
    var quote := s[0];
    var i := 1;
    content := "";
    while i < |s|
      invariant 1 <= i <= |s| && content == s[1..i] && CloseQuote(s, i, quote) == CloseQuote(s, 1, quote)
    {
      var c := s[i];
      if c == '\\' && i + 1 < |s| {
        content := content + [c, s[i + 1]];
        i := i + 2;
        continue;
      }
      if c == quote {
        return content, i + 1;
      }
      content := content + [c];
      i := i + 1;
    }
    end := |s|;
  }

  /** Where an ordinary word that starts before i ends. */
  function WordEnd(s: string, i: nat): (e: nat)
    requires i <= |s|
    ensures i <= e <= |s|
    decreases |s| - i
  {
    if i == |s| || IsBlank(s[i]) || IsQuote(s[i]) || IsOpChar(s[i]) then i else WordEnd(s, i + 1)
  }

  /** The token at the front of a text that begins with no blank. */
  function FirstToken(s: string): (t: Token)
    requires s != "" && !IsBlank(s[0])
    ensures 0 < |t.text| <= |s| && t.text == s[..|t.text|]
  {
    if IsQuote(s[0]) then
      var e := CloseQuote(s, 1, s[0]);
      QuotedToken(s[..if e < |s| then e + 1 else |s|], s[1..e])
    else if IsOpChar(s[0]) then OpToken(s[..OperatorLength(s)])
    else WordToken(s[..WordEnd(s, 1)])
  }

  /** The tokens of the rest of a line. */
  function Lex(s: string, atWordStart: bool): seq<Token>
    decreases |s|
  {
    if s == "" then []
    else if IsBlank(s[0]) then Lex(s[1..], true)
    else if s[0] == '#' && atWordStart then []
    else
      var t := FirstToken(s);
      [t] + Lex(s[|t.text|..], t.kind.Op?)
  }

  method ReadToken(line: string, i: nat) returns (t: Token)
    requires i < |line| && !IsBlank(line[i])
    ensures t == FirstToken(line[i..])
  {
    ghost var rest := line[i..];
    if IsQuote(line[i]) {
      var content, length := ReadQuoted(line[i..]);
      assert line[i..i + length] == rest[..length];
      return QuotedToken(line[i..i + length], content);
    }
    var op, ok := ReadOperator(line[i..]);
    if ok {
      return OpToken(op);
    }
    var e := ScanWord(line, i);
    assert line[i..e] == rest[..e - i];
    t := WordToken(line[i..e]);
  }

  method TokenizeLine(line: string) returns (tokens: seq<Token>)
    ensures tokens == Lex(line, true)
  {
    hide FirstToken;
    tokens := [];
    var i, atWordStart := 0, true;
    assert line[0..] == line;
    while i < |line|
      invariant 0 <= i <= |line|
      invariant tokens + Lex(line[i..], atWordStart) == Lex(line, true)
    {
      ghost var rest := line[i..];
      if IsBlank(line[i]) {
        assert line[i + 1..] == rest[1..];
        i, atWordStart := i + 1, true;
        continue;
      }
      if line[i] == '#' && atWordStart {
        break;
      }
      var t := ReadToken(line, i);
      assert line[i + |t.text|..] == rest[|t.text|..];
      tokens := tokens + [t];
      i, atWordStart := i + |t.text|, t.kind.Op?;
    }
  }

  /** The inner loop over the characters of an ordinary word. */
  method ScanWord(line: string, start: nat) returns (i: nat)
    requires start < |line| && !IsBlank(line[start]) && !IsQuote(line[start]) && !IsOpChar(line[start])
    ensures i <= |line| && i == start + WordEnd(line[start..], 1)
  {
    ghost var rest := line[start..];
    i := start;
    while i < |line|
      invariant start <= i <= |line|
      invariant WordEnd(rest, i - start) == WordEnd(rest, 0)
    {
      var c := line[i];
      assert c == rest[i - start];
      if IsBlank(c) || IsQuote(c) { return; }
      var _, isOp := ReadOperator(line[i..]);
      if isOp { return; }
      i := i + 1;
    }
  }

  // ---- the tokens tile the line ----

  /** gap, token text, gap, token text, ..., gap */
  function Weave(gaps: seq<string>, tokens: seq<Token>): string
    requires |gaps| == |tokens| + 1
  {
    if tokens == [] then gaps[0] else gaps[0] + tokens[0].text + Weave(gaps[1..], tokens[1..])
  }

  ghost predicate Blank(s: string) {
    forall i :: 0 <= i < |s| ==> IsBlank(s[i])
  }

  /** Blanks, then nothing or a comment. */
  ghost predicate Tail(s: string) {
    exists k :: 0 <= k <= |s| && Blank(s[..k]) && (k < |s| ==> s[k] == '#')
  }

  /** The shape of a token and how its content comes from its text. */
  ghost predicate Shaped(t: Token) {
    match t.kind
    case Op => t.text in OPERATORS && t.content == "" && !t.quoted
    case Word =>
      && t.text != ""
      && if t.quoted then
           && IsQuote(t.text[0])
           && (t.content == t.text[1..] ||
               (|t.text| > 1 && t.text[|t.text| - 1] == t.text[0] && t.content == t.text[1..|t.text| - 1]))
         else
           && t.content == t.text
           && forall i :: 0 <= i < |t.text| ==> !IsBlank(t.text[i]) && !IsQuote(t.text[i]) && !IsOpChar(t.text[i])
  }

  /** Blank gaps between the tokens, and after them perhaps a comment. */
  ghost predicate Gaps(gaps: seq<string>, tokens: seq<Token>) {
    && |gaps| == |tokens| + 1 && Tail(gaps[|tokens|])
    && forall k :: 0 <= k < |tokens| ==> Blank(gaps[k])
  }

  lemma GapsNext(gaps: seq<string>, t: Token, tokens: seq<Token>)
    requires Gaps(gaps, tokens)
    ensures Gaps([""] + gaps, [t] + tokens) && Weave([""] + gaps, [t] + tokens) == t.text + Weave(gaps, tokens)
  {
    hide Tail;
    assert ([""] + gaps)[1..] == gaps && ([t] + tokens)[1..] == tokens;
  }

  lemma GapsLonger(gaps: seq<string>, tokens: seq<Token>, c: char)
    requires Gaps(gaps, tokens) && IsBlank(c)
    ensures var longer := [[c] + gaps[0]] + gaps[1..];
            Gaps(longer, tokens) && Weave(longer, tokens) == [c] + Weave(gaps, tokens)
  {
    var longer := [[c] + gaps[0]] + gaps[1..];
    BlankBefore(c, gaps[0]);
    assert longer[1..] == gaps[1..];
    hide Tail, Blank;
    assert forall k :: 0 < k < |gaps| ==> longer[k] == gaps[k];
  }

  /** Nothing of a line is lost: its tokens, with blanks between them and at most a comment after them, spell it out. */
  lemma {:induction false} TokensTile(s: string, atWordStart: bool) returns (gaps: seq<string>)
    ensures Gaps(gaps, Lex(s, atWordStart)) && Weave(gaps, Lex(s, atWordStart)) == s
    decreases |s|
  {
    if s == "" || (s[0] == '#' && atWordStart) {
      gaps := [s];
      assert Blank(s[..0]);
    } else if IsBlank(s[0]) {
      var rest := TokensTile(s[1..], true);
      gaps := [[s[0]] + rest[0]] + rest[1..];
      GapsLonger(rest, Lex(s[1..], true), s[0]);
    } else {
      hide FirstToken, Gaps, Weave;
      var t := FirstToken(s);
      var tokens := Lex(s[|t.text|..], t.kind.Op?);
      var rest := TokensTile(s[|t.text|..], t.kind.Op?);
      gaps := [""] + rest;
      GapsNext(rest, t, tokens);
      assert Lex(s, atWordStart) == [t] + tokens;
      assert s == t.text + s[|t.text|..];
    }
  }

  lemma BlankBefore(c: char, s: string)
    requires IsBlank(c)
    ensures Blank(s) ==> Blank([c] + s)
    ensures Tail(s) ==> Tail([c] + s)
  {
    if Tail(s) {
      var k :| 0 <= k <= |s| && Blank(s[..k]) && (k < |s| ==> s[k] == '#');
      assert ([c] + s)[..k + 1] == [c] + s[..k];
      assert Blank(([c] + s)[..k + 1]);
    }
  }

  lemma WordIsPlain(s: string, i: nat)
    requires i <= |s|
    ensures forall k :: i <= k < WordEnd(s, i) ==> !IsBlank(s[k]) && !IsQuote(s[k]) && !IsOpChar(s[k])
    decreases |s| - i
  {
  }

  lemma OperatorListed(s: string)
    requires OperatorLength(s) > 0
    ensures s[..OperatorLength(s)] in OPERATORS
  {
    var op := s[..OperatorLength(s)];
    if |op| == 1 {
      assert op == [s[0]];
      assert op == OPERATORS[6] || op == OPERATORS[7] || op == OPERATORS[8] || op == OPERATORS[9]
          || op == OPERATORS[10] || op == OPERATORS[11] || op == OPERATORS[12];
    } else if |op| == 2 {
      assert op == [s[0], s[1]];
      assert op == OPERATORS[0] || op == OPERATORS[2] || op == OPERATORS[3] || op == OPERATORS[4] || op == OPERATORS[5];
    } else {
      assert op == [s[0], s[1], s[2]] == OPERATORS[1];
    }
  }

  lemma {:induction false} TokensShaped(s: string, atWordStart: bool)
    ensures forall i :: 0 <= i < |Lex(s, atWordStart)| ==> Shaped(Lex(s, atWordStart)[i])
    decreases |s|
  {
    if s == "" || (s[0] == '#' && atWordStart) {
    } else if IsBlank(s[0]) {
      TokensShaped(s[1..], true);
    } else {
      var t := FirstToken(s);
      FirstTokenShaped(s);
      TokensShaped(s[|t.text|..], t.kind.Op?);
      hide Shaped, FirstToken;
      assert Lex(s, atWordStart)[1..] == Lex(s[|t.text|..], t.kind.Op?);
    }
  }

  lemma FirstTokenShaped(s: string)
    requires s != "" && !IsBlank(s[0])
    ensures Shaped(FirstToken(s))
  {
    if IsOpChar(s[0]) && !IsQuote(s[0]) { OperatorListed(s); }
    WordIsPlain(s, 1);
  }

  // ---- lexing undoes writing tokens out ----

  function Render(tokens: seq<Token>): string {
    if tokens == [] then "" else tokens[0].text + " " + Render(tokens[1..])
  }

  /** A token that can be written down: an operator, a closed quotation, or a word that is no comment. */
  ghost predicate Writable(t: Token) {
    if t.kind.Op? then
      t.text in OPERATORS && t == OpToken(t.text)
    else if t.quoted then
      && |t.text| >= 2 && IsQuote(t.text[0]) && CloseQuote(t.text, 1, t.text[0]) == |t.text| - 1
      && t == QuotedToken(t.text, t.text[1..|t.text| - 1])
    else
      && t.text != "" && t.text[0] != '#' && t == WordToken(t.text)
      && forall i :: 0 <= i < |t.text| ==> !IsBlank(t.text[i]) && !IsQuote(t.text[i]) && !IsOpChar(t.text[i])
  }

  lemma {:induction false} CloseQuoteLocal(s: string, more: string, i: nat, quote: char)
    requires IsQuote(quote) && i <= |s| && CloseQuote(s, i, quote) < |s|
    ensures CloseQuote(s + more, i, quote) == CloseQuote(s, i, quote)
    decreases |s| - i
  {
    if s[i] == '\\' && i + 1 < |s| {
      CloseQuoteLocal(s, more, i + 2, quote);
    } else if s[i] != quote {
      CloseQuoteLocal(s, more, i + 1, quote);
    }
  }

  lemma {:induction false} WordEndAtBlank(word: string, more: string, i: nat)
    requires i <= |word| && forall k :: 0 <= k < |word| ==> !IsBlank(word[k]) && !IsQuote(word[k]) && !IsOpChar(word[k])
    ensures WordEnd(word + " " + more, i) == |word|
    decreases |word| - i
  {
    if i == |word| {
    } else {
      WordEndAtBlank(word, more, i + 1);
    }
  }

  lemma OperatorAtBlank(op: string, more: string)
    requires op in OPERATORS
    ensures OperatorLength(op + " " + more) == |op| && IsOpChar(op[0]) && !IsQuote(op[0]) && !IsBlank(op[0])
  {
  }

  lemma FirstTokenAtBlank(t: Token, more: string)
    requires Writable(t)
    ensures var s := t.text + " " + more; s != "" && !IsBlank(s[0]) && s[0] != '#' && FirstToken(s) == t
  {
    var s := t.text + " " + more;
    assert s[..|t.text|] == t.text;
    if t.kind.Op? {
      OperatorAtBlank(t.text, more);
    } else if t.quoted {
      assert s == t.text + (" " + more);
      CloseQuoteLocal(t.text, " " + more, 1, t.text[0]);
    } else {
      WordEndAtBlank(t.text, more, 1);
    }
  }

  /** Any list of writable tokens, written out with blanks between, lexes back to itself. */
  lemma {:induction false} LexRender(tokens: seq<Token>, atWordStart: bool)
    requires forall i :: 0 <= i < |tokens| ==> Writable(tokens[i])
    ensures Lex(Render(tokens), atWordStart) == tokens
    decreases |tokens|
  {
    if tokens == [] {
    } else {
      var t, rest := tokens[0], tokens[1..];
      var s, tail := Render(tokens), " " + Render(rest);
      FirstTokenAtBlank(t, Render(rest));
      LexRender(rest, true);
      hide FirstToken, Writable;
      assert s == t.text + tail && s[|t.text|..] == tail && tail[1..] == Render(rest);
      assert Lex(tail, t.kind.Op?) == rest;
      assert tokens == [t] + rest;
    }
  }

  // ---- sizes ----

  function TextLength(tokens: seq<Token>): nat {
    if tokens == [] then 0 else |tokens[0].text| + TextLength(tokens[1..])
  }

  lemma {:induction false} LexLength(s: string, atWordStart: bool)
    ensures TextLength(Lex(s, atWordStart)) <= |s|
    decreases |s|
  {
    if s == "" || (s[0] == '#' && atWordStart) {
    } else if IsBlank(s[0]) {
      LexLength(s[1..], true);
    } else {
      var t := FirstToken(s);
      LexLength(s[|t.text|..], t.kind.Op?);
      assert Lex(s, atWordStart)[1..] == Lex(s[|t.text|..], t.kind.Op?);
    }
  }
}
