/**
 * The older scanner kept in main.cpp. It shares the token kinds, their
 * names and the punctuation, operator and comment branches with the
 * current scanner, but it has no whitespace, newline, string, number or
 * identifier branch (each of those characters is reported as unexpected),
 * its line counter never moves from 1, and its tokens carry no payload and
 * render their lexeme in single quotes.
 */
module Legacy {
  import opened Wrappers
  import opened Strings
  import opened Tokens
  import opened ScanSpec

  /** The older Token: a kind, the exact source spelling and a line. */
  datatype LegacyToken = LegacyToken(kind: TokenType, lexeme: string, line: nat) {

    /** Token::str of the older scanner: "Token (<name>, <line>, '<lexeme>')". */
    function Render(): string {
      Frame(KindName(kind), line, Quote(lexeme))
    }
  }

  /** The text in single quotes. */
  function Quote(text: string): string {
    "'" + text + "'"
  }

  /** The text inside a pair of single quotes, if `body` is quoted. */
  function Unquote(body: string): Option<string> {
    if |body| >= 2 && body[0] == '\'' && body[|body| - 1] == '\'' then Some(body[1..|body| - 1]) else None
  }

  /** Reads a rendered older token back. */
  function ParseLegacyToken(s: string): Option<LegacyToken> {
    match Unframe(s)
    case None => None
    case Some((name, line, body)) =>
      match KindFromName(name)
      case None => None
      case Some(k) =>
        match Unquote(body)
        case None => None
        case Some(text) => Some(LegacyToken(k, text, line))
  }

  /** Rendering an older token loses nothing: it reads back to the same token. */
  lemma LegacyRenderRoundTrip(t: LegacyToken)
    ensures ParseLegacyToken(t.Render()) == Some(t)
  {
    KindNameShape(t.kind);
    UnframeFrame(KindName(t.kind), t.line, Quote(t.lexeme));
    KindNameRoundTrip(t.kind, KindName(t.kind));
    assert Quote(t.lexeme)[1..|Quote(t.lexeme)| - 1] == t.lexeme;
  }

  /** Distinct older tokens render differently. */
  lemma LegacyRenderInjective(t: LegacyToken, t': LegacyToken)
    requires t.Render() == t'.Render()
    ensures t == t'
  {
    LegacyRenderRoundTrip(t);
    LegacyRenderRoundTrip(t');
  }

  /** The effect of one older Scanner::scan_token call: new cursor, token and diagnostic. */
  datatype LegacyStep = LegacyStep(next: nat, token: Option<LegacyToken>, diag: Option<Diagnostic>)

  /** The older Scanner::add_token as a step: the token spelled by `s[start..next]`. */
  function LegacyEmit(s: string, start: nat, next: nat, line: nat, kind: TokenType): LegacyStep
    requires start <= next <= |s|
  {
    LegacyStep(next, Some(LegacyToken(kind, s[start..next], line)), None)
  }

  /**
   * The older Scanner::scan_token from cursor `start`: punctuation,
   * operators with maximal munch, `//` comments and `/`; every other
   * character is unexpected. Each step consumes at least one character and
   * produces at most one of a token and a diagnostic.
   */
  function LegacyScanOne(s: string, start: nat, line: nat): (st: LegacyStep)
    requires start < |s|
    ensures start < st.next <= |s|
    ensures st.token.Some? ==>
      st.diag.None? && st.token.value.lexeme == s[start..st.next]
      && st.token.value.line == line && st.token.value.kind != Eof
  {
    var c := s[start];
    match CaseOf(c)
    case Punctuation => LegacyEmit(s, start, start + 1, line, PunctuationKind(c))
    case OperatorStart =>
      var two := MatchAt(s, start + 1, '=');
      LegacyEmit(s, start, if two then start + 2 else start + 1, line, OperatorKind(c, two))
    case SlashCase =>
      if MatchAt(s, start + 1, '/') then LegacyStep(SkipWhile(s, start + 2, NotNewline), None, None)
      else LegacyEmit(s, start, start + 1, line, Slash)
    case _ => LegacyStep(start + 1, None, Some(Diagnostic(line, UnexpectedCharacter(c))))
  }

  /** The older token for a current payload-free token. */
  function Downgrade(t: Token): LegacyToken {
    LegacyToken(t.kind, t.lexeme, t.line)
  }

  /**
   * On the characters both scanners recognise (punctuation, `! = < >` and
   * `/`), the older scanner takes the same step as the current one: same
   * cursor, same token, no diagnostic and no line change.
   */
  lemma LegacyAgrees(s: string, start: nat, line: nat)
    requires start < |s| && CaseOf(s[start]) in {Punctuation, OperatorStart, SlashCase}
    ensures var st := ScanOne(s, start, line);
      var lst := LegacyScanOne(s, start, line);
      lst.next == st.next && st.line == line && st.diag.None? && lst.diag.None?
      && lst.token == (if st.token.Some? then Some(Downgrade(st.token.value)) else None)
  {
    if CaseOf(s[start]) == SlashCase && MatchAt(s, start + 1, '/') {
      CommentLines(s, start);
    } else if CaseOf(s[start]) == OperatorStart {
      OperatorLines(s, start);
    }
  }

  /**
   * Every other character, including space, newline, quote, digits and
   * letters, is reported as unexpected at the current line; no token is
   * emitted and scanning resumes with the next character.
   */
  lemma LegacyRejects(s: string, start: nat, line: nat)
    requires start < |s| && s[start] !in "(){},.-+;*!=<>/"
    ensures LegacyScanOne(s, start, line)
         == LegacyStep(start + 1, None, Some(Diagnostic(line, UnexpectedCharacter(s[start]))))
  {
    assert CaseOf(s[start]) !in {Punctuation, OperatorStart, SlashCase};
  }

  /**
   * A `//` comment stops before the newline, and the newline is then
   * reported as an unexpected character.
   */
  lemma LegacyCommentThenNewline(s: string, start: nat, line: nat, j: nat)
    requires start + 1 < |s| && s[start] == '/' && s[start + 1] == '/'
    requires start + 2 <= j < |s| && s[j] == '\n'
    requires forall k :: start + 2 <= k < j ==> s[k] != '\n'
    ensures LegacyScanOne(s, start, line) == LegacyStep(j, None, None)
    ensures LegacyScanOne(s, j, line) == LegacyStep(j + 1, None, Some(Diagnostic(line, UnexpectedCharacter('\n'))))
  {
    SkipWhileUnique(s, start + 2, NotNewline, j);
    LegacyRejects(s, j, line);
  }

  /** The tokens and diagnostics of the older scanner from cursor `i` to the end of the source. */
  datatype LegacyLexed = LegacyLexed(tokens: seq<LegacyToken>, diags: seq<Diagnostic>)

  /** The loop of the older Scanner::scan_tokens from cursor `i`, at line counter `line`. */
  function LegacyLexFrom(s: string, i: nat, line: nat): LegacyLexed
    requires i <= |s|
    decreases |s| - i
  {
    if i == |s| then LegacyLexed([], [])
    else
      var st := LegacyScanOne(s, i, line);
      var rest := LegacyLexFrom(s, st.next, line);
      LegacyLexed(OptionToSeq(st.token) + rest.tokens, OptionToSeq(st.diag) + rest.diags)
  }

  /** One step of LegacyLexFrom: the first step's output, then the rest. */
  lemma LegacyLexUnfold(s: string, i: nat, line: nat)
    requires i < |s|
    ensures var st := LegacyScanOne(s, i, line);
      var r := LegacyLexFrom(s, i, line);
      var rest := LegacyLexFrom(s, st.next, line);
      r.tokens == OptionToSeq(st.token) + rest.tokens && r.diags == OptionToSeq(st.diag) + rest.diags
  {
  }

  /** Every token scanned at line counter `line` is at that line, and none is EOF. */
  lemma {:induction false} LegacyLexTokens(s: string, i: nat, line: nat)
    requires i <= |s|
    ensures forall t :: t in LegacyLexFrom(s, i, line).tokens ==> t.line == line && t.kind != Eof
    decreases |s| - i
  {
    if i < |s| {
      var st := LegacyScanOne(s, i, line);
      LegacyLexTokens(s, st.next, line);
      var ts := LegacyLexFrom(s, i, line).tokens;
      var rest := LegacyLexFrom(s, st.next, line).tokens;
      LegacyLexUnfold(s, i, line);
      forall t | t in ts
        ensures t.line == line && t.kind != Eof
      {
        if t !in rest {
          assert t in OptionToSeq(st.token);
        }
      }
    }
  }

  /** What the older Scanner::scan_tokens returns on a fresh scanner, and its error flag. */
  datatype LegacyScanned = LegacyScanned(tokens: seq<LegacyToken>, diags: seq<Diagnostic>, hadError: bool)

  /** The sentinel that ends every older scan. */
  function LegacyEof(line: nat): LegacyToken {
    LegacyToken(Eof, "", line)
  }

  /** Scanning a whole source with a fresh older scanner: line 1 throughout. */
  function LegacyScan(s: string): LegacyScanned {
    var lx := LegacyLexFrom(s, 0, 1);
    LegacyScanned(lx.tokens + [LegacyEof(1)], lx.diags, |lx.diags| > 0)
  }

  /**
   * Every older scan ends with exactly one EOF token, whose lexeme is empty,
   * and since the line counter never advances every token is at line 1.
   */
  lemma LegacyScanFacts(s: string)
    ensures var ts := LegacyScan(s).tokens;
      |ts| >= 1 && ts[|ts| - 1] == LegacyEof(1)
      && (forall k :: 0 <= k < |ts| - 1 ==> ts[k].kind != Eof)
      && (forall k :: 0 <= k < |ts| ==> ts[k].line == 1)
  {
    var lx := LegacyLexFrom(s, 0, 1);
    LegacyLexTokens(s, 0, 1);
    var ts := lx.tokens + [LegacyEof(1)];
    assert ts == LegacyScan(s).tokens;
    forall k | 0 <= k < |ts|
      ensures ts[k].line == 1 && (k < |ts| - 1 ==> ts[k].kind != Eof)
    {
      if k < |lx.tokens| {
        assert ts[k] in lx.tokens;
      } else {
        assert ts[k] == LegacyEof(1);
      }
    }
  }

  /** The older Scanner class. */
  class LegacyScanner {
    /** The source text. */
    const code: string
    /** The tokens produced so far, in source order. */
    var tokens: seq<LegacyToken>
    /** The diagnostics reported so far, in source order. */
    var diagnostics: seq<Diagnostic>
    /** Set once any diagnostic has been reported; never cleared. */
    var error: bool
    /** The line counter: initialised to 1 and never changed by any method. */
    var line: nat
    /** The start of the lexeme being scanned. */
    var start: nat
    /** The next character to read. */
    var current: nat

    /** The cursor stays inside the source, and the flag tells whether a diagnostic exists. */
    ghost predicate Valid()
      reads this
    {
      start <= current <= |code| && (error <==> |diagnostics| > 0)
    }

    /** The state change of one step `st`: cursor, token list, diagnostics and flag as `st` says. */
    twostate predicate Took(st: LegacyStep)
      reads this
    {
      current == st.next
      && tokens == AppendOption(old(tokens), st.token)
      && diagnostics == AppendOption(old(diagnostics), st.diag)
      && error == (old(error) || st.diag.Some?)
    }

    /** A fresh scanner: line 1, both cursors at 0, no tokens, no error. */
    constructor (code: string)
      ensures this.code == code
      ensures tokens == [] && diagnostics == [] && !error
      ensures line == 1 && start == 0 && current == 0
      ensures Valid()
    {
      this.code := code;
      tokens := [];
      diagnostics := [];
      error := false;
      line := 1;
      start := 0;
      current := 0;
    }

    /** Reports a diagnostic at the current line and sets the error flag. */
    method Error(problem: Problem)
      modifies this`error, this`diagnostics
      ensures error && diagnostics == old(diagnostics) + [Diagnostic(line, problem)]
    {
      error := true;
      diagnostics := diagnostics + [Diagnostic(line, problem)];
    }

    /** Whether the cursor has reached the end of the source. */
    function IsAtEnd(): bool
      reads this
    {
      current >= |code|
    }

    /** Consumes and returns the character under the cursor. */
    method Advance() returns (c: char)
      requires current < |code|
      modifies this`current
      ensures c == code[old(current)] && current == old(current) + 1
    {
      c := code[current];
      current := current + 1;
    }

    /** The character under the cursor, or NUL at the end. */
    function Peek(): char
      reads this
    {
      PeekAt(code, current)
    }

    /** Consumes the character under the cursor when it is `m`; reports whether it did. */
    method Match(m: char) returns (matched: bool)
      requires current <= |code|
      modifies this`current
      ensures matched == MatchAt(code, old(current), m)
      ensures current == if matched then old(current) + 1 else old(current)
    {
      if current >= |code| {
        return false;
      }
      if code[current] != m {
        return false;
      }
      current := current + 1;
      return true;
    }

    /** Appends the token of kind `kind` spelled by the current lexeme. */
    method AddToken(kind: TokenType)
      requires start <= current <= |code|
      modifies this`tokens
      ensures tokens == old(tokens) + [LegacyToken(kind, code[start..current], line)]
    {
      tokens := tokens + [LegacyToken(kind, code[start..current], line)];
    }

    /** The comment loop of scan_token: advance up to the next newline or the end of the source. */
    method SkipComment()
      requires current <= |code|
      modifies this`current
      ensures current == SkipWhile(code, old(current), NotNewline)
    {
      while Peek() != '\n' && !IsAtEnd()
        invariant old(current) <= current <= |code|
        invariant forall k :: old(current) <= k < current ==> InClass(code[k], NotNewline)
        decreases |code| - current
      {
        var _ := Advance();
      }
      SkipWhileUnique(code, old(current), NotNewline, current);
    }

    /** The older Scanner::scan_token: consumes one character and dispatches on it. */
    method ScanToken()
      requires Valid() && start == current < |code|
      modifies this`current, this`tokens, this`error, this`diagnostics
      ensures Valid()
      ensures Took(LegacyScanOne(code, old(current), line))
    {
      var c := Advance();
      match CaseOf(c)
      case Punctuation =>
        AddToken(PunctuationKind(c));
      case OperatorStart =>
        var two := Match('=');
        AddToken(OperatorKind(c, two));
      case SlashCase =>
        var comment := Match('/');
        if comment {
          SkipComment();
        } else {
          AddToken(Slash);
        }
      case _ =>
        Error(UnexpectedCharacter(c));
    }

    /**
     * The older Scanner::scan_tokens: steps until the end of the source,
     * then appends the EOF sentinel and returns every token.
     */
    method ScanTokens() returns (result: seq<LegacyToken>)
      requires Valid()
      modifies this`start, this`current, this`tokens, this`error, this`diagnostics
      ensures Valid() && current == |code|
      ensures var lx := LegacyLexFrom(code, old(current), line);
        tokens == old(tokens) + lx.tokens + [LegacyEof(line)]
        && diagnostics == old(diagnostics) + lx.diags
      ensures result == tokens
    {
      ghost var lx0 := LegacyLexFrom(code, current, line);
      while !IsAtEnd()
        invariant Valid()
        invariant tokens + LegacyLexFrom(code, current, line).tokens == old(tokens) + lx0.tokens
        invariant diagnostics + LegacyLexFrom(code, current, line).diags == old(diagnostics) + lx0.diags
        decreases |code| - current
      {
        start := current;
        ghost var st := LegacyScanOne(code, current, line);
        ghost var rest := LegacyLexFrom(code, st.next, line);
        ghost var before, diagsBefore := tokens, diagnostics;
        LegacyLexUnfold(code, current, line);
        ScanToken();
        AppendOptionThen(before, st.token, rest.tokens);
        AppendOptionThen(diagsBefore, st.diag, rest.diags);
      }
      tokens := tokens + [LegacyEof(line)];
      result := tokens;
    }
  }

  /** Creating an older scanner over `code` and scanning all tokens yields exactly LegacyScan. */
  method LegacyTokenize(code: string) returns (tokens: seq<LegacyToken>, hadError: bool)
    ensures tokens == LegacyScan(code).tokens && hadError == LegacyScan(code).hadError
  {
    var scanner := new LegacyScanner(code);
    ghost var lx := LegacyLexFrom(code, 0, 1);
    tokens := scanner.ScanTokens();
    hadError := scanner.error;
    assert [] + lx.tokens == lx.tokens && [] + lx.diags == lx.diags;
  }
}
