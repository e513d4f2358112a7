/**
 * The Scanner class: a cursor over the source text that appends tokens and
 * diagnostics as it goes. Every method is proved to have exactly the effect
 * the pure functions of module ScanSpec describe.
 */
module Scanning {
  import opened Wrappers
  import opened Strings
  import opened Tokens
  import opened ScanSpec

  class Scanner {
    /** The source text, fixed for the scanner's lifetime. */
    const code: string
    /** The tokens produced so far, in source order. */
    var tokens: seq<Token>
    /** The diagnostics reported so far, in source order. */
    var diagnostics: seq<Diagnostic>
    /** Set once any diagnostic has been reported; never cleared. */
    var error: bool
    /** The current line, counted from 1. */
    var line: nat
    /** The start of the lexeme being scanned. */
    var start: nat
    /** The next character to read. */
    var current: nat

    /** The cursor stays inside the source, and the flag tells whether a diagnostic exists. */
    ghost predicate Valid()
      reads this
    {
      start <= current <= |code| && (error <==> |diagnostics| > 0)
    }

    /**
     * The state change of one step `st` of the pure scanner: the cursor,
     * line, token list, diagnostics and flag are exactly what `st` says.
     */
    twostate predicate Took(st: Step)
      reads this
    {
      current == st.next && line == st.line
      && tokens == AppendOption(old(tokens), st.token)
      && diagnostics == AppendOption(old(diagnostics), st.diag)
      && error == (old(error) || st.diag.Some?)
    }

    /** A fresh scanner: line 1, both cursors at 0, no tokens, no error. */
    constructor (code: string)
      ensures this.code == code
      ensures tokens == [] && diagnostics == [] && !error
      ensures line == 1 && start == 0 && current == 0
      ensures Valid()
    {
      this.code := code;
      tokens := [];
      diagnostics := [];
      error := false;
      line := 1;
      start := 0;
      current := 0;
    }

    /** Reports a diagnostic at the current line and sets the error flag. */
    method Error(problem: Problem)
      modifies this`error, this`diagnostics
      ensures error && diagnostics == old(diagnostics) + [Diagnostic(line, problem)]
    {
      error := true;
      diagnostics := diagnostics + [Diagnostic(line, problem)];
    }

    /** Whether the cursor has reached the end of the source. */
    function IsAtEnd(): bool
      reads this
    {
      current >= |code|
    }

    /** Consumes and returns the character under the cursor. */
    method Advance() returns (c: char)
      requires current < |code|
      modifies this`current
      ensures c == code[old(current)] && current == old(current) + 1
    {
      c := code[current];
      current := current + 1;
    }

    /** The character under the cursor, or NUL at the end. */
    function Peek(): char
      reads this
    {
      PeekAt(code, current)
    }

    /** The character after the one under the cursor, or NUL if there is none. */
    function PeekNext(): char
      reads this
      requires current <= |code|
    {
      PeekNextAt(code, current)
    }

    /**
     * Consumes the character under the cursor when it is `m`; reports
     * whether it did. At the end of the source nothing is consumed.
     */
    method Match(m: char) returns (matched: bool)
      requires current <= |code|
      modifies this`current
      ensures matched == MatchAt(code, old(current), m)
      ensures current == if matched then old(current) + 1 else old(current)
    {
      if current >= |code| {
        return false;
      }
      if code[current] != m {
        return false;
      }
      current := current + 1;
      return true;
    }

    /** Appends a payload-free token spelled by the current lexeme. */
    method AddToken(kind: TokenType)
      requires start <= current <= |code|
      modifies this`tokens
      ensures tokens == old(tokens) + [PlainToken(kind, code[start..current], line)]
    {
      tokens := tokens + [PlainToken(kind, code[start..current], line)];
    }

    /** Appends a token with payload `value` spelled by the current lexeme. */
    method AddValueToken(kind: TokenType, value: Value)
      requires start <= current <= |code|
      modifies this`tokens
      ensures tokens == old(tokens) + [Token(kind, code[start..current], line, value)]
    {
      tokens := tokens + [Token(kind, code[start..current], line, value)];
    }

    /**
     * The loop of Scanner::string: advance up to the next quote or the end
     * of the source, counting every newline passed over.
     */
    method AdvanceToQuote()
      requires current <= |code|
      modifies this`current, this`line
      ensures current == SkipWhile(code, old(current), NotQuote)
      ensures line == old(line) + Newlines(code, old(current), current)
    {
      while Peek() != '"' && !IsAtEnd()
        invariant old(current) <= current <= |code|
        invariant forall k :: old(current) <= k < current ==> InClass(code[k], NotQuote)
        invariant line == old(line) + Newlines(code, old(current), current)
        decreases |code| - current
      {
        if Peek() == '\n' {
          line := line + 1;
        }
        var _ := Advance();
      }
      SkipWhileUnique(code, old(current), NotQuote, current);
    }

    /** Scanner::string, with the opening quote just consumed. */
    method ScanString()
      requires Valid() && start < |code| && code[start] == '"' && current == start + 1
      modifies this`current, this`line, this`tokens, this`error, this`diagnostics
      ensures Valid() && start == old(start)
      ensures Took(StringLiteral(code, start, old(line)))
    {
      var fromLine := line;
      AdvanceToQuote();
      StringLiteralFields(code, start, fromLine, current);
      if IsAtEnd() {
        Error(UnterminatedString(fromLine));
        return;
      }
      ghost var q := current;
      var _ := Advance();
      assert current - 1 == q;
      AddValueToken(String, Str(code[start + 1..current - 1]));
    }

    /**
     * The cursor loop shared by Scanner::number, Scanner::identifier and
     * the comment case of Scanner::scan_token: advance while a character
     * remains and it belongs to `cls`.
     */
    method AdvanceWhile(cls: CharClass)
      requires current <= |code|
      modifies this`current
      ensures current == SkipWhile(code, old(current), cls)
    {
      while !IsAtEnd() && InClass(Peek(), cls)
        invariant old(current) <= current <= |code|
        invariant forall k :: old(current) <= k < current ==> InClass(code[k], cls)
        decreases |code| - current
      {
        var _ := Advance();
      }
      SkipWhileUnique(code, old(current), cls, current);
    }

    /**
     * The cursor moves of Scanner::number: the digits, then a `.` and more
     * digits only when a digit follows the `.`.
     */
    method AdvanceNumber()
      requires start < |code| && IsDigit(code[start]) && current == start + 1
      modifies this`current
      ensures current == NumberEnd(code, start)
    {
      AdvanceWhile(Digit);
      ghost var integral := current;
      if Peek() == '.' && IsDigit(PeekNext()) {
        var _ := Advance();
        AdvanceWhile(Digit);
      }
      NumberEndOutcome(code, start, integral, current);
    }

    /** Scanner::number, with the first digit just consumed. */
    method ScanNumber()
      requires Valid() && start < |code| && IsDigit(code[start]) && current == start + 1
      modifies this`current, this`tokens
      ensures Valid()
      ensures Took(NumberLiteral(code, start, old(line)))
    {
      AdvanceNumber();
      AddValueToken(Number, Num(code[start..current]));
    }

    /** Scanner::identifier, with the first letter or underscore just consumed. */
    method ScanIdentifier()
      requires Valid() && start < |code| && IsAlpha(code[start]) && current == start + 1
      modifies this`current, this`tokens
      ensures Valid()
      ensures Took(IdentifierOrKeyword(code, start, old(line)))
    {
      AdvanceWhile(Alphanumeric);
      IdentifierOutcome(code, start, line, current);
      var text := code[start..current];
      AddToken(if text in Keywords then Keywords[text] else Identifier);
    }

    /**
     * The cases of Scanner::scan_token for punctuation, operators and `/`,
     * with the character `c` just consumed.
     */
    method ScanSymbol(c: char)
      requires Valid() && start < |code| && current == start + 1 && c == code[start]
      requires CaseOf(c) == Punctuation || CaseOf(c) == OperatorStart || CaseOf(c) == SlashCase
      modifies this`current, this`tokens
      ensures Valid()
      ensures Took(ScanOne(code, start, old(line)))
    {
      match CaseOf(c)
      case Punctuation =>
        AddToken(PunctuationKind(c));
      case OperatorStart =>
        var two := Match('=');
        AddToken(OperatorKind(c, two));
      case SlashCase =>
        var comment := Match('/');
        if comment {
          AdvanceWhile(NotNewline);
        } else {
          AddToken(Slash);
        }
    }

    /** Scanner::scan_token: consumes one character and dispatches on it. */
    method ScanToken()
      requires Valid() && start == current < |code|
      modifies this`current, this`line, this`tokens, this`error, this`diagnostics
      ensures Valid()
      ensures Took(ScanOne(code, old(current), old(line)))
    {
      var c := Advance();
      match CaseOf(c)
      case Punctuation | OperatorStart | SlashCase =>
        ScanSymbol(c);
      case Blank =>
      case NewlineCase =>
        line := line + 1;
      case QuoteCase =>
        ScanOneString(code, start, line);
        ScanString();
      case DigitCase =>
        ScanOneNumber(code, start, line);
        ScanNumber();
      case Default =>
        if IsAlpha(c) {
          ScanOneIdentifier(code, start, line);
          ScanIdentifier();
        } else {
          Error(UnexpectedCharacter(c));
        }
    }

    /**
     * Scanner::scan_tokens: steps until the end of the source, then appends
     * the EOF sentinel at the final line and returns every token.
     */
    method ScanTokens() returns (result: seq<Token>)
      requires Valid()
      modifies this`start, this`current, this`line, this`tokens, this`error, this`diagnostics
      ensures Valid() && current == |code|
      ensures var lx := LexFrom(code, old(current), old(line));
        tokens == old(tokens) + lx.tokens + [EofToken(lx.line)]
        && diagnostics == old(diagnostics) + lx.diags
        && line == lx.line
      ensures result == tokens
    {
      ghost var lx0 := LexFrom(code, current, line);
      while !IsAtEnd()
        invariant Valid()
        invariant tokens + LexFrom(code, current, line).tokens == old(tokens) + lx0.tokens
        invariant diagnostics + LexFrom(code, current, line).diags == old(diagnostics) + lx0.diags
        invariant LexFrom(code, current, line).line == lx0.line
        decreases |code| - current
      {
        start := current;
        ghost var st := ScanOne(code, current, line);
        ghost var rest := LexFrom(code, st.next, st.line);
        ghost var before, diagsBefore := tokens, diagnostics;
        LexUnfold(code, current, line);
        ScanToken();
        AppendOptionThen(before, st.token, rest.tokens);
        AppendOptionThen(diagsBefore, st.diag, rest.diags);
      }
      tokens := tokens + [EofToken(line)];
      result := tokens;
    }
  }

  /**
   * Creating a scanner over `code` and scanning all tokens yields exactly
   * the specified token sequence, with the error flag set exactly when a
   * diagnostic was reported.
   */
  method Tokenize(code: string) returns (tokens: seq<Token>, hadError: bool)
    ensures tokens == Scan(code).tokens && hadError == Scan(code).hadError
  {
    var scanner := new Scanner(code);
    ghost var lx := LexFrom(code, 0, 1);
    tokens := scanner.ScanTokens();
    hadError := scanner.error;
    assert [] + lx.tokens == lx.tokens && [] + lx.diags == lx.diags;
  }
}
