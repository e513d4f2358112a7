/**
 * The scanner's behaviour as pure functions over the source text: one step
 * of the dispatch (ScanOne), the whole pass (LexFrom, Scan), and the
 * properties the lexer promises. The class in module Scanning is proved to
 * compute exactly these functions.
 */
module ScanSpec {
  import opened Wrappers
  import opened Strings
  import opened Tokens

  /** The reserved words and their kinds. */
  const Keywords: map<string, TokenType> :=
    map["and" := And, "class" := Class, "else" := Else, "false" := False,
        "for" := For, "fun" := Fun, "if" := If, "nil" := Nil,
        "or" := Or, "print" := Print, "return" := Return, "super" := Super,
        "this" := This, "true" := True, "var" := Var, "while" := While]

  /** Scanner::peek at cursor `i`: the character there, or NUL at the end. */
  function PeekAt(s: string, i: nat): char {
    if i >= |s| then '\0' else s[i]
  }

  /** Scanner::peek_next at cursor `i`: NUL when fewer than two characters remain. */
  function PeekNextAt(s: string, i: nat): char
    requires i <= |s|
  {
    if |s| - i < 2 then '\0' else s[i + 1]
  }

  /** The test Scanner::match performs: a character remains and it is `m`. */
  predicate MatchAt(s: string, i: nat, m: char) {
    i < |s| && s[i] == m
  }

  /** The two kinds of diagnostic. */
  datatype Problem = UnexpectedCharacter(c: char) | UnterminatedString(fromLine: nat)

  /** A diagnostic, tagged with the line counter's value when it was reported. */
  datatype Diagnostic = Diagnostic(line: nat, problem: Problem)

  /**
   * The effect of one Scanner::scan_token call that starts at some cursor:
   * where the cursor ends, the new line counter, and the token and the
   * diagnostic it produced, if any.
   */
  datatype Step = Step(next: nat, line: nat, token: Option<Token>, diag: Option<Diagnostic>)

  /** The payload of a token matches its kind: text for STRING, digits for NUMBER, none otherwise. */
  predicate ValueFitsKind(t: Token) {
    (t.kind == String <==> t.value.Str?) && (t.kind == Number <==> t.value.Num?)
  }

  /** What every token of a step starting at `start` satisfies. */
  predicate StepTokenOk(s: string, start: nat, st: Step)
    requires start <= st.next <= |s|
  {
    st.token.Some? ==>
      var t := st.token.value;
      st.diag.None? && t.lexeme == s[start..st.next] && t.line == st.line
      && t.kind != Eof && ValueFitsKind(t)
  }

  /** Scanner::add_token as a step: the token spelled by `s[start..next]`. */
  function Emit(s: string, start: nat, next: nat, line: nat, kind: TokenType, value: Value): Step
    requires start <= next <= |s|
  {
    Step(next, line, Some(Token(kind, s[start..next], line, value)), None)
  }

  /** The branches of Scanner::scan_token's switch. */
  datatype CharCase = Punctuation | OperatorStart | SlashCase | Blank | NewlineCase | QuoteCase | DigitCase | Default

  /** The branch of Scanner::scan_token's switch that character `c` selects. */
  function CaseOf(c: char): CharCase {
    match c
    case '(' | ')' | '{' | '}' | ',' | '.' | '-' | '+' | ';' | '*' => Punctuation
    case '!' | '=' | '<' | '>' => OperatorStart
    case '/' => SlashCase
    case ' ' | '\r' | '\t' => Blank
    case '\n' => NewlineCase
    case '"' => QuoteCase
    case '0' | '1' | '2' | '3' | '4' | '5' | '6' | '7' | '8' | '9' => DigitCase
    case _ => Default
  }

  /** The ten characters that always form a token on their own. */
  predicate IsPunctuation(c: char) {
    CaseOf(c) == Punctuation
  }

  /** The kind of the one-character token spelled `c`. */
  function PunctuationKind(c: char): TokenType
    requires IsPunctuation(c)
  {
    match c
    case '(' => LeftParen
    case ')' => RightParen
    case '{' => LeftBrace
    case '}' => RightBrace
    case ',' => Comma
    case '.' => Dot
    case '-' => Minus
    case '+' => Plus
    case ';' => Semicolon
    case _ => Star
  }

  /** The character spelling a one-character kind. */
  function PunctuationChar(k: TokenType): char
    requires IsSingleChar(k)
  {
    match k
    case LeftParen => '('
    case RightParen => ')'
    case LeftBrace => '{'
    case RightBrace => '}'
    case Comma => ','
    case Dot => '.'
    case Minus => '-'
    case Plus => '+'
    case Semicolon => ';'
    case Slash => '/'
    case _ => '*'
  }

  /**
   * PunctuationKind is a bijection between the ten punctuation characters
   * and the single-character kinds other than SLASH, which the scanner
   * treats separately because `/` may start a comment.
   */
  lemma PunctuationBijection(c: char, k: TokenType)
    ensures IsPunctuation(c) ==>
      IsSingleChar(PunctuationKind(c)) && PunctuationKind(c) != Slash && PunctuationChar(PunctuationKind(c)) == c
    ensures IsSingleChar(k) && k != Slash ==>
      IsPunctuation(PunctuationChar(k)) && PunctuationKind(PunctuationChar(k)) == k
  {
  }

  /** `!`, `=`, `<`, `>`: the characters that start a one- or two-character operator. */
  predicate IsOperatorStart(c: char) {
    CaseOf(c) == OperatorStart
  }

  /** The operator kind starting with `c`: its two-character form when `two` (a `=` follows). */
  function OperatorKind(c: char, two: bool): TokenType
    requires IsOperatorStart(c)
  {
    match c
    case '!' => if two then BangEqual else Bang
    case '=' => if two then EqualEqual else Equal
    case '<' => if two then LessEqual else Less
    case _ => if two then GreaterEqual else Greater
  }

  /** The spelling of a one- or two-character operator kind. */
  function OperatorSpelling(k: TokenType): string
    requires IsOneOrTwoChar(k)
  {
    match k
    case Bang => "!"
    case BangEqual => "!="
    case Equal => "="
    case EqualEqual => "=="
    case Greater => ">"
    case GreaterEqual => ">="
    case Less => "<"
    case _ => "<="
  }

  /**
   * OperatorKind is a bijection between (first character, whether a `=`
   * follows) and the eight operator kinds, and each kind's spelling is
   * exactly the characters read.
   */
  lemma OperatorBijection(c: char, two: bool, k: TokenType)
    ensures IsOperatorStart(c) ==>
      IsOneOrTwoChar(OperatorKind(c, two)) && OperatorSpelling(OperatorKind(c, two)) == [c] + (if two then "=" else "")
    ensures IsOneOrTwoChar(k) ==>
      var w := OperatorSpelling(k);
      1 <= |w| <= 2 && IsOperatorStart(w[0]) && OperatorKind(w[0], |w| == 2) == k
  {
  }

  /** Scanner::add_token after an operator character: two characters when a `=` follows. */
  function Operator(s: string, start: nat, line: nat): Step
    requires start < |s| && IsOperatorStart(s[start])
  {
    var two := MatchAt(s, start + 1, '=');
    Emit(s, start, if two then start + 2 else start + 1, line, OperatorKind(s[start], two), NoValue)
  }

  /** One character whose step emits nothing and moves the cursor by one. */
  function Skip(start: nat, line: nat): Step {
    Step(start + 1, line, None, None)
  }

  /**
   * Scanner::scan_token from cursor `start`: consume one character and
   * dispatch on it. Each step consumes at least one character, counts every
   * newline it consumes, and produces at most one of a token and a diagnostic.
   */
  function ScanOne(s: string, start: nat, line: nat): (st: Step)
    requires start < |s|
    ensures start < st.next <= |s|
    ensures st.line == line + Newlines(s, start, st.next)
    ensures StepTokenOk(s, start, st)
    ensures st.diag.Some? ==> st.token.None? && st.diag.value.line == st.line
  {
    var c := s[start];
    assert s[start..start + 1] == [c];
    match CaseOf(c)
    case Punctuation => Emit(s, start, start + 1, line, PunctuationKind(c), NoValue)
    case OperatorStart =>
      OperatorLines(s, start);
      Operator(s, start, line)
    case SlashCase =>
      if MatchAt(s, start + 1, '/') then
        CommentLines(s, start);
        Step(SkipWhile(s, start + 2, NotNewline), line, None, None)
      else Emit(s, start, start + 1, line, Slash, NoValue)
    case Blank => Skip(start, line)
    case NewlineCase => Skip(start, line + 1)
    case QuoteCase => StringLiteral(s, start, line)
    case DigitCase => NumberLiteral(s, start, line)
    case Default =>
      if IsAlpha(c) then IdentifierOrKeyword(s, start, line)
      else Step(start + 1, line, None, Some(Diagnostic(line, UnexpectedCharacter(c))))
  }

  lemma OperatorLines(s: string, start: nat)
    requires start < |s| && s[start] != '\n'
    ensures MatchAt(s, start + 1, '=') ==> Newlines(s, start, start + 2) == 0
  {
    if MatchAt(s, start + 1, '=') {
      NoNewlines(s, start, start + 2);
    }
  }

  lemma CommentLines(s: string, start: nat)
    requires start + 1 < |s| && s[start] == '/' && s[start + 1] == '/'
    ensures Newlines(s, start, SkipWhile(s, start + 2, NotNewline)) == 0
  {
    var j := SkipWhile(s, start + 2, NotNewline);
    SkipWhileStops(s, start + 2, NotNewline);
    NoNewlines(s, start, j);
  }

  /**
   * Scanner::string, entered with the cursor just past the opening quote at
   * `start`: everything up to the next quote, counting newlines. Without a
   * closing quote the cursor ends at the end of the source and an
   * unterminated-string diagnostic naming the opening line is reported.
   */
  function StringLiteral(s: string, start: nat, line: nat): (st: Step)
    requires start < |s| && s[start] == '"'
    ensures start < st.next <= |s|
    ensures st.line == line + Newlines(s, start, st.next)
    ensures StepTokenOk(s, start, st)
    ensures st.diag.Some? ==> st.token.None? && st.diag.value.line == st.line
  {
    var q := SkipWhile(s, start + 1, NotQuote);
    var l := line + Newlines(s, start + 1, q);
    SkipWhileStops(s, start + 1, NotQuote);
    NewlinesSplit(s, start, start + 1, q);
    NoNewlines(s, start, start + 1);
    if q == |s| then
      Step(q, l, None, Some(Diagnostic(l, UnterminatedString(line))))
    else
      NewlinesSplit(s, start, q, q + 1);
      NoNewlines(s, q, q + 1);
      Step(q + 1, l, Some(Token(String, s[start..q + 1], l, Str(s[start + 1..q]))), None)
  }

  /** The two outcomes of StringLiteral, given where the closing quote was looked for. */
  lemma StringLiteralOutcome(s: string, start: nat, line: nat, q: nat)
    requires start < |s| && s[start] == '"' && q == SkipWhile(s, start + 1, NotQuote)
    ensures var l := line + Newlines(s, start + 1, q);
      StringLiteral(s, start, line)
        == if q == |s| then Step(q, l, None, Some(Diagnostic(l, UnterminatedString(line))))
           else Step(q + 1, l, Some(Token(String, s[start..q + 1], l, Str(s[start + 1..q]))), None)
  {
    StringLiteralFields(s, start, line, q);
  }

  lemma StringLiteralFields(s: string, start: nat, line: nat, q: nat)
    requires start < |s| && s[start] == '"' && q == SkipWhile(s, start + 1, NotQuote)
    ensures var st := StringLiteral(s, start, line);
      st.line == line + Newlines(s, start + 1, q)
      && st.next == (if q == |s| then q else q + 1)
      && (q == |s| ==> st.token.None? && st.diag == Some(Diagnostic(st.line, UnterminatedString(line))))
      && (q < |s| ==> st.diag.None? && st.token == Some(Token(String, s[start..q + 1], st.line, Str(s[start + 1..q]))))
  {
  }

  /**
   * Where Scanner::number stops, entered with the cursor just past the
   * first digit at `start`: after the digits, and after a fraction only
   * when a `.` is followed by a digit. A number never spans a newline.
   */
  function NumberEnd(s: string, start: nat): (k: nat)
    requires start < |s| && IsDigit(s[start])
    ensures start < k <= |s|
    ensures Newlines(s, start, k) == 0
  {
    var j := SkipWhile(s, start + 1, Digit);
    var k := if PeekAt(s, j) == '.' && IsDigit(PeekNextAt(s, j)) then SkipWhile(s, j + 1, Digit) else j;
    assert forall m :: start <= m < k ==> s[m] != '\n' by {
      SkipWhileStops(s, start + 1, Digit);
      if k != j {
        SkipWhileStops(s, j + 1, Digit);
      }
      forall m | start <= m < k ensures s[m] != '\n' {
        assert IsDigit(s[m]) || m == j;
      }
    }
    NoNewlines(s, start, k);
    k
  }

  /** Scanner::number: a NUMBER token whose payload is its own text. */
  function NumberLiteral(s: string, start: nat, line: nat): (st: Step)
    requires start < |s| && IsDigit(s[start])
    ensures start < st.next <= |s|
    ensures st.line == line + Newlines(s, start, st.next)
    ensures StepTokenOk(s, start, st) && st.token.Some?
    ensures st.line == line && st.token.value.kind == Number
  {
    var k := NumberEnd(s, start);
    Emit(s, start, k, line, Number, Num(s[start..k]))
  }

  /** Where NumberEnd stops, given where the integer part ends (`j`). */
  lemma NumberEndOutcome(s: string, start: nat, j: nat, k: nat)
    requires start < |s| && IsDigit(s[start]) && j == SkipWhile(s, start + 1, Digit)
    requires k == if PeekAt(s, j) == '.' && IsDigit(PeekNextAt(s, j)) then SkipWhile(s, j + 1, Digit) else j
    ensures NumberEnd(s, start) == k
  {
  }

  /** The token NumberLiteral emits, given where the integer part ends (`j`) and where the literal ends (`k`). */
  lemma NumberLiteralOutcome(s: string, start: nat, line: nat, j: nat, k: nat)
    requires start < |s| && IsDigit(s[start]) && j == SkipWhile(s, start + 1, Digit)
    requires k == if PeekAt(s, j) == '.' && IsDigit(PeekNextAt(s, j)) then SkipWhile(s, j + 1, Digit) else j
    ensures NumberLiteral(s, start, line) == Step(k, line, Some(Token(Number, s[start..k], line, Num(s[start..k]))), None)
  {
    NumberEndOutcome(s, start, j, k);
  }

  /**
   * Scanner::identifier, entered with the cursor just past the letter or
   * underscore at `start`: the maximal alphanumeric run, a keyword kind when
   * the run is a reserved word and IDENTIFIER otherwise.
   */
  function IdentifierOrKeyword(s: string, start: nat, line: nat): (st: Step)
    requires start < |s| && IsAlpha(s[start])
    ensures start < st.next <= |s|
    ensures st.line == line + Newlines(s, start, st.next)
    ensures StepTokenOk(s, start, st) && st.token.Some?
    ensures st.line == line && st.token.value.value.NoValue?
    ensures st.token.value.kind == Identifier || IsKeyword(st.token.value.kind)
  {
    var j := SkipWhile(s, start + 1, Alphanumeric);
    var text := s[start..j];
    SkipWhileStops(s, start + 1, Alphanumeric);
    NoNewlines(s, start, j);
    var kind := if text in Keywords then Keywords[text] else Identifier;
    assert kind == Identifier || IsKeyword(kind) by {
      if text in Keywords {
        KeywordEntry(text);
      }
    }
    Emit(s, start, j, line, kind, NoValue)
  }

  /** The token IdentifierOrKeyword emits, given where the alphanumeric run ends. */
  lemma IdentifierOutcome(s: string, start: nat, line: nat, j: nat)
    requires start < |s| && IsAlpha(s[start]) && j == SkipWhile(s, start + 1, Alphanumeric)
    ensures var text := s[start..j];
      IdentifierOrKeyword(s, start, line)
        == Step(j, line, Some(PlainToken(if text in Keywords then Keywords[text] else Identifier, text, line)), None)
  {
  }

  /** A quote hands over to the string scanner. */
  lemma ScanOneString(s: string, start: nat, line: nat)
    requires start < |s| && s[start] == '"'
    ensures ScanOne(s, start, line) == StringLiteral(s, start, line)
  {
    assert CaseOf(s[start]) == QuoteCase;
  }

  /** A digit hands over to the number scanner. */
  lemma ScanOneNumber(s: string, start: nat, line: nat)
    requires start < |s| && IsDigit(s[start])
    ensures ScanOne(s, start, line) == NumberLiteral(s, start, line)
  {
    assert CaseOf(s[start]) == DigitCase;
  }

  /** A letter or underscore hands over to the identifier scanner. */
  lemma ScanOneIdentifier(s: string, start: nat, line: nat)
    requires start < |s| && IsAlpha(s[start])
    ensures ScanOne(s, start, line) == IdentifierOrKeyword(s, start, line)
  {
    assert CaseOf(s[start]) == Default;
  }

  /** Reserved words never map to a literal kind or to EOF. */
  lemma KeywordKinds()
    ensures forall w :: w in Keywords ==> Keywords[w] !in {Identifier, String, Number, Eof}
  {
  }

  /** The reserved word spelling keyword kind `k`. */
  function KeywordSpelling(k: TokenType): string
    requires IsKeyword(k)
  {
    match k
    case And => "and"  case Class => "class"  case Else => "else"  case False => "false"
    case For => "for"  case Fun => "fun"  case If => "if"  case Nil => "nil"
    case Or => "or"  case Print => "print"  case Return => "return"  case Super => "super"
    case This => "this"  case True => "true"  case Var => "var"  case _ => "while"
  }

  /** The keyword table holds exactly the sixteen keyword kinds, one spelling each. */
  lemma KeywordTable(k: TokenType, w: string)
    ensures IsKeyword(k) ==> KeywordSpelling(k) in Keywords && Keywords[KeywordSpelling(k)] == k
    ensures w in Keywords ==> IsKeyword(Keywords[w]) && KeywordSpelling(Keywords[w]) == w
  {
    if IsKeyword(k) {
      KeywordSpellingFound(k);
    }
    if w in Keywords {
      KeywordEntry(w);
    }
  }

  lemma KeywordSpellingFound(k: TokenType)
    requires IsKeyword(k)
    ensures KeywordSpelling(k) in Keywords && Keywords[KeywordSpelling(k)] == k
  {
  }

  lemma KeywordEntry(w: string)
    requires w in Keywords
    ensures IsKeyword(Keywords[w]) && KeywordSpelling(Keywords[w]) == w
  {
  }

  /** The source positions a token was scanned from. */
  datatype Span = Span(from: nat, to: nat)

  /**
   * The outcome of scanning from some cursor to the end of the source: the
   * tokens with the spans they came from, the diagnostics, and the final
   * line counter.
   */
  datatype Lexed = Lexed(tokens: seq<Token>, spans: seq<Span>, diags: seq<Diagnostic>, line: nat)

  /**
   * The loop of Scanner::scan_tokens from cursor `i` with line counter
   * `line`: one step after another until the end of the source. The final
   * line counter has counted every newline from `i` on.
   */
  function LexFrom(s: string, i: nat, line: nat): (r: Lexed)
    requires i <= |s|
    ensures |r.spans| == |r.tokens|
    ensures r.line == line + Newlines(s, i, |s|)
    decreases |s| - i
  {
    if i == |s| then Lexed([], [], [], line)
    else
      var st := ScanOne(s, i, line);
      var rest := LexFrom(s, st.next, st.line);
      NewlinesSplit(s, i, st.next, |s|);
      Lexed(OptionToSeq(st.token) + rest.tokens,
            (if st.token.Some? then [Span(i, st.next)] else []) + rest.spans,
            OptionToSeq(st.diag) + rest.diags,
            rest.line)
  }

  /** One step of LexFrom: the first step's output, then the rest of the scan. */
  lemma LexUnfold(s: string, i: nat, line: nat)
    requires i < |s|
    ensures var st := ScanOne(s, i, line);
      var r := LexFrom(s, i, line);
      var rest := LexFrom(s, st.next, st.line);
      r.tokens == OptionToSeq(st.token) + rest.tokens
      && r.diags == OptionToSeq(st.diag) + rest.diags
      && r.line == rest.line
  {
  }

  /** What Scanner::scan_tokens returns on a fresh scanner, and the error flag it leaves. */
  datatype Scanned = Scanned(tokens: seq<Token>, diags: seq<Diagnostic>, hadError: bool)

  /** The sentinel that ends every scan. */
  function EofToken(line: nat): Token {
    PlainToken(Eof, "", line)
  }

  /**
   * Scanning a whole source with a fresh scanner (line 1, cursor 0): the
   * tokens of every step followed by the EOF sentinel at the final line,
   * the diagnostics, and the error flag, set exactly when some diagnostic
   * was reported.
   */
  function Scan(s: string): Scanned {
    var lx := LexFrom(s, 0, 1);
    Scanned(lx.tokens + [EofToken(lx.line)], lx.diags, |lx.diags| > 0)
  }

  /**
   * Every scan ends with the EOF sentinel: the last token has an empty
   * lexeme and the line one more than the number of newlines in the source.
   */
  lemma ScanEndsWithEof(s: string)
    ensures var ts := Scan(s).tokens;
      |ts| >= 1 && ts[|ts| - 1] == EofToken(1 + Newlines(s, 0, |s|))
  {
    var lx := LexFrom(s, 0, 1);
    assert lx.line == 1 + Newlines(s, 0, |s|);
    assert Scan(s).tokens == lx.tokens + [EofToken(lx.line)];
    EndsWith(lx.tokens, EofToken(lx.line));
  }

  /** A sequence with `last` appended ends with `last`. */
  lemma EndsWith(ts: seq<Token>, last: Token)
    ensures var a := ts + [last]; |a| >= 1 && a[|a| - 1] == last
  {
  }

  /** The sentinel is the only EOF token of a scan. */
  lemma ScanSingleEof(s: string)
    ensures var ts := Scan(s).tokens;
      forall k :: 0 <= k < |ts| - 1 ==> ts[k].kind != Eof
  {
    var lx := LexFrom(s, 0, 1);
    assert Scan(s).tokens == lx.tokens + [EofToken(lx.line)];
    LexKinds(s, 0, 1);
    SentinelLast(lx.tokens, EofToken(lx.line));
  }

  /** The `k`-th token of a scan from `i` and its span, in terms of the first step and the rest. */
  lemma LexAt(s: string, i: nat, line: nat, k: nat)
    requires i < |s| && k < |LexFrom(s, i, line).tokens|
    ensures var st := ScanOne(s, i, line);
      var r := LexFrom(s, i, line);
      var rest := LexFrom(s, st.next, st.line);
      if st.token.Some? && k == 0 then r.tokens[k] == st.token.value && r.spans[k] == Span(i, st.next)
      else
        var k' := if st.token.Some? then k - 1 else k;
        k' < |rest.tokens| && r.tokens[k] == rest.tokens[k'] && r.spans[k] == rest.spans[k']
  {
    var st := ScanOne(s, i, line);
    var r := LexFrom(s, i, line);
    var rest := LexFrom(s, st.next, st.line);
    assert r.tokens == OptionToSeq(st.token) + rest.tokens;
    assert r.spans == (if st.token.Some? then [Span(i, st.next)] else []) + rest.spans;
    ConsAt(r, st, i, rest, k);
  }

  /** Indexing into a scan made of one step's output followed by the rest. */
  lemma ConsAt(r: Lexed, st: Step, i: nat, rest: Lexed, k: nat)
    requires r.tokens == OptionToSeq(st.token) + rest.tokens
    requires r.spans == (if st.token.Some? then [Span(i, st.next)] else []) + rest.spans
    requires |rest.spans| == |rest.tokens| && k < |r.tokens|
    ensures if st.token.Some? && k == 0 then r.tokens[k] == st.token.value && r.spans[k] == Span(i, st.next)
      else
        var k' := if st.token.Some? then k - 1 else k;
        k' < |rest.tokens| && r.tokens[k] == rest.tokens[k'] && r.spans[k] == rest.spans[k']
  {
  }

  /** No token is EOF, and each token's payload fits its kind. */
  predicate AllFit(ts: seq<Token>) {
    forall k :: 0 <= k < |ts| ==> ts[k].kind != Eof && ValueFitsKind(ts[k])
  }

  /** No token of a scan is EOF, and each token's payload fits its kind. */
  lemma {:induction false} LexKinds(s: string, i: nat, line: nat)
    requires i <= |s|
    ensures AllFit(LexFrom(s, i, line).tokens)
    decreases |s| - i
  {
    if i < |s| {
      var st := ScanOne(s, i, line);
      LexKinds(s, st.next, st.line);
      var r := LexFrom(s, i, line);
      forall k | 0 <= k < |r.tokens| ensures r.tokens[k].kind != Eof && ValueFitsKind(r.tokens[k]) {
        LexAt(s, i, line, k);
      }
    }
  }

  /** Appending the sentinel to EOF-free tokens leaves it the only EOF. */
  lemma SentinelLast(ts: seq<Token>, eof: Token)
    requires AllFit(ts)
    ensures forall k :: 0 <= k < |ts + [eof]| - 1 ==> (ts + [eof])[k].kind != Eof
  {
  }

  /**
   * Lexeme fidelity: every token scanned from `i` on is exactly the slice of
   * the source its span covers; spans lie past `i`, in order, without overlap.
   */
  lemma {:induction false} LexemeFidelity(s: string, i: nat, line: nat)
    requires i <= |s|
    ensures var r := LexFrom(s, i, line);
      forall k :: 0 <= k < |r.tokens| ==>
        i <= r.spans[k].from < r.spans[k].to <= |s|
        && r.tokens[k].lexeme == s[r.spans[k].from..r.spans[k].to]
    ensures var r := LexFrom(s, i, line);
      forall k :: 0 <= k < |r.tokens| - 1 ==> r.spans[k].to <= r.spans[k + 1].from
    decreases |s| - i
  {
    if i < |s| {
      var st := ScanOne(s, i, line);
      LexemeFidelity(s, st.next, st.line);
      var r := LexFrom(s, i, line);
      forall k | 0 <= k < |r.tokens|
        ensures i <= r.spans[k].from < r.spans[k].to <= |s|
        ensures r.tokens[k].lexeme == s[r.spans[k].from..r.spans[k].to]
        ensures k < |r.tokens| - 1 ==> r.spans[k].to <= r.spans[k + 1].from
      {
        LexAt(s, i, line, k);
        if k < |r.tokens| - 1 {
          LexAt(s, i, line, k + 1);
        }
      }
    }
  }

  /**
   * Line accounting: a token's line is the counter it started with plus
   * every newline consumed up to the end of its lexeme. For a multi-line
   * string literal that is the line of its closing quote; LexLinesBefore
   * states the rule for every other token.
   */
  lemma {:induction false} LexLines(s: string, i: nat, line: nat)
    requires i <= |s|
    ensures var r := LexFrom(s, i, line);
      forall k :: 0 <= k < |r.tokens| ==>
        i <= r.spans[k].to <= |s| && r.tokens[k].line == line + Newlines(s, i, r.spans[k].to)
    decreases |s| - i
  {
    if i < |s| {
      var st := ScanOne(s, i, line);
      var r := LexFrom(s, i, line);
      var rest := LexFrom(s, st.next, st.line);
      LexLines(s, st.next, st.line);
      forall k | 0 <= k < |r.tokens|
        ensures i <= r.spans[k].to <= |s| && r.tokens[k].line == line + Newlines(s, i, r.spans[k].to)
      {
        LexAt(s, i, line, k);
        if st.token.None? || k > 0 {
          var k' := if st.token.Some? then k - 1 else k;
          NewlinesSplit(s, i, st.next, rest.spans[k'].to);
        }
      }
    }
  }

  /** Only a string literal's step moves the line counter and also emits a token. */
  lemma NonStringStepLine(s: string, start: nat, line: nat)
    requires start < |s|
    ensures var st := ScanOne(s, start, line);
      st.token.Some? && st.token.value.kind != String ==> st.line == line
  {
    var c := s[start];
    if c == '"' {
      ScanOneString(s, start, line);
      StringLiteralFields(s, start, line, SkipWhile(s, start + 1, NotQuote));
    } else if IsDigit(c) {
      ScanOneNumber(s, start, line);
    } else if IsAlpha(c) {
      ScanOneIdentifier(s, start, line);
    }
  }

  /**
   * Every token other than a string literal is at the line its scan
   * started with plus the newlines before its first character: its lexeme
   * contains no newline.
   */
  lemma {:induction false} LexLinesBefore(s: string, i: nat, line: nat)
    requires i <= |s|
    ensures var r := LexFrom(s, i, line);
      forall k :: 0 <= k < |r.tokens| && r.tokens[k].kind != String ==>
        i <= r.spans[k].from <= |s| && r.tokens[k].line == line + Newlines(s, i, r.spans[k].from)
    decreases |s| - i
  {
    if i < |s| {
      var st := ScanOne(s, i, line);
      var r := LexFrom(s, i, line);
      var rest := LexFrom(s, st.next, st.line);
      LexLinesBefore(s, st.next, st.line);
      NonStringStepLine(s, i, line);
      forall k | 0 <= k < |r.tokens| && r.tokens[k].kind != String
        ensures i <= r.spans[k].from <= |s| && r.tokens[k].line == line + Newlines(s, i, r.spans[k].from)
      {
        LexAt(s, i, line, k);
        if st.token.None? || k > 0 {
          var k' := if st.token.Some? then k - 1 else k;
          NewlinesSplit(s, i, st.next, rest.spans[k'].from);
        }
      }
    }
  }
}
