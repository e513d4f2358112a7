/**
 * What each branch of Scanner::scan_token does, stated on the pure scanner
 * ScanSpec.ScanOne, and what a whole scan guarantees about its tokens.
 */
module ScanProperties {
  import opened Wrappers
  import opened Strings
  import opened Tokens
  import opened ScanSpec

  /**
   * Maximal munch: an operator character followed by `=` gives one
   * two-character token and otherwise a one-character token; either way
   * the token's text is exactly the spelling of its kind.
   */
  lemma OperatorStep(s: string, start: nat, line: nat)
    requires start < |s| && IsOperatorStart(s[start])
    ensures var two := start + 1 < |s| && s[start + 1] == '=';
      var next := if two then start + 2 else start + 1;
      var k := OperatorKind(s[start], two);
      ScanOne(s, start, line) == Step(next, line, Some(PlainToken(k, s[start..next], line)), None)
      && IsOneOrTwoChar(k) && OperatorSpelling(k) == s[start..next]
  {
    var two := MatchAt(s, start + 1, '=');
    var next := if two then start + 2 else start + 1;
    OperatorBijection(s[start], two, Eof);
    assert s[start..next] == [s[start]] + (if two then "=" else "");
  }

  /** A `//` comment runs up to, but not including, the next newline or the end of the source, and emits nothing. */
  lemma CommentStep(s: string, start: nat, line: nat, j: nat)
    requires start + 1 < |s| && s[start] == '/' && s[start + 1] == '/'
    requires start + 2 <= j <= |s|
    requires forall k :: start + 2 <= k < j ==> s[k] != '\n'
    requires j == |s| || s[j] == '\n'
    ensures ScanOne(s, start, line) == Step(j, line, None, None)
  {
    SkipWhileUnique(s, start + 2, NotNewline, j);
  }

  /** A `/` not followed by another `/` is the SLASH token. */
  lemma SlashStep(s: string, start: nat, line: nat)
    requires start < |s| && s[start] == '/' && !(start + 1 < |s| && s[start + 1] == '/')
    ensures ScanOne(s, start, line) == Step(start + 1, line, Some(PlainToken(Slash, "/", line)), None)
  {
    assert s[start..start + 1] == "/";
  }

  /** Space, carriage return and tab emit nothing; a newline emits nothing and counts one line. */
  lemma BlankStep(s: string, start: nat, line: nat)
    requires start < |s| && s[start] in " \r\t\n"
    ensures ScanOne(s, start, line)
         == Step(start + 1, if s[start] == '\n' then line + 1 else line, None, None)
  {
  }

  /** The characters some branch of Scanner::scan_token recognises. */
  predicate Recognised(c: char) {
    c in "(){},.-+;*!=<>/ \r\t\n\"" || IsDigit(c) || IsAlpha(c)
  }

  /**
   * Any other character is reported as unexpected at the current line,
   * emits no token, and scanning resumes with the next character.
   */
  lemma UnexpectedStep(s: string, start: nat, line: nat)
    requires start < |s| && !Recognised(s[start])
    ensures ScanOne(s, start, line)
         == Step(start + 1, line, None, Some(Diagnostic(line, UnexpectedCharacter(s[start]))))
  {
    assert CaseOf(s[start]) == Default;
  }

  /**
   * A string literal closed at `q`: one STRING token spelled with both
   * quotes, whose payload is the text strictly between them, at the line
   * reached after counting the newlines inside it.
   */
  lemma StringStep(s: string, start: nat, line: nat, q: nat)
    requires start < q < |s| && s[start] == '"' && s[q] == '"'
    requires forall k :: start < k < q ==> s[k] != '"'
    ensures var l := line + Newlines(s, start + 1, q);
      ScanOne(s, start, line) == Step(q + 1, l, Some(Token(String, s[start..q + 1], l, Str(s[start + 1..q]))), None)
  {
    SkipWhileUnique(s, start + 1, NotQuote, q);
    StringLiteralOutcome(s, start, line, q);
    ScanOneString(s, start, line);
  }

  /**
   * A string literal without a closing quote: no token, the cursor at the
   * end of the source, and an unterminated-string diagnostic naming the
   * line where the literal began.
   */
  lemma UnterminatedStep(s: string, start: nat, line: nat)
    requires start < |s| && s[start] == '"'
    requires forall k :: start < k < |s| ==> s[k] != '"'
    ensures var l := line + Newlines(s, start + 1, |s|);
      ScanOne(s, start, line) == Step(|s|, l, None, Some(Diagnostic(l, UnterminatedString(line))))
  {
    SkipWhileUnique(s, start + 1, NotQuote, |s|);
    StringLiteralOutcome(s, start, line, |s|);
    ScanOneString(s, start, line);
  }

  /**
   * An unterminated string literal ends the scan: nothing after its
   * opening quote yields a token, and its diagnostic is the last one.
   */
  lemma UnterminatedEndsScan(s: string, i: nat, line: nat)
    requires i < |s| && s[i] == '"'
    requires forall k :: i < k < |s| ==> s[k] != '"'
    ensures var r := LexFrom(s, i, line);
      var l := line + Newlines(s, i + 1, |s|);
      r.tokens == [] && r.diags == [Diagnostic(l, UnterminatedString(line))] && r.line == l
  {
    UnterminatedStep(s, i, line);
    LexUnfold(s, i, line);
  }

  /**
   * A number literal: the run of digits, then a `.` and the following run
   * of digits only when the `.` is directly followed by a digit. Its
   * payload is its own text.
   */
  lemma NumberStep(s: string, start: nat, line: nat)
    requires start < |s| && IsDigit(s[start])
    ensures var j := SkipWhile(s, start, Digit);
      var k := if j + 1 < |s| && s[j] == '.' && IsDigit(s[j + 1]) then SkipWhile(s, j + 1, Digit) else j;
      ScanOne(s, start, line) == Step(k, line, Some(Token(Number, s[start..k], line, Num(s[start..k]))), None)
  {
    var j := SkipWhile(s, start + 1, Digit);
    assert SkipWhile(s, start, Digit) == j;
    var fraction := j + 1 < |s| && s[j] == '.' && IsDigit(s[j + 1]);
    assert fraction == (PeekAt(s, j) == '.' && IsDigit(PeekNextAt(s, j)));
    var k := if fraction then SkipWhile(s, j + 1, Digit) else j;
    NumberLiteralOutcome(s, start, line, j, k);
    ScanOneNumber(s, start, line);
  }

  /**
   * An identifier is the maximal run of letters, digits and underscores
   * from a letter or underscore; it is a keyword exactly when the run is a
   * reserved word.
   */
  lemma IdentifierStep(s: string, start: nat, line: nat)
    requires start < |s| && IsAlpha(s[start])
    ensures var j := SkipWhile(s, start, Alphanumeric);
      var text := s[start..j];
      ScanOne(s, start, line)
        == Step(j, line, Some(PlainToken(if text in Keywords then Keywords[text] else Identifier, text, line)), None)
  {
    var j := SkipWhile(s, start + 1, Alphanumeric);
    assert SkipWhile(s, start, Alphanumeric) == j;
    IdentifierOutcome(s, start, line, j);
    ScanOneIdentifier(s, start, line);
  }

  /**
   * Digits followed by a `.` that no digit follows: the number ends before
   * the `.`, which is then a DOT token of its own (so "1223." is a NUMBER
   * and a DOT).
   */
  lemma TrailingDotStep(s: string, start: nat, line: nat)
    requires start < |s| && IsDigit(s[start])
    requires var j := SkipWhile(s, start, Digit);
      j < |s| && s[j] == '.' && !(j + 1 < |s| && IsDigit(s[j + 1]))
    ensures var j := SkipWhile(s, start, Digit);
      ScanOne(s, start, line).next == j
      && ScanOne(s, j, line) == Step(j + 1, line, Some(PlainToken(Dot, ".", line)), None)
  {
    NumberStep(s, start, line);
    PunctuationStep(s, SkipWhile(s, start, Digit), line);
  }

  /**
   * The ten punctuation characters are one-character tokens whatever
   * follows them; in particular a `.` is a DOT even before digits, so
   * ".23" is a DOT and a NUMBER.
   */
  lemma PunctuationStep(s: string, start: nat, line: nat)
    requires start < |s| && s[start] in "(){},.-+;*"
    ensures IsPunctuation(s[start])
    ensures ScanOne(s, start, line)
         == Step(start + 1, line, Some(PlainToken(PunctuationKind(s[start]), [s[start]], line)), None)
  {
    assert s[start..start + 1] == [s[start]];
  }

  /**
   * Keywords match whole words only: "print" scans as one PRINT token, and
   * "printx" as one IDENTIFIER token spelled "printx".
   */
  lemma KeywordExample(line: nat)
    ensures ScanOne("print", 0, line) == Step(5, line, Some(PlainToken(Print, "print", line)), None)
    ensures ScanOne("printx", 0, line) == Step(6, line, Some(PlainToken(Identifier, "printx", line)), None)
  {
    WholeWord("print", line);
    WholeWord("printx", line);
    assert "print" in Keywords && Keywords["print"] == Print;
    assert "printx" !in Keywords;
  }

  /** A source that is one identifier-shaped word scans as a single token spelled by the whole word. */
  lemma WholeWord(w: string, line: nat)
    requires |w| > 0 && IsAlpha(w[0]) && forall k :: 0 <= k < |w| ==> IsAlphanumeric(w[k])
    ensures ScanOne(w, 0, line)
         == Step(|w|, line, Some(PlainToken(if w in Keywords then Keywords[w] else Identifier, w, line)), None)
  {
    SkipWhileUnique(w, 0, Alphanumeric, |w|);
    IdentifierStep(w, 0, line);
    assert w[0..|w|] == w;
  }

  /** Every token a scan produces can be rendered: its payload always has the type its kind calls for. */
  lemma ScannedTokensRender(s: string, showNumber: string -> string)
    ensures forall t :: t in Scan(s).tokens ==> t.Render(showNumber).Some?
  {
    var lx := LexFrom(s, 0, 1);
    LexKinds(s, 0, 1);
    forall t | t in Scan(s).tokens
      ensures t.Render(showNumber).Some?
    {
      if t in lx.tokens {
        var k :| 0 <= k < |lx.tokens| && lx.tokens[k] == t;
        assert ValueFitsKind(lx.tokens[k]);
      }
    }
  }
}
