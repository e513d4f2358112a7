/**
 * The token model: the closed enumeration of token kinds, the kind-to-name
 * mapping, the token value with its optional literal payload, and the
 * textual rendering of a token.
 */
module Tokens {
  import opened Wrappers
  import opened Strings

  /** The 39 kinds of token, in declaration order. */
  datatype TokenType =
    // single-character tokens
    | LeftParen | RightParen | LeftBrace | RightBrace | Comma | Dot
    | Minus | Plus | Semicolon | Slash | Star
    // one- or two-character tokens
    | Bang | BangEqual | Equal | EqualEqual
    | Greater | GreaterEqual | Less | LessEqual
    // literals
    | Identifier | String | Number
    // keywords
    | And | Class | Else | False | Fun | For | If | Nil | Or
    | Print | Return | Super | This | True | Var | While
    // end of input
    | Eof

  /** The number of token kinds. */
  const KindCount: nat := 39

  /** The enumerator's underlying value: its position in the declaration. */
  function Ordinal(k: TokenType): (i: nat)
    ensures i < KindCount
  {
    match k
    case LeftParen => 0  case RightParen => 1  case LeftBrace => 2
    case RightBrace => 3  case Comma => 4  case Dot => 5  case Minus => 6
    case Plus => 7  case Semicolon => 8  case Slash => 9  case Star => 10
    case Bang => 11  case BangEqual => 12  case Equal => 13  case EqualEqual => 14
    case Greater => 15  case GreaterEqual => 16  case Less => 17  case LessEqual => 18
    case Identifier => 19  case String => 20  case Number => 21
    case And => 22  case Class => 23  case Else => 24  case False => 25
    case Fun => 26  case For => 27  case If => 28  case Nil => 29  case Or => 30
    case Print => 31  case Return => 32  case Super => 33  case This => 34
    case True => 35  case Var => 36  case While => 37
    case Eof => 38
  }

  /** The kind whose enumerator value is `i`. */
  function KindAt(i: nat): (k: TokenType)
    requires i < KindCount
    ensures Ordinal(k) == i
  {
    if i < 19 then PunctuationAt(i) else if i < 30 then WordAt(i) else KeywordAt(i)
  }

  /** KindAt over the single-character and one-or-two-character groups. */
  function PunctuationAt(i: nat): (k: TokenType)
    requires i < 19
    ensures Ordinal(k) == i
  {
    match i
    case 0 => LeftParen  case 1 => RightParen  case 2 => LeftBrace
    case 3 => RightBrace  case 4 => Comma  case 5 => Dot  case 6 => Minus
    case 7 => Plus  case 8 => Semicolon  case 9 => Slash  case 10 => Star
    case 11 => Bang  case 12 => BangEqual  case 13 => Equal  case 14 => EqualEqual
    case 15 => Greater  case 16 => GreaterEqual  case 17 => Less  case _ => LessEqual
  }

  /** KindAt over the literals and the first keywords. */
  function WordAt(i: nat): (k: TokenType)
    requires 19 <= i < 30
    ensures Ordinal(k) == i
  {
    match i
    case 19 => Identifier  case 20 => String  case 21 => Number
    case 22 => And  case 23 => Class  case 24 => Else  case 25 => False
    case 26 => Fun  case 27 => For  case 28 => If  case _ => Nil
  }

  /** KindAt over the last keywords and EOF. */
  function KeywordAt(i: nat): (k: TokenType)
    requires 30 <= i < KindCount
    ensures Ordinal(k) == i
  {
    match i
    case 30 => Or  case 31 => Print  case 32 => Return  case 33 => Super
    case 34 => This  case 35 => True  case 36 => Var  case 37 => While
    case _ => Eof
  }

  /**
   * The enumeration is closed and has exactly 39 members: enumerator values
   * and kinds correspond one to one, so distinct kinds have distinct values.
   */
  lemma OrdinalBijection(k: TokenType, k': TokenType)
    ensures KindAt(Ordinal(k)) == k
    ensures Ordinal(k) == Ordinal(k') ==> k == k'
  {
    KindAtOrdinal(k);
    KindAtOrdinal(k');
  }

  lemma KindAtOrdinal(k: TokenType)
    ensures KindAt(Ordinal(k)) == k
  {
    if Ordinal(k) < 19 {
      PunctuationAtOrdinal(k);
    } else if Ordinal(k) < 30 {
      WordAtOrdinal(k);
    } else {
      KeywordAtOrdinal(k);
    }
  }

  lemma PunctuationAtOrdinal(k: TokenType)
    requires Ordinal(k) < 19
    ensures PunctuationAt(Ordinal(k)) == k
  {
  }

  lemma WordAtOrdinal(k: TokenType)
    requires 19 <= Ordinal(k) < 30
    ensures WordAt(Ordinal(k)) == k
  {
  }

  lemma KeywordAtOrdinal(k: TokenType)
    requires 30 <= Ordinal(k)
    ensures KeywordAt(Ordinal(k)) == k
  {
  }

  // The four groups of the declaration.
  predicate IsSingleChar(k: TokenType) {
    match k
    case LeftParen | RightParen | LeftBrace | RightBrace | Comma | Dot
       | Minus | Plus | Semicolon | Slash | Star => true
    case _ => false
  }

  predicate IsOneOrTwoChar(k: TokenType) {
    match k
    case Bang | BangEqual | Equal | EqualEqual
       | Greater | GreaterEqual | Less | LessEqual => true
    case _ => false
  }

  predicate IsLiteral(k: TokenType) {
    match k
    case Identifier | String | Number => true
    case _ => false
  }

  predicate IsKeyword(k: TokenType) {
    match k
    case And | Class | Else | False | Fun | For | If | Nil | Or
       | Print | Return | Super | This | True | Var | While => true
    case _ => false
  }

  /**
   * The groups are consecutive in the declaration: 11 single-character
   * kinds, 8 one-or-two-character kinds, 3 literals, 16 keywords, and EOF last.
   */
  lemma GroupsByOrdinal(k: TokenType)
    ensures IsSingleChar(k) <==> Ordinal(k) < 11
    ensures IsOneOrTwoChar(k) <==> 11 <= Ordinal(k) < 19
    ensures IsLiteral(k) <==> 19 <= Ordinal(k) < 22
    ensures IsKeyword(k) <==> 22 <= Ordinal(k) < 38
    ensures k == Eof <==> Ordinal(k) == KindCount - 1
  {
  }

  /** A character that may appear in a kind's name. */
  predicate IsNameChar(c: char) {
    'A' <= c <= 'Z' || c == '_'
  }

  /**
   * to_string(TokenType): the enumerator's name without its TOK_ prefix.
   * Total over the enumeration; every name is a non-empty run of capital
   * letters and underscores.
   */
  function KindName(k: TokenType): string {
    match k
    case LeftParen => "LEFT_PAREN"
    case RightParen => "RIGHT_PAREN"
    case LeftBrace => "LEFT_BRACE"
    case RightBrace => "RIGHT_BRACE"
    case Comma => "COMMA"
    case Dot => "DOT"
    case Minus => "MINUS"
    case Plus => "PLUS"
    case Semicolon => "SEMICOLON"
    case Slash => "SLASH"
    case Star => "STAR"
    case Bang => "BANG"
    case BangEqual => "BANG_EQUAL"
    case Equal => "EQUAL"
    case EqualEqual => "EQUAL_EQUAL"
    case Greater => "GREATER"
    case GreaterEqual => "GREATER_EQUAL"
    case Less => "LESS"
    case LessEqual => "LESS_EQUAL"
    case Identifier => "IDENTIFIER"
    case String => "STRING"
    case Number => "NUMBER"
    case And => "AND"
    case Class => "CLASS"
    case Else => "ELSE"
    case False => "FALSE"
    case Fun => "FUN"
    case For => "FOR"
    case If => "IF"
    case Nil => "NIL"
    case Or => "OR"
    case Print => "PRINT"
    case Return => "RETURN"
    case Super => "SUPER"
    case This => "THIS"
    case True => "TRUE"
    case Var => "VAR"
    case While => "WHILE"
    case Eof => "EOF"
  }

  /** A non-empty run of capital letters and underscores. */
  predicate IsNameShaped(name: string) {
    |name| > 0 && forall i :: 0 <= i < |name| ==> IsNameChar(name[i])
  }

  /** Every kind's name is a non-empty run of capital letters and underscores. */
  lemma KindNameShape(k: TokenType)
    ensures IsNameShaped(KindName(k))
  {
    if IsSingleChar(k) {
      SingleCharNameShape(k);
    } else if IsOneOrTwoChar(k) {
      OperatorNameShape(k);
    } else if IsKeyword(k) {
      KeywordNameShape(k);
    } else {
      OtherNameShape(k);
    }
  }

  lemma SingleCharNameShape(k: TokenType)
    requires IsSingleChar(k)
    ensures IsNameShaped(KindName(k))
  {
  }

  lemma OperatorNameShape(k: TokenType)
    requires IsOneOrTwoChar(k)
    ensures IsNameShaped(KindName(k))
  {
  }

  lemma KeywordNameShape(k: TokenType)
    requires IsKeyword(k)
    ensures IsNameShaped(KindName(k))
  {
  }

  lemma OtherNameShape(k: TokenType)
    requires !IsSingleChar(k) && !IsOneOrTwoChar(k) && !IsKeyword(k)
    ensures IsNameShaped(KindName(k))
  {
  }

  /** The kind a name denotes, if any: the inverse of KindName. */
  function KindFromName(name: string): Option<TokenType> {
    match name
    case "LEFT_PAREN" => Some(LeftParen)
    case "RIGHT_PAREN" => Some(RightParen)
    case "LEFT_BRACE" => Some(LeftBrace)
    case "RIGHT_BRACE" => Some(RightBrace)
    case "COMMA" => Some(Comma)
    case "DOT" => Some(Dot)
    case "MINUS" => Some(Minus)
    case "PLUS" => Some(Plus)
    case "SEMICOLON" => Some(Semicolon)
    case "SLASH" => Some(Slash)
    case "STAR" => Some(Star)
    case "BANG" => Some(Bang)
    case "BANG_EQUAL" => Some(BangEqual)
    case "EQUAL" => Some(Equal)
    case "EQUAL_EQUAL" => Some(EqualEqual)
    case "GREATER" => Some(Greater)
    case "GREATER_EQUAL" => Some(GreaterEqual)
    case "LESS" => Some(Less)
    case "LESS_EQUAL" => Some(LessEqual)
    case "IDENTIFIER" => Some(Identifier)
    case "STRING" => Some(String)
    case "NUMBER" => Some(Number)
    case "AND" => Some(And)
    case "CLASS" => Some(Class)
    case "ELSE" => Some(Else)
    case "FALSE" => Some(False)
    case "FUN" => Some(Fun)
    case "FOR" => Some(For)
    case "IF" => Some(If)
    case "NIL" => Some(Nil)
    case "OR" => Some(Or)
    case "PRINT" => Some(Print)
    case "RETURN" => Some(Return)
    case "SUPER" => Some(Super)
    case "THIS" => Some(This)
    case "TRUE" => Some(True)
    case "VAR" => Some(Var)
    case "WHILE" => Some(While)
    case "EOF" => Some(Eof)
    case _ => None
  }

  /** A name denotes a kind exactly when it is that kind's name. */
  lemma KindNameRoundTrip(k: TokenType, name: string)
    ensures KindFromName(KindName(k)) == Some(k)
    ensures KindFromName(name) == Some(k) ==> KindName(k) == name
  {
    if IsSingleChar(k) {
      SingleCharNameRoundTrip(k);
    } else if IsOneOrTwoChar(k) {
      OperatorNameRoundTrip(k);
    } else if IsKeyword(k) {
      KeywordNameRoundTrip(k);
    } else {
      OtherNameRoundTrip(k);
    }
    KindFromNameSound(name);
  }

  /** KindFromName only answers with the kind whose name it was given. */
  lemma KindFromNameSound(name: string)
    ensures KindFromName(name).Some? ==> KindName(KindFromName(name).value) == name
  {
  }

  lemma SingleCharNameRoundTrip(k: TokenType)
    requires IsSingleChar(k)
    ensures KindFromName(KindName(k)) == Some(k)
  {
  }

  lemma OperatorNameRoundTrip(k: TokenType)
    requires IsOneOrTwoChar(k)
    ensures KindFromName(KindName(k)) == Some(k)
  {
  }

  lemma KeywordNameRoundTrip(k: TokenType)
    requires IsKeyword(k)
    ensures KindFromName(KindName(k)) == Some(k)
  {
  }

  lemma OtherNameRoundTrip(k: TokenType)
    requires !IsSingleChar(k) && !IsOneOrTwoChar(k) && !IsKeyword(k)
    ensures KindFromName(KindName(k)) == Some(k)
  {
  }

  /** Distinct kinds have distinct names. */
  lemma KindNameInjective(a: TokenType, b: TokenType)
    requires KindName(a) == KindName(b)
    ensures a == b
  {
    KindNameRoundTrip(a, KindName(b));
    KindNameRoundTrip(b, KindName(a));
  }

  /**
   * The literal payload of a token: none, a number or a string. Only double
   * and std::string payloads are ever stored; a number is kept as the digits
   * it was scanned from, since its floating-point value is not modelled.
   */
  datatype Value = NoValue | Num(digits: string) | Str(text: string)

  /** A token: its kind, its exact source spelling, its line and its payload. */
  datatype Token = Token(kind: TokenType, lexeme: string, line: nat, value: Value) {

    /** The payload's type does not match the kind, so reading it back fails. */
    predicate CastFails() {
      (kind == String && value.Num?) || (kind == Number && value.Str?)
    }

    /** The text that follows the lexeme: the payload, if there is one. */
    function Payload(showNumber: string -> string): string
      requires !CastFails()
    {
      if value.NoValue? then ""
      else
        ", " + if kind == String then "'" + value.text + "'"
               else if kind == Number then showNumber(value.digits)
               else "UNKNOWN_VALUE_TYPE"
    }

    /**
     * Token::str. `showNumber` stands for the floating-point formatting of a
     * number payload. None where the payload cannot be read back as the type
     * the kind calls for.
     */
    function Render(showNumber: string -> string): (r: Option<string>)
      ensures r.None? <==> CastFails()
    {
      if CastFails() then None
      else Some(Frame(KindName(kind), line, lexeme + Payload(showNumber)))
    }
  }

  /** The three-argument Token constructor: a token without payload. */
  function PlainToken(kind: TokenType, lexeme: string, line: nat): (t: Token)
    ensures t.kind == kind && t.lexeme == lexeme && t.line == line
    ensures t.value.NoValue? && !t.CastFails()
  {
    Token(kind, lexeme, line, NoValue)
  }

  const Prefix: string := "Token ("

  /** "Token (<name>, <line>, <body>)", the frame shared by both token renderings. */
  function Frame(name: string, line: nat, body: string): string {
    Prefix + name + ", " + NatToString(line) + ", " + body + ")"
  }

  /** Reads a frame back into its name, line and body. */
  function Unframe(s: string): Option<(string, nat, string)> {
    if |s| < |Prefix| + 1 || s[..|Prefix|] != Prefix || s[|s| - 1] != ')' then None
    else SplitName(s[|Prefix|..|s| - 1])
  }

  /** Reads "<name>, <line>, <body>" back into its parts. */
  function SplitName(r: string): Option<(string, nat, string)> {
    var a := SkipWhile(r, 0, NotComma);
    if a + 2 > |r| || r[a..a + 2] != ", " then None
    else
      match SplitLine(r[a + 2..])
      case None => None
      case Some((line, body)) => Some((r[..a], line, body))
  }

  /** Reads "<line>, <body>" back into its parts. */
  function SplitLine(r: string): Option<(nat, string)> {
    var b := SkipWhile(r, 0, Digit);
    SkipWhileStops(r, 0, Digit);
    if b == 0 || b + 2 > |r| || r[b..b + 2] != ", " then None
    else Some((ParseNat(r[..b]), r[b + 2..]))
  }

  /** A frame whose name has no comma reads back to its parts. */
  lemma UnframeFrame(name: string, line: nat, body: string)
    requires forall i :: 0 <= i < |name| ==> name[i] != ','
    ensures Unframe(Frame(name, line, body)) == Some((name, line, body))
  {
    var d := NatToString(line);
    var r := name + ", " + (d + ", " + body);
    assert Frame(name, line, body) == Prefix + r + ")";
    SplitNameOf(name, d + ", " + body);
    SplitLineOf(line, body);
  }

  lemma SplitNameOf(name: string, rest: string)
    requires forall i :: 0 <= i < |name| ==> name[i] != ','
    ensures SplitName(name + ", " + rest)
         == match SplitLine(rest) case None => None case Some((l, b)) => Some((name, l, b))
  {
    var r := name + ", " + rest;
    SkipWhileUnique(r, 0, NotComma, |name|);
    assert r[..|name|] == name;
    assert r[|name|..|name| + 2] == ", ";
    assert r[|name| + 2..] == rest;
  }

  lemma SplitLineOf(line: nat, body: string)
    ensures SplitLine(NatToString(line) + ", " + body) == Some((line, body))
  {
    var d := NatToString(line);
    var r := d + ", " + body;
    SkipWhileUnique(r, 0, Digit, |d|);
    assert r[..|d|] == d;
    assert r[|d|..|d| + 2] == ", ";
    assert r[|d| + 2..] == body;
    ParseNatToString(line);
  }

  /** Reads a rendered payload-free token back. */
  function ParseToken(s: string): Option<Token> {
    match Unframe(s)
    case None => None
    case Some((name, line, body)) =>
      match KindFromName(name)
      case None => None
      case Some(k) => Some(PlainToken(k, body, line))
  }

  /**
   * Rendering loses nothing: the kind and line can be read back from any
   * rendered token, and a token without payload is recovered exactly.
   */
  lemma RenderRoundTrip(t: Token, showNumber: string -> string)
    requires !t.CastFails()
    ensures Unframe(t.Render(showNumber).value)
         == Some((KindName(t.kind), t.line, t.lexeme + t.Payload(showNumber)))
    ensures t.value.NoValue? ==> ParseToken(t.Render(showNumber).value) == Some(t)
  {
    KindNameShape(t.kind);
    UnframeFrame(KindName(t.kind), t.line, t.lexeme + t.Payload(showNumber));
    KindNameRoundTrip(t.kind, KindName(t.kind));
    if t.value.NoValue? {
      assert t.lexeme + t.Payload(showNumber) == t.lexeme;
    }
  }

  /** Two payload-free tokens with the same rendering are the same token. */
  lemma RenderInjective(t: Token, t': Token, showNumber: string -> string)
    requires t.value.NoValue? && t'.value.NoValue?
    requires t.Render(showNumber) == t'.Render(showNumber)
    ensures t == t'
  {
    RenderRoundTrip(t, showNumber);
    RenderRoundTrip(t', showNumber);
  }
}
