# vertaler lexer in Dafny

A model of the lexer of vertaler, a small scripting-language front end. The
lexer takes a source string and produces tokens. The model covers four parts:

- **The token model** (`tokens.dfy`): the closed enumeration of 39 token
  kinds, `to_string`, the token value with its optional payload, and
  `Token::str`. The model proves what can be read back from a rendering:
  the kind, the line, and the lexeme joined with the payload text. A token
  without a payload is recovered exactly. For STRING and NUMBER tokens the
  lexeme and the payload come back only as one string.
- **The scanner as pure functions** (`scan_spec.dfy`, `scan_properties.dfy`):
  one call of `Scanner::scan_token` is `ScanSpec.ScanOne`, and the whole loop
  of `Scanner::scan_tokens` is `ScanSpec.LexFrom` and `ScanSpec.Scan`. The
  model proves what each branch of the dispatch does, and what every scan
  guarantees:
  - every lexeme is the slice of the source it came from;
  - every token is tagged with the right line;
  - every payload fits its kind;
  - a scan ends with exactly one EOF token.
- **The `Scanner` class** (`scanner.dfy`): the fields of `scanner.h` and the
  methods of `scanner.cpp`, with their cursor loops. Each method is proved to
  change the scanner's state exactly as the pure functions say.
  `Scanning.Tokenize` builds a fresh scanner and runs it; it returns exactly
  `ScanSpec.Scan`.
- **The older scanner of `main.cpp`** (`legacy.dfy`): its own token type and
  its own `Scanner` class. The pure step `LegacyScanOne` specifies the class.
  It reuses the kind enumeration and the kind names, because lines 73-160 of
  `main.cpp` are the same mapping as `token.cpp`. The model proves three
  things about it:
  - it agrees with the current scanner on punctuation, operators and `/`;
  - it rejects every other character;
  - it never moves its line counter.

`strings.dfy` holds the character classes (`is_digit`, `is_alpha`,
`is_alphanumeric`), the shared "advance while" loop `SkipWhile`, newline
counting, and the decimal rendering of a line number. `wrappers.dfy` holds
`Option`.

Modelling choices:

- A **diagnostic** is a record: the value of `m_line` when `error()` is
  called, and the problem. The problem is an unexpected character, or an
  unterminated string that names the line where it began. The error flag is
  true exactly when some diagnostic exists.
- A **NUMBER payload** is `Num(digits)`: the text that `std::atof` would
  convert. `Token::str` takes a parameter `showNumber`, which stands for
  `std::to_string(double)`.
- The **`std::any` payload** is the datatype `Value = NoValue | Num | Str`.
  `Token.Render` returns `None` exactly where `std::any_cast` would throw: a
  STRING kind holding a number, or a NUMBER kind holding text.
- **Line of a token.** A token is tagged with the value of `m_line` when
  `add_token` runs. `Scanner::string` counts the literal's newlines before
  that call (`scanner.cpp:85-92`, `scanner.cpp:114`), so a multi-line string
  token carries the line of its closing quote, not the line where it began.
  `ScanSpec.LexLines` states this rule for every token: the starting line plus
  every newline consumed up to the end of the lexeme. `ScanSpec.LexLinesBefore`
  states the rule for every other token: the starting line plus the newlines
  before its first character.
- **Rendering of the lexeme.** The current `Token::str` appends the lexeme
  without quotes (`token.cpp:126`). Only the older `Token::str`
  (`main.cpp:175-176`) puts it in single quotes.
- **Line of the unterminated-string diagnostic.** The diagnostic is tagged
  with the line reached at the end of the source. Its message names the line
  where the literal began (`scanner.cpp:97-100`).

## Model

| member | source | states |
|---|---|---|
| Tokens.Ordinal | token.h:11-66 | every kind's enumerator value is below 39 |
| Tokens.KindAt | token.h:11-66 | the kind at each value 0..38 has exactly that enumerator value |
| Tokens.OrdinalBijection | token.h:11-66 | the enumeration is closed: values and kinds correspond one to one, so distinct kinds have distinct values |
| Tokens.GroupsByOrdinal | token.h:12-65 | the groups are consecutive: 11 single-character kinds, 8 one-or-two-character kinds, 3 literals, 16 keywords, EOF last |
| Tokens.KindName | token.cpp:8-88 | `to_string`: each kind's enumerator name without `TOK_` (proved total, shaped and invertible by the lemmas below) |
| Tokens.KindNameShape | token.cpp:8-88 | `to_string` is total, and every name is a non-empty run of capital letters and underscores |
| Tokens.KindNameRoundTrip | token.cpp:8-88 | `to_string` is inverted by reading the name back, in both directions |
| Tokens.KindFromNameSound | token.cpp:8-88 | reading a name back only ever answers with the kind of that name |
| Tokens.KindNameInjective | token.cpp:8-88 | distinct kinds have distinct names |
| Tokens.PlainToken | token.cpp:114-117 | the three-argument constructor keeps kind, lexeme and line and stores no payload |
| Tokens.Token.Render | token.cpp:119-145 | `Token::str` fails exactly when the payload cannot be read back as the kind's type |
| Tokens.UnframeFrame | token.cpp:119-126 | the frame "Token (name, line, body)" can be split back into name, line and body when the name has no comma |
| Tokens.RenderRoundTrip | token.cpp:119-145 | the kind, line and lexeme-plus-payload read back from any rendering; a payload-free token is recovered exactly |
| Tokens.RenderInjective | token.cpp:119-128 | two payload-free tokens with the same rendering are equal |
| Strings.IsDigit | scanner.cpp:117-120 | `is_digit`: an ASCII decimal digit |
| Strings.IsAlpha | scanner.cpp:122-127 | `is_alpha`: an ASCII letter or underscore |
| Strings.IsAlphanumeric | scanner.cpp:129-132 | `is_alphanumeric`: a digit, a letter or an underscore |
| Strings.SkipWhile | scanner.cpp:149-152 | an "advance while" loop stays between its start and the end of the source |
| Strings.SkipWhileStops | scanner.cpp:182-185 | the loop passes only characters of its class and stops at the end or at the first other character |
| Strings.SkipWhileUnique | scanner.cpp:167-170 | the stopping position is the only one with those two properties |
| Strings.NatToString | token.cpp:124 | `std::to_string` of a line number is a non-empty digit string without a leading zero |
| Strings.ParseNatToString | token.cpp:124 | reading the rendered line number back gives the line number |
| ScanSpec.PunctuationBijection | scanner.cpp:261-290 | the ten punctuation characters and the single-character kinds other than SLASH correspond one to one |
| ScanSpec.OperatorBijection | scanner.cpp:295-314 | (first character, whether `=` follows) and the eight operator kinds correspond one to one; each kind's spelling is exactly the characters read |
| ScanSpec.ScanOne | scanner.cpp:250-395 | each `scan_token` consumes at least one character, counts every newline it consumes, yields at most one of a token and a diagnostic, and any token is spelled by the consumed slice, is not EOF and has a payload that fits its kind |
| ScanSpec.StringLiteral | scanner.cpp:74-115 | `string` consumes at least the quote, counts the newlines, tags an unterminated-string diagnostic with the current line and emits no token with it |
| ScanSpec.NumberEnd | scanner.cpp:144-171 | a number ends after its first digit, within the source, and never spans a newline |
| ScanSpec.NumberLiteral | scanner.cpp:144-175 | `number` emits one NUMBER token spelled by the consumed slice, with its payload, and leaves the line unchanged |
| ScanSpec.IdentifierOrKeyword | scanner.cpp:180-221 | `identifier` emits one IDENTIFIER or keyword token, spelled by the consumed slice, with no payload, and leaves the line unchanged |
| ScanSpec.KeywordKinds | scanner.cpp:195-211 | no reserved word maps to IDENTIFIER, STRING, NUMBER or EOF |
| ScanSpec.KeywordTable | scanner.cpp:195-211 | the keyword table holds exactly the sixteen keyword kinds, each under one spelling |
| ScanSpec.LexFrom | scanner.cpp:400-406 | the scan loop has one span per token and ends with the line counter advanced by every newline of the rest of the source |
| ScanSpec.ScanEndsWithEof | scanner.cpp:400-413 | every scan ends with the EOF token, with an empty lexeme and the final line (1 plus the number of newlines) |
| ScanSpec.ScanSingleEof | scanner.cpp:400-413 | no token before the sentinel is EOF |
| ScanSpec.LexKinds | scanner.cpp:250-395 | no scanned token is EOF, and every payload fits its kind |
| ScanSpec.LexemeFidelity | scanner.cpp:226-245 | every token's lexeme is exactly the source slice its step consumed; the slices are in order and do not overlap |
| ScanSpec.LexLines | scanner.cpp:226-245 | a token's line is the starting line plus every newline consumed up to the end of its lexeme |
| ScanSpec.NonStringStepLine | scanner.cpp:250-395 | a step that emits a token other than STRING leaves the line counter unchanged |
| ScanSpec.LexLinesBefore | scanner.cpp:226-232 | a token other than STRING is at the starting line plus the newlines before its first character |
| ScanSpec.Scan | scanner.cpp:400-413 | a fresh scan: the tokens of every step, then the EOF sentinel at the final line; the diagnostics; the error flag set exactly when a diagnostic exists (its properties are in ScanEndsWithEof, ScanSingleEof, LexemeFidelity, LexLines) |
| ScanSpec.PeekAt | scanner.cpp:31-34 | `peek`: the character under the cursor, NUL at the end |
| ScanSpec.PeekNextAt | scanner.cpp:43-46 | `peek_next`: the character after the cursor, NUL when fewer than two characters remain |
| ScanSpec.MatchAt | scanner.cpp:51-68 | the test of `match`: a character remains and it equals `m` |
| ScanProperties.OperatorStep | scanner.cpp:295-314 | maximal munch: `!= == <= >=` are one two-character token, the other operators one one-character token, spelled exactly as the kind |
| ScanProperties.CommentStep | scanner.cpp:319-329 | `//` consumes up to but not including the next newline or the end, and emits nothing |
| ScanProperties.SlashStep | scanner.cpp:330-337 | a lone `/` is the SLASH token |
| ScanProperties.BlankStep | scanner.cpp:342-352 | space, CR and tab emit nothing; a newline emits nothing and adds exactly one line |
| ScanProperties.UnexpectedStep | scanner.cpp:379-393 | any unrecognised character gives a diagnostic at the current line, no token, and scanning resumes at the next character |
| ScanProperties.StringStep | scanner.cpp:74-115 | a closed string is one STRING token: lexeme with both quotes, payload strictly between them, line after its newlines |
| ScanProperties.UnterminatedStep | scanner.cpp:94-102 | an unclosed string leaves the cursor at the end, emits no token and reports its opening line |
| ScanProperties.UnterminatedEndsScan | scanner.cpp:85-102 | an unterminated string ends the scan: no later token, and its diagnostic is the last one |
| ScanProperties.NumberStep | scanner.cpp:144-175 | a number is the digits, plus `.` and more digits only when a digit follows the `.`; its payload is its own text |
| ScanProperties.IdentifierStep | scanner.cpp:180-221 | an identifier is the maximal run of letters, digits and `_`; it is a keyword exactly when the run is a reserved word |
| ScanProperties.TrailingDotStep | scanner.h:65-74 | "1223." is not one number: the number stops before the `.`, which is then a DOT token |
| ScanProperties.PunctuationStep | scanner.cpp:261-290 | punctuation characters are one-character tokens whatever follows, so ".23" starts with a DOT |
| ScanProperties.WholeWord | scanner.cpp:180-221 | a source that is one identifier-shaped word scans as one token spelled by the whole word, of the keyword kind exactly when the word is in the table |
| ScanProperties.KeywordExample | scanner.cpp:195-220 | scanning "print" gives one PRINT token, and scanning "printx" gives one IDENTIFIER token spelled "printx" |
| ScanProperties.ScannedTokensRender | token.cpp:127-141 | every token a scan produces renders: its payload always has the type its kind calls for |
| Scanning.Scanner.constructor | scanner.h:106-116 | a fresh scanner has line 1, both cursors at 0, no tokens and no error |
| Scanning.Scanner.Error | scanner.cpp:5-10 | `error()` sets the flag and records a diagnostic at the current line |
| Scanning.Scanner.IsAtEnd | scanner.cpp:15-18 | `is_at_end`: the cursor has reached the end of the source |
| Scanning.Scanner.Peek | scanner.cpp:31-34 | `peek` on the scanner's cursor, as PeekAt |
| Scanning.Scanner.PeekNext | scanner.cpp:43-46 | `peek_next` on the scanner's cursor, as PeekNextAt |
| Scanning.Scanner.Advance | scanner.cpp:23-26 | `advance` returns the character under the cursor and moves the cursor by one |
| Scanning.Scanner.Match | scanner.cpp:51-68 | `match` consumes and answers true exactly when a character remains and it equals `m`; otherwise the cursor does not move |
| Scanning.Scanner.AddToken | scanner.cpp:226-232 | appends a payload-free token spelled by `code[start..current]` at the current line |
| Scanning.Scanner.AddValueToken | scanner.cpp:237-245 | appends a token with its payload, spelled by `code[start..current]` at the current line |
| Scanning.Scanner.AdvanceToQuote | scanner.cpp:85-92 | the string loop stops at the next quote or the end and counts every newline it passes |
| Scanning.Scanner.ScanString | scanner.cpp:74-115 | `string` changes the scanner exactly as StringLiteral says |
| Scanning.Scanner.AdvanceWhile | scanner.cpp:149-152 | the digit, identifier and comment loops stop where SkipWhile says |
| Scanning.Scanner.AdvanceNumber | scanner.cpp:144-171 | the cursor moves of `number` end where NumberEnd says |
| Scanning.Scanner.ScanNumber | scanner.cpp:144-175 | `number` changes the scanner exactly as NumberLiteral says |
| Scanning.Scanner.ScanIdentifier | scanner.cpp:180-221 | `identifier` changes the scanner exactly as IdentifierOrKeyword says |
| Scanning.Scanner.ScanSymbol | scanner.cpp:261-337 | the punctuation, operator and slash branches change the scanner exactly as ScanOne says |
| Scanning.Scanner.ScanToken | scanner.cpp:250-395 | `scan_token` changes the scanner exactly as ScanOne says and keeps the cursor invariant and the error flag |
| Scanning.Scanner.ScanTokens | scanner.cpp:400-413 | `scan_tokens` ends at the end of the source with the tokens of LexFrom plus the EOF sentinel at the final line, and returns them |
| Scanning.Tokenize | scanner.cpp:400-413 | a fresh scanner's `scan_tokens` returns exactly Scan's tokens, and the error flag is set exactly when a diagnostic was reported |
| Legacy.LegacyToken.Render | main.cpp:173-177 | the older `Token::str`: "Token (KIND, line, 'lexeme')" with no payload |
| Legacy.LegacyRenderRoundTrip | main.cpp:173-177 | the older `Token::str` "Token (KIND, line, 'lexeme')" reads back to the same token |
| Legacy.LegacyRenderInjective | main.cpp:173-177 | distinct older tokens render differently |
| Legacy.LegacyScanOne | main.cpp:269-361 | each older `scan_token` consumes at least one character, and any token it makes is spelled by the consumed slice at the unchanged line and is not EOF |
| Legacy.LegacyAgrees | main.cpp:280-356 | on punctuation, `! = < >` and `/` the older scanner takes the same step as the current one |
| Legacy.LegacyRejects | main.cpp:358-360 | every other character, including blanks, newlines, quotes, digits and letters, is an unexpected character with no token |
| Legacy.LegacyCommentThenNewline | main.cpp:338-360 | `//` stops before the newline, which is then reported as unexpected |
| Legacy.LegacyLexTokens | main.cpp:366-372 | every token of the older loop is at the unchanged line and is not EOF |
| Legacy.LegacyLexFrom | main.cpp:366-372 | the loop of the older `scan_tokens`: one step after another at the unchanged line |
| Legacy.LegacyScan | main.cpp:366-379 | a fresh older scan: the tokens of every step, then the EOF sentinel at line 1, and the error flag |
| Legacy.LegacyScanFacts | main.cpp:366-379 | an older scan ends with exactly one EOF token with an empty lexeme, and every token is at line 1 |
| Legacy.LegacyScanner.constructor | main.cpp:381-391 | a fresh older scanner has line 1, both cursors at 0, no tokens and no error |
| Legacy.LegacyScanner.Error | main.cpp:201-206 | `error()` sets the flag and records a diagnostic at line `m_line` |
| Legacy.LegacyScanner.IsAtEnd | main.cpp:211-214 | `is_at_end`: the cursor has reached the end of the source |
| Legacy.LegacyScanner.Peek | main.cpp:227-230 | `peek` on the scanner's cursor, as PeekAt |
| Legacy.LegacyScanner.Advance | main.cpp:219-222 | `advance` returns the character under the cursor and moves the cursor by one |
| Legacy.LegacyScanner.Match | main.cpp:235-252 | `match` consumes and answers true exactly when a character remains and it equals `m` |
| Legacy.LegacyScanner.AddToken | main.cpp:258-264 | appends the token spelled by `code[start..current]` at the current line |
| Legacy.LegacyScanner.SkipComment | main.cpp:342-348 | the comment loop stops at the next newline or the end |
| Legacy.LegacyScanner.ScanToken | main.cpp:269-361 | the older `scan_token` changes the scanner exactly as LegacyScanOne says and never touches the line |
| Legacy.LegacyScanner.ScanTokens | main.cpp:366-379 | the older `scan_tokens` ends at the end of the source with the tokens of LegacyLexFrom plus the EOF sentinel |
| Legacy.LegacyTokenize | main.cpp:366-379 | a fresh older scanner returns exactly LegacyScan's tokens and error flag |

## Left out

- The source scans C++ `char` values, that is bytes. Here each byte is one Dafny `char` of the source string. A multi-byte UTF-8 character is several bytes, so the source reports one "Unexpected Character" per byte; the model sees only the bytes it is given.
- `run`, `run_prompt`, `run_file` and `main` (`main.cpp:395-457`) are not modelled: they read files and stdin and print to stdout.
- The text written to `std::cerr` by `error()` (`scanner.cpp:5-10`, `main.cpp:201-206`) is not modelled. A diagnostic record takes its place: the line and the problem.
- `std::atof` (`scanner.cpp:173`) and `std::to_string(double)` (`token.cpp:136`) are floating point. They are not modelled.
- ScanSpec.NumberLiteral: the payload is the digit text the source converts with `std::atof`, not the double.
- Tokens.Token.Render: the rendering of a number payload is the parameter `showNumber`, not `std::to_string(double)`. When an `std::any_cast` would throw, Render answers `None` instead of raising an exception.
- `std::any` (`token.h:99`) is replaced by the closed datatype `Value`. Only `double` and `std::string` payloads are ever stored (`token.cpp:152-153`).
- `operator<<` (`token.cpp:147-150`, `main.cpp:184-187`) is not modelled: it is stream glue around `Token::str`.
- The keyword table is a constant map. The thread-safe initialisation of the function-local static (`scanner.cpp:195`) is not modelled.
- `m_line`, `m_start` and `m_current` are `int` in the source and `nat` here. Overflow on sources of 2^31 characters or lines is not modelled.
- The older `TokenType` and `to_string` (`main.cpp:12-160`) are the same enumeration and mapping as `token.h` and `token.cpp`. The older module reuses `Tokens.TokenType` and `Tokens.KindName` instead of declaring them again.
- The `switch` of `scan_token` is grouped by `ScanSpec.CaseOf` into eight branches. Inside each branch the kind is chosen per character, as in the source.
- Whole-input examples such as "1223." and ".23" are not stated on concrete strings. They are stated for every source: TrailingDotStep and PunctuationStep describe the steps such input takes.
