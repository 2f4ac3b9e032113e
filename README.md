# Lox front end: scanner, expression parser and error reporting

This project models the front end of a Lox interpreter written in TypeScript, and proves properties of the model. There are three parts:

- **The scanner** (`src/lexer/scanner.ts`) makes one left-to-right pass over the source text. It pushes a token per lexeme and ends the list with an EOF token.
- **The expression parser** (`src/parser/parser.ts`, over the tree of `src/parser/ast.ts`) is a recursive-descent parser with one rule per precedence level: equality, comparison, addition, multiplication, unary, primary.
- **The reporter** (`Lox.error`, `errorFrom`, `report` and the `hadError` flag of `src/lox.ts`) is the error path both stages share.

The model keeps the form of the source:

- `Lexer.Scanner` and `Parsing.Parser` are classes. They have the source's fields and one method per source method. Their loops keep the source's form, with invariants: `while` loops, and a `for` loop over the kinds in `Parsing.Parser.Match`, as the source's `for…of`.
- The expression tree is the datatype `Ast.Expr`. Its twelve variants are the twelve node classes, and its fields are immutable like the `readonly` fields of the source.
- The reporter is the class `Diagnostics.Lox`. It appends each report to a log, `reports`.

Each imperative method is proved against a pure reference definition:

- `ScanSpec.ScanStep` and `ScanSpec.ScanLoop` define the scan.
- `Grammar.LevelAt`, `FoldAt`, `UnaryAt` and `PrimaryAt` define the parse.

The properties are then proved about those definitions:

- `ScanProps` covers the scanner:
  - greedy operators;
  - maximal numbers and identifiers;
  - strings and comments;
  - line counting;
  - lexemes in source order;
  - one trailing EOF;
  - the single "Unterminated string." error.
- `GrammarProps` covers the parser:
  - precedence and left associativity, through the `Shaped` predicate;
  - `unary` does not nest;
  - no rule reads past the first EOF.
- `ScanRescan` shows that each token is decided by its own lexeme: scanning the lexeme alone gives back the same token, line count and error.
- `GrammarYield` shows that the parser drops, repeats and reorders nothing: read from left to right, a returned tree gives back exactly the tokens it consumed.
- `FrontEnd` chains the two stages: the scanner's output meets what the parser relies on.
- `Examples` gives worked inputs, including the scanner test's `while(x > 2) { x = x / 2; }` and the parser test's `1 + 2 * 3 + (1 / 2)`.

The quirks of the code are modelled as written:

- A lone `!` scans as EQUAL.
- An unterminated string still yields a STRING token, and the cursor stops one past the end.
- `unary` takes at most one operator, so `--1` fails with "Expect expression.".
- Tokens after a complete expression are left unread.

`src/lexer/token.ts` is not part of this model. `Tokens.TokenType` and `Tokens.Token` are defined here from the way the scanner and parser use them.

## Model

| member | source | states |
|---|---|---|
| Ast.Children | src/parser/ast.ts:22-141 | the sub-expressions a node holds in its `Expr` fields are each a strictly smaller tree, so no node contains itself; exactly `Literal`, `Super`, `This` and `Variable` hold none |
| Ast.LogicalIsNotBinary | src/parser/ast.ts:36-40 | `Logical` holds exactly `Binary`'s fields yet is a distinct variant |
| Diagnostics.Decimal | src/lox.ts:19 | the printed line number is a non-empty run of decimal digits with no leading zero unless it is 0 |
| Diagnostics.DecimalRoundTrip | src/lox.ts:19 | reading the printed digits back gives the line number |
| Diagnostics.Where | src/lox.ts:10-15 | the location phrase is " at end" exactly when the token is EOF, and " at '<lexeme>'" for any other token |
| Diagnostics.AtToken | src/lox.ts:10-16 | the report `errorFrom` makes for a token: the token's line, its location phrase and the message |
| Diagnostics.ReportText | src/lox.ts:18-19 | the report line is `[line `, the line's digits, `] Error `, the location phrase, `: ` and the message, in that order and nothing else |
| Diagnostics.Text | src/lox.ts:19 | the console line `report` writes for one report |
| Diagnostics.Lox.constructor | src/lox.ts:4 | the flag starts false and the log empty |
| Diagnostics.Lox.Error | src/lox.ts:6-8 | appends exactly one report with an empty location phrase and sets the flag |
| Diagnostics.Lox.ErrorFrom | src/lox.ts:10-16 | appends exactly one report at the token's line with its location phrase, and sets the flag |
| Diagnostics.Lox.Report | src/lox.ts:18-21 | appends exactly the one report and sets the flag; the invariant (flag iff log non-empty), with the log only ever appended to, means the flag never goes back to false |
| Chars.IsDigit | src/lexer/scanner.ts:155-157 | `isDigit` on one character: not whitespace and read by `Number` as a number, which leaves exactly `0`–`9` |
| Chars.IsAlpha | src/lexer/scanner.ts:151-153 | `isAlpha`: an ASCII letter or `_` |
| Chars.IsAlphaNumeric | src/lexer/scanner.ts:159-161 | `isAlphaNumeric`: a digit or an `isAlpha` character |
| ScanSpec.TypeMap | src/lexer/scanner.ts:38-64 | the character table: ten one-kind punctuation entries, the four operators with their `=` forms (a lone `!` giving EQUAL), and the string, newline and slash entries |
| ScanSpec.TableDisjoint | src/lexer/scanner.ts:85-95 | no entry of the table is for a digit, a letter, `_`, `\r` or `\t`, so the order of `scanToken`'s branches does not matter; each operator entry's two kinds differ |
| ScanSpec.Emit | src/lexer/scanner.ts:163-166 | the reference `addToken`: one token whose lexeme is the text from start to cursor, on the current line |
| ScanSpec.Operator | src/lexer/scanner.ts:49-60 | an operator entry takes the following `=` exactly when there is one, and pushes one token whose lexeme is the one or two characters taken, with no report |
| ScanSpec.StringStep | src/lexer/scanner.ts:112-127 | the reference `string()`: one STRING token, the cursor past the opening quote and at most one past the end, and a report exactly when the cursor passes the end |
| ScanSpec.KeywordKind | src/lexer/scanner.ts:6-23 | the kind is a reserved word's own kind exactly when the text is one of the sixteen reserved words, IDENTIFIER otherwise, never EOF |
| ScanSpec.RunEnd | src/lexer/scanner.ts:104 | a character-class run from i ends within the source, at or after i |
| ScanSpec.RunEndMaximal | src/lexer/scanner.ts:113-116 | every character of the run is in the class and the character after it, if any, is not |
| ScanSpec.NumberEnd | src/lexer/scanner.ts:129-135 | a number's end lies within the source, at or after its first digit |
| ScanSpec.ScanStep | src/lexer/scanner.ts:83-97 | each token attempt moves the cursor forward by at least one, and at most to one past the end |
| ScanSpec.TableStep | src/lexer/scanner.ts:38-64 | each entry of the character table, and a character without one, moves the cursor forward, at most to one past the end |
| ScanSpec.ScanLoop | src/lexer/scanner.ts:73-77 | the reference `while (!isEnd)` loop: one step at a time from the cursor, appending each step's tokens and reports, until the cursor reaches or passes the end |
| ScanSpec.Scan | src/lexer/scanner.ts:73-80 | `scanTokens` on a fresh scanner: the loop from cursor 0 on line 1, then the EOF token on the final line |
| ScanSpec.ScanLoopAppends | src/lexer/scanner.ts:74-77 | what the loop pushes and reports is appended to the tokens and reports that were there before |
| ScanProps.NumberStep | src/lexer/scanner.ts:129-141 | a NUMBER token's lexeme is a maximal digit run, with a dot and a second run only when a digit follows the dot; a trailing dot is left for the next step |
| ScanProps.IdentifierStep | src/lexer/scanner.ts:103-110 | an identifier is a maximal run of letters, digits and `_`, of its reserved word's kind or IDENTIFIER |
| ScanProps.OperatorStep | src/lexer/scanner.ts:49-60 | `!`, `=`, `<`, `>` take a following `=` whenever it is there, giving the table's two-character kind, and otherwise their one-character kind, which is EQUAL for a lone `!` |
| ScanProps.SilentStep | src/lexer/scanner.ts:90-95 | a character outside the table, `\r`, `\t` or `\n` is consumed with no token and no error; the line grows by one exactly at `\n` |
| ScanProps.WhitespaceSilent | src/lexer/scanner.ts:88-95 | space, `\r`, `\t` and `\n` are among those characters |
| ScanProps.CommentStep | src/lexer/scanner.ts:143-146 | `//` skips up to, not including, the next newline or the end, with no token |
| ScanProps.SlashStep | src/lexer/scanner.ts:143-148 | a `/` not followed by another is one SLASH token |
| ScanProps.StringStepShape | src/lexer/scanner.ts:112-127 | a terminated string's literal is the text strictly between the quotes; an unterminated one reports "Unterminated string." once, still yields a STRING token with the rest of the input, and leaves the cursor one past the end; the line counts every newline inside |
| ScanProps.ClosedString | src/lexer/scanner.ts:119-126 | with a closing quote: the token spans both quotes and nothing is reported |
| ScanProps.UnclosedString | src/lexer/scanner.ts:119-126 | without one: the token holds the rest of the input and exactly one error is reported |
| ScanProps.StepFacts | src/lexer/scanner.ts:83-97 | every step: the line grows by the newlines passed; at most one token, whose lexeme is the consumed text and which is not EOF; an error exactly when the cursor passes the end |
| ScanProps.LoopLine | src/lexer/scanner.ts:74-77 | the final line is the starting line plus every newline from the cursor on |
| ScanProps.LoopErrors | src/lexer/scanner.ts:74-77 | the pass ends at the end of the source with nothing reported, or one past it with exactly one "Unterminated string." |
| ScanProps.Lexemes | src/lexer/scanner.ts:163-166 | each pushed token's lexeme is the source text of its range, the ranges are in source order without overlap, and each token carries the line reached at its range's end |
| ScanProps.ScanResult | src/lexer/scanner.ts:73-80 | the result ends with the only EOF token (empty lexeme, null literal, final line count), and the other tokens line up with their source ranges |
| Lexer.Slice | src/lexer/scanner.ts:106 | `slice` clamps the end to the length of the string |
| Lexer.Scanner.constructor | src/lexer/scanner.ts:32-37 | line 1, cursor and start at 0, no tokens |
| Lexer.Scanner.ScanTokens | src/lexer/scanner.ts:73-81 | the loop runs the reference pass from the current state, then pushes the EOF token on the final line and returns the list |
| Lexer.Scanner.ScanToken | src/lexer/scanner.ts:83-97 | one call has exactly the effect of one reference step: cursor, line, tokens and reports |
| Lexer.Scanner.Tokenize | src/lexer/scanner.ts:90-95 | looking up the character table has exactly the effect of the table's entry for it, and none for a character without one |
| Lexer.Scanner.AddOperator | src/lexer/scanner.ts:49-60 | an operator entry pushes the two-character kind when `=` follows (consuming it) and the one-character kind otherwise |
| Lexer.Scanner.NewLine | src/lexer/scanner.ts:99-101 | the line counter grows by one |
| Lexer.Scanner.Identifier | src/lexer/scanner.ts:103-110 | consumes the rest of the identifier run and pushes one token of its reserved word's kind or IDENTIFIER |
| Lexer.Scanner.String | src/lexer/scanner.ts:112-127 | has exactly the effect of the reference string step |
| Lexer.Scanner.CloseString | src/lexer/scanner.ts:118-127 | at the closing quote or the end: reports once when at the end, steps over, and pushes the STRING token |
| Lexer.Scanner.StringContents | src/lexer/scanner.ts:113-116 | stops at the first quote or the end, counting the newlines passed |
| Lexer.Scanner.Number | src/lexer/scanner.ts:129-141 | consumes exactly up to the reference number end and pushes one NUMBER token whose literal is its text |
| Lexer.Scanner.SkipDigits | src/lexer/scanner.ts:130 | stops at the end of the digit run |
| Lexer.Scanner.SurmiseSlash | src/lexer/scanner.ts:143-149 | after `/`: a second `/` skips to the newline with no token; otherwise one SLASH token |
| Lexer.Scanner.AddToken | src/lexer/scanner.ts:163-166 | pushes one token whose lexeme is the clamped slice from start to cursor, on the current line |
| Lexer.Scanner.Match | src/lexer/scanner.ts:168-174 | consumes the next character exactly when it is the expected one |
| Lexer.Scanner.Advance | src/lexer/scanner.ts:176-179 | the cursor moves by one; the character passed, or none past the end |
| Lexer.Scanner.Peek | src/lexer/scanner.ts:181-184 | `peek`: the character at the cursor, or NUL at the end |
| Lexer.Scanner.PeekNext | src/lexer/scanner.ts:186-189 | `peekNext`: the character after the cursor, or NUL when there is none |
| Lexer.Scanner.IsEnd | src/lexer/scanner.ts:191-193 | `isEnd`: the cursor is at or past the end of the source |
| Lexer.ScanSource | src/lexer/scanner.ts:73-80 | a fresh scanner returns the reference scan and appends its errors to the log |
| Grammar.OpsMatch | src/parser/parser.ts:112-121 | `match` on a level's operator list succeeds exactly at that level's operators, never at EOF |
| Grammar.CheckAt | src/parser/parser.ts:134-137 | the reference `check`: false at EOF, otherwise whether the token has the kind |
| Grammar.MatchAt | src/parser/parser.ts:112-121 | the reference `match`: it succeeds exactly when `check` holds for one of the kinds |
| Grammar.MatchOne | src/parser/parser.ts:112-121 | `match` on one kind is `check` on it |
| Grammar.MatchTwo | src/parser/parser.ts:112-121 | `match` on two kinds is `check` on either |
| Grammar.LevelAt | src/parser/parser.ts:24-81 | a binary level's result stays on the token list, and a success consumes at least one token |
| Grammar.FoldAt | src/parser/parser.ts:27-34 | a level's loop never moves back and stays on the token list |
| Grammar.UnaryAt | src/parser/parser.ts:83-92 | `unary`'s result stays on the token list, and a success consumes at least one token |
| Grammar.LiteralAt | src/parser/parser.ts:95-101 | the literal branches of `primary`: the literal of a `nil`, `true`, `false`, string or number token |
| Grammar.LiteralCases | src/parser/parser.ts:95-109 | the literal branches give a Literal exactly at the kinds a primary starts with other than `(` |
| Grammar.PrimaryAt | src/parser/parser.ts:94-110 | `primary`'s result stays on the token list, and a success consumes at least one token |
| Grammar.PrimaryCases | src/parser/parser.ts:94-110 | a primary is a literal of one `nil`/`true`/`false`/string/number token or a group from `(` to `)`; it fails on its own first token, with "Expect expression.", exactly when no primary starts there |
| Grammar.OperandAt | src/parser/parser.ts:25 | a level's operand stays on the list and a success consumes at least one token |
| Grammar.Parse | src/parser/parser.ts:12-22 | `parser()` from the first token stays on the token list |
| GrammarProps.OpLevel | src/parser/parser.ts:27 | the level a kind is an operator of, if any |
| GrammarProps.OperatorLevel | src/parser/parser.ts:40-47 | no kind is an operator of two levels |
| GrammarProps.LevelShaped | src/parser/parser.ts:24-81 | every tree a binary level returns is shaped: tighter operators sit deeper, equal ones associate to the left, and each Binary's operator belongs to its level |
| GrammarProps.OperandShaped | src/parser/parser.ts:25 | a level's operand has the shape of the next tighter level |
| GrammarProps.FoldShaped | src/parser/parser.ts:27-34 | the loop keeps the tree shaped |
| GrammarProps.UnaryShaped | src/parser/parser.ts:83-92 | `unary` returns a primary or one operator applied to a primary |
| GrammarProps.PrimaryShaped | src/parser/parser.ts:94-107 | `primary` returns a literal or a group of a shaped expression |
| GrammarProps.ParseShaped | src/parser/parser.ts:12-22 | a successful parse is built only from Literal, Grouping, Unary and Binary, with precedence and left associativity |
| GrammarProps.UnaryDoesNotNest | src/parser/parser.ts:83-92 | a second `-` or `!` right after the first fails with "Expect expression." at the second |
| GrammarProps.LevelBeforeEof | src/parser/parser.ts:123-126 | a binary level's result lies at or before the first EOF from where it started |
| GrammarProps.OperandBeforeEof | src/parser/parser.ts:134-137 | so does its operand's |
| GrammarProps.FoldBeforeEof | src/parser/parser.ts:27-34 | so does the loop's |
| GrammarProps.UnaryBeforeEof | src/parser/parser.ts:83-92 | so does `unary`'s |
| GrammarProps.PrimaryBeforeEof | src/parser/parser.ts:94-110 | so does `primary`'s |
| GrammarProps.ParseBeforeEof | src/parser/parser.ts:147-149 | a successful parse consumes no EOF token, and a failure is reported at or before the first EOF |
| ScanRescan.RescanLexeme | src/lexer/scanner.ts:83-97 | scanning the lexeme of any token a step pushes, on its own from the same line, pushes that same token again, with the same line count and the same report, if any |
| ScanRescan.RescanNumber | src/lexer/scanner.ts:129-141 | a NUMBER lexeme scanned alone is read whole, as the same token, and nothing is reported |
| ScanRescan.RescanWord | src/lexer/scanner.ts:103-110 | an identifier or reserved-word lexeme scanned alone is read whole, as the same token |
| ScanRescan.RescanString | src/lexer/scanner.ts:112-127 | a STRING lexeme scanned alone gives the same token, the same line count and the same "Unterminated string." report when the original had one |
| ScanRescan.RescanTable | src/lexer/scanner.ts:38-64 | a one- or two-character table token scanned alone is read whole, as the same token |
| GrammarYield.LevelYield | src/parser/parser.ts:24-81 | read from left to right, the tree a binary level returns gives back exactly the tokens from where it started to where it stopped |
| GrammarYield.OperandYield | src/parser/parser.ts:25 | so does a level's operand |
| GrammarYield.FoldYield | src/parser/parser.ts:27-34 | each round of a level's loop extends the reading by the operator token and the operand's tokens, in order |
| GrammarYield.BinaryYield | src/parser/parser.ts:30-32 | a Binary node reads as its left operand's tokens, its operator token, then its right operand's tokens |
| GrammarYield.UnaryYield | src/parser/parser.ts:83-92 | so does `unary`'s tree, its operator token included |
| GrammarYield.PrimaryYield | src/parser/parser.ts:94-110 | so does `primary`'s tree: a literal reads as its one token, a group as its parentheses around its inner tokens |
| GrammarYield.ParseYield | src/parser/parser.ts:12-22 | a successful `parser()` returns a tree that, read from left to right, is exactly the tokens it consumed: nothing dropped, repeated or reordered, and the parentheses are exactly the groups |
| FrontEnd.ScanThenParse | src/lexer/scanner.ts:79 | every scan ends with its only EOF token, so the parser may run on it, and the parse stays before that EOF |
| Parsing.Parser.constructor | src/parser/parser.ts:8-10 | the cursor starts at the first token |
| Parsing.Parser.Parse | src/parser/parser.ts:12-18 | returns the reference parse's tree, or None with exactly one report at the failing token; the cursor ends where the reference says |
| Parsing.Parser.Expression | src/parser/parser.ts:20-22 | agrees with the reference equality level |
| Parsing.Parser.Equality | src/parser/parser.ts:24-35 | agrees with the reference equality level: tree, cursor and reports |
| Parsing.Parser.EqualityRound | src/parser/parser.ts:28-31 | one loop round keeps the reference fold's result and moves past the operand |
| Parsing.Parser.Comparison | src/parser/parser.ts:37-55 | agrees with the reference comparison level |
| Parsing.Parser.ComparisonRound | src/parser/parser.ts:48-51 | one loop round keeps the reference fold's result |
| Parsing.Parser.Addition | src/parser/parser.ts:57-68 | agrees with the reference addition level |
| Parsing.Parser.AdditionRound | src/parser/parser.ts:61-64 | one loop round keeps the reference fold's result |
| Parsing.Parser.Multiplication | src/parser/parser.ts:70-81 | agrees with the reference multiplication level |
| Parsing.Parser.MultiplicationRound | src/parser/parser.ts:74-77 | one loop round keeps the reference fold's result |
| Parsing.Parser.Unary | src/parser/parser.ts:83-92 | agrees with the reference `unary` |
| Parsing.Parser.Primary | src/parser/parser.ts:94-110 | agrees with the reference `primary`, reporting "Expect expression." at the current token |
| Parsing.Parser.Literal | src/parser/parser.ts:95-101 | the literal branches: consumes the token exactly when it gives its literal |
| Parsing.Parser.Group | src/parser/parser.ts:103-107 | the parenthesized branch agrees with the reference group |
| Parsing.Parser.Match | src/parser/parser.ts:112-121 | consumes exactly one token when the current token has one of the kinds, and none otherwise |
| Parsing.Parser.Advance | src/parser/parser.ts:123-126 | moves on exactly when not at EOF, so EOF is never consumed |
| Parsing.Parser.Consume | src/parser/parser.ts:128-132 | consumes and returns the expected token, or reports the message at the current token without moving |
| Parsing.Parser.Check | src/parser/parser.ts:134-137 | false at EOF, otherwise whether the current token has the kind |
| Parsing.Parser.Peek | src/parser/parser.ts:139-141 | `peek`: the token at the cursor |
| Parsing.Parser.Previous | src/parser/parser.ts:143-145 | `previous`: the token before the cursor |
| Parsing.Parser.IsEnd | src/parser/parser.ts:147-149 | `isEnd`: the token at the cursor is EOF |
| Parsing.Parser.Error | src/parser/parser.ts:151-154 | reports through `errorFrom` at the token |
| Examples.EmptySource | src/lexer/scanner.ts:73-80 | the empty source scans to the EOF token alone, on line 1 |
| Examples.ScanArithmetic | src/lexer/scanner.ts:129-141 | `1+2*3` scans to five tokens and EOF |
| Examples.ScanBang | src/lexer/scanner.ts:49-50 | `!` scans as EQUAL and `!=` as BANG_EQUAL |
| Examples.ScanUnterminated | src/lexer/scanner.ts:119-126 | `"ab` reports once, yields STRING `ab`, and ends with the cursor at 4 |
| Examples.ScanWhile | __tests__/scanner.spec.ts:6-27 | the scanner test's 27 characters scan with no report to WHILE, LEFT_PAREN, IDENTIFIER, GREATER, NUMBER, RIGHT_PAREN, LEFT_BRACE, IDENTIFIER, EQUAL, IDENTIFIER, SLASH, NUMBER, SEMICOLON, RIGHT_BRACE and EOF, each with its lexeme, on line 1 |
| Examples.ScanWhileSource | __tests__/scanner.spec.ts:6-27 | the same for the test's own string |
| Examples.ParsePrecedence | __tests__/parser.spec.ts:7-19 | `1 + 2 * 3 + (1 / 2)` parses to `((1 + (2 * 3)) + (1 / 2))` with the group as one operand |
| Examples.ParseDoubleMinus | src/parser/parser.ts:84-86 | `--1` fails at the second `-` with "Expect expression." |
| Examples.DoubleMinusReport | src/lox.ts:13-15 | that error is reported as ` at '-'` on line 1 |
| Examples.ParseNothing | src/lox.ts:11-12 | a list with only EOF fails there, reported " at end" |
| Examples.ParseUnclosed | src/parser/parser.ts:105 | `(1` fails at EOF with "Expected ')' after expression." |
| Examples.ParseTrailing | src/parser/parser.ts:12-14 | `1 2` parses as `1` and leaves the `2` unread |

## Left out

- `Lox.main`, `run`, `runFile` and `runPrompt` are not modelled. They handle process arguments, files, stdin, console output and the process exit.
- `report` writes to the console. Here it appends a `Diagnostic` to `Lox.reports`; `Diagnostics.Text` gives the line it would print.
- `Lox` is a static class in the source. Here it is an object handed to the scanner and the parser.
- `Scanner.fromFile` is not modelled. It is a stub that returns an empty scanner.
- `accept` and the `Visitor` interface are not modelled. Every `accept` only throws "Method not implemented.".
- `Logical` extends `Binary` in the source. The subclass relation is not modelled; `Logical` is its own variant with the same fields.
- A NUMBER token's literal keeps its text (`Num(text)`). `Number(...)` would turn it into a double; floating point is not modelled.
- The regular expressions and `isNaN(Number(c))` tests become explicit character predicates. On one character, `isDigit` is exactly `0`–`9`.
- The `immutable` maps become the function `ScanSpec.TypeMap` and the map `ScanSpec.Keywords`.
- `src/lexer/token.ts` is not part of this model. The token's `type` field is called `kind`.
- ScanSpec.KeywordKind: `KEYWORDS.get(text) || TokenType.IDENTIFIER` is taken to be a lookup with IDENTIFIER as its default. That holds only if no reserved word's `TokenType` value is falsy (0 or the empty string); token.ts, where those values are given, is not part of this model.
- Dafny strings hold Unicode scalar values, while the source indexes UTF-16 code units. The tokens come out the same, but for characters outside the Basic Multilingual Plane (emoji, for instance) the cursor positions, the source ranges and the end position one past the end are counted differently.
- Some `Expr` fields are renamed because Dafny reserves their names or because two variants share a field name:
  - `object` becomes `obj`;
  - `method` becomes `methodName`;
  - the `value` of `Assign` and `Set` becomes `newValue`.
- The parser's thrown error becomes a `None` result that every rule hands back. `parser()`'s `catch` maps it to `None` in the same way.
- A source method whose body holds an inner loop or several branches is split into helper methods here, one per part. The behaviour is unchanged:
  - `Tokenize` and `AddOperator` are the character-table lookup of `scanToken`;
  - `StringContents` and `CloseString` are the two halves of `string`;
  - `SkipDigits` is a digit loop of `number`;
  - `Literal` and `Group` are branches of `primary`;
  - the `…Round` methods are the loop bodies of the binary levels.
- Parsing.Parser.constructor: requires the token list to end with EOF, which the scanner always gives (`FrontEnd.ScanThenParse`). This excludes two kinds of lists the source accepts:
  - A list with no EOF. The source parses it like any other list until a rule reads past its last token. That read throws a JavaScript TypeError, `parser()`'s `catch` (src/parser/parser.ts:13-17) turns it into null, and no report is made for that read.
  - A list with an EOF before its last token, such as NUMBER, EOF, NUMBER. `advance`, `check` and `isEnd` never pass the first EOF, so the source parses such a list up to that EOF (here to the literal 1).
- Parsing.Parser.Advance: `previous` before the first token is `undefined` in JavaScript. Here it is `None`.
- Lexer.Scanner.Advance: past the end of the source, `advance` returns `undefined` in JavaScript. Here it returns `None`.
- The parse examples are stated for any token list of the given kinds, not for the scanner's output on the same text.
