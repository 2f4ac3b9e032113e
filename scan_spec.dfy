/** The scanner of src/lexer/scanner.ts as a function of the source text:
    one step per token attempt (`ScanStep`) and the whole left-to-right pass
    (`ScanLoop`, `Scan`). The imperative `Lexer.Scanner` is proved to compute
    exactly these values. */
module ScanSpec {
  import opened Tokens
  import opened Chars
  import opened Diagnostics

  /** The character classes the scanner's inner loops run over: digits,
      identifier characters, the body of a string (up to `"`) and of a
      comment (up to a newline). */
  datatype Run = Digits | Word | StringBody | CommentBody

  predicate InRun(run: Run, c: char) {
    match run
    case Digits => IsDigit(c)
    case Word => IsAlphaNumeric(c)
    case StringBody => c != '"'
    case CommentBody => c != '\n'
  }

  const UnterminatedString := "Unterminated string."

  /** The sixteen reserved words. */
  const Keywords: map<string, TokenType> := map[
    "and" := And, "class" := Class, "else" := Else, "false" := False,
    "for" := For, "fun" := Fun, "if" := If, "nil" := Nil,
    "or" := Or, "print" := Print, "return" := Return, "super" := Super,
    "this" := This, "true" := True, "var" := Var, "while" := While]

  /** The kind of an identifier-shaped lexeme: a reserved word's own kind
      exactly when the text is one of the sixteen, IDENTIFIER otherwise. */
  function KeywordKind(text: string): (k: TokenType)
    ensures k != Identifier <==> text in Keywords
    ensures k != Eof
  {
    if text in Keywords then Keywords[text] else Identifier
  }

  /** What an entry of the scanner's character table (`typeMap`) does:
      push a one-character token; push one of two tokens, the first when a
      `=` follows; or call `string()`, `newLine()` or `surmiseSlash()`. */
  datatype Entry =
    | Add(kind: TokenType)
    | AddEither(withEqual: TokenType, lone: TokenType)
    | StringEntry
    | NewLineEntry
    | SlashEntry

  /** The character table. A lone `!` yields EQUAL, as the source has it. */
  function TypeMap(c: char): Option<Entry> {
    match c
    case '(' => Some(Add(LeftParen))
    case ')' => Some(Add(RightParen))
    case '{' => Some(Add(LeftBrace))
    case '}' => Some(Add(RightBrace))
    case ',' => Some(Add(Comma))
    case '.' => Some(Add(Dot))
    case '-' => Some(Add(Minus))
    case '+' => Some(Add(Plus))
    case ';' => Some(Add(Semicolon))
    case '*' => Some(Add(Star))
    case '!' => Some(AddEither(BangEqual, Equal))
    case '=' => Some(AddEither(EqualEqual, Equal))
    case '<' => Some(AddEither(LessEqual, Less))
    case '>' => Some(AddEither(GreaterEqual, Greater))
    case '"' => Some(StringEntry)
    case '\n' => Some(NewLineEntry)
    case '/' => Some(SlashEntry)
    case _ => None
  }

  /** No entry of the table is for a digit, a letter, `_`, `\r` or `\t`,
      so the order in which `scanToken` tries the number, identifier, skip
      and table branches does not matter; an operator's two kinds differ. */
  lemma TableDisjoint(c: char)
    ensures var r := TypeMap(c);
      (r.Some? ==> !IsAlphaNumeric(c) && c != '\r' && c != '\t') &&
      (r.Some? && r.value.AddEither? ==> r.value.withEqual != r.value.lone)
  {
  }

  /** Where a run of characters of one class, starting at `i`, ends
      (`RunEndMaximal` proves the run maximal). */
  function RunEnd(s: string, i: nat, run: Run): (e: nat)
    requires i <= |s|
    ensures i <= e <= |s|
    decreases |s| - i
  {
    if i < |s| && InRun(run, s[i]) then RunEnd(s, i + 1, run) else i
  }

  /** Every character of s[i..RunEnd] is in the class and the next one, if
      any, is not. */
  lemma {:induction false} RunEndMaximal(s: string, i: nat, run: Run)
    requires i <= |s|
    ensures var e := RunEnd(s, i, run);
      (forall k :: i <= k < e ==> InRun(run, s[k])) && (e == |s| || !InRun(run, s[e]))
    decreases |s| - i
  {
    if i < |s| && InRun(run, s[i]) {
      RunEndMaximal(s, i + 1, run);
    }
  }

  /** Where a number whose first digit ends just before `i` ends: the digit
      run, then `.` and a second run only when a digit follows the dot. */
  function NumberEnd(s: string, i: nat): (e: nat)
    requires i <= |s|
    ensures i <= e <= |s|
  {
    var d := RunEnd(s, i, Digits);
    if d + 1 < |s| && s[d] == '.' && IsDigit(s[d + 1]) then RunEnd(s, d + 1, Digits) else d
  }

  /** The number of newlines in s[i..j]. */
  function NewlinesIn(s: string, i: nat, j: nat): nat
    requires i <= j <= |s|
    decreases j - i
  {
    if i == j then 0 else NewlinesIn(s, i, j - 1) + (if s[j - 1] == '\n' then 1 else 0)
  }

  function Min(a: nat, b: nat): nat {
    if a <= b then a else b
  }

  /** The effect of one `scanToken`: where the cursor ends, the line counter,
      the tokens pushed and the errors reported. */
  datatype Step = Step(next: nat, line: nat, emitted: seq<Token>, errors: seq<Diagnostic>)

  /** `addToken` for the lexeme s[start..end]. */
  function Emit(s: string, start: nat, end: nat, line: nat, kind: TokenType, literal: Value): Step
    requires start <= end <= |s|
  {
    Step(end, line, [Token(kind, s[start..end], literal, line)], [])
  }

  function Skip(next: nat, line: nat): Step {
    Step(next, line, [], [])
  }

  /** A one-character operator, extended by a following `=`: the `=` is
      taken exactly when there is one, and the one token pushed has the
      characters taken as its lexeme. */
  function Operator(s: string, start: nat, line: nat, lone: TokenType, withEqual: TokenType): (st: Step)
    requires start < |s|
    ensures st.next == start + 1 || st.next == start + 2
    ensures st.next == start + 2 <==> start + 1 < |s| && s[start + 1] == '='
    ensures st.line == line && st.errors == [] && |st.emitted| == 1
    ensures st.next <= |s| && st.emitted[0].lexeme == s[start..st.next]
  {
    if start + 1 < |s| && s[start + 1] == '=' then Emit(s, start, start + 2, line, withEqual, Null)
    else Emit(s, start, start + 1, line, lone, Null)
  }

  /** `string()`: up to the closing quote, counting newlines. Without one,
      the error is reported, the cursor moves one past the end and the
      STRING token still carries the rest of the input. */
  function StringStep(s: string, start: nat, line: nat): (st: Step)
    requires start < |s|
    ensures start + 1 < st.next <= |s| + 1 && line <= st.line
    ensures |st.emitted| == 1 && st.emitted[0].kind == String
    ensures st.errors == [] <==> st.next <= |s|
    ensures |st.errors| <= 1
  {
    var e := RunEnd(s, start + 1, StringBody);
    var l := line + NewlinesIn(s, start + 1, e);
    Step(e + 1, l, [Token(String, s[start..Min(e + 1, |s|)], Str(s[start + 1..e]), l)],
         if e < |s| then [] else [Diagnostic(l, "", UnterminatedString)])
  }

  /** `StringStep` once the closing quote (or the end) `e` is known. */
  lemma StringStepAt(s: string, start: nat, line: nat, e: nat)
    requires start < |s| && e == RunEnd(s, start + 1, StringBody)
    ensures var l := line + NewlinesIn(s, start + 1, e); var st := StringStep(s, start, line);
      st.next == e + 1 && st.line == l &&
      st.emitted == [Token(String, s[start..Min(e + 1, |s|)], Str(s[start + 1..e]), l)] &&
      st.errors == if e < |s| then [] else [Diagnostic(l, "", UnterminatedString)]
  {
  }

  /** One `scanToken` starting at `start`. A lone `!` yields EQUAL, as the
      source's table has it. */
  function ScanStep(s: string, start: nat, line: nat): (st: Step)
    requires start < |s|
    ensures start < st.next <= |s| + 1
  {
    var c := s[start];
    var p := start + 1;
    if IsDigit(c) then
      var e := NumberEnd(s, p);
      Emit(s, start, e, line, Number, Num(s[start..e]))
    else if IsAlpha(c) then
      var e := RunEnd(s, p, Word);
      Emit(s, start, e, line, KeywordKind(s[start..e]), Null)
    else if c == '\r' || c == '\t' then Skip(p, line)
    else TableStep(s, start, line)
  }

  /** The scanner's character table (`typeMap`): what the entry for the
      character does; a character without an entry is passed over. */
  function TableStep(s: string, start: nat, line: nat): (st: Step)
    requires start < |s|
    ensures start < st.next <= |s| + 1
  {
    var p := start + 1;
    match TypeMap(s[start])
    case None => Skip(p, line)
    case Some(Add(kind)) => Emit(s, start, p, line, kind, Null)
    case Some(AddEither(withEqual, lone)) => Operator(s, start, line, lone, withEqual)
    case Some(StringEntry) => StringStep(s, start, line)
    case Some(NewLineEntry) => Skip(p, line + 1)
    case Some(SlashEntry) =>
      if p < |s| && s[p] == '/' then Skip(RunEnd(s, p + 1, CommentBody), line)
      else Emit(s, start, p, line, Slash, Null)
  }

  /** The loop of `scanTokens` from cursor `cur` and line `line`, with the
      tokens pushed and the errors reported so far in `toks` and `errs`:
      the final token list (without the EOF token), error log, line and
      cursor. */
  datatype Scanned = Scanned(tokens: seq<Token>, errors: seq<Diagnostic>, line: nat, cursor: nat)

  function ScanLoop(s: string, cur: nat, line: nat, toks: seq<Token>, errs: seq<Diagnostic>): Scanned
    decreases |s| - cur
  {
    if cur >= |s| then Scanned(toks, errs, line, cur)
    else
      var st := ScanStep(s, cur, line);
      ScanLoop(s, st.next, st.line, toks + st.emitted, errs + st.errors)
  }

  /** What the loop pushes and reports does not depend on what was pushed
      and reported before it: it is appended to the accumulators. */
  lemma {:induction false} ScanLoopAppends(s: string, cur: nat, line: nat, toks: seq<Token>, errs: seq<Diagnostic>)
    ensures var r := ScanLoop(s, cur, line, [], []);
      ScanLoop(s, cur, line, toks, errs) == Scanned(toks + r.tokens, errs + r.errors, r.line, r.cursor)
    decreases |s| - cur
  {
    if cur < |s| {
      var st := ScanStep(s, cur, line);
      ScanLoopAppends(s, st.next, st.line, toks + st.emitted, errs + st.errors);
      ScanLoopAppends(s, st.next, st.line, st.emitted, st.errors);
      var r := ScanLoop(s, st.next, st.line, [], []);
      assert ScanLoop(s, cur, line, [], []) == ScanLoop(s, st.next, st.line, [] + st.emitted, [] + st.errors);
      assert [] + st.emitted == st.emitted && [] + st.errors == st.errors;
      AppendTwice(toks, st.emitted, r.tokens);
      AppendTwice(errs, st.errors, r.errors);
    }
  }

  lemma AppendTwice<T>(a: seq<T>, b: seq<T>, c: seq<T>)
    ensures (a + b) + c == a + (b + c)
  {
  }

  /** `scanTokens` on a fresh scanner: the loop, then one EOF token. */
  function Scan(s: string): Scanned {
    var r := ScanLoop(s, 0, 1, [], []);
    Scanned(r.tokens + [EofToken(r.line)], r.errors, r.line, r.cursor)
  }

  /** The source range [from, to) each emitted token was scanned from. */
  datatype Span = Span(from: nat, to: nat)

  function SpansFrom(s: string, cur: nat, line: nat): seq<Span>
    decreases |s| - cur
  {
    if cur >= |s| then []
    else
      var st := ScanStep(s, cur, line);
      (if st.emitted == [] then [] else [Span(cur, Min(st.next, |s|))]) + SpansFrom(s, st.next, st.line)
  }
}
