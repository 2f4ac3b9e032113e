/** Worked examples: a few inputs scanned and parsed, with the results the
    reference functions give for them, including the quirks of the source
    (a lone `!` scans as EQUAL, `--1` does not parse, trailing tokens are
    ignored, an unterminated string still yields a token). */
module Examples {
  import opened Tokens
  import opened Chars
  import opened Diagnostics
  import opened Ast
  import opened ScanSpec
  import opened Grammar
  import GrammarProps
  import ScanProps

  function NumberToken(text: string): Token {
    Token(Number, text, Num(text), 1)
  }

  function Op(kind: TokenType, lexeme: string): Token {
    Token(kind, lexeme, Null, 1)
  }

  /** The empty source scans to the EOF token alone, on line 1. */
  lemma EmptySource()
    ensures Scan("") == Scanned([EofToken(1)], [], 1, 0)
  {
  }

  /** A digit followed by no digit and no dot is a one-character number. */
  lemma DigitStep(s: string, i: nat, line: nat)
    requires i < |s| && IsDigit(s[i])
    requires i + 1 == |s| || (!IsDigit(s[i + 1]) && s[i + 1] != '.')
    ensures ScanStep(s, i, line) == Step(i + 1, line, [Token(Number, s[i..i + 1], Num(s[i..i + 1]), line)], [])
  {
    assert RunEnd(s, i + 1, Digits) == i + 1;
  }

  /** A character whose table entry pushes one kind is a one-character
      token of that kind. */
  lemma AddStep(s: string, i: nat, line: nat, kind: TokenType)
    requires i < |s| && !IsAlpha(s[i]) && TypeMap(s[i]) == Some(Add(kind))
    ensures ScanStep(s, i, line) == Step(i + 1, line, [Token(kind, s[i..i + 1], Null, line)], [])
  {
    assert ScanStep(s, i, line) == TableStep(s, i, line);
  }

  /** The five steps over `1+2*3`: a number, an operator, and so on. */
  lemma ArithmeticSteps()
    ensures var s := "1+2*3";
      ScanStep(s, 0, 1) == Step(1, 1, [NumberToken("1")], []) &&
      ScanStep(s, 1, 1) == Step(2, 1, [Op(Plus, "+")], []) &&
      ScanStep(s, 2, 1) == Step(3, 1, [NumberToken("2")], []) &&
      ScanStep(s, 3, 1) == Step(4, 1, [Op(Star, "*")], []) &&
      ScanStep(s, 4, 1) == Step(5, 1, [NumberToken("3")], [])
  {
    var s := "1+2*3";
    assert s[0] == '1' && s[1] == '+' && s[2] == '2' && s[3] == '*' && s[4] == '3';
    assert s[0..1] == "1" && s[1..2] == "+" && s[2..3] == "2" && s[3..4] == "*" && s[4..5] == "3";
    DigitStep(s, 0, 1);
    AddStep(s, 1, 1, Plus);
    DigitStep(s, 2, 1);
    AddStep(s, 3, 1, Star);
    DigitStep(s, 4, 1);
  }

  /** `1+2*3` scans to five tokens and EOF. */
  lemma ScanArithmetic()
    ensures Scan("1+2*3").tokens ==
      [NumberToken("1"), Op(Plus, "+"), NumberToken("2"), Op(Star, "*"), NumberToken("3"), EofToken(1)]
  {
    var s := "1+2*3";
    ArithmeticSteps();
    var one, plus, two, star, three := NumberToken("1"), Op(Plus, "+"), NumberToken("2"), Op(Star, "*"), NumberToken("3");
    assert ScanLoop(s, 0, 1, [], []) == ScanLoop(s, 5, 1, [one, plus, two, star, three], []);
  }

  /** A lone `!` scans as EQUAL. */
  lemma LoneBang()
    ensures Scan("!").tokens == [Op(Equal, "!"), EofToken(1)]
  {
    assert "!"[0] == '!' && "!"[0..1] == "!";
    ScanProps.OperatorStep("!", 0, 1);
    assert ScanStep("!", 0, 1) == Step(1, 1, [Op(Equal, "!")], []);
  }

  /** `!=` scans as BANG_EQUAL. */
  lemma BangEqualToken()
    ensures Scan("!=").tokens == [Op(BangEqual, "!="), EofToken(1)]
  {
    assert "!="[0] == '!' && "!="[1] == '=' && "!="[0..2] == "!=";
    ScanProps.OperatorStep("!=", 0, 1);
    assert ScanStep("!=", 0, 1) == Step(2, 1, [Op(BangEqual, "!=")], []);
  }

  /** A lone `!` scans as EQUAL; `!=` as BANG_EQUAL. */
  lemma ScanBang()
    ensures Scan("!").tokens == [Op(Equal, "!"), EofToken(1)]
    ensures Scan("!=").tokens == [Op(BangEqual, "!="), EofToken(1)]
  {
    LoneBang();
    BangEqualToken();
  }

  /** An unterminated string reports once and still yields a STRING token
      holding the rest of the input; the cursor ends one past the end. */
  lemma ScanUnterminated()
    ensures Scan("\"ab") ==
      Scanned([Token(String, "\"ab", Str("ab"), 1), EofToken(1)],
              [Diagnostic(1, "", "Unterminated string.")], 1, 4)
  {
    var s := "\"ab";
    ScanProps.StringStepShape(s, 0, 1);
    assert RunEnd(s, 1, StringBody) == 3;
    assert NewlinesIn(s, 0, 3) == 0;
    assert ScanStep(s, 0, 1) == Step(4, 1, [Token(String, s, Str("ab"), 1)], [Diagnostic(1, "", UnterminatedString)]);
  }

  /** A run ends at `e` when every character from `i` up to `e` is in it
      and the one at `e`, if any, is not. */
  lemma {:induction false} RunEndAt(s: string, i: nat, e: nat, run: Run)
    requires i <= e <= |s| && (e == |s| || !InRun(run, s[e]))
    requires forall k :: i <= k < e ==> InRun(run, s[k])
    ensures RunEnd(s, i, run) == e
    decreases e - i
  {
    if i < e {
      RunEndAt(s, i + 1, e, run);
    }
  }

  /** A word of letters `i..e` not followed by a letter or a digit. */
  lemma WordStep(s: string, i: nat, e: nat, line: nat)
    requires i < e <= |s| && (e == |s| || !IsAlphaNumeric(s[e]))
    requires forall k :: i <= k < e ==> IsAlpha(s[k])
    ensures ScanStep(s, i, line) == Step(e, line, [Token(KeywordKind(s[i..e]), s[i..e], Null, line)], [])
  {
    RunEndAt(s, i + 1, e, Word);
    ScanProps.IdentifierStep(s, i, line);
  }

  lemma SpaceStep(s: string, i: nat, line: nat)
    requires i < |s| && s[i] == ' '
    ensures ScanStep(s, i, line) == Step(i + 1, line, [], [])
  {
    ScanProps.WhitespaceSilent(s[i]);
    ScanProps.SilentStep(s, i, line);
  }

  /** `=`, `<`, `>` or `!` with no `=` after it. */
  lemma LoneStep(s: string, i: nat, line: nat, kind: TokenType)
    requires i + 1 < |s| && s[i + 1] != '='
    requires (s[i] == '=' && kind == Equal) || (s[i] == '>' && kind == Greater) || (s[i] == '<' && kind == Less)
    ensures ScanStep(s, i, line) == Step(i + 1, line, [Token(kind, s[i..i + 1], Null, line)], [])
  {
    ScanProps.OperatorStep(s, i, line);
  }

  /** The input of the scanner test. */
  const WhileSource: string := "while(x > 2) { x = x / 2; }"

  function Name(text: string): Token {
    Token(Identifier, text, Null, 1)
  }

  /** The characters of the scanner test's input, one by one. */
  predicate IsWhileText(s: string) {
    |s| == 27 &&
    s[0..5] == "while" && s[5] == '(' && s[6] == 'x' && s[7] == ' ' && s[8] == '>' && s[9] == ' ' &&
    s[10] == '2' && s[11] == ')' && s[12] == ' ' && s[13] == '{' && s[14] == ' ' && s[15] == 'x' &&
    s[16] == ' ' && s[17] == '=' && s[18] == ' ' && s[19] == 'x' && s[20] == ' ' && s[21] == '/' &&
    s[22] == ' ' && s[23] == '2' && s[24] == ';' && s[25] == ' ' && s[26] == '}'
  }

  lemma WhileChars()
    ensures IsWhileText(WhileSource)
  {
    var s := WhileSource;
    assert |s| == 27 && s[0..5] == "while";
    assert s[5] == '(' && s[6] == 'x' && s[7] == ' ' && s[8] == '>' && s[9] == ' ';
    assert s[10] == '2' && s[11] == ')' && s[12] == ' ' && s[13] == '{' && s[14] == ' ' && s[15] == 'x';
    assert s[16] == ' ' && s[17] == '=' && s[18] == ' ' && s[19] == 'x' && s[20] == ' ' && s[21] == '/';
  }

  /** One step of the loop on line 1 with no error so far. */
  lemma Advance(s: string, cur: nat, toks: seq<Token>, next: nat, emitted: seq<Token>)
    requires cur < |s| && ScanStep(s, cur, 1) == Step(next, 1, emitted, [])
    ensures ScanLoop(s, cur, 1, toks, []) == ScanLoop(s, next, 1, toks + emitted, [])
  {
    var none: seq<Diagnostic> := [];
    assert none + none == none;
  }

  /** A space is skipped. */
  lemma SkipSpace(s: string, i: nat, toks: seq<Token>)
    requires i < |s| && s[i] == ' '
    ensures ScanLoop(s, i, 1, toks, []) == ScanLoop(s, i + 1, 1, toks, [])
  {
    SpaceStep(s, i, 1);
    Advance(s, i, toks, i + 1, []);
    assert toks + [] == toks;
  }

  /** An `x` before a space is the identifier `x`. */
  lemma TakeName(s: string, i: nat, toks: seq<Token>)
    requires i + 1 < |s| && s[i] == 'x' && s[i + 1] == ' '
    ensures ScanLoop(s, i, 1, toks, []) == ScanLoop(s, i + 1, 1, toks + [Name("x")], [])
  {
    assert s[i..i + 1] == "x" && KeywordKind("x") == Identifier;
    WordStep(s, i, i + 1, 1);
    Advance(s, i, toks, i + 1, [Name("x")]);
  }

  /** A `2` before neither a digit nor a dot is the number 2. */
  lemma TakeTwo(s: string, i: nat, toks: seq<Token>)
    requires i + 1 < |s| && s[i] == '2' && (s[i + 1] == ' ' || s[i + 1] == ')' || s[i + 1] == ';')
    ensures ScanLoop(s, i, 1, toks, []) == ScanLoop(s, i + 1, 1, toks + [NumberToken("2")], [])
  {
    assert s[i..i + 1] == "2";
    DigitStep(s, i, 1);
    Advance(s, i, toks, i + 1, [NumberToken("2")]);
  }

  /** A character with a one-kind table entry is a token of that kind. */
  lemma TakeAdd(s: string, i: nat, toks: seq<Token>, kind: TokenType)
    requires i < |s| && !IsAlpha(s[i]) && TypeMap(s[i]) == Some(Add(kind))
    ensures ScanLoop(s, i, 1, toks, []) == ScanLoop(s, i + 1, 1, toks + [Op(kind, [s[i]])], [])
  {
    assert s[i..i + 1] == [s[i]];
    AddStep(s, i, 1, kind);
    Advance(s, i, toks, i + 1, [Op(kind, [s[i]])]);
  }

  /** `=` or `>` before a space is a one-character token. */
  lemma TakeLone(s: string, i: nat, toks: seq<Token>, kind: TokenType)
    requires i + 1 < |s| && s[i + 1] == ' '
    requires (s[i] == '=' && kind == Equal) || (s[i] == '>' && kind == Greater)
    ensures ScanLoop(s, i, 1, toks, []) == ScanLoop(s, i + 1, 1, toks + [Op(kind, [s[i]])], [])
  {
    assert s[i..i + 1] == [s[i]];
    LoneStep(s, i, 1, kind);
    Advance(s, i, toks, i + 1, [Op(kind, [s[i]])]);
  }

  /** `while(` */
  lemma WhileKeyword(s: string, toks: seq<Token>)
    requires IsWhileText(s)
    ensures ScanLoop(s, 0, 1, toks, []) ==
      ScanLoop(s, 6, 1, toks + [Token(While, "while", Null, 1), Op(LeftParen, "(")], [])
  {
    assert forall k :: 0 <= k < 5 ==> IsAlpha(s[k]);
    assert KeywordKind("while") == While;
    WordStep(s, 0, 5, 1);
    Advance(s, 0, toks, 5, [Token(While, "while", Null, 1)]);
    TakeAdd(s, 5, toks + [Token(While, "while", Null, 1)], LeftParen);
    assert toks + [Token(While, "while", Null, 1)] + [Op(LeftParen, "(")] ==
      toks + [Token(While, "while", Null, 1), Op(LeftParen, "(")];
  }

  /** `x > ` */
  lemma WhileCompare(s: string, toks: seq<Token>)
    requires IsWhileText(s)
    ensures ScanLoop(s, 6, 1, toks, []) ==
      ScanLoop(s, 10, 1, toks + [Name("x"), Op(Greater, ">")], [])
  {
    TakeName(s, 6, toks);
    SkipSpace(s, 7, toks + [Name("x")]);
    TakeLone(s, 8, toks + [Name("x")], Greater);
    SkipSpace(s, 9, toks + [Name("x")] + [Op(Greater, ">")]);
    assert toks + [Name("x")] + [Op(Greater, ">")] == toks + [Name("x"), Op(Greater, ">")];
  }

  /** `2) { ` */
  lemma WhileCondition(s: string, toks: seq<Token>)
    requires IsWhileText(s)
    ensures ScanLoop(s, 10, 1, toks, []) ==
      ScanLoop(s, 15, 1, toks + [NumberToken("2"), Op(RightParen, ")"), Op(LeftBrace, "{")], [])
  {
    TakeTwo(s, 10, toks);
    TakeAdd(s, 11, toks + [NumberToken("2")], RightParen);
    SkipSpace(s, 12, toks + [NumberToken("2")] + [Op(RightParen, ")")]);
    TakeAdd(s, 13, toks + [NumberToken("2")] + [Op(RightParen, ")")], LeftBrace);
    SkipSpace(s, 14, toks + [NumberToken("2")] + [Op(RightParen, ")")] + [Op(LeftBrace, "{")]);
    assert toks + [NumberToken("2")] + [Op(RightParen, ")")] + [Op(LeftBrace, "{")] ==
      toks + [NumberToken("2"), Op(RightParen, ")"), Op(LeftBrace, "{")];
  }

  /** `x = ` */
  lemma WhileTarget(s: string, toks: seq<Token>)
    requires IsWhileText(s)
    ensures ScanLoop(s, 15, 1, toks, []) ==
      ScanLoop(s, 19, 1, toks + [Name("x"), Op(Equal, "=")], [])
  {
    TakeName(s, 15, toks);
    SkipSpace(s, 16, toks + [Name("x")]);
    TakeLone(s, 17, toks + [Name("x")], Equal);
    SkipSpace(s, 18, toks + [Name("x")] + [Op(Equal, "=")]);
    assert toks + [Name("x")] + [Op(Equal, "=")] == toks + [Name("x"), Op(Equal, "=")];
  }

  /** `x / ` */
  lemma WhileQuotient(s: string, toks: seq<Token>)
    requires IsWhileText(s)
    ensures ScanLoop(s, 19, 1, toks, []) ==
      ScanLoop(s, 23, 1, toks + [Name("x"), Op(Slash, "/")], [])
  {
    TakeName(s, 19, toks);
    SkipSpace(s, 20, toks + [Name("x")]);
    assert s[21..22] == "/";
    ScanProps.SlashStep(s, 21, 1);
    Advance(s, 21, toks + [Name("x")], 22, [Op(Slash, "/")]);
    SkipSpace(s, 22, toks + [Name("x")] + [Op(Slash, "/")]);
    assert toks + [Name("x")] + [Op(Slash, "/")] == toks + [Name("x"), Op(Slash, "/")];
  }

  /** `2; }` */
  lemma WhileTail(s: string, toks: seq<Token>)
    requires IsWhileText(s)
    ensures ScanLoop(s, 23, 1, toks, []) ==
      Scanned(toks + [NumberToken("2"), Op(Semicolon, ";"), Op(RightBrace, "}")], [], 1, 27)
  {
    TakeTwo(s, 23, toks);
    TakeAdd(s, 24, toks + [NumberToken("2")], Semicolon);
    SkipSpace(s, 25, toks + [NumberToken("2")] + [Op(Semicolon, ";")]);
    TakeAdd(s, 26, toks + [NumberToken("2")] + [Op(Semicolon, ";")], RightBrace);
    assert toks + [NumberToken("2")] + [Op(Semicolon, ";")] + [Op(RightBrace, "}")] ==
      toks + [NumberToken("2"), Op(Semicolon, ";"), Op(RightBrace, "}")];
  }

  /** The scanner test: a text with the characters of
      `while(x > 2) { x = x / 2; }` scans, with no error, to WHILE,
      LEFT_PAREN, IDENTIFIER, GREATER, NUMBER, RIGHT_PAREN, LEFT_BRACE,
      IDENTIFIER, EQUAL, IDENTIFIER, SLASH, NUMBER, SEMICOLON, RIGHT_BRACE
      and EOF. The text is a parameter so that the proof works on its
      characters rather than evaluating the scan of a literal. */
  lemma ScanWhile(s: string)
    requires IsWhileText(s)
    ensures Scan(s) ==
      Scanned([Token(While, "while", Null, 1), Op(LeftParen, "("), Name("x"), Op(Greater, ">"),
               NumberToken("2"), Op(RightParen, ")"), Op(LeftBrace, "{"),
               Name("x"), Op(Equal, "="), Name("x"), Op(Slash, "/"),
               NumberToken("2"), Op(Semicolon, ";"), Op(RightBrace, "}"), EofToken(1)], [], 1, 27)
  {
    var t1 := [Token(While, "while", Null, 1), Op(LeftParen, "(")];
    var t2 := t1 + [Name("x"), Op(Greater, ">")];
    var t3 := t2 + [NumberToken("2"), Op(RightParen, ")"), Op(LeftBrace, "{")];
    var t4 := t3 + [Name("x"), Op(Equal, "=")];
    var t5 := t4 + [Name("x"), Op(Slash, "/")];
    var none: seq<Token> := [];
    WhileKeyword(s, none);
    assert none + t1 == t1;
    WhileCompare(s, t1);
    WhileCondition(s, t2);
    WhileTarget(s, t3);
    WhileQuotient(s, t4);
    WhileTail(s, t5);
    WhileList();
  }

  /** The six stretches of tokens and the EOF token, put together. */
  lemma WhileList()
    ensures [Token(While, "while", Null, 1), Op(LeftParen, "(")] + [Name("x"), Op(Greater, ">")] +
      [NumberToken("2"), Op(RightParen, ")"), Op(LeftBrace, "{")] + [Name("x"), Op(Equal, "=")] +
      [Name("x"), Op(Slash, "/")] + [NumberToken("2"), Op(Semicolon, ";"), Op(RightBrace, "}")] + [EofToken(1)] ==
      [Token(While, "while", Null, 1), Op(LeftParen, "("), Name("x"), Op(Greater, ">"),
       NumberToken("2"), Op(RightParen, ")"), Op(LeftBrace, "{"),
       Name("x"), Op(Equal, "="), Name("x"), Op(Slash, "/"),
       NumberToken("2"), Op(Semicolon, ";"), Op(RightBrace, "}"), EofToken(1)]
  {
    var w, lp, gt, rp, lb := Token(While, "while", Null, 1), Op(LeftParen, "("), Op(Greater, ">"), Op(RightParen, ")"), Op(LeftBrace, "{");
    var x, two, eq, sl := Name("x"), NumberToken("2"), Op(Equal, "="), Op(Slash, "/");
    var semi, rb := Op(Semicolon, ";"), Op(RightBrace, "}");
    assert [w, lp] + [x, gt] == [w, lp, x, gt];
    assert [w, lp, x, gt] + [two, rp, lb] == [w, lp, x, gt, two, rp, lb];
    assert [w, lp, x, gt, two, rp, lb] + [x, eq] == [w, lp, x, gt, two, rp, lb, x, eq];
    assert [w, lp, x, gt, two, rp, lb, x, eq] + [x, sl] == [w, lp, x, gt, two, rp, lb, x, eq, x, sl];
    assert [w, lp, x, gt, two, rp, lb, x, eq, x, sl] + [two, semi, rb] == [w, lp, x, gt, two, rp, lb, x, eq, x, sl, two, semi, rb];
  }

  /** The same for the test's own string. */
  lemma ScanWhileSource()
    ensures Scan(WhileSource) ==
      Scanned([Token(While, "while", Null, 1), Op(LeftParen, "("), Name("x"), Op(Greater, ">"),
               NumberToken("2"), Op(RightParen, ")"), Op(LeftBrace, "{"),
               Name("x"), Op(Equal, "="), Name("x"), Op(Slash, "/"),
               NumberToken("2"), Op(Semicolon, ";"), Op(RightBrace, "}"), EofToken(1)], [], 1, 27)
  {
    WhileChars();
    ScanWhile(WhileSource);
  }

  /** A level whose tree is followed by no operator of a looser level
      passes it through the looser levels unchanged. */
  lemma {:induction false} PassThrough(toks: seq<Token>, pos: nat, low: nat, high: nat)
    requires EndsWithEof(toks) && CursorOk(toks, pos) && 1 <= low <= high <= 4
    requires LevelAt(toks, pos, low).Parsed?
    requires GrammarProps.OpLevel(toks[LevelAt(toks, pos, low).next].kind) <= low
    ensures LevelAt(toks, pos, high) == LevelAt(toks, pos, low)
    decreases high
  {
    if low < high {
      PassThrough(toks, pos, low, high - 1);
      var r := LevelAt(toks, pos, low);
      LevelFolds(toks, pos, high);
      if OperatorAt(toks, r.next, high) {
        GrammarProps.OperatorLevel(high, toks[r.next].kind);
      }
      FoldStops(toks, r.expr, r.next, high);
    }
  }

  /** A NUMBER token is a primary, and so a unary operand. */
  lemma NumberOperand(toks: seq<Token>, pos: nat)
    requires EndsWithEof(toks) && CursorOk(toks, pos) && toks[pos].kind == Number
    ensures OperandAt(toks, pos, 1) == Parsed(Literal(toks[pos].literal), pos + 1)
  {
    assert UnaryAt(toks, pos) == Parsed(Literal(toks[pos].literal), pos + 1);
  }

  /** The kinds the scanner gives the parser's test input
      `1 + 2 * 3 + (1 / 2)`. */
  predicate TestKinds(toks: seq<Token>) {
    |toks| == 12 &&
    toks[0].kind == Number && toks[1].kind == Plus && toks[2].kind == Number && toks[3].kind == Star &&
    toks[4].kind == Number && toks[5].kind == Plus && toks[6].kind == LeftParen && toks[7].kind == Number &&
    toks[8].kind == Slash && toks[9].kind == Number && toks[10].kind == RightParen && toks[11].kind == Eof
  }

  /** Its group `(1 / 2)` is one operand, up to the end. */
  lemma TestGroup(toks: seq<Token>)
    requires TestKinds(toks)
    ensures LevelAt(toks, 6, 1) == Parsed(Grouping(Binary(Literal(toks[7].literal), toks[8], Literal(toks[9].literal))), 11)
  {
    var n7, n9 := Literal(toks[7].literal), Literal(toks[9].literal);
    var quotient := Binary(n7, toks[8], n9);
    NumberOperand(toks, 7);
    NumberOperand(toks, 9);
    LevelFolds(toks, 7, 1);
    FoldExtends(toks, n7, 8, 1);
    FoldStops(toks, quotient, 10, 1);
    PassThrough(toks, 7, 1, 4);
    GroupEnds(toks, 6);
    var group := Grouping(quotient);
    assert UnaryAt(toks, 6) == Parsed(group, 11);
    LevelFolds(toks, 6, 1);
    FoldStops(toks, group, 11, 1);
  }

  /** Its product `2 * 3` is one operand of the first `+`. */
  lemma TestProduct(toks: seq<Token>)
    requires TestKinds(toks)
    ensures LevelAt(toks, 2, 1) == Parsed(Binary(Literal(toks[2].literal), toks[3], Literal(toks[4].literal)), 5)
  {
    var n2, n4 := Literal(toks[2].literal), Literal(toks[4].literal);
    NumberOperand(toks, 2);
    NumberOperand(toks, 4);
    LevelFolds(toks, 2, 1);
    FoldExtends(toks, n2, 3, 1);
    FoldStops(toks, Binary(n2, toks[3], n4), 5, 1);
  }

  /** The whole test input: multiplication binds tighter than addition,
      the additions fold to the left, and the group is one operand. */
  lemma ParsePrecedence(toks: seq<Token>)
    requires TestKinds(toks)
    ensures Parse(toks) ==
      Parsed(Binary(Binary(Literal(toks[0].literal), toks[1],
                           Binary(Literal(toks[2].literal), toks[3], Literal(toks[4].literal))),
                    toks[5],
                    Grouping(Binary(Literal(toks[7].literal), toks[8], Literal(toks[9].literal)))),
             11)
  {
    var n0 := Literal(toks[0].literal);
    var product := Binary(Literal(toks[2].literal), toks[3], Literal(toks[4].literal));
    var group := Grouping(Binary(Literal(toks[7].literal), toks[8], Literal(toks[9].literal)));
    TestGroup(toks);
    TestProduct(toks);
    var first := Binary(n0, toks[1], product);
    var sum := Binary(first, toks[5], group);
    NumberOperand(toks, 0);
    LevelFolds(toks, 0, 1);
    FoldStops(toks, n0, 1, 1);
    LevelFolds(toks, 0, 2);
    FoldExtends(toks, n0, 1, 2);
    FoldExtends(toks, first, 5, 2);
    FoldStops(toks, sum, 11, 2);
    PassThrough(toks, 0, 2, 4);
  }

  /** `--1` fails at the second `-`. */
  lemma ParseDoubleMinus(toks: seq<Token>)
    requires |toks| == 4 && toks[0].kind == Minus && toks[1].kind == Minus && toks[2].kind == Number && toks[3].kind == Eof
    ensures Parse(toks) == Failed(1, ExpectExpression)
  {
    GrammarProps.UnaryDoesNotNest(toks, 0);
    LevelFails(toks, 0, 1);
    LevelFails(toks, 0, 2);
    LevelFails(toks, 0, 3);
    LevelFails(toks, 0, 4);
  }

  /** The report `errorFrom` makes for it: the line, then ` at '-'`. */
  lemma DoubleMinusReport()
    ensures AtToken(Op(Minus, "-"), ExpectExpression) == Diagnostic(1, " at '-'", ExpectExpression)
  {
  }

  /** An input with no expression fails at EOF, reported " at end". */
  lemma ParseNothing()
    ensures var toks := [EofToken(1)];
      var r := Parse(toks);
      r == Failed(0, ExpectExpression) && AtToken(toks[r.at], r.message) == Diagnostic(1, " at end", ExpectExpression)
  {
  }

  /** An unclosed group fails at the token after the inner expression. */
  lemma ParseUnclosed(toks: seq<Token>)
    requires |toks| == 3 && toks[0].kind == LeftParen && toks[1].kind == Number && toks[2].kind == Eof
    ensures Parse(toks) == Failed(2, ExpectRightParen)
  {
    var one := Literal(toks[1].literal);
    assert UnaryAt(toks, 1) == Parsed(one, 2);
    assert OperandAt(toks, 1, 1) == Parsed(one, 2);
    LevelFolds(toks, 1, 1);
    FoldStops(toks, one, 2, 1);
    LevelFolds(toks, 1, 2);
    FoldStops(toks, one, 2, 2);
    LevelFolds(toks, 1, 3);
    FoldStops(toks, one, 2, 3);
    LevelFolds(toks, 1, 4);
    FoldStops(toks, one, 2, 4);
    GroupEnds(toks, 0);
    var failure := Failed(2, ExpectRightParen);
    assert OperandAt(toks, 0, 1) == failure;
    LevelFails(toks, 0, 1);
    LevelFails(toks, 0, 2);
    LevelFails(toks, 0, 3);
    LevelFails(toks, 0, 4);
  }

  /** Tokens after a complete expression are left unread: `1 2` parses as
      `1`, stopping before the `2`. */
  lemma ParseTrailing(toks: seq<Token>)
    requires |toks| == 3 && toks[0].kind == Number && toks[1].kind == Number && toks[2].kind == Eof
    ensures Parse(toks) == Parsed(Literal(toks[0].literal), 1)
  {
    var one := Literal(toks[0].literal);
    assert UnaryAt(toks, 0) == Parsed(one, 1);
    assert OperandAt(toks, 0, 1) == Parsed(one, 1);
    LevelFolds(toks, 0, 1);
    FoldStops(toks, one, 1, 1);
    LevelFolds(toks, 0, 2);
    FoldStops(toks, one, 1, 2);
    LevelFolds(toks, 0, 3);
    FoldStops(toks, one, 1, 3);
    LevelFolds(toks, 0, 4);
    FoldStops(toks, one, 1, 4);
  }
}
