/** The `Scanner` class of src/lexer/scanner.ts: a cursor over the source
    that pushes tokens one `scanToken` at a time. Every method is proved to
    have exactly the effect the reference scanner in `ScanSpec` gives it. */
module Lexer {
  import opened Tokens
  import opened Chars
  import opened Diagnostics
  import opened ScanSpec

  /** JavaScript's `String.prototype.slice` for 0 <= from <= to: the end is
      clamped to the length of the string. */
  function Slice(s: string, from: nat, to: nat): (r: string)
    requires from <= to
    ensures to <= |s| ==> r == s[from..to]
    ensures from <= |s| <= to ==> r == s[from..]
  {
    if from >= |s| then [] else s[from..Min(to, |s|)]
  }

  /** `s + more`, with nothing added spelled out as `s` itself. This is a
      proof device only: the steps that emit nothing (whitespace, comments)
      leave the token list and the log literally unchanged, and writing the
      invariant of `ScanTokens` with it spares the verifier the fact
      `s + [] == s` at every such step. It has no counterpart in the scanner. */
  function Then<T>(s: seq<T>, more: seq<T>): seq<T> {
    if |more| == 0 then s else s + more
  }

  class Scanner {
    const source: string
    /** The reporter the source reaches through the static `Lox` class. */
    const lox: Lox
    var line: nat
    var start: nat
    var current: nat
    var tokens: seq<Token>

    /** The cursor passes the end by one only after an unterminated string. */
    ghost predicate Valid()
      reads this, lox
    {
      start <= current <= |source| + 1 && lox.Valid()
    }

    constructor (source: string, lox: Lox)
      requires lox.Valid()
      ensures Valid() && this.source == source && this.lox == lox
      ensures line == 1 && start == 0 && current == 0 && tokens == []
    {
      this.source := source;
      this.lox := lox;
      line := 1;
      start := 0;
      tokens := [];
      current := 0;
    }

    /** The scanner has taken step `st` after the tokens `toks` and the
        reports `errs`. */
    ghost predicate Took(st: Step, toks: seq<Token>, errs: seq<Diagnostic>)
      reads this, lox
    {
      current == st.next && line == st.line && tokens == Then(toks, st.emitted) && lox.reports == Then(errs, st.errors)
    }

    /** The loop of `scanTokens`, then the EOF token; returns the token list. */
    method ScanTokens() returns (result: seq<Token>)
      requires Valid()
      modifies this, lox
      ensures Valid()
      ensures var r := ScanLoop(source, old(current), old(line), old(tokens), old(lox.reports));
        tokens == r.tokens + [EofToken(r.line)] && lox.reports == r.errors &&
        line == r.line && current == r.cursor
      ensures result == tokens
    {
      ghost var total := ScanLoop(source, current, line, tokens, lox.reports);
      while !IsEnd()
        invariant Valid()
        invariant ScanLoop(source, current, line, tokens, lox.reports) == total
        decreases |source| - current
      {
        start := current;
        ghost var st, toks, errs := ScanStep(source, current, line), tokens, lox.reports;
        ScanToken();
        assert tokens == toks + st.emitted && lox.reports == errs + st.errors;
      }
      tokens := tokens + [Token(Eof, "", Null, line)];
      return tokens;
    }

    /** One token attempt: the character table, with digits and identifier
        starts tried first and `\r`, `\t` skipped. */
    method ScanToken()
      requires Valid() && start == current < |source|
      modifies this, lox
      ensures Valid() && start == old(start)
      ensures Took(ScanStep(source, old(current), old(line)), old(tokens), old(lox.reports))
    {
      var next := Advance();
      var c := next.value;
      if IsDigit(c) {
        Number();
      } else if IsAlpha(c) {
        Identifier();
      } else if !(c == '\r' || c == '\t') {
        Tokenize(c);
      }
    }

    /** The entry of the character table for `c`, if it has one. */
    method Tokenize(c: char)
      requires Valid() && start + 1 == current <= |source| && c == source[start]
      modifies this, lox
      ensures Valid() && start == old(start)
      ensures Took(TableStep(source, start, old(line)), old(tokens), old(lox.reports))
    {
      match TypeMap(c)
      case None =>
      case Some(Add(kind)) =>
        AddToken(kind, Null);
      case Some(AddEither(withEqual, lone)) =>
        AddOperator(withEqual, lone);
      case Some(StringEntry) =>
        String();
      case Some(NewLineEntry) =>
        NewLine();
      case Some(SlashEntry) =>
        SurmiseSlash();
    }

    /** An operator entry: `withEqual` when a `=` follows, taking it too,
        `lone` otherwise. */
    method AddOperator(withEqual: TokenType, lone: TokenType)
      requires Valid() && start + 1 == current <= |source|
      modifies this`current, this`tokens
      ensures Valid() && Took(Operator(source, start, line, lone, withEqual), old(tokens), lox.reports)
    {
      var m := Match('=');
      AddToken(if m then withEqual else lone, Null);
    }

    method NewLine()
      modifies this`line
      ensures line == old(line) + 1
    {
      line := line + 1;
    }

    /** The rest of an identifier or reserved word. */
    method Identifier()
      requires Valid() && start < current <= |source|
      modifies this`current, this`tokens
      ensures Valid()
      ensures current == RunEnd(source, old(current), Word)
      ensures tokens == old(tokens) +
        [Token(KeywordKind(source[start..current]), source[start..current], Null, line)]
    {
      while IsAlphaNumeric(Peek())
        invariant old(current) <= current <= |source|
        invariant RunEnd(source, current, Word) == RunEnd(source, old(current), Word)
        invariant tokens == old(tokens)
        decreases |source| - current
      {
        var _ := Advance();
      }
      var text := Slice(source, start, current);
      AddToken(KeywordKind(text), Null);
    }

    /** The rest of a string literal, from just after the opening quote. */
    method String()
      requires Valid() && start + 1 == current <= |source|
      modifies this, lox
      ensures Valid() && start == old(start)
      ensures Took(StringStep(source, start, old(line)), old(tokens), old(lox.reports))
    {
      StringContents();
      CloseString(old(line));
    }

    /** The end of `string()`, at the closing quote or the end of the
        source: the error when there is no quote, the step over it, and the
        STRING token whose literal is the text between the quotes. */
    method CloseString(ghost opening: nat)
      requires Valid() && start < current <= |source| && current == RunEnd(source, start + 1, StringBody)
      requires line == opening + NewlinesIn(source, start + 1, current)
      modifies this`current, this`tokens, lox
      ensures Valid() && Took(StringStep(source, start, opening), old(tokens), old(lox.reports))
    {
      StringStepAt(source, start, opening, current);
      if IsEnd() {
        lox.Error(line, UnterminatedString);
      }
      var _ := Advance();
      var value := Slice(source, start + 1, current - 1);
      AddToken(TokenType.String, Str(value));
    }

    /** The loop of `string()`: up to the closing quote or the end of the
        source, counting the newlines passed. */
    method StringContents()
      requires current <= |source|
      modifies this`current, this`line
      ensures current == RunEnd(source, old(current), StringBody)
      ensures line == old(line) + NewlinesIn(source, old(current), current)
    {
      while Peek() != '"' && !IsEnd()
        invariant old(current) <= current <= |source|
        invariant RunEnd(source, current, StringBody) == RunEnd(source, old(current), StringBody)
        invariant line == old(line) + NewlinesIn(source, old(current), current)
        decreases |source| - current
      {
        if Peek() == '\n' {
          NewLine();
        }
        var _ := Advance();
      }
    }

    /** The rest of a number: digits, then a fraction only when a digit
        follows the dot. */
    method Number()
      requires Valid() && start < current <= |source|
      modifies this`current, this`tokens
      ensures Valid()
      ensures current == NumberEnd(source, old(current))
      ensures tokens == old(tokens) +
        [Token(TokenType.Number, source[start..current], Num(source[start..current]), line)]
    {
      SkipDigits();
      if Peek() == '.' && IsDigit(PeekNext()) {
        var _ := Advance();
        SkipDigits();
      }
      var text := Slice(source, start, current);
      AddToken(TokenType.Number, Num(text));
    }

    /** One of the digit loops of `number()`. */
    method SkipDigits()
      requires current <= |source|
      modifies this`current
      ensures current == RunEnd(source, old(current), Digits)
    {
      while IsDigit(Peek())
        invariant old(current) <= current <= |source|
        invariant RunEnd(source, current, Digits) == RunEnd(source, old(current), Digits)
        decreases |source| - current
      {
        var _ := Advance();
      }
    }

    /** A `/`: either a line comment, skipped up to the newline, or SLASH. */
    method SurmiseSlash()
      requires Valid() && start + 1 == current <= |source|
      modifies this`current, this`tokens
      ensures Valid()
      ensures if old(current) < |source| && source[old(current)] == '/' then
          current == RunEnd(source, old(current) + 1, CommentBody) && tokens == old(tokens)
        else
          current == old(current) &&
          tokens == old(tokens) + [Token(Slash, source[start..current], Null, line)]
    {
      var comment := Match('/');
      if comment {
        while Peek() != '\n' && !IsEnd()
          invariant old(current) + 1 <= current <= |source|
          invariant RunEnd(source, current, CommentBody) == RunEnd(source, old(current) + 1, CommentBody)
          invariant tokens == old(tokens)
          decreases |source| - current
        {
          var _ := Advance();
        }
      } else {
        AddToken(Slash, Null);
      }
    }

    method AddToken(kind: TokenType, literal: Value)
      requires start <= current
      modifies this`tokens
      ensures tokens == old(tokens) + [Token(kind, Slice(source, start, current), literal, line)]
    {
      var text := Slice(source, start, current);
      tokens := tokens + [Token(kind, text, literal, line)];
    }

    /** Consumes `expected` when it is the next character. */
    method Match(expected: char) returns (matched: bool)
      requires current <= |source|
      modifies this`current
      ensures matched == (old(current) < |source| && source[old(current)] == expected)
      ensures current == if matched then old(current) + 1 else old(current)
    {
      if IsEnd() {
        return false;
      }
      if source[current] != expected {
        return false;
      }
      var _ := Advance();
      return true;
    }

    /** Moves the cursor one character on and returns the character passed;
        past the end JavaScript yields `undefined`, here None. */
    method Advance() returns (c: Option<char>)
      requires current <= |source|
      modifies this`current
      ensures current == old(current) + 1
      ensures c == if old(current) < |source| then Some(source[old(current)]) else None
    {
      current := current + 1;
      c := if current - 1 < |source| then Some(source[current - 1]) else None;
    }

    function Peek(): (c: char)
      reads this
    {
      if IsEnd() then '\0' else source[current]
    }

    function PeekNext(): (c: char)
      reads this
    {
      if current + 1 >= |source| then '\0' else source[current + 1]
    }

    function IsEnd(): bool
      reads this
    {
      current >= |source|
    }
  }

  /** `new Scanner(source).scanTokens()`: the reference scan, with its
      errors reported through `lox`. */
  method ScanSource(source: string, lox: Lox) returns (tokens: seq<Token>)
    requires lox.Valid()
    modifies lox
    ensures lox.Valid()
    ensures tokens == Scan(source).tokens
    ensures lox.reports == old(lox.reports) + Scan(source).errors
  {
    var scanner := new Scanner(source, lox);
    tokens := scanner.ScanTokens();
    ScanLoopAppends(source, 0, 1, [], old(lox.reports));
  }
}
