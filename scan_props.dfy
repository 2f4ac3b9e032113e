/** What the reference scanner guarantees: the shape of each step (greedy
    operators, maximal numbers and identifiers, strings, comments and the
    characters that emit nothing) and of the whole pass (line counting,
    lexemes in source order, one trailing EOF, at most one error). */
module ScanProps {
  import opened Tokens
  import opened Chars
  import opened Diagnostics
  import opened ScanSpec

  /** Newline counts add up over adjacent ranges. */
  lemma {:induction false} NewlinesSplit(s: string, i: nat, j: nat, k: nat)
    requires i <= j <= k <= |s|
    ensures NewlinesIn(s, i, k) == NewlinesIn(s, i, j) + NewlinesIn(s, j, k)
    decreases k - j
  {
    if j < k {
      NewlinesSplit(s, i, j, k - 1);
    }
  }

  lemma {:induction false} NoNewlines(s: string, i: nat, j: nat)
    requires i <= j <= |s|
    requires forall k :: i <= k < j ==> s[k] != '\n'
    ensures NewlinesIn(s, i, j) == 0
    decreases j - i
  {
    if i < j {
      NoNewlines(s, i, j - 1);
    }
  }

  /** A number: a maximal digit run, then `.` and a second digit run only
      when a digit follows the dot; a trailing dot is left for the next step. */
  lemma NumberStep(s: string, start: nat, line: nat)
    requires start < |s| && IsDigit(s[start])
    ensures var e := NumberEnd(s, start + 1);
      ScanStep(s, start, line) == Step(e, line, [Token(Number, s[start..e], Num(s[start..e]), line)], []) &&
      (forall k :: start <= k < e ==> IsDigit(s[k]) || s[k] == '.') &&
      IsDigit(s[e - 1]) &&
      (forall i, j :: start <= i < j < e && s[i] == '.' ==> s[j] != '.') &&
      (e == |s| || !IsDigit(s[e])) &&
      ((forall k :: start <= k < e ==> s[k] != '.') ==> e + 1 >= |s| || s[e] != '.' || !IsDigit(s[e + 1]))
  {
    var d := RunEnd(s, start + 1, Digits);
    RunEndMaximal(s, start + 1, Digits);
    if d + 1 < |s| && s[d] == '.' && IsDigit(s[d + 1]) {
      RunEndMaximal(s, d + 1, Digits);
    }
  }

  /** An identifier: a maximal run of letters, digits and `_` starting with
      a letter or `_`; a reserved word takes its own kind. */
  lemma IdentifierStep(s: string, start: nat, line: nat)
    requires start < |s| && IsAlpha(s[start])
    ensures var e := RunEnd(s, start + 1, Word); var text := s[start..e];
      ScanStep(s, start, line) ==
        Step(e, line, [Token(if text in Keywords then Keywords[text] else Identifier, text, Null, line)], []) &&
      (forall k :: start <= k < e ==> IsAlphaNumeric(s[k])) &&
      (e == |s| || !IsAlphaNumeric(s[e]))
  {
    RunEndMaximal(s, start + 1, Word);
  }

  /** The two-character operators are taken whenever the `=` is there
      (`AddEither` in the table; a lone `!` yields EQUAL). */
  lemma OperatorStep(s: string, start: nat, line: nat)
    requires start < |s| && (s[start] == '!' || s[start] == '=' || s[start] == '<' || s[start] == '>')
    ensures var entry := TypeMap(s[start]).value;
      var two := start + 1 < |s| && s[start + 1] == '=';
      var e := if two then start + 2 else start + 1;
      entry.AddEither? &&
      ScanStep(s, start, line) == Step(e, line, [Token(if two then entry.withEqual else entry.lone, s[start..e], Null, line)], [])
  {
    assert ScanStep(s, start, line) == TableStep(s, start, line);
  }

  /** The characters outside the scanner's table, and space, `\r`, `\t` and
      `\n`: one character consumed, nothing emitted, nothing reported. */
  predicate Silent(c: char) {
    !IsDigit(c) && !IsAlpha(c) && (TypeMap(c).None? || TypeMap(c) == Some(NewLineEntry))
  }

  lemma SilentStep(s: string, start: nat, line: nat)
    requires start < |s| && Silent(s[start])
    ensures ScanStep(s, start, line) == Step(start + 1, if s[start] == '\n' then line + 1 else line, [], [])
  {
  }

  lemma {:induction false} WhitespaceSilent(c: char)
    requires c == ' ' || c == '\r' || c == '\t' || c == '\n'
    ensures Silent(c)
  {
  }

  /** `//` skips up to, not including, the next newline or the end. */
  lemma CommentStep(s: string, start: nat, line: nat)
    requires start + 1 < |s| && s[start] == '/' && s[start + 1] == '/'
    ensures var st := ScanStep(s, start, line);
      st.emitted == [] && st.errors == [] && st.line == line &&
      start + 2 <= st.next <= |s| &&
      (forall k :: start + 2 <= k < st.next ==> s[k] != '\n') &&
      (st.next == |s| || s[st.next] == '\n')
  {
    RunEndMaximal(s, start + 2, CommentBody);
  }

  /** A `/` not followed by another is SLASH. */
  lemma SlashStep(s: string, start: nat, line: nat)
    requires start < |s| && s[start] == '/' && !(start + 1 < |s| && s[start + 1] == '/')
    ensures ScanStep(s, start, line) == Step(start + 1, line, [Token(Slash, "/", Null, line)], [])
  {
    assert s[start..start + 1] == "/";
  }

  /** A string: a terminated one's literal is the text strictly between the
      quotes; an unterminated one reports once, still yields a STRING token
      holding the rest of the input, and leaves the cursor past the end. The
      token carries the line its closing quote (or the end) is on. */
  lemma StringStepShape(s: string, start: nat, line: nat)
    requires start < |s| && s[start] == '"'
    ensures var e := RunEnd(s, start + 1, StringBody);
      var st := ScanStep(s, start, line);
      st.line == line + NewlinesIn(s, start, Min(e + 1, |s|)) &&
      (forall k :: start < k < e ==> s[k] != '"') &&
      (e < |s| ==>
         s[e] == '"' && st.next == e + 1 &&
         st.emitted == [Token(String, s[start..e + 1], Str(s[start + 1..e]), st.line)] && st.errors == []) &&
      (e == |s| ==>
         st.next == |s| + 1 && st.emitted == [Token(String, s[start..], Str(s[start + 1..]), st.line)] &&
         st.errors == [Diagnostic(st.line, "", UnterminatedString)])
  {
    var e := RunEnd(s, start + 1, StringBody);
    RunEndMaximal(s, start + 1, StringBody);
    forall k | start < k < e
      ensures s[k] != '"'
    {
      assert InRun(StringBody, s[k]);
    }
    assert ScanStep(s, start, line) == StringStep(s, start, line);
    if e < |s| {
      ClosedString(s, start, line, e);
    } else {
      UnclosedString(s, start, line);
    }
  }

  /** `StringStep` when the closing quote is at `e`. */
  lemma ClosedString(s: string, start: nat, line: nat, e: nat)
    requires start < e < |s| && s[start] == '"' && e == RunEnd(s, start + 1, StringBody)
    ensures var l := line + NewlinesIn(s, start, e + 1);
      var st := StringStep(s, start, line);
      s[e] == '"' && st.line == l && st.next == e + 1 &&
      st.emitted == [Token(String, s[start..e + 1], Str(s[start + 1..e]), l)] && st.errors == []
  {
    RunEndMaximal(s, start + 1, StringBody);
    assert !InRun(StringBody, s[e]);
    StringStepAt(s, start, line, e);
    assert Min(e + 1, |s|) == e + 1;
    NewlinesSplit(s, start, start + 1, e);
    NewlinesSplit(s, start, e, e + 1);
    assert NewlinesIn(s, start, start + 1) == 0 && NewlinesIn(s, e, e + 1) == 0;
  }

  /** `StringStep` when no quote closes the string. */
  lemma UnclosedString(s: string, start: nat, line: nat)
    requires start < |s| && s[start] == '"' && RunEnd(s, start + 1, StringBody) == |s|
    ensures var l := line + NewlinesIn(s, start, |s|);
      var st := StringStep(s, start, line);
      st.line == l && st.next == |s| + 1 &&
      st.emitted == [Token(String, s[start..], Str(s[start + 1..]), l)] &&
      st.errors == [Diagnostic(l, "", UnterminatedString)]
  {
    StringStepAt(s, start, line, |s|);
    NewlinesSplit(s, start, start + 1, |s|);
    assert NewlinesIn(s, start, start + 1) == 0;
    assert s[start..Min(|s| + 1, |s|)] == s[start..] && s[start + 1..|s|] == s[start + 1..];
  }

  /** What holds of every step: the line counter grows by the newlines the
      step passes over; at most one token, whose lexeme is the text the step
      consumed and which carries the line reached; an error only for an
      unterminated string, which is exactly when the cursor passes the end. */
  predicate StepOk(s: string, start: nat, line: nat, st: Step)
    requires start < st.next && start < |s|
  {
    st.line == line + NewlinesIn(s, start, Min(st.next, |s|)) &&
    |st.emitted| <= 1 &&
    (st.emitted != [] ==>
       st.emitted[0].lexeme == s[start..Min(st.next, |s|)] &&
       st.emitted[0].kind != Eof && st.emitted[0].line == st.line) &&
    (st.errors == [] <==> st.next <= |s|) &&
    (st.errors != [] ==> st.errors == [Diagnostic(st.line, "", UnterminatedString)])
  }

  lemma StepFacts(s: string, start: nat, line: nat)
    requires start < |s|
    ensures StepOk(s, start, line, ScanStep(s, start, line))
  {
    var c := s[start];
    if IsDigit(c) {
      NumberOk(s, start, line);
    } else if IsAlpha(c) {
      IdentifierOk(s, start, line);
    } else if c == '!' || c == '=' || c == '<' || c == '>' {
      OperatorOk(s, start, line);
    } else if c == '"' {
      StringOk(s, start, line);
    } else if c == '/' {
      SlashOk(s, start, line);
    } else {
      OtherOk(s, start, line);
    }
  }

  lemma NumberOk(s: string, start: nat, line: nat)
    requires start < |s| && IsDigit(s[start])
    ensures StepOk(s, start, line, ScanStep(s, start, line))
  {
    NumberStep(s, start, line);
    NoNewlines(s, start, ScanStep(s, start, line).next);
  }

  lemma IdentifierOk(s: string, start: nat, line: nat)
    requires start < |s| && IsAlpha(s[start])
    ensures StepOk(s, start, line, ScanStep(s, start, line))
  {
    IdentifierStep(s, start, line);
    NoNewlines(s, start, ScanStep(s, start, line).next);
  }

  lemma OperatorOk(s: string, start: nat, line: nat)
    requires start < |s| && (s[start] == '!' || s[start] == '=' || s[start] == '<' || s[start] == '>')
    ensures StepOk(s, start, line, ScanStep(s, start, line))
  {
    OperatorStep(s, start, line);
    NoNewlines(s, start, ScanStep(s, start, line).next);
  }

  lemma StringOk(s: string, start: nat, line: nat)
    requires start < |s| && s[start] == '"'
    ensures StepOk(s, start, line, ScanStep(s, start, line))
  {
    StringStepShape(s, start, line);
  }

  lemma SlashOk(s: string, start: nat, line: nat)
    requires start < |s| && s[start] == '/'
    ensures StepOk(s, start, line, ScanStep(s, start, line))
  {
    if start + 1 < |s| && s[start + 1] == '/' {
      CommentStep(s, start, line);
    } else {
      SlashStep(s, start, line);
    }
    NoNewlines(s, start, ScanStep(s, start, line).next);
  }

  /** Punctuation and the silent characters: one character. */
  lemma OtherOk(s: string, start: nat, line: nat)
    requires start < |s|
    requires !IsDigit(s[start]) && !IsAlpha(s[start]) && !(s[start] in {'!', '=', '<', '>', '"', '/'})
    ensures StepOk(s, start, line, ScanStep(s, start, line))
  {
    assert NewlinesIn(s, start, start + 1) == if s[start] == '\n' then 1 else 0;
  }

  /** The line counter ends at the starting line plus every newline from
      the cursor on, those inside strings included. */
  lemma {:induction false} LoopLine(s: string, cur: nat, line: nat, toks: seq<Token>, errs: seq<Diagnostic>)
    requires cur <= |s|
    ensures ScanLoop(s, cur, line, toks, errs).line == line + NewlinesIn(s, cur, |s|)
    decreases |s| - cur
  {
    if cur < |s| {
      var st := ScanStep(s, cur, line);
      StepFacts(s, cur, line);
      if st.next <= |s| {
        LoopLine(s, st.next, st.line, toks + st.emitted, errs + st.errors);
        NewlinesSplit(s, cur, st.next, |s|);
      }
    }
  }

  /** The loop stops at the end of the source with nothing reported, or one
      past it with exactly one "Unterminated string." on the final line. */
  lemma {:induction false} LoopErrors(s: string, cur: nat, line: nat, toks: seq<Token>, errs: seq<Diagnostic>)
    requires cur <= |s|
    ensures var r := ScanLoop(s, cur, line, toks, errs);
      (r.errors == errs && r.cursor == |s|) ||
      (r.errors == errs + [Diagnostic(r.line, "", UnterminatedString)] && r.cursor == |s| + 1)
    decreases |s| - cur
  {
    if cur < |s| {
      var st := ScanStep(s, cur, line);
      StepFacts(s, cur, line);
      if st.next <= |s| {
        LoopErrors(s, st.next, st.line, toks + st.emitted, errs + st.errors);
        assert errs + st.errors == errs;
      }
    }
  }

  /** A token lines up with its source range: its lexeme is the text of
      the range, it is not EOF, and it carries the line reached at the
      range's end, counting from line `line` at `cur`. */
  predicate SpanOk(s: string, cur: nat, line: nat, t: Token, r: Span) {
    cur <= r.from < r.to <= |s| &&
    t.lexeme == s[r.from..r.to] && t.kind != Eof &&
    t.line == line + NewlinesIn(s, cur, r.to)
  }

  /** The tokens of a pass line up with their source ranges, which lie in
      order without overlapping. */
  predicate TokensMatchSpans(s: string, cur: nat, line: nat, toks: seq<Token>, sp: seq<Span>) {
    |sp| == |toks| &&
    (forall i :: 0 <= i < |sp| ==> SpanOk(s, cur, line, toks[i], sp[i])) &&
    (forall i, j :: 0 <= i < j < |sp| ==> sp[i].to <= sp[j].from)
  }

  lemma {:induction false} Lexemes(s: string, cur: nat, line: nat)
    requires cur <= |s|
    ensures TokensMatchSpans(s, cur, line, ScanLoop(s, cur, line, [], []).tokens, SpansFrom(s, cur, line))
    decreases |s| - cur
  {
    if cur < |s| {
      var st := ScanStep(s, cur, line);
      StepFacts(s, cur, line);
      ScanLoopAppends(s, st.next, st.line, st.emitted, st.errors);
      assert [] + st.emitted == st.emitted && [] + st.errors == st.errors;
      if st.next <= |s| {
        Lexemes(s, st.next, st.line);
      }
      LexemesStep(s, cur, line, st, ScanLoop(s, st.next, st.line, [], []).tokens, SpansFrom(s, st.next, st.line));
    }
  }

  /** One step in front of the rest of the pass keeps the tokens and
      their ranges lined up. */
  lemma LexemesStep(s: string, cur: nat, line: nat, st: Step, rest: seq<Token>, restSpans: seq<Span>)
    requires cur < st.next && cur < |s| && StepOk(s, cur, line, st)
    requires st.next <= |s| ==> TokensMatchSpans(s, st.next, st.line, rest, restSpans)
    requires st.next > |s| ==> rest == [] && restSpans == []
    ensures TokensMatchSpans(s, cur, line, st.emitted + rest,
      (if st.emitted == [] then [] else [Span(cur, Min(st.next, |s|))]) + restSpans)
  {
    if st.next <= |s| {
      RaiseStart(s, cur, st.next, line, rest, restSpans);
    }
    if st.emitted == [] {
      assert st.emitted + rest == rest;
      assert [] + restSpans == restSpans;
    } else {
      assert st.emitted == [st.emitted[0]];
      ConsToken(s, cur, line, st.emitted[0], Span(cur, Min(st.next, |s|)), rest, restSpans);
    }
  }

  /** Moving the reference point of the line numbers back over `from..to`. */
  lemma RaiseStart(s: string, cur: nat, from: nat, line: nat, toks: seq<Token>, sp: seq<Span>)
    requires cur <= from <= |s|
    requires TokensMatchSpans(s, from, line + NewlinesIn(s, cur, from), toks, sp)
    ensures TokensMatchSpans(s, cur, line, toks, sp)
  {
    forall i | 0 <= i < |sp|
      ensures SpanOk(s, cur, line, toks[i], sp[i])
    {
      assert SpanOk(s, from, line + NewlinesIn(s, cur, from), toks[i], sp[i]);
      NewlinesSplit(s, cur, from, sp[i].to);
    }
  }

  lemma ConsToken(s: string, cur: nat, line: nat, t: Token, span: Span, toks: seq<Token>, sp: seq<Span>)
    requires cur == span.from < span.to <= |s|
    requires t.lexeme == s[span.from..span.to] && t.kind != Eof && t.line == line + NewlinesIn(s, cur, span.to)
    requires TokensMatchSpans(s, cur, line, toks, sp)
    requires forall i :: 0 <= i < |sp| ==> span.to <= sp[i].from
    ensures TokensMatchSpans(s, cur, line, [t] + toks, [span] + sp)
  {
    var ts, ss := [t] + toks, [span] + sp;
    assert SpanOk(s, cur, line, t, span);
    assert forall i :: 0 < i < |ss| ==> ts[i] == toks[i - 1] && ss[i] == sp[i - 1];
  }

  /** The whole of `scanTokens` on a fresh scanner: the tokens of the pass
      line up with their source ranges, then comes the only EOF token, with
      empty lexeme, null literal and the final line count; the cursor stops
      at the end, or one past it after the single error. */
  lemma ScanResult(s: string)
    ensures var r := Scan(s); var t := r.tokens;
      |t| >= 1 &&
      TokensMatchSpans(s, 0, 1, t[..|t| - 1], SpansFrom(s, 0, 1)) &&
      (forall i :: 0 <= i < |t| - 1 ==> t[i].kind != Eof) &&
      t[|t| - 1] == Token(Eof, "", Null, 1 + NewlinesIn(s, 0, |s|)) &&
      r.line == 1 + NewlinesIn(s, 0, |s|) &&
      ((r.errors == [] && r.cursor == |s|) ||
       (r.errors == [Diagnostic(r.line, "", UnterminatedString)] && r.cursor == |s| + 1))
  {
    var r := ScanLoop(s, 0, 1, [], []);
    LoopLine(s, 0, 1, [], []);
    LoopErrors(s, 0, 1, [], []);
    Lexemes(s, 0, 1);
    var t := Scan(s).tokens;
    assert t[..|t| - 1] == r.tokens;
  }
}
