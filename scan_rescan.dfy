/** Scanning a token's lexeme on its own gives back the same token: each
    step reads exactly its lexeme and nothing outside it decides what the
    lexeme becomes. */
module ScanRescan {
  import opened Tokens
  import opened Chars
  import opened Diagnostics
  import opened ScanSpec
  import opened ScanProps

  /** A run inside s[a..b] ends where the run in s ends, or at b. */
  lemma {:induction false} RunEndSlice(s: string, a: nat, b: nat, i: nat, run: Run)
    requires a <= i <= b <= |s|
    ensures RunEnd(s[a..b], i - a, run) == Min(RunEnd(s, i, run), b) - a
    decreases b - i
  {
    var t := s[a..b];
    if i < b {
      assert t[i - a] == s[i];
      if InRun(run, s[i]) {
        RunEndSlice(s, a, b, i + 1, run);
      }
    }
  }

  /** Newlines are counted the same in a slice. */
  lemma {:induction false} NewlinesSlice(s: string, a: nat, b: nat, i: nat, j: nat)
    requires a <= i <= j <= b <= |s|
    ensures NewlinesIn(s[a..b], i - a, j - a) == NewlinesIn(s, i, j)
    decreases j - i
  {
    if i < j {
      NewlinesSlice(s, a, b, i, j - 1);
      assert s[a..b][j - 1 - a] == s[j - 1];
    }
  }

  /** The emitting steps, each rescanned from its own lexeme. */
  lemma RescanNumber(s: string, start: nat, line: nat)
    requires start < |s| && IsDigit(s[start])
    ensures var st := ScanStep(s, start, line);
      |st.emitted[0].lexeme| > 0 && ScanStep(st.emitted[0].lexeme, 0, line) == Step(|st.emitted[0].lexeme|, line, st.emitted, [])
  {
    var e := NumberEnd(s, start + 1);
    NumberStep(s, start, line);
    var lex := s[start..e];
    assert lex[0] == s[start];
    NumberLexemeEnd(s, start);
    NumberStep(lex, 0, line);
    assert lex[0..|lex|] == lex;
  }

  /** A number's lexeme, scanned alone, ends where it ends. */
  lemma NumberLexemeEnd(s: string, start: nat)
    requires start < |s| && IsDigit(s[start])
    ensures var e := NumberEnd(s, start + 1); NumberEnd(s[start..e], 1) == e - start
  {
    var e := NumberEnd(s, start + 1);
    var lex := s[start..e];
    var d := RunEnd(s, start + 1, Digits);
    RunEndSlice(s, start, e, start + 1, Digits);
    if d + 1 < |s| && s[d] == '.' && IsDigit(s[d + 1]) {
      assert RunEnd(s, d + 1, Digits) == RunEnd(s, d + 2, Digits);
      assert lex[d - start] == '.' && lex[d + 1 - start] == s[d + 1];
      RunEndSlice(s, start, e, d + 1, Digits);
    }
  }

  lemma RescanWord(s: string, start: nat, line: nat)
    requires start < |s| && IsAlpha(s[start])
    ensures var st := ScanStep(s, start, line);
      |st.emitted[0].lexeme| > 0 && ScanStep(st.emitted[0].lexeme, 0, line) == Step(|st.emitted[0].lexeme|, line, st.emitted, [])
  {
    var e := RunEnd(s, start + 1, Word);
    IdentifierStep(s, start, line);
    var lex := s[start..e];
    assert lex[0] == s[start];
    RunEndSlice(s, start, e, start + 1, Word);
    assert lex[0..|lex|] == lex;
  }

  lemma RescanString(s: string, start: nat, line: nat)
    requires start < |s| && s[start] == '"'
    ensures var st := ScanStep(s, start, line);
      |st.emitted[0].lexeme| > 0 &&
      var again := ScanStep(st.emitted[0].lexeme, 0, line);
      again.emitted == st.emitted && again.errors == st.errors && again.line == st.line
  {
    var e := RunEnd(s, start + 1, StringBody);
    QuoteStep(s, start, line);
    if e < |s| {
      RescanClosed(s, start, line, e);
    } else {
      RescanUnclosed(s, start, line);
    }
  }

  /** A quote starts a string. */
  lemma QuoteStep(s: string, start: nat, line: nat)
    requires start < |s| && s[start] == '"'
    ensures ScanStep(s, start, line) == StringStep(s, start, line)
  {
    assert ScanStep(s, start, line) == TableStep(s, start, line);
  }

  lemma RescanClosed(s: string, start: nat, line: nat, e: nat)
    requires start < e < |s| && s[start] == '"' && e == RunEnd(s, start + 1, StringBody)
    ensures var st := StringStep(s, start, line);
      |st.emitted[0].lexeme| > 0 && ScanStep(st.emitted[0].lexeme, 0, line) == Step(|st.emitted[0].lexeme|, st.line, st.emitted, [])
  {
    ClosedString(s, start, line, e);
    var lex := s[start..e + 1];
    assert lex[0] == '"';
    RunEndSlice(s, start, e + 1, start + 1, StringBody);
    ClosedString(lex, 0, line, e - start);
    NewlinesSlice(s, start, e + 1, start, e + 1);
    assert lex[1..e - start] == s[start + 1..e];
    assert lex[0..e - start + 1] == lex;
    QuoteStep(lex, 0, line);
  }

  lemma RescanUnclosed(s: string, start: nat, line: nat)
    requires start < |s| && s[start] == '"' && RunEnd(s, start + 1, StringBody) == |s|
    ensures var st := StringStep(s, start, line);
      |st.emitted[0].lexeme| > 0 &&
      var again := ScanStep(st.emitted[0].lexeme, 0, line);
      again.emitted == st.emitted && again.errors == st.errors && again.line == st.line
  {
    UnclosedString(s, start, line);
    var lex := s[start..];
    assert lex[0] == '"';
    RunEndSlice(s, start, |s|, start + 1, StringBody);
    assert s[start..|s|] == lex;
    UnclosedString(lex, 0, line);
    NewlinesSlice(s, start, |s|, start, |s|);
    assert lex[1..] == s[start + 1..] && lex[0..] == lex;
    QuoteStep(lex, 0, line);
  }

  /** Scanning the lexeme of any token a step emits gives back that token,
      with the same line count and the same error, if any. */
  lemma RescanLexeme(s: string, start: nat, line: nat)
    requires start < |s| && ScanStep(s, start, line).emitted != []
    ensures var st := ScanStep(s, start, line);
      |st.emitted[0].lexeme| > 0 &&
      var again := ScanStep(st.emitted[0].lexeme, 0, line);
      again.emitted == st.emitted && again.errors == st.errors && again.line == st.line
  {
    var c := s[start];
    if IsDigit(c) {
      RescanNumber(s, start, line);
    } else if IsAlpha(c) {
      RescanWord(s, start, line);
    } else if c == '"' {
      RescanString(s, start, line);
    } else {
      RescanTable(s, start, line);
    }
  }

  /** The one- and two-character tokens of the table. */
  lemma RescanTable(s: string, start: nat, line: nat)
    requires start < |s| && ScanStep(s, start, line).emitted != []
    requires !IsDigit(s[start]) && !IsAlpha(s[start]) && s[start] != '"'
    ensures var st := ScanStep(s, start, line);
      |st.emitted[0].lexeme| > 0 && ScanStep(st.emitted[0].lexeme, 0, line) == Step(|st.emitted[0].lexeme|, line, st.emitted, [])
  {
    var c := s[start];
    TableDisjoint(c);
    assert ScanStep(s, start, line) == TableStep(s, start, line);
    match TypeMap(c).value
    case Add(kind) =>
      var lex := s[start..start + 1];
      assert lex == [c] && lex[0..1] == lex;
      assert ScanStep(lex, 0, line) == TableStep(lex, 0, line);
    case AddEither(withEqual, lone) =>
      if start + 1 < |s| && s[start + 1] == '=' {
        var lex := s[start..start + 2];
        assert lex == [c, '='];
        assert TableStep(lex, 0, line) == Operator(lex, 0, line, lone, withEqual);
        assert lex[0..2] == lex;
      } else {
        var lex := s[start..start + 1];
        assert lex == [c];
        assert lex[0..1] == lex;
      }
    case SlashEntry =>
      assert s[start..start + 1] == [c] == [c][0..1];
  }
}
