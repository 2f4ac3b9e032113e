/** The error-reporting part of the Lox driver: `error`, `errorFrom`,
    `report` and the sticky `hadError` flag. The console is replaced by an
    append-only log of reports; `Text` gives the line a report prints. */
module Diagnostics {
  import opened Tokens
  import opened Chars

  /** One call of `report`: line number, location phrase and message. */
  datatype Diagnostic = Diagnostic(line: nat, where: string, message: string)

  /** The decimal numeral JavaScript prints for a non-negative integer. */
  function Decimal(n: nat): (s: string)
    ensures 1 <= |s|
    ensures forall i :: 0 <= i < |s| ==> IsDigit(s[i])
    ensures s[0] == '0' ==> n == 0
  {
    if n < 10 then [('0' as int + n) as char]
    else Decimal(n / 10) + [('0' as int + n % 10) as char]
  }

  /** The number a string of decimal digits denotes. */
  function DecimalValue(s: string): nat
    requires forall i :: 0 <= i < |s| ==> IsDigit(s[i])
  {
    if s == [] then 0
    else
      assert IsDigit(s[|s| - 1]);
      10 * DecimalValue(s[..|s| - 1]) + (s[|s| - 1] as int - '0' as int)
  }

  /** Reading back the printed line number gives the line number. */
  lemma {:induction false} DecimalRoundTrip(n: nat)
    ensures DecimalValue(Decimal(n)) == n
  {
    if n >= 10 {
      DecimalRoundTrip(n / 10);
      var s := Decimal(n);
      assert s[..|s| - 1] == Decimal(n / 10);
    }
  }

  /** The location phrase `errorFrom` passes to `report`. */
  function Where(t: Token): (w: string)
    ensures w == " at end" <==> t.kind == Eof
    ensures t.kind != Eof ==> w == " at '" + t.lexeme + "'"
  {
    if t.kind == Eof then " at end"
    else
      var w := " at '" + t.lexeme + "'";
      assert w[4] == '\'';
      w
  }

  /** The report `errorFrom` makes for a token. */
  function AtToken(t: Token, message: string): Diagnostic {
    Diagnostic(t.line, Where(t), message)
  }

  /** The console line `report` writes: `[line L] Error W: M`. */
  function Text(d: Diagnostic): string {
    "[line " + Decimal(d.line) + "] Error " + d.where + ": " + d.message
  }

  /** The printed line starts with `[line `, then the digits of the line
      number, then `] Error `, the location phrase, `: ` and the message. */
  lemma ReportText(d: Diagnostic)
    ensures var t := Text(d); var k := |Decimal(d.line)|;
      |t| == 6 + k + 8 + |d.where| + 2 + |d.message| &&
      t[..6] == "[line " &&
      (forall i :: 6 <= i < 6 + k ==> IsDigit(t[i])) &&
      DecimalValue(t[6..6 + k]) == d.line &&
      t[6 + k..6 + k + 8] == "] Error " &&
      t[6 + k + 8..6 + k + 8 + |d.where|] == d.where &&
      t[|t| - |d.message| - 2..] == ": " + d.message
  {
    var digits := Decimal(d.line);
    var k := |digits|;
    var head := "[line " + digits + "] Error ";
    var t := Text(d);
    assert t == head + d.where + (": " + d.message);
    assert |head| == 6 + k + 8;
    assert head[..6] == "[line " && head[6..6 + k] == digits && head[6 + k..] == "] Error ";
    assert t[..6] == head[..6];
    assert t[6..6 + k] == head[6..6 + k];
    assert t[6 + k..6 + k + 8] == head[6 + k..];
    DecimalRoundTrip(d.line);
  }

  /** The reporter. The source keeps `hadError` in a static field and writes
      to the console; here the reports are kept in order in `reports`. */
  class Lox {
    var hadError: bool
    var reports: seq<Diagnostic>

    /** Nothing but `report` sets the flag, and it never goes back. */
    ghost predicate Valid()
      reads this
    {
      hadError <==> |reports| > 0
    }

    constructor ()
      ensures Valid() && !hadError && reports == []
    {
      hadError := false;
      reports := [];
    }

    /** A scanner error: no location phrase. */
    method Error(line: nat, message: string)
      modifies this
      ensures Valid() && hadError
      ensures reports == old(reports) + [Diagnostic(line, "", message)]
    {
      Report(line, "", message);
    }

    /** A parser error at a token: " at end" for EOF, " at '<lexeme>'" otherwise. */
    method ErrorFrom(token: Token, message: string)
      modifies this
      ensures Valid() && hadError
      ensures reports == old(reports) + [AtToken(token, message)]
    {
      if token.kind == Eof {
        Report(token.line, " at end", message);
      } else {
        Report(token.line, " at '" + token.lexeme + "'", message);
      }
    }

    method Report(line: nat, where: string, message: string)
      modifies this
      ensures Valid() && hadError
      ensures reports == old(reports) + [Diagnostic(line, where, message)]
    {
      reports := reports + [Diagnostic(line, where, message)];
      hadError := true;
    }
  }
}
