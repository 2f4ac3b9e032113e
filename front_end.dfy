/** The scanner and the parser together, as the driver chains them: the
    scanner's output meets what the parser relies on. */
module FrontEnd {
  import opened Tokens
  import opened ScanSpec
  import opened Grammar
  import ScanProps
  import GrammarProps

  /** Every scan ends with its only EOF token, so the parser may run on it,
      and whatever it parses lies before that EOF: a success has read at least
      one token and not the EOF, and a failure is at the EOF at the latest. */
  lemma ScanThenParse(s: string)
    ensures var t := Scan(s).tokens;
      EndsWithEof(t) && FirstEof(t) == |t| - 1 &&
      var r := Parse(t);
      (r.Parsed? ==> 0 < r.next <= |t| - 1) && (r.Failed? ==> r.at <= |t| - 1)
  {
    var t := Scan(s).tokens;
    ScanProps.ScanResult(s);
    assert EndsWithEof(t);
    OnlyEof(t, 0);
    GrammarProps.ParseBeforeEof(t);
  }

  /** When EOF is only the last token, the first EOF is the last token. */
  lemma {:induction false} OnlyEof(t: seq<Token>, i: nat)
    requires i < |t| && t[|t| - 1].kind == Eof
    requires forall k :: 0 <= k < |t| - 1 ==> t[k].kind != Eof
    ensures EofFrom(t, i) == |t| - 1
    decreases |t| - i
  {
    if i < |t| - 1 {
      OnlyEof(t, i + 1);
    }
  }
}
