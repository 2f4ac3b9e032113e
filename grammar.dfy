/** The expression grammar of src/parser/parser.ts as functions of the token
    list and a cursor position: one function per rule, each binary level a
    left fold. A rule either yields its tree and the position after it, or
    fails at the position of the token `error` is called with. The class
    `Parsing.Parser` is proved to compute exactly these values. */
module Grammar {
  import opened Tokens
  import opened Ast

  datatype Parsed = Parsed(expr: Expr, next: nat) | Failed(at: nat, message: string)

  const ExpectExpression := "Expect expression."
  const ExpectRightParen := "Expected ')' after expression."

  /** The scanner's output always ends with EOF; the parser relies on it. */
  predicate EndsWithEof(toks: seq<Token>) {
    |toks| > 0 && toks[|toks| - 1].kind == Eof
  }

  /** The first EOF at or after `i`. */
  function EofFrom(toks: seq<Token>, i: nat): (k: nat)
    requires i < |toks| && toks[|toks| - 1].kind == Eof
    ensures i <= k < |toks| && toks[k].kind == Eof
    decreases |toks| - i
  {
    if toks[i].kind == Eof then i else EofFrom(toks, i + 1)
  }

  /** The index of the first EOF token. */
  function FirstEof(toks: seq<Token>): nat
    requires EndsWithEof(toks)
  {
    EofFrom(toks, 0)
  }

  /** A cursor on the token list. Since the last token is EOF and nothing
      moves past an EOF, a cursor on the list stays on it. */
  predicate CursorOk(toks: seq<Token>, pos: nat)
    requires EndsWithEof(toks)
  {
    pos < |toks|
  }

  /** `check`: false at EOF, whatever kind is asked for. */
  predicate CheckAt(toks: seq<Token>, pos: nat, kind: TokenType)
    requires pos < |toks|
  {
    toks[pos].kind != Eof && toks[pos].kind == kind
  }

  /** `match` succeeds, consuming one token, exactly when `check` holds for
      one of the kinds. */
  predicate MatchAt(toks: seq<Token>, pos: nat, kinds: seq<TokenType>)
    requires pos < |toks|
  {
    toks[pos].kind != Eof && toks[pos].kind in kinds
  }

  /** The operators of each binary level, as `match` lists them: equality
      (4), comparison (3), addition (2), multiplication (1). */
  function Ops(level: nat): seq<TokenType> {
    if level == 4 then EqualityOps
    else if level == 3 then ComparisonOps
    else if level == 2 then AdditionOps
    else MultiplicationOps
  }

  const EqualityOps: seq<TokenType> := [BangEqual, EqualEqual]
  const ComparisonOps: seq<TokenType> := [Less, Greater, LessEqual, GreaterEqual]
  const AdditionOps: seq<TokenType> := [Plus, Minus]
  const MultiplicationOps: seq<TokenType> := [Star, Slash]

  const UnaryOps: seq<TokenType> := [Minus, Bang]

  /** The operators of each binary level, one comparison per kind. */
  predicate IsOperator(level: nat, kind: TokenType) {
    if level == 4 then kind == BangEqual || kind == EqualEqual
    else if level == 3 then kind == Less || kind == Greater || kind == LessEqual || kind == GreaterEqual
    else if level == 2 then kind == Plus || kind == Minus
    else kind == Star || kind == Slash
  }

  /** The token at `pos` is an operator of the level (never at EOF). */
  predicate OperatorAt(toks: seq<Token>, pos: nat, level: nat)
    requires pos < |toks|
  {
    toks[pos].kind != Eof && IsOperator(level, toks[pos].kind)
  }

  /** `match` on a level's operator list succeeds exactly at its operators. */
  lemma OpsMatch(toks: seq<Token>, pos: nat, level: nat)
    requires pos < |toks| && 1 <= level <= 4
    ensures MatchAt(toks, pos, Ops(level)) <==> OperatorAt(toks, pos, level)
  {
  }

  /** `match` on one kind is `check` on it. */
  lemma MatchOne(toks: seq<Token>, pos: nat, kind: TokenType)
    requires pos < |toks|
    ensures MatchAt(toks, pos, [kind]) <==> CheckAt(toks, pos, kind)
  {
  }

  /** `match` on two kinds is `check` on either. */
  lemma MatchTwo(toks: seq<Token>, pos: nat, first: TokenType, second: TokenType)
    requires pos < |toks|
    ensures MatchAt(toks, pos, [first, second]) <==> CheckAt(toks, pos, first) || CheckAt(toks, pos, second)
  {
    var kinds := [first, second];
    assert kinds[0] == first && kinds[1] == second;
  }

  /** A result stays on the token list: success is at or after `pos`, and so
      is the token a failure is reported at. */
  predicate Within(toks: seq<Token>, pos: nat, r: Parsed)
    requires EndsWithEof(toks)
  {
    match r
    case Parsed(_, next) => pos <= next && CursorOk(toks, next)
    case Failed(at, _) => pos <= at && CursorOk(toks, at)
  }

  /** Parsing at binary level `level` (1..4): its operand (the next
      tighter level, or `unary` below multiplication), then the fold. */
  function LevelAt(toks: seq<Token>, pos: nat, level: nat): (r: Parsed)
    requires EndsWithEof(toks) && CursorOk(toks, pos) && 1 <= level <= 4
    ensures Within(toks, pos, r) && (r.Parsed? ==> pos < r.next)
    decreases |toks| - pos, 2 * level + 1
  {
    var operand := if level == 1 then UnaryAt(toks, pos) else LevelAt(toks, pos, level - 1);
    if operand.Failed? then operand else FoldAt(toks, operand.expr, operand.next, level)
  }

  /** The `while (match(...))` loop of a binary level with `left` parsed so
      far: each operator and operand extends the tree on the left. */
  function FoldAt(toks: seq<Token>, left: Expr, pos: nat, level: nat): (r: Parsed)
    requires EndsWithEof(toks) && CursorOk(toks, pos) && 1 <= level <= 4
    ensures Within(toks, pos, r)
    decreases |toks| - pos, 2 * level + 1
  {
    if OperatorAt(toks, pos, level) then
      var operand := if level == 1 then UnaryAt(toks, pos + 1) else LevelAt(toks, pos + 1, level - 1);
      if operand.Failed? then operand else FoldAt(toks, Binary(left, toks[pos], operand.expr), operand.next, level)
    else Parsed(left, pos)
  }

  /** `unary`: at most one `-` or `!`, then a primary. */
  function UnaryAt(toks: seq<Token>, pos: nat): (r: Parsed)
    requires EndsWithEof(toks) && CursorOk(toks, pos)
    ensures Within(toks, pos, r) && (r.Parsed? ==> pos < r.next)
    decreases |toks| - pos, 1
  {
    if CheckAt(toks, pos, Minus) || CheckAt(toks, pos, Bang) then
      var operand := PrimaryAt(toks, pos + 1);
      if operand.Failed? then operand else Parsed(Unary(toks[pos], operand.expr), operand.next)
    else PrimaryAt(toks, pos)
  }

  /** The kinds a primary can start with. */
  predicate StartsPrimary(kind: TokenType) {
    kind == Nil || kind == True || kind == False || kind == String || kind == Number || kind == LeftParen
  }

  /** The first four branches of `primary`: the literal of a `nil`,
      `true`, `false`, string or number token, in that order. */
  function LiteralAt(toks: seq<Token>, pos: nat): Option<Expr>
    requires pos < |toks|
  {
    if CheckAt(toks, pos, Nil) then Some(Literal(Null))
    else if CheckAt(toks, pos, True) then Some(Literal(Bool(true)))
    else if CheckAt(toks, pos, False) then Some(Literal(Bool(false)))
    else if CheckAt(toks, pos, String) || CheckAt(toks, pos, Number) then Some(Literal(toks[pos].literal))
    else None
  }

  /** The literal branches apply exactly at the kinds a primary starts
      with other than `(`, and give a literal. */
  lemma LiteralCases(toks: seq<Token>, pos: nat)
    requires pos < |toks|
    ensures var r := LiteralAt(toks, pos);
      (r.Some? <==> StartsPrimary(toks[pos].kind) && toks[pos].kind != LeftParen) &&
      (r.Some? ==> r.value.Literal?)
  {
  }

  /** `primary`: a literal, a parenthesized expression, or the error
      "Expect expression." at the current token. */
  function PrimaryAt(toks: seq<Token>, pos: nat): (r: Parsed)
    requires EndsWithEof(toks) && CursorOk(toks, pos)
    ensures Within(toks, pos, r) && (r.Parsed? ==> pos < r.next)
    decreases |toks| - pos, 0
  {
    var literal := LiteralAt(toks, pos);
    if literal.Some? then Parsed(literal.value, pos + 1)
    else if CheckAt(toks, pos, LeftParen) then
      var inner := LevelAt(toks, pos + 1, 4);
      if inner.Failed? then inner
      else if CheckAt(toks, inner.next, RightParen) then Parsed(Grouping(inner.expr), inner.next + 1)
      else Failed(inner.next, ExpectRightParen)
    else Failed(pos, ExpectExpression)
  }

  /** A primary is a literal of one token or a parenthesized group, and it
      fails on its own first token exactly when no primary starts there,
      with "Expect expression.". */
  lemma PrimaryCases(toks: seq<Token>, pos: nat)
    requires EndsWithEof(toks) && CursorOk(toks, pos)
    ensures var r := PrimaryAt(toks, pos);
      (r.Parsed? ==>
        (r.expr.Literal? && r.next == pos + 1 && StartsPrimary(toks[pos].kind) && toks[pos].kind != LeftParen) ||
        (r.expr.Grouping? && toks[pos].kind == LeftParen && toks[r.next - 1].kind == RightParen)) &&
      ((r.Failed? && r.at == pos) <==> !StartsPrimary(toks[pos].kind)) &&
      (r.Failed? && r.at == pos ==> r.message == ExpectExpression)
  {
  }

  /** `primary` at `(`: the inner expression's failure is the primary's. */
  lemma GroupFails(toks: seq<Token>, pos: nat)
    requires EndsWithEof(toks) && CursorOk(toks, pos) && CheckAt(toks, pos, LeftParen)
    requires LevelAt(toks, pos + 1, 4).Failed?
    ensures PrimaryAt(toks, pos) == LevelAt(toks, pos + 1, 4)
  {
  }

  /** `primary` at `(`: after the inner expression, `)` closes the group and
      anything else is the error "Expected ')' after expression." there. */
  lemma GroupEnds(toks: seq<Token>, pos: nat)
    requires EndsWithEof(toks) && CursorOk(toks, pos) && CheckAt(toks, pos, LeftParen)
    requires LevelAt(toks, pos + 1, 4).Parsed?
    ensures var inner := LevelAt(toks, pos + 1, 4);
      PrimaryAt(toks, pos) ==
        if CheckAt(toks, inner.next, RightParen) then Parsed(Grouping(inner.expr), inner.next + 1)
        else Failed(inner.next, ExpectRightParen)
  {
  }

  /** The operand of binary level `level`. */
  function OperandAt(toks: seq<Token>, pos: nat, level: nat): (r: Parsed)
    requires EndsWithEof(toks) && CursorOk(toks, pos) && 1 <= level <= 4
    ensures Within(toks, pos, r) && (r.Parsed? ==> pos < r.next)
  {
    if level == 1 then UnaryAt(toks, pos) else LevelAt(toks, pos, level - 1)
  }

  /** A binary level whose operand fails fails with it. */
  lemma LevelFails(toks: seq<Token>, pos: nat, level: nat)
    requires EndsWithEof(toks) && CursorOk(toks, pos) && 1 <= level <= 4
    requires OperandAt(toks, pos, level).Failed?
    ensures LevelAt(toks, pos, level) == OperandAt(toks, pos, level)
  {
  }

  /** Otherwise the level is the fold from its operand on. */
  lemma LevelFolds(toks: seq<Token>, pos: nat, level: nat)
    requires EndsWithEof(toks) && CursorOk(toks, pos) && 1 <= level <= 4
    requires OperandAt(toks, pos, level).Parsed?
    ensures var operand := OperandAt(toks, pos, level);
      LevelAt(toks, pos, level) == FoldAt(toks, operand.expr, operand.next, level)
  {
  }

  /** The fold stops at a token that is not one of the level's operators. */
  lemma FoldStops(toks: seq<Token>, left: Expr, pos: nat, level: nat)
    requires EndsWithEof(toks) && CursorOk(toks, pos) && 1 <= level <= 4
    requires !OperatorAt(toks, pos, level)
    ensures FoldAt(toks, left, pos, level) == Parsed(left, pos)
  {
  }

  /** At one of the level's operators, a failing operand is the fold's
      failure. */
  lemma FoldFails(toks: seq<Token>, left: Expr, pos: nat, level: nat)
    requires EndsWithEof(toks) && CursorOk(toks, pos) && 1 <= level <= 4
    requires OperatorAt(toks, pos, level) && OperandAt(toks, pos + 1, level).Failed?
    ensures FoldAt(toks, left, pos, level) == OperandAt(toks, pos + 1, level)
  {
  }

  /** Otherwise the operator and the operand extend the tree on the left and
      the fold goes on after the operand. */
  lemma FoldExtends(toks: seq<Token>, left: Expr, pos: nat, level: nat)
    requires EndsWithEof(toks) && CursorOk(toks, pos) && 1 <= level <= 4
    requires OperatorAt(toks, pos, level) && OperandAt(toks, pos + 1, level).Parsed?
    ensures var operand := OperandAt(toks, pos + 1, level);
      FoldAt(toks, left, pos, level) == FoldAt(toks, Binary(left, toks[pos], operand.expr), operand.next, level)
  {
  }

  /** `parser()` on a fresh parser: `expression` from the first token. */
  function Parse(toks: seq<Token>): (r: Parsed)
    requires EndsWithEof(toks)
    ensures Within(toks, 0, r)
  {
    LevelAt(toks, 0, 4)
  }
}
