/** What the grammar functions guarantee about every token list: the trees
    they build respect precedence and left associativity, `unary` takes at
    most one operator, and no rule reads past the first EOF token. */
module GrammarProps {
  import opened Tokens
  import opened Ast
  import opened Grammar

  /** The binary level an operator belongs to (4 equality, 3 comparison,
      2 addition, 1 multiplication), 0 for any other kind. */
  function OpLevel(kind: TokenType): (level: nat)
    ensures level <= 4
    ensures 1 <= level ==> IsOperator(level, kind)
  {
    if IsOperator(4, kind) then 4
    else if IsOperator(3, kind) then 3
    else if IsOperator(2, kind) then 2
    else if IsOperator(1, kind) then 1
    else 0
  }

  /** Each kind is the operator of one level at most. */
  lemma OperatorLevel(level: nat, kind: TokenType)
    requires 1 <= level <= 4 && IsOperator(level, kind)
    ensures OpLevel(kind) == level
  {
  }

  /** The trees the expression rules build, `level` being the loosest
      binary level allowed at the top (0 for `unary`): a binary node of
      level k has a left operand of level at most k and a right operand of
      level below k, so tighter operators sit deeper and equal ones
      associate to the left; a unary node has a literal or a group as its
      operand; a group holds any expression. */
  predicate Shaped(e: Expr, level: nat)
    decreases e
  {
    match e
    case Binary(left, op, right) =>
      1 <= OpLevel(op.kind) <= level &&
      Shaped(left, OpLevel(op.kind)) && Shaped(right, OpLevel(op.kind) - 1)
    case Unary(op, right) =>
      (op.kind == Minus || op.kind == Bang) && (right.Literal? || right.Grouping?) && Shaped(right, 0)
    case Literal(_) => true
    case Grouping(inner) => Shaped(inner, 4)
    case _ => false
  }

  lemma {:induction false} LevelShaped(toks: seq<Token>, pos: nat, level: nat)
    requires EndsWithEof(toks) && CursorOk(toks, pos) && 1 <= level <= 4
    ensures var r := LevelAt(toks, pos, level); r.Parsed? ==> Shaped(r.expr, level)
    decreases |toks| - pos, 2 * level + 1
  {
    var operand := OperandAt(toks, pos, level);
    OperandShaped(toks, pos, level);
    if operand.Failed? {
      LevelFails(toks, pos, level);
    } else {
      LevelFolds(toks, pos, level);
      FoldShaped(toks, operand.expr, operand.next, level);
    }
  }

  lemma {:induction false} OperandShaped(toks: seq<Token>, pos: nat, level: nat)
    requires EndsWithEof(toks) && CursorOk(toks, pos) && 1 <= level <= 4
    ensures var r := OperandAt(toks, pos, level); r.Parsed? ==> Shaped(r.expr, level - 1)
    decreases |toks| - pos, 2 * level
  {
    if level == 1 {
      UnaryShaped(toks, pos);
    } else {
      LevelShaped(toks, pos, level - 1);
    }
  }

  lemma {:induction false} FoldShaped(toks: seq<Token>, left: Expr, pos: nat, level: nat)
    requires EndsWithEof(toks) && CursorOk(toks, pos) && 1 <= level <= 4
    requires Shaped(left, level)
    ensures var r := FoldAt(toks, left, pos, level); r.Parsed? ==> Shaped(r.expr, level)
    decreases |toks| - pos, 2 * level + 1
  {
    if !OperatorAt(toks, pos, level) {
      FoldStops(toks, left, pos, level);
    } else {
      var operand := OperandAt(toks, pos + 1, level);
      OperandShaped(toks, pos + 1, level);
      if operand.Failed? {
        FoldFails(toks, left, pos, level);
      } else {
        FoldExtends(toks, left, pos, level);
        OperatorLevel(level, toks[pos].kind);
        FoldShaped(toks, Binary(left, toks[pos], operand.expr), operand.next, level);
      }
    }
  }

  lemma {:induction false} UnaryShaped(toks: seq<Token>, pos: nat)
    requires EndsWithEof(toks) && CursorOk(toks, pos)
    ensures var r := UnaryAt(toks, pos); r.Parsed? ==> Shaped(r.expr, 0)
    decreases |toks| - pos, 1
  {
    if CheckAt(toks, pos, Minus) || CheckAt(toks, pos, Bang) {
      PrimaryShaped(toks, pos + 1);
    } else {
      PrimaryShaped(toks, pos);
    }
  }

  lemma {:induction false} PrimaryShaped(toks: seq<Token>, pos: nat)
    requires EndsWithEof(toks) && CursorOk(toks, pos)
    ensures var r := PrimaryAt(toks, pos); r.Parsed? ==> (r.expr.Literal? || r.expr.Grouping?) && Shaped(r.expr, 0)
    decreases |toks| - pos, 0
  {
    if LiteralAt(toks, pos).None? && CheckAt(toks, pos, LeftParen) {
      LevelShaped(toks, pos + 1, 4);
    }
  }

  /** Every tree `parser()` returns has the shape of an equality. */
  lemma ParseShaped(toks: seq<Token>)
    requires EndsWithEof(toks)
    ensures var r := Parse(toks); r.Parsed? ==> Shaped(r.expr, 4)
  {
    LevelShaped(toks, 0, 4);
  }

  /** `unary` does not nest: a second `-` or `!` right after the first is
      the error "Expect expression." at that second operator. */
  lemma UnaryDoesNotNest(toks: seq<Token>, pos: nat)
    requires EndsWithEof(toks) && CursorOk(toks, pos)
    requires CheckAt(toks, pos, Minus) || CheckAt(toks, pos, Bang)
    requires toks[pos + 1].kind == Minus || toks[pos + 1].kind == Bang
    ensures UnaryAt(toks, pos) == Failed(pos + 1, ExpectExpression)
  {
    PrimaryCases(toks, pos + 1);
  }

  /** Between a position and the first EOF after it, the first EOF is the
      same. */
  lemma {:induction false} EofFromSame(toks: seq<Token>, i: nat, j: nat)
    requires i <= j < |toks| && toks[|toks| - 1].kind == Eof
    requires j <= EofFrom(toks, i)
    ensures EofFrom(toks, j) == EofFrom(toks, i)
    decreases j - i
  {
    if i < j {
      assert toks[i].kind != Eof;
      EofFromSame(toks, i + 1, j);
    }
  }

  /** A result from `pos` stays at or before the first EOF from `pos`: a
      success has consumed no EOF and a failure is reported at a token no
      later than it. */
  predicate BeforeEof(toks: seq<Token>, pos: nat, r: Parsed)
    requires EndsWithEof(toks) && CursorOk(toks, pos)
  {
    match r
    case Parsed(_, next) => next <= EofFrom(toks, pos)
    case Failed(at, _) => at <= EofFrom(toks, pos)
  }

  lemma {:induction false} LevelBeforeEof(toks: seq<Token>, pos: nat, level: nat)
    requires EndsWithEof(toks) && CursorOk(toks, pos) && 1 <= level <= 4
    ensures BeforeEof(toks, pos, LevelAt(toks, pos, level))
    decreases |toks| - pos, 2 * level + 1
  {
    var operand := OperandAt(toks, pos, level);
    OperandBeforeEof(toks, pos, level);
    if operand.Failed? {
      LevelFails(toks, pos, level);
    } else {
      LevelFolds(toks, pos, level);
      FoldBeforeEof(toks, operand.expr, operand.next, level);
      EofFromSame(toks, pos, operand.next);
    }
  }

  lemma {:induction false} OperandBeforeEof(toks: seq<Token>, pos: nat, level: nat)
    requires EndsWithEof(toks) && CursorOk(toks, pos) && 1 <= level <= 4
    ensures BeforeEof(toks, pos, OperandAt(toks, pos, level))
    decreases |toks| - pos, 2 * level
  {
    if level == 1 {
      UnaryBeforeEof(toks, pos);
    } else {
      LevelBeforeEof(toks, pos, level - 1);
    }
  }

  lemma {:induction false} FoldBeforeEof(toks: seq<Token>, left: Expr, pos: nat, level: nat)
    requires EndsWithEof(toks) && CursorOk(toks, pos) && 1 <= level <= 4
    ensures BeforeEof(toks, pos, FoldAt(toks, left, pos, level))
    decreases |toks| - pos, 2 * level + 1
  {
    if !OperatorAt(toks, pos, level) {
      FoldStops(toks, left, pos, level);
    } else {
      var operand := OperandAt(toks, pos + 1, level);
      OperandBeforeEof(toks, pos + 1, level);
      EofFromSame(toks, pos, pos + 1);
      if operand.Failed? {
        FoldFails(toks, left, pos, level);
      } else {
        FoldExtends(toks, left, pos, level);
        FoldBeforeEof(toks, Binary(left, toks[pos], operand.expr), operand.next, level);
        EofFromSame(toks, pos, operand.next);
      }
    }
  }

  lemma {:induction false} UnaryBeforeEof(toks: seq<Token>, pos: nat)
    requires EndsWithEof(toks) && CursorOk(toks, pos)
    ensures BeforeEof(toks, pos, UnaryAt(toks, pos))
    decreases |toks| - pos, 1
  {
    if CheckAt(toks, pos, Minus) || CheckAt(toks, pos, Bang) {
      PrimaryBeforeEof(toks, pos + 1);
      EofFromSame(toks, pos, pos + 1);
    } else {
      PrimaryBeforeEof(toks, pos);
    }
  }

  lemma {:induction false} PrimaryBeforeEof(toks: seq<Token>, pos: nat)
    requires EndsWithEof(toks) && CursorOk(toks, pos)
    ensures BeforeEof(toks, pos, PrimaryAt(toks, pos))
    decreases |toks| - pos, 0
  {
    if LiteralAt(toks, pos).None? && CheckAt(toks, pos, LeftParen) {
      var inner := LevelAt(toks, pos + 1, 4);
      LevelBeforeEof(toks, pos + 1, 4);
      EofFromSame(toks, pos, pos + 1);
      if inner.Parsed? && CheckAt(toks, inner.next, RightParen) {
        assert inner.next != EofFrom(toks, pos);
      }
    }
  }

  /** `parser()` stops at the first EOF at the latest: a success has read
      no EOF and a failure is reported at or before the first one. */
  lemma ParseBeforeEof(toks: seq<Token>)
    requires EndsWithEof(toks)
    ensures var r := Parse(toks);
      (r.Parsed? ==> r.next <= FirstEof(toks) && forall k :: 0 <= k < r.next ==> toks[k].kind != Eof) &&
      (r.Failed? ==> r.at <= FirstEof(toks))
  {
    LevelBeforeEof(toks, 0, 4);
    EofBefore(toks, 0, FirstEof(toks));
  }

  /** No EOF lies before the first one. */
  lemma {:induction false} EofBefore(toks: seq<Token>, i: nat, k: nat)
    requires i < |toks| && toks[|toks| - 1].kind == Eof && k == EofFrom(toks, i)
    ensures forall j :: i <= j < k ==> toks[j].kind != Eof
    decreases |toks| - i
  {
    if toks[i].kind != Eof {
      EofBefore(toks, i + 1, k);
    }
  }
}
