/** What a parse keeps of its tokens. Read from left to right, the tree the
    expression rules build for the tokens `pos..next` gives back exactly
    those tokens, in their order: each operator token itself, each literal
    token its value, and each pair of parentheses the group it makes. */
module GrammarYield {
  import opened Tokens
  import opened Ast
  import opened Grammar

  /** One item of a left-to-right reading: an operator token as it is, the
      value of a literal, or an opening or closing parenthesis. */
  datatype Piece = TokenPiece(token: Token) | ValuePiece(value: Value) | Open | Close

  /** The in-order reading of a tree: a literal is its value, a unary node
      its operator and then its operand, a binary or logical node its left
      operand, its operator and its right operand, a group its inner
      expression in parentheses. The other variants, which the expression
      rules never build, read as nothing. */
  function Yield(e: Expr): seq<Piece> {
    match e
    case Literal(v) => [ValuePiece(v)]
    case Unary(op, right) => [TokenPiece(op)] + Yield(right)
    case Binary(left, op, right) => Yield(left) + [TokenPiece(op)] + Yield(right)
    case Logical(left, op, right) => Yield(left) + [TokenPiece(op)] + Yield(right)
    case Grouping(inner) => [Open] + Yield(inner) + [Close]
    case _ => []
  }

  /** How one token is read: a parenthesis as itself, a `nil`, `true`,
      `false`, string or number token as the value `primary` gives it, any
      other token as the token. */
  function PieceOf(t: Token): Piece {
    if t.kind == LeftParen then Open
    else if t.kind == RightParen then Close
    else if IsLiteralKind(t.kind) then ValuePiece(LiteralValue(t))
    else TokenPiece(t)
  }

  predicate IsLiteralKind(kind: TokenType) {
    kind == Nil || kind == True || kind == False || kind == String || kind == Number
  }

  /** The value of a literal token. */
  function LiteralValue(t: Token): Value {
    if t.kind == Nil then Null
    else if t.kind == True then Bool(true)
    else if t.kind == False then Bool(false)
    else t.literal
  }

  /** The reading of the tokens `i..j`. */
  function Pieces(toks: seq<Token>, i: nat, j: nat): (r: seq<Piece>)
    requires i <= j <= |toks|
    ensures |r| == j - i && forall k :: 0 <= k < j - i ==> r[k] == PieceOf(toks[i + k])
  {
    seq(j - i, k requires 0 <= k < j - i => PieceOf(toks[i + k]))
  }

  lemma PiecesOne(toks: seq<Token>, i: nat)
    requires i < |toks|
    ensures Pieces(toks, i, i + 1) == [PieceOf(toks[i])]
  {
  }

  lemma PiecesCons(toks: seq<Token>, i: nat, j: nat)
    requires i < j <= |toks|
    ensures Pieces(toks, i, j) == [PieceOf(toks[i])] + Pieces(toks, i + 1, j)
  {
  }

  /** Reading `i..k` is reading `i..j` and then `j..k`. */
  lemma PiecesSplit(toks: seq<Token>, i: nat, j: nat, k: nat)
    requires i <= j <= k <= |toks|
    ensures Pieces(toks, i, k) == Pieces(toks, i, j) + Pieces(toks, j, k)
  {
  }

  /** Three readings that match a stretch and the two halves of the stretch
      after it read as the two stretches together. */
  lemma Joined<T>(left: seq<T>, middle: seq<T>, right: seq<T>, before: seq<T>, after: seq<T>, whole: seq<T>)
    requires left == before && after == middle + right && whole == before + after
    ensures left + middle + right == whole
  {
  }

  /** A binary level reads back as the tokens it consumed. */
  lemma {:induction false} LevelYield(toks: seq<Token>, pos: nat, level: nat)
    requires EndsWithEof(toks) && CursorOk(toks, pos) && 1 <= level <= 4
    ensures var r := LevelAt(toks, pos, level); r.Parsed? ==> Yield(r.expr) == Pieces(toks, pos, r.next)
    decreases |toks| - pos, 2 * level + 1
  {
    var operand := OperandAt(toks, pos, level);
    OperandYield(toks, pos, level);
    if operand.Failed? {
      LevelFails(toks, pos, level);
    } else {
      LevelFolds(toks, pos, level);
      FoldYield(toks, operand.expr, pos, operand.next, level);
    }
  }

  lemma {:induction false} OperandYield(toks: seq<Token>, pos: nat, level: nat)
    requires EndsWithEof(toks) && CursorOk(toks, pos) && 1 <= level <= 4
    ensures var r := OperandAt(toks, pos, level); r.Parsed? ==> Yield(r.expr) == Pieces(toks, pos, r.next)
    decreases |toks| - pos, 2 * level
  {
    if level == 1 {
      UnaryYield(toks, pos);
    } else {
      LevelYield(toks, pos, level - 1);
    }
  }

  /** The fold from a tree that reads as `start..pos` reads as `start` up to
      where the fold stops. */
  lemma {:induction false} FoldYield(toks: seq<Token>, left: Expr, start: nat, pos: nat, level: nat)
    requires EndsWithEof(toks) && CursorOk(toks, pos) && 1 <= level <= 4
    requires start <= pos && Yield(left) == Pieces(toks, start, pos)
    ensures var r := FoldAt(toks, left, pos, level); r.Parsed? ==> Yield(r.expr) == Pieces(toks, start, r.next)
    decreases |toks| - pos, 2 * level + 1
  {
    if !OperatorAt(toks, pos, level) {
      FoldStops(toks, left, pos, level);
    } else {
      var operand := OperandAt(toks, pos + 1, level);
      OperandYield(toks, pos + 1, level);
      if operand.Failed? {
        FoldFails(toks, left, pos, level);
      } else {
        FoldExtends(toks, left, pos, level);
        BinaryYield(toks, left, start, pos, operand.expr, operand.next, level);
        FoldYield(toks, Binary(left, toks[pos], operand.expr), start, operand.next, level);
      }
    }
  }

  /** A binary node over stretches `start..pos` and `pos + 1..next` with its
      operator at `pos` reads as `start..next`. */
  lemma BinaryYield(toks: seq<Token>, left: Expr, start: nat, pos: nat, right: Expr, next: nat, level: nat)
    requires start <= pos < next <= |toks| && 1 <= level <= 4 && IsOperator(level, toks[pos].kind)
    requires Yield(left) == Pieces(toks, start, pos) && Yield(right) == Pieces(toks, pos + 1, next)
    ensures Yield(Binary(left, toks[pos], right)) == Pieces(toks, start, next)
  {
    var op := toks[pos];
    assert PieceOf(op) == TokenPiece(op);
    PiecesSplit(toks, start, pos, next);
    PiecesCons(toks, pos, next);
    Joined(Yield(left), [TokenPiece(op)], Yield(right), Pieces(toks, start, pos), Pieces(toks, pos, next), Pieces(toks, start, next));
  }

  lemma {:induction false} UnaryYield(toks: seq<Token>, pos: nat)
    requires EndsWithEof(toks) && CursorOk(toks, pos)
    ensures var r := UnaryAt(toks, pos); r.Parsed? ==> Yield(r.expr) == Pieces(toks, pos, r.next)
    decreases |toks| - pos, 1
  {
    if CheckAt(toks, pos, Minus) || CheckAt(toks, pos, Bang) {
      var operand := PrimaryAt(toks, pos + 1);
      PrimaryYield(toks, pos + 1);
      if operand.Parsed? {
        PrefixYield(toks, pos, operand.expr, operand.next);
      }
    } else {
      PrimaryYield(toks, pos);
    }
  }

  /** A `-` or `!` at `pos` before an operand that reads as `pos + 1..next`
      makes a unary node that reads as `pos..next`. */
  lemma PrefixYield(toks: seq<Token>, pos: nat, right: Expr, next: nat)
    requires pos < next <= |toks| && (toks[pos].kind == Minus || toks[pos].kind == Bang)
    requires Yield(right) == Pieces(toks, pos + 1, next)
    ensures Yield(Unary(toks[pos], right)) == Pieces(toks, pos, next)
  {
    PiecesCons(toks, pos, next);
    assert PieceOf(toks[pos]) == TokenPiece(toks[pos]);
  }

  lemma {:induction false} PrimaryYield(toks: seq<Token>, pos: nat)
    requires EndsWithEof(toks) && CursorOk(toks, pos)
    ensures var r := PrimaryAt(toks, pos); r.Parsed? ==> Yield(r.expr) == Pieces(toks, pos, r.next)
    decreases |toks| - pos, 0
  {
    var literal := LiteralAt(toks, pos);
    if literal.Some? {
      assert PrimaryAt(toks, pos) == Parsed(literal.value, pos + 1);
      LiteralYield(toks, pos);
    } else if CheckAt(toks, pos, LeftParen) {
      var inner := LevelAt(toks, pos + 1, 4);
      LevelYield(toks, pos + 1, 4);
      if inner.Failed? {
        GroupFails(toks, pos);
      } else {
        GroupEnds(toks, pos);
        if CheckAt(toks, inner.next, RightParen) {
          GroupYield(toks, pos, inner.expr, inner.next);
        }
      }
    } else {
      assert PrimaryAt(toks, pos) == Failed(pos, ExpectExpression);
    }
  }

  /** A literal reads as its one token. */
  lemma LiteralYield(toks: seq<Token>, pos: nat)
    requires pos < |toks| && LiteralAt(toks, pos).Some?
    ensures Yield(LiteralAt(toks, pos).value) == Pieces(toks, pos, pos + 1)
  {
    PiecesOne(toks, pos);
  }

  /** A group over a stretch `pos + 1..next` that reads as its inner
      expression reads as `pos..next + 1`, parentheses included. */
  lemma GroupYield(toks: seq<Token>, pos: nat, inner: Expr, next: nat)
    requires pos < next < |toks| && toks[pos].kind == LeftParen && toks[next].kind == RightParen
    requires Yield(inner) == Pieces(toks, pos + 1, next)
    ensures Yield(Grouping(inner)) == Pieces(toks, pos, next + 1)
  {
    Parenthesized(toks, pos, next);
    assert Yield(Grouping(inner)) == [Open] + Yield(inner) + [Close];
  }

  /** The reading of a parenthesized stretch. */
  lemma Parenthesized(toks: seq<Token>, pos: nat, next: nat)
    requires pos < next < |toks| && toks[pos].kind == LeftParen && toks[next].kind == RightParen
    ensures Pieces(toks, pos, next + 1) == [Open] + Pieces(toks, pos + 1, next) + [Close]
  {
    PiecesSplit(toks, pos, pos + 1, next + 1);
    PiecesSplit(toks, pos + 1, next, next + 1);
    PiecesOne(toks, pos);
    PiecesOne(toks, next);
    assert PieceOf(toks[pos]) == Open && PieceOf(toks[next]) == Close;
    var middle := Pieces(toks, pos + 1, next);
    Joined([Open], middle, [Close], Pieces(toks, pos, pos + 1), Pieces(toks, pos + 1, next + 1), Pieces(toks, pos, next + 1));
  }

  /** The tree `parser()` returns reads back as the tokens it consumed:
      nothing is dropped, repeated or reordered, and the parentheses are
      exactly the groups. */
  lemma ParseYield(toks: seq<Token>)
    requires EndsWithEof(toks)
    ensures var r := Parse(toks); r.Parsed? ==> Yield(r.expr) == Pieces(toks, 0, r.next)
  {
    LevelYield(toks, 0, 4);
  }
}
