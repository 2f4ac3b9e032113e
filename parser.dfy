/** The `Parser` class of src/parser/parser.ts: a cursor over the token
    list and one method per grammar rule, the binary levels as `while`
    loops. The thrown parse error becomes a `None` result that every rule
    hands straight back; the diagnostic is reported where the source calls
    `error`. Every method is proved to agree with the `Grammar` functions. */
module Parsing {
  import opened Tokens
  import opened Diagnostics
  import opened Ast
  import opened Grammar

  /** A rule's result and final cursor agree with the grammar: the tree and
      the position after it, or no tree and the cursor on the token the
      error was reported at. */
  predicate Agrees(p: Parsed, r: Option<Expr>, cursor: nat) {
    match p
    case Parsed(e, next) => r == Some(e) && cursor == next
    case Failed(at, _) => r == None && cursor == at
  }

  class Parser {
    const tokens: seq<Token>
    /** The reporter the source reaches through the static `Lox` class. */
    const lox: Lox
    var current: nat

    /** The cursor is on the tokens and the reporter is consistent. */
    ghost predicate Valid()
      reads this, lox
    {
      OnTokens() && lox.Valid()
    }

    /** The token list ends with EOF and the cursor is on it. */
    ghost predicate OnTokens()
      reads this
    {
      EndsWithEof(tokens) && CursorOk(tokens, current)
    }

    /** A rule ended as the grammar says: tree and cursor agree with `p`,
        and the reports are `before` and the one failure of `p`, if any. */
    ghost predicate Ended(p: Parsed, r: Option<Expr>, before: seq<Diagnostic>)
      requires EndsWithEof(tokens) && (p.Failed? ==> p.at < |tokens|)
      reads this, lox
    {
      Valid() && Agrees(p, r, current) && lox.reports == (if p.Failed? then before + [AtToken(tokens[p.at], p.message)] else before)
    }

    constructor (tokens: seq<Token>, lox: Lox)
      requires EndsWithEof(tokens) && lox.Valid()
      ensures Valid() && this.tokens == tokens && this.lox == lox && current == 0
    {
      this.tokens := tokens;
      this.lox := lox;
      current := 0;
    }

    /** `parser()`: the expression, or None (JavaScript's null) after the
        one reported error. Tokens after the expression stay unread. */
    method Parse() returns (r: Option<Expr>)
      requires Valid()
      modifies this, lox
      ensures Ended(LevelAt(tokens, old(current), 4), r, old(lox.reports))
    {
      r := Expression();
    }

    method Expression() returns (r: Option<Expr>)
      requires Valid()
      modifies this, lox
      ensures Ended(LevelAt(tokens, old(current), 4), r, old(lox.reports))
      decreases |tokens| - current, 6
    {
      r := Equality();
    }

    /** `equality`: comparisons joined by `!=` and `==`. */
    method Equality() returns (r: Option<Expr>)
      requires Valid()
      modifies this, lox
      ensures Ended(LevelAt(tokens, old(current), 4), r, old(lox.reports))
      decreases |tokens| - current, 5
    {
      ghost var start := current;
      var first := Comparison();
      if first.None? {
        LevelFails(tokens, start, 4);
        return None;
      }
      LevelFolds(tokens, start, 4);
      var expr := first.value;
      ghost var at := current;
      var more := Match(EqualityOps);
      OpsMatch(tokens, at, 4);
      while more
        invariant Valid() && lox.reports == old(lox.reports) && start < at
        invariant current == (if more then at + 1 else at) && more == OperatorAt(tokens, at, 4)
        invariant FoldAt(tokens, expr, at, 4) == LevelAt(tokens, start, 4)
        decreases |tokens| - at
      {
        var next: Option<Expr>;
        next, more, at := EqualityRound(expr, at);
        if next.None? {
          return None;
        }
        expr := next.value;
      }
      FoldStops(tokens, expr, at, 4);
      return Some(expr);
    }

    /** One round of the loop of `equality`, after `match` took the
        operator at `at`: its operand, the tree extended on the left, and
        the next `match`. The fold's result does not change. */
    method EqualityRound(left: Expr, ghost at: nat) returns (r: Option<Expr>, more: bool, ghost next: nat)
      requires Valid() && current == at + 1 && OperatorAt(tokens, at, 4)
      modifies this, lox
      ensures r.None? ==> Ended(FoldAt(tokens, left, at, 4), r, old(lox.reports))
      ensures r.Some? ==>
        Valid() && lox.reports == old(lox.reports) && at < next &&
        current == (if more then next + 1 else next) && more == OperatorAt(tokens, next, 4) &&
        FoldAt(tokens, r.value, next, 4) == FoldAt(tokens, left, at, 4)
      decreases |tokens| - current, 5
    {
      var operator := Previous();
      var right := Comparison();
      if right.None? {
        FoldFails(tokens, left, at, 4);
        return None, false, at;
      }
      FoldExtends(tokens, left, at, 4);
      next := current;
      more := Match(EqualityOps);
      OpsMatch(tokens, next, 4);
      return Some(Binary(left, operator, right.value)), more, next;
    }

    /** `comparasion` (sic): additions joined by `<`, `>`, `<=`, `>=`. */
    method Comparison() returns (r: Option<Expr>)
      requires Valid()
      modifies this, lox
      ensures Ended(LevelAt(tokens, old(current), 3), r, old(lox.reports))
      decreases |tokens| - current, 4
    {
      ghost var start := current;
      var first := Addition();
      if first.None? {
        LevelFails(tokens, start, 3);
        return None;
      }
      LevelFolds(tokens, start, 3);
      var expr := first.value;
      ghost var at := current;
      var more := Match(ComparisonOps);
      OpsMatch(tokens, at, 3);
      while more
        invariant Valid() && lox.reports == old(lox.reports) && start < at
        invariant current == (if more then at + 1 else at) && more == OperatorAt(tokens, at, 3)
        invariant FoldAt(tokens, expr, at, 3) == LevelAt(tokens, start, 3)
        decreases |tokens| - at
      {
        var next: Option<Expr>;
        next, more, at := ComparisonRound(expr, at);
        if next.None? {
          return None;
        }
        expr := next.value;
      }
      FoldStops(tokens, expr, at, 3);
      return Some(expr);
    }

    /** One round of the loop of `comparison`, after `match` took the
        operator at `at`: its operand, the tree extended on the left, and
        the next `match`. The fold's result does not change. */
    method ComparisonRound(left: Expr, ghost at: nat) returns (r: Option<Expr>, more: bool, ghost next: nat)
      requires Valid() && current == at + 1 && OperatorAt(tokens, at, 3)
      modifies this, lox
      ensures r.None? ==> Ended(FoldAt(tokens, left, at, 3), r, old(lox.reports))
      ensures r.Some? ==>
        Valid() && lox.reports == old(lox.reports) && at < next &&
        current == (if more then next + 1 else next) && more == OperatorAt(tokens, next, 3) &&
        FoldAt(tokens, r.value, next, 3) == FoldAt(tokens, left, at, 3)
      decreases |tokens| - current, 4
    {
      var operator := Previous();
      var right := Addition();
      if right.None? {
        FoldFails(tokens, left, at, 3);
        return None, false, at;
      }
      FoldExtends(tokens, left, at, 3);
      next := current;
      more := Match(ComparisonOps);
      OpsMatch(tokens, next, 3);
      return Some(Binary(left, operator, right.value)), more, next;
    }

    /** `addition`: multiplications joined by `+` and `-`. */
    method Addition() returns (r: Option<Expr>)
      requires Valid()
      modifies this, lox
      ensures Ended(LevelAt(tokens, old(current), 2), r, old(lox.reports))
      decreases |tokens| - current, 3
    {
      ghost var start := current;
      var first := Multiplication();
      if first.None? {
        LevelFails(tokens, start, 2);
        return None;
      }
      LevelFolds(tokens, start, 2);
      var expr := first.value;
      ghost var at := current;
      var more := Match(AdditionOps);
      OpsMatch(tokens, at, 2);
      while more
        invariant Valid() && lox.reports == old(lox.reports) && start < at
        invariant current == (if more then at + 1 else at) && more == OperatorAt(tokens, at, 2)
        invariant FoldAt(tokens, expr, at, 2) == LevelAt(tokens, start, 2)
        decreases |tokens| - at
      {
        var next: Option<Expr>;
        next, more, at := AdditionRound(expr, at);
        if next.None? {
          return None;
        }
        expr := next.value;
      }
      FoldStops(tokens, expr, at, 2);
      return Some(expr);
    }

    /** One round of the loop of `addition`, after `match` took the
        operator at `at`: its operand, the tree extended on the left, and
        the next `match`. The fold's result does not change. */
    method AdditionRound(left: Expr, ghost at: nat) returns (r: Option<Expr>, more: bool, ghost next: nat)
      requires Valid() && current == at + 1 && OperatorAt(tokens, at, 2)
      modifies this, lox
      ensures r.None? ==> Ended(FoldAt(tokens, left, at, 2), r, old(lox.reports))
      ensures r.Some? ==>
        Valid() && lox.reports == old(lox.reports) && at < next &&
        current == (if more then next + 1 else next) && more == OperatorAt(tokens, next, 2) &&
        FoldAt(tokens, r.value, next, 2) == FoldAt(tokens, left, at, 2)
      decreases |tokens| - current, 3
    {
      var operator := Previous();
      var right := Multiplication();
      if right.None? {
        FoldFails(tokens, left, at, 2);
        return None, false, at;
      }
      FoldExtends(tokens, left, at, 2);
      next := current;
      more := Match(AdditionOps);
      OpsMatch(tokens, next, 2);
      return Some(Binary(left, operator, right.value)), more, next;
    }

    /** `multiplication`: unaries joined by `*` and `/`. */
    method Multiplication() returns (r: Option<Expr>)
      requires Valid()
      modifies this, lox
      ensures Ended(LevelAt(tokens, old(current), 1), r, old(lox.reports))
      decreases |tokens| - current, 2
    {
      ghost var start := current;
      var first := Unary();
      if first.None? {
        LevelFails(tokens, start, 1);
        return None;
      }
      LevelFolds(tokens, start, 1);
      var expr := first.value;
      ghost var at := current;
      var more := Match(MultiplicationOps);
      OpsMatch(tokens, at, 1);
      while more
        invariant Valid() && lox.reports == old(lox.reports) && start < at
        invariant current == (if more then at + 1 else at) && more == OperatorAt(tokens, at, 1)
        invariant FoldAt(tokens, expr, at, 1) == LevelAt(tokens, start, 1)
        decreases |tokens| - at
      {
        var next: Option<Expr>;
        next, more, at := MultiplicationRound(expr, at);
        if next.None? {
          return None;
        }
        expr := next.value;
      }
      FoldStops(tokens, expr, at, 1);
      return Some(expr);
    }

    /** One round of the loop of `multiplication`, after `match` took the
        operator at `at`: its operand, the tree extended on the left, and
        the next `match`. The fold's result does not change. */
    method MultiplicationRound(left: Expr, ghost at: nat) returns (r: Option<Expr>, more: bool, ghost next: nat)
      requires Valid() && current == at + 1 && OperatorAt(tokens, at, 1)
      modifies this, lox
      ensures r.None? ==> Ended(FoldAt(tokens, left, at, 1), r, old(lox.reports))
      ensures r.Some? ==>
        Valid() && lox.reports == old(lox.reports) && at < next &&
        current == (if more then next + 1 else next) && more == OperatorAt(tokens, next, 1) &&
        FoldAt(tokens, r.value, next, 1) == FoldAt(tokens, left, at, 1)
      decreases |tokens| - current, 2
    {
      var operator := Previous();
      var right := Unary();
      if right.None? {
        FoldFails(tokens, left, at, 1);
        return None, false, at;
      }
      FoldExtends(tokens, left, at, 1);
      next := current;
      more := Match(MultiplicationOps);
      OpsMatch(tokens, next, 1);
      return Some(Binary(left, operator, right.value)), more, next;
    }

    /** `unary`: one `-` or `!` at most, then a primary. */
    method Unary() returns (r: Option<Expr>)
      requires Valid()
      modifies this, lox
      ensures Ended(UnaryAt(tokens, old(current)), r, old(lox.reports))
      decreases |tokens| - current, 1
    {
      ghost var start := current;
      var negated := Match(UnaryOps);
      MatchTwo(tokens, start, Minus, Bang);
      if negated {
        var operator := Previous();
        var right := Primary();
        if right.None? {
          return None;
        }
        return Some(Expr.Unary(operator, right.value));
      }
      r := Primary();
    }

    /** `primary`: literals, a parenthesized expression, or the error. */
    method Primary() returns (r: Option<Expr>)
      requires Valid()
      modifies this, lox
      ensures Ended(PrimaryAt(tokens, old(current)), r, old(lox.reports))
      decreases |tokens| - current, 0
    {
      ghost var start := current;
      r := Literal();
      if r.Some? {
        return;
      }
      var m := Match([LeftParen]);
      MatchOne(tokens, start, LeftParen);
      if m {
        r := Group(start);
        return;
      }
      Error(Peek(), ExpectExpression);
      return None;
    }

    /** The cursor moved from `start` past the literal `r` of
        `LiteralAt`, or stayed when there is none. */
    ghost predicate Took(start: nat, r: Option<Expr>)
      reads this
    {
      OnTokens() && start < |tokens| && r == LiteralAt(tokens, start) &&
      current == if r.Some? then start + 1 else start
    }

    /** The literal branches of `primary`: `nil`, `true`, `false`, then a
        string or number token's own literal. Consumes the token it
        returns a literal for, and nothing otherwise. */
    method Literal() returns (r: Option<Expr>)
      requires OnTokens()
      modifies this`current
      ensures Took(old(current), r)
    {
      ghost var start := current;
      var m := Match([Nil]);
      MatchOne(tokens, start, Nil);
      if m {
        return Some(Expr.Literal(Null));
      }
      m := Match([True]);
      MatchOne(tokens, start, True);
      if m {
        return Some(Expr.Literal(Bool(true)));
      }
      m := Match([False]);
      MatchOne(tokens, start, False);
      if m {
        return Some(Expr.Literal(Bool(false)));
      }
      m := Match([String, Number]);
      MatchTwo(tokens, start, String, Number);
      if m {
        return Some(Expr.Literal(Previous().literal));
      }
      return None;
    }

    /** The parenthesized branch of `primary`, after `(`: the expression,
        then the closing parenthesis. */
    method Group(ghost open: nat) returns (r: Option<Expr>)
      requires Valid() && current == open + 1 && CheckAt(tokens, open, LeftParen)
      modifies this, lox
      ensures Ended(PrimaryAt(tokens, open), r, old(lox.reports))
      decreases |tokens| - current, 7
    {
      var inner := Expression();
      if inner.None? {
        GroupFails(tokens, open);
        return None;
      }
      GroupEnds(tokens, open);
      var closing := Consume(RightParen, ExpectRightParen);
      if closing.None? {
        return None;
      }
      return Some(Grouping(inner.value));
    }

    /** `match` at `start` gave `matched` and moved the cursor past the
        token it consumed. */
    ghost predicate Matched(start: nat, kinds: seq<TokenType>, matched: bool)
      reads this
    {
      OnTokens() && start < |tokens| && matched == MatchAt(tokens, start, kinds) &&
      current == if matched then start + 1 else start
    }

    /** Tries the kinds in order; consumes one token when one of them is
        the current token's kind, and nothing otherwise. */
    method Match(kinds: seq<TokenType>) returns (matched: bool)
      requires OnTokens()
      modifies this`current
      ensures Matched(old(current), kinds, matched)
    {
      for i := 0 to |kinds|
        invariant current == old(current)
        invariant !MatchAt(tokens, current, kinds[..i])
      {
        if Check(kinds[i]) {
          var _ := Advance();
          return true;
        }
      }
      assert kinds[..|kinds|] == kinds;
      return false;
    }

    /** Moves on unless at EOF and returns the token before the cursor
        (JavaScript's undefined, here None, when there is none). */
    method Advance() returns (t: Option<Token>)
      requires OnTokens()
      modifies this`current
      ensures OnTokens()
      ensures current == if tokens[old(current)].kind == Eof then old(current) else old(current) + 1
      ensures t == if current > 0 then Some(tokens[current - 1]) else None
    {
      if !IsEnd() {
        current := current + 1;
      }
      t := if current > 0 then Some(Previous()) else None;
    }

    /** The expected token is consumed and returned, or the error is
        reported at the current token. */
    method Consume(kind: TokenType, message: string) returns (t: Option<Token>)
      requires Valid()
      modifies this, lox
      ensures Valid()
      ensures CheckAt(tokens, old(current), kind) ==>
        current == old(current) + 1 && t == Some(tokens[old(current)]) && lox.reports == old(lox.reports)
      ensures !CheckAt(tokens, old(current), kind) ==>
        current == old(current) && t == None && lox.reports == old(lox.reports) + [AtToken(tokens[current], message)]
    {
      if Check(kind) {
        t := Advance();
        return;
      }
      Error(Peek(), message);
      return None;
    }

    function Check(kind: TokenType): (b: bool)
      requires current < |tokens|
      reads this
      ensures b == CheckAt(tokens, current, kind)
    {
      if IsEnd() then false else Peek().kind == kind
    }

    function Peek(): Token
      requires current < |tokens|
      reads this
    {
      tokens[current]
    }

    function Previous(): Token
      requires 0 < current <= |tokens|
      reads this
    {
      tokens[current - 1]
    }

    function IsEnd(): bool
      requires current < |tokens|
      reads this
    {
      Peek().kind == Eof
    }

    /** Reports at a token through `errorFrom`. */
    method Error(token: Token, message: string)
      requires lox.Valid()
      modifies lox
      ensures lox.Valid()
      ensures lox.reports == old(lox.reports) + [AtToken(token, message)]
    {
      lox.ErrorFrom(token, message);
    }
  }
}
