/** The expression tree of src/parser/ast.ts. Each node class there has
    only `readonly` fields set by its constructor, so the tree is a value:
    one datatype whose twelve variants are the twelve `visit…Expr` methods
    of `Visitor`. `Logical` has `Binary`'s fields but is its own variant. */
module Ast {
  import opened Tokens

  datatype Expr =
    | Assign(name: Token, newValue: Expr)
    | Binary(left: Expr, operator: Token, right: Expr)
    | Call(callee: Expr, paren: Token, args: seq<Expr>)
    | Get(obj: Expr, name: Token)
    | Grouping(expression: Expr)
    | Literal(value: Value)
    | Logical(left: Expr, operator: Token, right: Expr)
    | Set(obj: Expr, name: Token, newValue: Expr)
    | Super(keyword: Token, methodName: Token)
    | This(keyword: Token)
    | Unary(operator: Token, right: Expr)
    | Variable(name: Token)

  /** The sub-expressions a node holds in its `Expr`-typed fields, in field
      order. Each is a strictly smaller tree, since a node is built from
      children that already exist and is never changed afterwards: no node
      contains itself. Exactly `Literal`, `Super`, `This` and `Variable`
      hold none. */
  function Children(e: Expr): (cs: seq<Expr>)
    ensures forall c :: c in cs ==> c < e
    ensures cs == [] <==> e.Literal? || e.Super? || e.This? || e.Variable?
  {
    match e
    case Assign(_, newValue) => [newValue]
    case Binary(left, _, right) => [left, right]
    case Call(callee, _, args) => [callee] + args
    case Get(obj, _) => [obj]
    case Grouping(expression) => [expression]
    case Literal(_) => []
    case Logical(left, _, right) => [left, right]
    case Set(obj, _, newValue) => [obj, newValue]
    case Super(_, _) => []
    case This(_) => []
    case Unary(_, right) => [right]
    case Variable(_) => []
  }

  /** `Logical` holds exactly `Binary`'s fields, yet a logical node is never
      equal to the binary node with the same fields. */
  lemma LogicalIsNotBinary(left: Expr, operator: Token, right: Expr)
    ensures Logical(left, operator, right) != Binary(left, operator, right)
    ensures Children(Logical(left, operator, right)) == Children(Binary(left, operator, right))
  {
  }
}
