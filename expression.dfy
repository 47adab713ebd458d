/** The expression tree built by the parser, read by the evaluator and by the
    tree printer. Each node owns its children; operator nodes keep the operator
    token so that runtime errors can name its line. */
module Syntax {
  import opened Wrappers
  import opened Tokens

  datatype Expr =
    | Binary(left: Expr, operator: Token, right: Expr)
    | Grouping(expression: Expr)
    | Literal(value: Option<Tokens.Literal>)
    | Unary(operator: Token, right: Expr)
    | Ternary(condition: Expr, thenBranch: Expr, elseBranch: Expr)
}
