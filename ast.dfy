/** The syntax tree node classes of src/ast-types.js (the parser's own
    identical copies at src/parser.js:1-32 are the same four expression
    classes). Each constructor only stores its arguments, so each class is a
    datatype constructor with those fields. */
module Ast {
  import opened Values
  import opened Tokens

  /** `Expr` and its subclasses. `Absent` is JavaScript's undefined,
      which `primary` returns when no rule applies and which the binary
      loops then store as an operand like any other expression. */
  datatype Expr =
    | Binary(left: Expr, operator: Token, right: Expr)
    | Grouping(expression: Expr)
    | Literal(value: Value)
    | Unary(operator: Token, right: Expr)
    | Absent

  /** `Stmt` and its subclasses: both wrap one expression. */
  datatype Stmt =
    | Print(expr: Expr)
    | Expression(expr: Expr)

  /** `Declaration`: a separate base class, not a `Stmt`. */
  datatype Declaration =
    | VarDecl(name: Token, initializer: Expr)

  /** Anything `evaluate` may be handed in its statement list. */
  datatype Node =
    | ExprNode(expr: Expr)
    | StmtNode(stmt: Stmt)
    | DeclNode(decl: Declaration)
}
