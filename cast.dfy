/** The syntax tree of the C port (src/ast.h): the expression and statement nodes `struct ast`
    stands for, with the pointers the parser fills in replaced by the nodes they point to. */
module CAst {
  import opened Wrappers
  import opened Tokens

  /** `struct ast`, one constructor per `enum ast_type` member. A number keeps the lexeme that
      `atof` converts; an if without an else block has `elseBlock == None`, which the C code
      leaves unset. `Error` is the error node the printer's check handles (`AST_ERROR`,
      `ast->error.message`), which src/ast.h does not declare: the model puts one where
      `expr_primary` finds no expression and returns NULL. A routine's `title` (its name)
      is None when no identifier follows `routine`. */
  datatype CNode =
    | Binary(op: Token, left: CNode, right: CNode)
    | Unary(op: Token, operand: CNode)
    | Number(lexeme: string)
    | String(value: string)
    | Variable(name: string)
    | Call(callee: string, args: seq<CNode>)
    | ExprStmt(expr: CNode)
    | Block(stmts: seq<CNode>)
    | If(cond: CNode, thenBlock: CNode, elseBlock: Option<CNode>)
    | While(cond: CNode, body: CNode)
    | Routine(title: Option<string>, params: seq<string>, body: CNode)
    | Error(message: string)

  /** The expression kinds, `AST_EXPR_BINARY` to `AST_EXPR_CALL`. */
  predicate IsExpression(n: CNode) {
    n.Binary? || n.Unary? || n.Number? || n.String? || n.Variable? || n.Call?
  }

  /** A tree of expression nodes only (error nodes included), as the expression parser builds. */
  predicate ExpressionTree(n: CNode) {
    match n
    case Binary(_, l, r) => ExpressionTree(l) && ExpressionTree(r)
    case Unary(_, x) => ExpressionTree(x)
    case Call(_, args) => forall i :: 0 <= i < |args| ==> ExpressionTree(args[i])
    case Number(_) => true
    case String(_) => true
    case Variable(_) => true
    case Error(_) => true
    case _ => false
  }
}
