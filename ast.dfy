/** The abstract syntax tree built by the parser and walked by the interpreter
    (compiler.cpp:155-453 and the node classes the parser and interpreter use). */
module Ast {
  import opened Wrappers

  /** A number of the language. The source stores a `double`; the model uses
      unbounded integers, and every operation that is not exact on integers
      goes through the `Host` record of module Values. */
  type Number = int

  datatype Expr =
    | NumberLiteral(num: Number)
    | StringLiteral(str: string)
    | Identifier(name: string)
    | BinaryOperation(left: Expr, op: string, right: Expr)
    | FunctionCall(callee: string, args: seq<Expr>)
    | ArrayLiteral(elements: seq<Expr>)
    | MapLiteral(pairs: seq<Pair>)
    | ArrayAccess(target: Expr, index: Expr)
    | MapAccess(target: Expr, key: string)

  /** One `"key": value` entry of a map literal, in source order. */
  datatype Pair = Pair(key: string, value: Expr)

  datatype Stmt =
    | VariableDeclaration(name: string, initializer: Expr)
    | Assignment(target: string, value: Expr)
    | Print(expr: Expr)
    | Block(stmts: seq<Stmt>)
    | If(cond: Expr, thenBranch: Stmt, elseBranch: Option<Stmt>)
    | While(cond: Expr, body: Stmt)
    | For(init: Option<Stmt>, loopCond: Option<Expr>, update: Option<Stmt>, body: Stmt)
    | FunctionDeclaration(decl: FunctionDecl)
    | Return(result: Option<Expr>)

  /** A function declaration; its body is the statement list of the block that
      the parser reads after the parameter list. */
  datatype FunctionDecl = FunctionDecl(name: string, params: seq<string>, body: seq<Stmt>)

  /** The root of the tree: the top-level statements in source order. */
  datatype Program = Program(stmts: seq<Stmt>)
}
