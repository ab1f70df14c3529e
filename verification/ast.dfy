/** Abstract syntax as the parser builds it, and the resolver's tables. */
module Ast {
  import opened Values

  datatype List<T> = Nil | Cons(head: T, tail: List<T>)

  datatype Op = Or | Xor | And | Bin(op: BinOp)

  datatype Expr =
    | Ident(id: nat, name: string)
    | Int(id: nat, val: nat)
    | Str(id: nat, text: string)
    | Call(id: nat, callee: Expr, args: List<Expr>)
    | Not(id: nat, operand: Expr)
    | Negate(id: nat, operand: Expr)
    | Binary(id: nat, op: Op, left: Expr, right: Expr)

  type Block = List<Stmt>

  datatype Stmt =
    | Let(id: nat, name: string, init: Option<Expr>)
    | Loop(id: nat, body: Block)
    | While(id: nat, cond: Expr, body: Block)
    | If(id: nat, cond: Expr, truthy: Block, falsy: Option<Block>)
    | Return(id: nat, value: Option<Expr>)
    | Break(id: nat)
    | Assign(id: nat, subject: Expr, value_: Expr)
    | ExprStmt(id: nat, expr: Expr)

  /** A top-level function; `extern` is the `c_function` attribute, whose body is never run. */
  datatype FnDecl = FnDecl(name: string, params: seq<string>, extern: bool, body: Block)

  /** Functions are named by their position in the program. */
  type Program = seq<FnDecl>

  /** What a name means: a function, the i-th parameter, the `let` with that id, a loop. */
  datatype Resolve = ToFn(f: nat) | ToParam(i: nat) | ToLet(id: nat) | ToLoop(id: nat)

  /** The resolver's two tables, keyed by statement id and by expression id. */
  datatype Resols = Resols(stmts: map<nat, Resolve>, exprs: map<nat, Resolve>)

  function Length<T>(xs: List<T>): nat {
    match xs
    case Nil => 0
    case Cons(_, tail) => 1 + Length(tail)
  }

  /** Ids of the `let` statements in a statement, at any depth. */
  function Lets(s: Stmt): set<nat> {
    match s
    case Let(id, _, _) => {id}
    case Loop(_, body) => BlockLets(body)
    case While(_, _, body) => BlockLets(body)
    case If(_, _, truthy, falsy) =>
      BlockLets(truthy) + (if falsy.Some? then BlockLets(falsy.value) else {})
    case _ => {}
  }

  function BlockLets(b: Block): set<nat> {
    match b
    case Nil => {}
    case Cons(s, rest) => Lets(s) + BlockLets(rest)
  }
}
