/**
 The typed intermediate representation that the control-flow passes read
 (src/hir.rs): places, expressions and structured statements.  Type ids and
 source locations are dropped; symbols are their source names.
 */
module Hir {
  import opened Wrappers

  /** Binary operators, src/ast.rs:451-467. */
  datatype BinOp =
    | Add | Sub | Mul | RealDiv | IntDiv | Mod
    | And | Or
    | Eq | Ne | Lt | Le | Gt | Ge
    | In

  /** The root of a designator: a local, a global, an inlined constant or a procedure. */
  datatype PlaceBase = Local(name: string) | Global(name: string) | Constant | FuncRef(name: string)

  datatype Projection =
    | Field(index: nat)
    | Index(index_expr: Expr)
    | DerefProj
    | VariantField(variant: nat, field: nat)
    | TransferProj(operand: Expr)

  datatype Place = Place(base: PlaceBase, projections: seq<Projection>)

  datatype Expr =
    | IntLit(n: int)
    | Literal(text: string)                       // real, string, character and boolean literals
    | NilLit
    | PlaceExpr(place: Place)
    | DirectCall(target: string, args: seq<Expr>)
    | IndirectCall(callee: Expr, args: seq<Expr>)
    | UnaryOp(op_name: string, operand: Expr)
    | BinaryOp(op: BinOp, left: Expr, right: Expr)
    | SetConstructor(elements: seq<SetElement>)
    | Not(operand: Expr)
    | Deref(operand: Expr)
    | AddrOf(place: Place)
    | TypeTransfer(operand: Expr)

  datatype SetElement = Single(e: Expr) | Range(lo: Expr, hi: Expr)

  datatype Direction = Up | Down

  datatype CallTarget = Direct(name: string) | Indirect(callee: Expr)

  /** One label of a CASE branch, or one type of a TYPECASE branch. */
  datatype CaseLabel = SingleLabel(e: Expr) | RangeLabel(lo: Expr, hi: Expr) | TypeLabel(sym: string)

  datatype Stmt =
    | Empty
    | Assign(target: Place, value: Expr)
    | ProcCall(callee: CallTarget, args: seq<Expr>)
    | If(cond: Expr, thenBody: seq<Stmt>, tail: ElseTail)
    | While(cond: Expr, body: seq<Stmt>)
    | Loop(body: seq<Stmt>)
    | Exit
    | Repeat(body: seq<Stmt>, cond: Expr)
    | For(control: string, start: Expr, limit: Expr, step: Option<Expr>, dir: Direction, body: seq<Stmt>)
    | Case(sel: Expr, branches: seq<Branch>, elseBody: OptBody)
    | Try(body: seq<Stmt>, clauses: seq<Clause>, finallyBody: OptBody)
    | Raise(exn: Option<Expr>)
    | Return(expr: Option<Expr>)

  /** An optional ELSE or FINALLY part. */
  datatype OptBody = NoBody | Body(stmts: seq<Stmt>)

  /** What follows the THEN part: ELSIF parts, then an optional ELSE. */
  datatype ElseTail =
    | NoElse
    | Else(elseBody: seq<Stmt>)
    | Elsif(cond: Expr, body: seq<Stmt>, rest: ElseTail)

  /** A CASE branch (no binding), or a TYPECASE branch with its optional binding variable. */
  datatype Branch = Branch(labels: seq<CaseLabel>, bind: Option<string>, body: seq<Stmt>)

  /** An EXCEPT clause; no exception name means it catches everything. */
  datatype Clause = Clause(exception: Option<string>, body: seq<Stmt>)

  /** Statements that a basic block may hold and that do not steer control. */
  predicate IsPrim(s: Stmt) {
    s.Assign? || s.ProcCall?
  }

  function LocalPlace(name: string): Place {
    Place(Local(name), [])
  }

  function LocalExpr(name: string): Expr {
    PlaceExpr(LocalPlace(name))
  }
}
