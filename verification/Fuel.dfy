/** Fuel only bounds the number of loop turns: more of it never changes a finished outcome. */
module Fuel {
  import opened Hir
  import opened Lowering
  import opened Semantics

  lemma {:induction false} MoreFuel<S>(I: Interp<S>, ss: seq<Stmt>, st: State<S>, f: nat, g: nat)
    requires f <= g && !ExecStmts(I, ss, st, f).OutOfFuel?
    ensures ExecStmts(I, ss, st, g) == ExecStmts(I, ss, st, f)
    decreases f, ss, 0
  {
    hide ExecStmt;
    if ss != [] {
      MoreStmt(I, ss[0], st, f, g);
      match ExecStmt(I, ss[0], st, f)
      case Normal(st1) => MoreFuel(I, ss[1..], st1, f, g);
      case _ =>
    }
  }

  lemma {:induction false} MoreStmt<S>(I: Interp<S>, s: Stmt, st: State<S>, f: nat, g: nat)
    requires f <= g && !ExecStmt(I, s, st, f).OutOfFuel?
    ensures ExecStmt(I, s, st, g) == ExecStmt(I, s, st, f)
    decreases f, s, 2
  {
    hide ExecStmts, ExecTail, ExecWhile, ExecLoop, ExecRepeat, ExecFor, ExecHandlers, ExecPrims, FirstHit;
    match s {
      case If(cond, thenBody, tail) =>
        match EvalCond(I, cond, st) {
          case Val(v, st1) => if v != 0 { MoreFuel(I, thenBody, st1, f, g); } else { MoreTail(I, tail, st1, f, g); }
          case Throw(_, _) =>
        }
      case While(_, _) => MoreWhile(I, s, st, f, g);
      case Loop(_) => MoreLoop(I, s, st, f, g);
      case Repeat(_, _) => MoreRepeat(I, s, st, f, g);
      case For(_, _, _, _, _, _) =>
        match PrimOf(I, ForStart(s), st) {
          case Normal(st1) => MoreFor(I, s, st1, f, g);
          case _ =>
        }
      case Case(_, _, _) => MoreCase(I, s, st, f, g);
      case Try(_, _, _) => MoreTry(I, s, st, f, g);
      case _ =>
    }
  }

  lemma {:induction false} MoreCase<S>(I: Interp<S>, s: Stmt, st: State<S>, f: nat, g: nat)
    requires s.Case? && f <= g && !ExecStmt(I, s, st, f).OutOfFuel?
    ensures ExecStmt(I, s, st, g) == ExecStmt(I, s, st, f)
    decreases f, s, 1
  {
    hide ExecStmts, ExecPrims, FirstHit;
    match EvalExpr(I, s.sel, st) {
      case Val(v, st1) =>
        var k := FirstHit(I, s.branches, v, st1);
        if k < |s.branches| {
          match BindOf(I, s.sel, s.branches[k], st1) {
            case Normal(st2) => MoreFuel(I, s.branches[k].body, st2, f, g);
            case _ =>
          }
        } else {
          match s.elseBody {
            case Body(ss) => MoreFuel(I, ss, st1, f, g);
            case NoBody =>
          }
        }
      case Throw(_, _) =>
    }
  }

  lemma {:induction false} MoreTry<S>(I: Interp<S>, s: Stmt, st: State<S>, f: nat, g: nat)
    requires s.Try? && f <= g && !ExecStmt(I, s, st, f).OutOfFuel?
    ensures ExecStmt(I, s, st, g) == ExecStmt(I, s, st, f)
    decreases f, s, 1
  {
    hide ExecStmts, ExecHandlers, ExecPrims;
    MoreFuel(I, s.body, st, f, g);
    match ExecStmts(I, s.body, st, f) {
      case Raised(x, st1) => MoreHandlers(I, s.clauses, s.finallyBody, st1.(pending := x), f, g);
      case _ =>
    }
  }

  lemma {:induction false} MoreHandlers<S>(I: Interp<S>, cs: seq<Clause>, fin: OptBody, st: State<S>, f: nat, g: nat)
    requires f <= g && !ExecHandlers(I, cs, fin, st, f).OutOfFuel?
    ensures ExecHandlers(I, cs, fin, st, g) == ExecHandlers(I, cs, fin, st, f)
    decreases f, cs
  {
    hide ExecStmts, FirstCatch;
    var m := FirstCatch(I, cs, st);
    if m < |cs| { MoreFuel(I, cs[m].body, st, f, g); }
  }

  lemma {:induction false} MoreTail<S>(I: Interp<S>, t: ElseTail, st: State<S>, f: nat, g: nat)
    requires f <= g && !ExecTail(I, t, st, f).OutOfFuel?
    ensures ExecTail(I, t, st, g) == ExecTail(I, t, st, f)
    decreases f, t
  {
    hide ExecStmts;
    match t {
      case NoElse =>
      case Else(body) => MoreFuel(I, body, st, f, g);
      case Elsif(cond, body, rest) =>
        match EvalCond(I, cond, st) {
          case Val(v, st1) => if v != 0 { MoreFuel(I, body, st1, f, g); } else { MoreTail(I, rest, st1, f, g); }
          case Throw(_, _) =>
        }
    }
  }

  lemma {:induction false} MoreWhile<S>(I: Interp<S>, s: Stmt, st: State<S>, f: nat, g: nat)
    requires s.While? && f <= g && !ExecWhile(I, s, st, f).OutOfFuel?
    ensures ExecWhile(I, s, st, g) == ExecWhile(I, s, st, f)
    decreases f, s, 1
  {
    hide ExecStmts;
    match EvalCond(I, s.cond, st) {
      case Val(v, st1) =>
        if v != 0 {
          MoreFuel(I, s.body, st1, f - 1, g - 1);
          match ExecStmts(I, s.body, st1, f - 1) {
            case Normal(st2) => MoreWhile(I, s, st2, f - 1, g - 1);
            case _ =>
          }
        }
      case Throw(_, _) =>
    }
  }

  lemma {:induction false} MoreLoop<S>(I: Interp<S>, s: Stmt, st: State<S>, f: nat, g: nat)
    requires s.Loop? && f <= g && !ExecLoop(I, s, st, f).OutOfFuel?
    ensures ExecLoop(I, s, st, g) == ExecLoop(I, s, st, f)
    decreases f, s, 1
  {
    hide ExecStmts;
    MoreFuel(I, s.body, st, f - 1, g - 1);
    match ExecStmts(I, s.body, st, f - 1) {
      case Normal(st1) => MoreLoop(I, s, st1, f - 1, g - 1);
      case _ =>
    }
  }

  lemma {:induction false} MoreRepeat<S>(I: Interp<S>, s: Stmt, st: State<S>, f: nat, g: nat)
    requires s.Repeat? && f <= g && !ExecRepeat(I, s, st, f).OutOfFuel?
    ensures ExecRepeat(I, s, st, g) == ExecRepeat(I, s, st, f)
    decreases f, s, 1
  {
    hide ExecStmts;
    MoreFuel(I, s.body, st, f - 1, g - 1);
    match ExecStmts(I, s.body, st, f - 1) {
      case Normal(st1) =>
        match EvalCond(I, s.cond, st1) {
          case Val(v, st2) => if v == 0 { MoreRepeat(I, s, st2, f - 1, g - 1); }
          case Throw(_, _) =>
        }
      case _ =>
    }
  }

  lemma {:induction false} MoreFor<S>(I: Interp<S>, s: Stmt, st: State<S>, f: nat, g: nat)
    requires s.For? && f <= g && !ExecFor(I, s, st, f).OutOfFuel?
    ensures ExecFor(I, s, st, g) == ExecFor(I, s, st, f)
    decreases f, s, 1
  {
    hide ExecStmts;
    match EvalExpr(I, ForTest(s), st) {
      case Val(v, st1) =>
        if v != 0 {
          MoreFuel(I, s.body, st1, f - 1, g - 1);
          match ExecStmts(I, s.body, st1, f - 1) {
            case Normal(st2) =>
              match PrimOf(I, ForNext(s), st2) {
                case Normal(st3) => MoreFor(I, s, st3, f - 1, g - 1);
                case _ =>
              }
            case _ =>
          }
        }
      case Throw(_, _) =>
    }
  }
}
