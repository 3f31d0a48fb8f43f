/**
 Lowering preserves meaning: the graph built from a statement list does what
 the statements do, for every interpretation of the leaves.
 */
module Simulation {
  import opened Wrappers
  import opened Hir
  import opened Cfg
  import opened Lowering
  import opened Protocol
  import opened Semantics

  // ----- which bodies -----

  /**
   What the graph needs to mean what the lowered statements do: conditions that no
   exception shares its name with, FINALLY parts that are straight-line, EXCEPT
   clauses that name declared exceptions, and, for a TRY inside the body of a
   TRY, a catch-all and clause bodies that are quiet.
   */
  predicate PlainStmts(ss: seq<Stmt>, names: set<string>, inTry: bool)
    decreases ss, 0
  {
    ss == [] || (PlainStmt(ss[0], names, inTry) && (FallsStmt(ss[0]) ==> PlainStmts(ss[1..], names, inTry)))
  }

  predicate PlainStmt(s: Stmt, names: set<string>, inTry: bool)
    decreases s, 1
  {
    match s
    case If(cond, thenBody, tail) =>
      PlainCond(cond, names) && PlainStmts(thenBody, names, inTry) && PlainTail(tail, names, inTry)
    case While(cond, body) => PlainCond(cond, names) && PlainStmts(body, names, inTry)
    case Loop(body) => PlainStmts(body, names, inTry)
    case Repeat(body, cond) => PlainCond(cond, names) && PlainStmts(body, names, inTry)
    case For(_, _, _, _, _, body) => PlainStmts(body, names, inTry)
    case Case(_, brs, els) =>
      PlainBranches(brs, names, inTry) && (els.Body? ==> PlainStmts(els.stmts, names, inTry))
    case Try(body, clauses, fin) =>
      && PlainStmts(body, names, true)
      && Declared(clauses, names) && PlainClauses(clauses, names, inTry)
      && (inTry ==> CatchesAll(clauses))
      && StraightLine(OptStmts(fin))
    case _ => true
  }

  /** No leaf of the condition names an exception. */
  predicate PlainCond(e: Expr, names: set<string>) {
    if e.BinaryOp? && (e.op.And? || e.op.Or?) then PlainCond(e.left, names) && PlainCond(e.right, names)
    else if e.Not? then PlainCond(e.operand, names)
    else !NamesException(e, names)
  }

  predicate StraightLine(ss: seq<Stmt>) {
    forall i :: 0 <= i < |ss| ==> IsPrim(ss[i])
  }

  predicate PlainTail(t: ElseTail, names: set<string>, inTry: bool)
    decreases t
  {
    match t
    case NoElse => true
    case Else(body) => PlainStmts(body, names, inTry)
    case Elsif(cond, body, rest) =>
      PlainCond(cond, names) && PlainStmts(body, names, inTry) && PlainTail(rest, names, inTry)
  }

  predicate PlainBranches(brs: seq<Branch>, names: set<string>, inTry: bool)
    decreases brs
  {
    brs == [] || (PlainStmts(brs[0].body, names, inTry) && PlainBranches(brs[1..], names, inTry))
  }

  predicate PlainClauses(cs: seq<Clause>, names: set<string>, inTry: bool)
    decreases cs
  {
    cs == [] || (
      && PlainStmts(cs[0].body, names, inTry)
      && (inTry ==> Quiet(cs[0].body))
      && PlainClauses(cs[1..], names, inTry))
  }

  predicate Declared(cs: seq<Clause>, names: set<string>) {
    forall i :: 0 <= i < |cs| && cs[i].exception.Some? ==> cs[i].exception.value in names
  }

  predicate CatchesAll(cs: seq<Clause>) {
    cs != [] && cs[|cs| - 1].exception.None?
  }

  /** The block in which the statements start gets nothing that can raise. */
  predicate Quiet(ss: seq<Stmt>) {
    ss == [] || (if ss[0].Empty? then Quiet(ss[1..]) else QuietStmt(ss[0]))
  }

  predicate QuietStmt(s: Stmt) {
    s.Empty? || s.While? || s.Loop? || s.Repeat? || s.Try? || s.Exit? || s == Return(None)
  }

  // ----- where a run goes -----

  /** The finished graph c holds everything that b has built so far. */
  ghost predicate Completes(b: Builder, c: seq<Block>) {
    && |b.blocks| <= |c|
    && forall i :: 0 <= i < |b.blocks| ==>
         && c[i].handler == b.blocks[i].handler
         && b.blocks[i].stmts <= c[i].stmts
         && (!Open(b.blocks[i]) ==> c[i] == b.blocks[i])
  }

  lemma {:induction false} CompletesBack(b: Builder, b': Builder, k: BlockId, c: seq<Block>)
    requires Frame(b, b', k) && Completes(b', c) && (k < |b.blocks| ==> Open(b.blocks[k]))
    ensures Completes(b, c)
  {
  }

  /** The builder's open position, as a configuration of the graph. */
  function Here<S>(b: Builder, st: State<S>): Config<S>
    requires b.current.Some? && b.current.value < |b.blocks|
  {
    At(b.current.value, |b.blocks[b.current.value].stmts|, st)
  }

  /** Where control continues after each kind of outcome. */
  datatype Route = Route(normal: Option<(BlockId, nat)>, exit: Option<BlockId>, handler: Option<BlockId>)

  function Dest<S>(r: Route, o: Outcome<S>): Option<Config<S>> {
    match o
    case Normal(st) => if r.normal.Some? then Some(At(r.normal.value.0, r.normal.value.1, st)) else None
    case Exited(st) => if r.exit.Some? then Some(At(r.exit.value, 0, st)) else None
    case Returned(v, st) => Some(Done(v, st))
    case Raised(x, st) => Some(ThrowTo(r.handler, x, st))
    case OutOfFuel => None
  }

  /** From k the graph goes where the outcome says, or runs for n steps if fuel ran out. */
  ghost predicate Goes<S>(I: Interp<S>, c: seq<Block>, k: Config<S>, o: Outcome<S>, r: Route, n: nat) {
    if o.OutOfFuel? then Lives(I, c, k, n)
    else Dest(r, o).Some? && Leads(I, c, k, Dest(r, o).value)
  }

  lemma {:induction false} GoesAfter<S>(I: Interp<S>, c: seq<Block>, k: Config<S>, k': Config<S>, o: Outcome<S>,
          r: Route, n: nat)
    requires Leads(I, c, k, k') && Goes(I, c, k', o, r, n)
    ensures Goes(I, c, k, o, r, n)
  {
    if o.OutOfFuel? {
      LeadsLives(I, c, k, k', n);
    } else {
      LeadsTrans(I, c, k, k', Dest(r, o).value);
    }
  }

  /** At least one step earlier, one more step to live. */
  lemma {:induction false} GoesAfter1<S>(I: Interp<S>, c: seq<Block>, k: Config<S>, k': Config<S>, o: Outcome<S>,
          r: Route, n: nat)
    requires Leads1(I, c, k, k') && Goes(I, c, k', o, r, n)
    ensures Goes(I, c, k, o, r, n + 1)
  {
    Leads1Leads(I, c, k, k');
    if o.OutOfFuel? {
      Leads1Lives(I, c, k, k', n);
    } else {
      LeadsTrans(I, c, k, k', Dest(r, o).value);
    }
  }

  lemma {:induction false} GoesLess<S>(I: Interp<S>, c: seq<Block>, k: Config<S>, o: Outcome<S>, r: Route, n: nat,
          m: nat)
    requires Goes(I, c, k, o, r, n) && m <= n
    ensures Goes(I, c, k, o, r, m)
  {
    if o.OutOfFuel? { LivesLess(I, c, k, m, n); }
  }

  function RouteOf(b: Builder, b': Builder): Route {
    Route(if b'.current.Some? && b'.current.value < |b'.blocks|
          then Some((b'.current.value, |b'.blocks[b'.current.value].stmts|)) else None,
          Last(b.exits), Last(b.handlers))
  }

  function Onward(b: Builder, next: BlockId): Route {
    Route(Some((next, 0)), Last(b.exits), Last(b.handlers))
  }

  /** The builder is mid-block. */
  ghost predicate Poised(b: Builder, P: set<BlockId>) {
    Inv(b, P) && b.current.Some? && b.current.value < |b.blocks|
  }

  /** The open block is under the innermost handler, as all are but those that lower_try allocates without one. */
  predicate Under(b: Builder) {
    b.current.Some? && b.current.value < |b.blocks| && b.blocks[b.current.value].handler == Last(b.handlers)
  }

  ghost predicate Ready(b: Builder, P: set<BlockId>) {
    Poised(b, P) && Under(b)
  }

  // ----- steps -----

  /** Running the terminator just sealed. */
  lemma {:induction false} SealStep<S>(I: Interp<S>, c: seq<Block>, b: Builder, t: Terminator, st: State<S>)
    requires b.current.Some? && b.current.value < |b.blocks| && Open(b.blocks[b.current.value])
    requires Completes(Seal(b, t), c)
    ensures Step(I, c, Here(b, st)) == StepTerm(I, b.blocks[b.current.value].handler, t, st)
    ensures Leads1(I, c, Here(b, st), StepTerm(I, b.blocks[b.current.value].handler, t, st))
  {
    var b' := Seal(b, t);
    assert c[b.current.value] == b'.blocks[b.current.value];
    LeadsRefl(I, c, Step(I, c, Here(b, st)));
  }

  // ----- conditions -----

  ghost predicate CondGoes<S>(I: Interp<S>, c: seq<Block>, k: Config<S>, r: Eval<State<S>>, t: BlockId, f: BlockId,
          h: Option<BlockId>) {
    match r
    case Val(v, st) => Leads1(I, c, k, At(if v != 0 then t else f, 0, st))
    case Throw(x, st) => Leads1(I, c, k, ThrowTo(h, x, st))
  }

  lemma {:induction false} CondAfter<S>(I: Interp<S>, c: seq<Block>, k: Config<S>, k': Config<S>, r: Eval<State<S>>,
          t: BlockId, f: BlockId, h: Option<BlockId>)
    requires Leads1(I, c, k, k') && CondGoes(I, c, k', r, t, f, h)
    ensures CondGoes(I, c, k, r, t, f, h)
  {
    var d := match r case Val(v, st) => At(if v != 0 then t else f, 0, st) case Throw(x, st) => ThrowTo(h, x, st);
    Leads1Leads(I, c, k', d);
    LeadsLeads1(I, c, k, k', d);
  }

  /** The builder before each operand of AND or OR. */
  lemma {:induction false} CondStages(b: Builder, e: Expr, t: BlockId, f: BlockId, c: seq<Block>, P: set<BlockId>)
    returns (b1: Builder, b3: Builder, t1: BlockId, f1: BlockId)
    requires Poised(b, P) && Landed(b, t, P) && Landed(b, f, P) && e.BinaryOp? && (e.op.And? || e.op.Or?)
    requires Completes(LowerCond(b, e, t, f), c)
    ensures var rhs, Q := |b.blocks|, P + {|b.blocks|};
      && t1 == (if e.op.And? then rhs else t) && f1 == (if e.op.And? then f else rhs)
      && Poised(b1, Q) && SameStacks(b, b1) && b1.current == b.current
      && b1.blocks[b.current.value] == b.blocks[b.current.value]
      && Landed(b1, t1, Q) && Landed(b1, f1, Q)
      && Ready(b3, Q) && SameStacks(b, b3) && b3.current == Some(rhs) && b3.blocks[rhs].stmts == []
      && Landed(b3, t, Q) && Landed(b3, f, Q)
    ensures Completes(LowerCond(b1, e.left, t1, f1), c) && Completes(LowerCond(b3, e.right, t, f), c)
  {
    hide Inv, Landed;
    InvFacts(b, P);
    var rhs := |b.blocks|;
    t1, f1 := if e.op.And? then rhs else t, if e.op.And? then f else rhs;
    AndOrInv(b, e, t1, f1, t, f, P);
    b1 := NewBlock(b);
    var b2 := LowerCond(b1, e.left, t1, f1);
    b3 := Start(b2, rhs);
    CompletesBack(b3, LowerCond(b3, e.right, t, f), rhs, c);
  }

  /**
   Short-circuit lowering: control reaches `t` exactly when the condition is
   true and `f` when it is false, with the store its evaluation leaves.
   */
  lemma {:induction false} SimGraphCond<S>(I: Interp<S>, c: seq<Block>, b: Builder, e: Expr, t: BlockId, f: BlockId,
          st: State<S>, P: set<BlockId>)
    requires Ready(b, P) && Landed(b, t, P) && Landed(b, f, P) && Completes(LowerCond(b, e, t, f), c)
    ensures CondGoes(I, c, Here(b, st), EvalGraphCond(I, e, st), t, f, Last(b.handlers))
    decreases e
  {
    if e.BinaryOp? && (e.op.And? || e.op.Or?) {
      hide Inv, Landed, Leads1, Completes, LowerCond;
      var b1, b3, t1, f1 := CondStages(b, e, t, f, c, P);
      var rhs, Q := |b.blocks|, P + {|b.blocks|};
      SimGraphCond(I, c, b1, e.left, t1, f1, st, Q);
      match EvalGraphCond(I, e.left, st)
      case Throw(_, _) =>
      case Val(v, st1) =>
        if (v != 0) == e.op.And? {
          SimGraphCond(I, c, b3, e.right, t, f, st1, Q);
          CondAfter(I, c, Here(b, st), At(rhs, 0, st1), EvalGraphCond(I, e.right, st1), t, f, Last(b.handlers));
        }
    } else if e.Not? {
      SimGraphCond(I, c, b, e.operand, f, t, st, P);
    } else {
      hide Inv, Landed, Leads1;
      InvFacts(b, P);
      SealStep(I, c, b, BranchOn(e, t, f), st);
    }
  }

  lemma {:induction false} PlainSame<S>(I: Interp<S>, e: Expr, st: State<S>)
    requires PlainCond(e, I.exceptions.Keys)
    ensures EvalGraphCond(I, e, st) == EvalCond(I, e, st)
    decreases e
  {
    if e.BinaryOp? && (e.op.And? || e.op.Or?) {
      PlainSame(I, e.left, st);
      match EvalCond(I, e.left, st)
      case Throw(_, _) =>
      case Val(v, st1) => PlainSame(I, e.right, st1);
    } else if e.Not? {
      PlainSame(I, e.operand, st);
    }
  }

  /** So a condition that names no exception keeps its value and its effect. */
  lemma {:induction false} SimCond<S>(I: Interp<S>, c: seq<Block>, b: Builder, e: Expr, t: BlockId, f: BlockId,
          st: State<S>, P: set<BlockId>)
    requires Ready(b, P) && Landed(b, t, P) && Landed(b, f, P)
    requires Completes(LowerCond(b, e, t, f), c) && PlainCond(e, I.exceptions.Keys)
    ensures CondGoes(I, c, Here(b, st), EvalCond(I, e, st), t, f, Last(b.handlers))
  {
    hide *;
    SimGraphCond(I, c, b, e, t, f, st, P);
    PlainSame(I, e, st);
  }
}
