/**
 Two meanings for a procedure body: a big-step meaning of the structured
 statements and a small-step meaning of the block graph.  Both are given for
 an arbitrary interpretation of the leaves: assignments, calls and expressions
 may change the store and may raise, and case labels test a value.  So a
 result proved here holds whatever the leaves do.
 */
module Semantics {
  import opened Wrappers
  import opened Hir
  import opened Cfg

  /** Evaluating a leaf yields a value (non-zero is TRUE) or raises exception `x`. */
  datatype Eval<S> = Val(v: int, s: S) | Throw(x: int, s: S)

  datatype Interp<!S> = Interp(
    eval: (Expr, S) -> Eval<S>,
    prim: (Stmt, S) -> Eval<S>,
    hit: (CaseLabel, int, S) -> bool,  // a single value, or a type
    least: (Expr, int, S) -> bool,     // at or above the lower bound of a range
    most: (Expr, int, S) -> bool,      // at or below its upper bound
    exceptions: map<string, int>       // declared exception names and their ids
  )

  /** A store together with the exception most recently caught. */
  datatype State<S> = State(store: S, pending: int)

  // ----- leaves -----

  function Lift<S>(r: Eval<S>, st: State<S>): Eval<State<S>> {
    match r
    case Val(v, s) => Val(v, st.(store := s))
    case Throw(x, s) => Throw(x, st.(store := s))
  }

  function EvalExpr<S>(I: Interp<S>, e: Expr, st: State<S>): Eval<State<S>> {
    Lift(I.eval(e, st.store), st)
  }

  function EvalPrim<S>(I: Interp<S>, s: Stmt, st: State<S>): Eval<State<S>> {
    Lift(I.prim(s, st.store), st)
  }

  /** The condition is a place whose root is named like an exception. */
  predicate NamesException(e: Expr, names: set<string>) {
    e.PlaceExpr? && e.place.base.Local? && e.place.base.name in names
  }

  /**
   A branch of the graph.  A condition that names an exception is taken for a
   dispatch test: is that exception the one caught (src/codegen_c/cfg_emit.rs:238-263)?
   */
  function EvalBranch<S>(I: Interp<S>, e: Expr, st: State<S>): Eval<State<S>> {
    if NamesException(e, I.exceptions.Keys) then
      Val(if st.pending == I.exceptions[e.place.base.name] then 1 else 0, st)
    else
      EvalExpr(I, e, st)
  }

  /** Short-circuit evaluation, left to right. */
  function EvalCond<S>(I: Interp<S>, e: Expr, st: State<S>): Eval<State<S>> {
    if e.BinaryOp? && e.op.And? then
      match EvalCond(I, e.left, st)
      case Val(v, st1) => if v != 0 then EvalCond(I, e.right, st1) else Val(0, st1)
      case Throw(x, st1) => Throw(x, st1)
    else if e.BinaryOp? && e.op.Or? then
      match EvalCond(I, e.left, st)
      case Val(v, st1) => if v == 0 then EvalCond(I, e.right, st1) else Val(1, st1)
      case Throw(x, st1) => Throw(x, st1)
    else if e.Not? then
      match EvalCond(I, e.operand, st)
      case Val(v, st1) => Val(if v == 0 then 1 else 0, st1)
      case Throw(x, st1) => Throw(x, st1)
    else
      EvalExpr(I, e, st)
  }

  /** The same over the branches that a condition is lowered to. */
  function EvalGraphCond<S>(I: Interp<S>, e: Expr, st: State<S>): Eval<State<S>> {
    if e.BinaryOp? && e.op.And? then
      match EvalGraphCond(I, e.left, st)
      case Val(v, st1) => if v != 0 then EvalGraphCond(I, e.right, st1) else Val(0, st1)
      case Throw(x, st1) => Throw(x, st1)
    else if e.BinaryOp? && e.op.Or? then
      match EvalGraphCond(I, e.left, st)
      case Val(v, st1) => if v == 0 then EvalGraphCond(I, e.right, st1) else Val(1, st1)
      case Throw(x, st1) => Throw(x, st1)
    else if e.Not? then
      match EvalGraphCond(I, e.operand, st)
      case Val(v, st1) => Val(if v == 0 then 1 else 0, st1)
      case Throw(x, st1) => Throw(x, st1)
    else
      EvalBranch(I, e, st)
  }

  predicate Matches<S>(I: Interp<S>, l: CaseLabel, v: int, st: State<S>) {
    if l.RangeLabel? then I.least(l.lo, v, st.store) && I.most(l.hi, v, st.store) else I.hit(l, v, st.store)
  }

  predicate LabelHit<S>(I: Interp<S>, labels: seq<CaseLabel>, v: int, st: State<S>) {
    exists i :: 0 <= i < |labels| && Matches(I, labels[i], v, st)
  }

  /** The first branch with a matching label, or `|brs|`. */
  function FirstHit<S>(I: Interp<S>, brs: seq<Branch>, v: int, st: State<S>): (k: nat)
    ensures k <= |brs|
    ensures k < |brs| ==> LabelHit(I, brs[k].labels, v, st)
    ensures forall i :: 0 <= i < k ==> !LabelHit(I, brs[i].labels, v, st)
    decreases brs
  {
    if brs == [] then 0
    else if LabelHit(I, brs[0].labels, v, st) then 0
    else 1 + FirstHit(I, brs[1..], v, st)
  }

  predicate Catches<S>(I: Interp<S>, c: Clause, st: State<S>) {
    c.exception.None? || (c.exception.value in I.exceptions && I.exceptions[c.exception.value] == st.pending)
  }

  /** The first clause that catches the pending exception, or `|cs|`. */
  function FirstCatch<S>(I: Interp<S>, cs: seq<Clause>, st: State<S>): (m: nat)
    ensures m <= |cs|
    ensures m < |cs| ==> Catches(I, cs[m], st)
    ensures forall i :: 0 <= i < m ==> !Catches(I, cs[i], st)
    decreases cs
  {
    if cs == [] then 0
    else if Catches(I, cs[0], st) then 0
    else 1 + FirstCatch(I, cs[1..], st)
  }

  // ----- structured statements -----

  datatype Outcome<S> =
    | Normal(st: State<S>)
    | Exited(st: State<S>)
    | Returned(value: Option<int>, st: State<S>)
    | Raised(x: int, st: State<S>)
    | OutOfFuel

  function ReturnOf<S>(I: Interp<S>, e: Option<Expr>, st: State<S>): Outcome<S> {
    if e.None? then Returned(None, st) else
    match EvalExpr(I, e.value, st)
    case Val(v, st1) => Returned(Some(v), st1)
    case Throw(x, st1) => Raised(x, st1)
  }

  /** Without an operand, RAISE raises again what was last caught. */
  function RaiseOf<S>(I: Interp<S>, e: Option<Expr>, st: State<S>): Outcome<S> {
    if e.None? then Raised(st.pending, st) else
    match EvalExpr(I, e.value, st)
    case Val(v, st1) => Raised(v, st1)
    case Throw(x, st1) => Raised(x, st1)
  }

  function PrimOf<S>(I: Interp<S>, s: Stmt, st: State<S>): Outcome<S> {
    match EvalPrim(I, s, st)
    case Val(_, st1) => Normal(st1)
    case Throw(x, st1) => Raised(x, st1)
  }

  /** A straight-line statement list. */
  function ExecPrims<S>(I: Interp<S>, ss: seq<Stmt>, st: State<S>): Outcome<S>
    decreases ss
  {
    if ss == [] then Normal(st) else
    match PrimOf(I, ss[0], st)
    case Normal(st1) => ExecPrims(I, ss[1..], st1)
    case o => o
  }

  /** The FINALLY part, if there is one. */
  function FinallyOf<S>(I: Interp<S>, fin: OptBody, st: State<S>): Outcome<S> {
    match fin
    case NoBody => Normal(st)
    case Body(ss) => ExecPrims(I, ss, st)
  }

  /** A TYPECASE branch assigns the selector to its variable, if it has one. */
  function BindOf<S>(I: Interp<S>, sel: Expr, br: Branch, st: State<S>): Outcome<S> {
    match br.bind
    case None => Normal(st)
    case Some(v) => PrimOf(I, Assign(Place(Local(v), []), sel), st)
  }

  /** `control := start`. */
  function ForStart(s: Stmt): Stmt
    requires s.For?
  {
    Assign(Place(Local(s.control), []), s.start)
  }

  /** `control <= limit`, or `control >= limit` going down. */
  function ForTest(s: Stmt): Expr
    requires s.For?
  {
    BinaryOp(if s.dir.Up? then Le else Ge, PlaceExpr(Place(Local(s.control), [])), s.limit)
  }

  /** `control := control + step`, where the step is 1 up and -1 down unless BY gives it. */
  function ForNext(s: Stmt): Stmt
    requires s.For?
  {
    var step := match s.step case Some(e) => e case None => (match s.dir case Up => IntLit(1) case Down => IntLit(-1));
    Assign(Place(Local(s.control), []), BinaryOp(Add, PlaceExpr(Place(Local(s.control), [])), step))
  }

  /** Nothing caught the pending exception: FINALLY runs and it is raised again. */
  function ReraiseOf<S>(I: Interp<S>, fin: OptBody, st: State<S>): Outcome<S> {
    match FinallyOf(I, fin, st)
    case Normal(st1) => Raised(st1.pending, st1)
    case o => o
  }

  /** Fuel bounds the number of loop iterations; it runs out only in a loop. */
  function ExecStmts<S>(I: Interp<S>, ss: seq<Stmt>, st: State<S>, fuel: nat): Outcome<S>
    decreases fuel, ss, 0
  {
    if ss == [] then Normal(st) else
    match ExecStmt(I, ss[0], st, fuel)
    case Normal(st1) => ExecStmts(I, ss[1..], st1, fuel)
    case o => o
  }

  function ExecStmt<S>(I: Interp<S>, s: Stmt, st: State<S>, fuel: nat): Outcome<S>
    decreases fuel, s, 2
  {
    match s
    case Empty => Normal(st)
    case Assign(_, _) => PrimOf(I, s, st)
    case ProcCall(_, _) => PrimOf(I, s, st)
    case If(cond, thenBody, tail) =>
      (match EvalCond(I, cond, st)
       case Val(v, st1) => if v != 0 then ExecStmts(I, thenBody, st1, fuel) else ExecTail(I, tail, st1, fuel)
       case Throw(x, st1) => Raised(x, st1))
    case While(_, _) => ExecWhile(I, s, st, fuel)
    case Loop(_) => ExecLoop(I, s, st, fuel)
    case Exit => Exited(st)
    case Repeat(_, _) => ExecRepeat(I, s, st, fuel)
    case For(_, _, _, _, _, _) =>
      (match PrimOf(I, ForStart(s), st)
       case Normal(st1) => ExecFor(I, s, st1, fuel)
       case o => o)
    case Case(sel, branches, elseBody) =>
      (match EvalExpr(I, sel, st)
       case Val(v, st1) =>
         var k := FirstHit(I, branches, v, st1);
         if k < |branches| then
           (match BindOf(I, sel, branches[k], st1)
            case Normal(st2) => ExecStmts(I, branches[k].body, st2, fuel)
            case o => o)
         else if elseBody.Body? then ExecStmts(I, elseBody.stmts, st1, fuel)
         else Normal(st1)
       case Throw(x, st1) => Raised(x, st1))
    case Try(body, clauses, fin) =>
      (match ExecStmts(I, body, st, fuel)
       case Normal(st1) => FinallyOf(I, fin, st1)
       case Raised(x, st1) =>
         (match ExecHandlers(I, clauses, fin, st1.(pending := x), fuel)
          case Normal(st2) => FinallyOf(I, fin, st2)
          case o => o)
       case o => o)
    case Raise(e) => RaiseOf(I, e, st)
    case Return(e) => ReturnOf(I, e, st)
  }

  /** The first clause that catches the exception runs; with none it is raised again. */
  function ExecHandlers<S>(I: Interp<S>, cs: seq<Clause>, fin: OptBody, st: State<S>, fuel: nat): Outcome<S>
    decreases fuel, cs
  {
    var m := FirstCatch(I, cs, st);
    if m < |cs| then ExecStmts(I, cs[m].body, st, fuel) else ReraiseOf(I, fin, st)
  }

  function ExecTail<S>(I: Interp<S>, t: ElseTail, st: State<S>, fuel: nat): Outcome<S>
    decreases fuel, t
  {
    match t
    case NoElse => Normal(st)
    case Else(body) => ExecStmts(I, body, st, fuel)
    case Elsif(cond, body, rest) =>
      match EvalCond(I, cond, st)
      case Val(v, st1) => if v != 0 then ExecStmts(I, body, st1, fuel) else ExecTail(I, rest, st1, fuel)
      case Throw(x, st1) => Raised(x, st1)
  }

  function ExecWhile<S>(I: Interp<S>, s: Stmt, st: State<S>, fuel: nat): Outcome<S>
    requires s.While?
    decreases fuel, s, 1
  {
    if fuel == 0 then OutOfFuel else
    match EvalCond(I, s.cond, st)
    case Throw(x, st1) => Raised(x, st1)
    case Val(v, st1) =>
      if v == 0 then Normal(st1) else
      match ExecStmts(I, s.body, st1, fuel - 1)
      case Normal(st2) => ExecWhile(I, s, st2, fuel - 1)
      case Exited(st2) => Normal(st2)
      case o => o
  }

  function ExecLoop<S>(I: Interp<S>, s: Stmt, st: State<S>, fuel: nat): Outcome<S>
    requires s.Loop?
    decreases fuel, s, 1
  {
    if fuel == 0 then OutOfFuel else
    match ExecStmts(I, s.body, st, fuel - 1)
    case Normal(st1) => ExecLoop(I, s, st1, fuel - 1)
    case Exited(st1) => Normal(st1)
    case o => o
  }

  function ExecRepeat<S>(I: Interp<S>, s: Stmt, st: State<S>, fuel: nat): Outcome<S>
    requires s.Repeat?
    decreases fuel, s, 1
  {
    if fuel == 0 then OutOfFuel else
    match ExecStmts(I, s.body, st, fuel - 1)
    case Exited(st1) => Normal(st1)
    case Normal(st1) =>
      (match EvalCond(I, s.cond, st1)
       case Throw(x, st2) => Raised(x, st2)
       case Val(v, st2) => if v != 0 then Normal(st2) else ExecRepeat(I, s, st2, fuel - 1))
    case o => o
  }

  /** From the test on: limit and step are evaluated afresh on every pass. */
  function ExecFor<S>(I: Interp<S>, s: Stmt, st: State<S>, fuel: nat): Outcome<S>
    requires s.For?
    decreases fuel, s, 1
  {
    if fuel == 0 then OutOfFuel else
    match EvalExpr(I, ForTest(s), st)
    case Throw(x, st1) => Raised(x, st1)
    case Val(v, st1) =>
      if v == 0 then Normal(st1) else
      match ExecStmts(I, s.body, st1, fuel - 1)
      case Exited(st2) => Normal(st2)
      case Normal(st2) =>
        (match PrimOf(I, ForNext(s), st2)
         case Normal(st3) => ExecFor(I, s, st3, fuel - 1)
         case o => o)
      case o => o
  }

  // ----- block graphs -----

  /** `At(b, i, st)`: about to run statement i of block b, or its terminator. */
  datatype Config<S> =
    | At(block: BlockId, pos: nat, st: State<S>)
    | Done(value: Option<int>, st: State<S>)
    | Uncaught(x: int, st: State<S>)
    | Stuck

  /** A raise goes to the block's handler, if it has one. */
  function ThrowTo<S>(h: Option<BlockId>, x: int, st: State<S>): Config<S> {
    if h.Some? then At(h.value, 0, st.(pending := x)) else Uncaught(x, st)
  }

  function Settle<S>(h: Option<BlockId>, o: Outcome<S>): Config<S> {
    match o
    case Returned(v, st) => Done(v, st)
    case Raised(x, st) => ThrowTo(h, x, st)
    case _ => Stuck
  }

  /** The arm taken: the first with a matching label, else the default. */
  function SwitchTarget<S>(I: Interp<S>, arms: seq<Arm>, default: BlockId, v: int, st: State<S>): BlockId {
    if arms == [] then default
    else if LabelHit(I, arms[0].labels, v, st) then arms[0].target
    else SwitchTarget(I, arms[1..], default, v, st)
  }

  function StepTerm<S>(I: Interp<S>, h: Option<BlockId>, t: Terminator, st: State<S>): Config<S> {
    match t
    case Goto(b) => At(b, 0, st)
    case BranchOn(cond, x, y) =>
      (match EvalBranch(I, cond, st)
       case Val(v, st1) => At(if v != 0 then x else y, 0, st1)
       case Throw(e, st1) => ThrowTo(h, e, st1))
    case Switch(sel, arms, d) =>
      (match EvalExpr(I, sel, st)
       case Val(v, st1) => At(SwitchTarget(I, arms, d, v, st1), 0, st1)
       case Throw(e, st1) => ThrowTo(h, e, st1))
    case ReturnT(e) => Settle(h, ReturnOf(I, e, st))
    case RaiseT(e) => Settle(h, RaiseOf(I, e, st))
  }

  function StepAt<S>(I: Interp<S>, c: seq<Block>, b: BlockId, i: nat, st: State<S>): Config<S> {
    if b >= |c| then Stuck
    else if i < |c[b].stmts| then
      if !IsPrim(c[b].stmts[i]) then Stuck else
      match PrimOf(I, c[b].stmts[i], st)
      case Normal(st1) => At(b, i + 1, st1)
      case Raised(x, st1) => ThrowTo(c[b].handler, x, st1)
      case _ => Stuck
    else if i > |c[b].stmts| || c[b].term.None? then Stuck
    else StepTerm(I, c[b].handler, c[b].term.value, st)
  }

  function Step<S>(I: Interp<S>, c: seq<Block>, k: Config<S>): Config<S> {
    if k.At? then StepAt(I, c, k.block, k.pos, k.st) else k
  }

  function Run<S>(I: Interp<S>, c: seq<Block>, k: Config<S>, n: nat): Config<S>
    decreases n
  {
    if n == 0 then k else Run(I, c, Step(I, c, k), n - 1)
  }

  /** Some number of steps takes `k` to `k'`. */
  ghost predicate Leads<S>(I: Interp<S>, c: seq<Block>, k: Config<S>, k': Config<S>) {
    exists n: nat :: Run(I, c, k, n) == k'
  }

  /** At least one step takes `k` to `k'`. */
  ghost predicate Leads1<S>(I: Interp<S>, c: seq<Block>, k: Config<S>, k': Config<S>) {
    Leads(I, c, Step(I, c, k), k')
  }

  /** `n` steps from `k` do not end the run. */
  ghost predicate Lives<S>(I: Interp<S>, c: seq<Block>, k: Config<S>, n: nat) {
    Run(I, c, k, n).At?
  }

  // ----- facts about runs -----

  lemma {:induction false} RunAdd<S>(I: Interp<S>, c: seq<Block>, k: Config<S>, m: nat, n: nat)
    ensures Run(I, c, k, m + n) == Run(I, c, Run(I, c, k, m), n)
    decreases m
  {
    if m > 0 {
      RunAdd(I, c, Step(I, c, k), m - 1, n);
    }
  }

  lemma {:induction false} RunFinal<S>(I: Interp<S>, c: seq<Block>, k: Config<S>, n: nat)
    requires !k.At?
    ensures Run(I, c, k, n) == k
    decreases n
  {
    if n > 0 {
      RunFinal(I, c, k, n - 1);
    }
  }

  lemma {:induction false} LeadsStep<S>(I: Interp<S>, c: seq<Block>, k: Config<S>)
    ensures Leads(I, c, k, Step(I, c, k))
  {
    assert Run(I, c, k, 1) == Run(I, c, Step(I, c, k), 0);
  }

  lemma {:induction false} LeadsRefl<S>(I: Interp<S>, c: seq<Block>, k: Config<S>)
    ensures Leads(I, c, k, k)
  {
    assert Run(I, c, k, 0) == k;
  }

  lemma {:induction false} LeadsTrans<S>(I: Interp<S>, c: seq<Block>, k: Config<S>, k1: Config<S>, k2: Config<S>)
    requires Leads(I, c, k, k1) && Leads(I, c, k1, k2)
    ensures Leads(I, c, k, k2)
  {
    var m: nat :| Run(I, c, k, m) == k1;
    var n: nat :| Run(I, c, k1, n) == k2;
    RunAdd(I, c, k, m, n);
    assert Run(I, c, k, m + n) == k2;
  }

  /** A run that is still going after n steps was going after fewer. */
  lemma {:induction false} LivesLess<S>(I: Interp<S>, c: seq<Block>, k: Config<S>, m: nat, n: nat)
    requires m <= n && Lives(I, c, k, n)
    ensures Lives(I, c, k, m)
  {
    RunAdd(I, c, k, m, n - m);
    if !Run(I, c, k, m).At? {
      RunFinal(I, c, Run(I, c, k, m), n - m);
    }
  }

  lemma {:induction false} LeadsLives<S>(I: Interp<S>, c: seq<Block>, k: Config<S>, k': Config<S>, n: nat)
    requires Leads(I, c, k, k') && Lives(I, c, k', n)
    ensures Lives(I, c, k, n)
  {
    var m: nat :| Run(I, c, k, m) == k';
    RunAdd(I, c, k, m, n);
    LivesLess(I, c, k, n, m + n);
  }

  lemma {:induction false} Leads1Leads<S>(I: Interp<S>, c: seq<Block>, k: Config<S>, k': Config<S>)
    requires Leads1(I, c, k, k')
    ensures Leads(I, c, k, k')
  {
    LeadsStep(I, c, k);
    LeadsTrans(I, c, k, Step(I, c, k), k');
  }

  lemma {:induction false} LeadsLeads1<S>(I: Interp<S>, c: seq<Block>, k: Config<S>, k1: Config<S>, k2: Config<S>)
    requires (Leads(I, c, k, k1) && Leads1(I, c, k1, k2)) || (Leads1(I, c, k, k1) && Leads(I, c, k1, k2))
    ensures Leads1(I, c, k, k2) && Leads(I, c, k, k2)
  {
    if Leads1(I, c, k, k1) && Leads(I, c, k1, k2) {
      LeadsTrans(I, c, Step(I, c, k), k1, k2);
    } else {
      var m: nat :| Run(I, c, k, m) == k1;
      var n: nat :| Run(I, c, Step(I, c, k1), n) == k2;
      RunAdd(I, c, k, m, n + 1);
      assert Run(I, c, k, m + n + 1) == Run(I, c, Step(I, c, k), m + n);
    }
    Leads1Leads(I, c, k, k2);
  }

  /** A step is one more step to live. */
  lemma {:induction false} Leads1Lives<S>(I: Interp<S>, c: seq<Block>, k: Config<S>, k': Config<S>, n: nat)
    requires Leads1(I, c, k, k') && Lives(I, c, k', n)
    ensures Lives(I, c, k, n + 1) && Lives(I, c, k, n)
  {
    LeadsLives(I, c, Step(I, c, k), k', n);
    LivesLess(I, c, k, n, n + 1);
  }

  /** The graph is deterministic: a run ends in at most one way. */
  lemma {:induction false} LeadsUnique<S>(I: Interp<S>, c: seq<Block>, k: Config<S>, k1: Config<S>, k2: Config<S>)
    requires Leads(I, c, k, k1) && Leads(I, c, k, k2) && !k1.At? && !k2.At?
    ensures k1 == k2
  {
    var m: nat :| Run(I, c, k, m) == k1;
    var n: nat :| Run(I, c, k, n) == k2;
    if m <= n {
      RunAdd(I, c, k, m, n - m);
      RunFinal(I, c, k1, n - m);
    } else {
      RunAdd(I, c, k, n, m - n);
      RunFinal(I, c, k2, m - n);
    }
  }
}
