/**
 Why a TRY inside the body of a TRY must have a catch-all and quiet clause
 bodies: the block in which an inner handler starts and the one that raises
 again carry no handler of their own (src/cfg/build.rs:612-616), so in the graph
 an exception raised there passes by the outer TRY.
 */
module NestedTry {
  import opened Wrappers
  import opened Hir
  import opened Cfg
  import opened Lowering
  import opened Protocol
  import opened ProtocolStmts
  import opened Semantics
  import opened Simulation
  import opened SimulationStmts
  import opened Correctness

  /** The body of an inner TRY and what follows that TRY in the body of the outer one. */
  datatype Around = Around(body: seq<Stmt>, rest: seq<Stmt>)

  function Inner(w: Around, cs: seq<Clause>): Stmt {
    Try(w.body, cs, NoBody)
  }

  /** The outer TRY catches everything. */
  function Outer(w: Around, cs: seq<Clause>): Stmt {
    Try([Inner(w, cs)] + w.rest, [Clause(None, [])], NoBody)
  }

  /** Legal and plain, and the inner body starts with a leaf, so it can raise. */
  predicate Fits(w: Around, names: set<string>) {
    && LegalStmts(w.body, false) && PlainStmts(w.body, names, true) && !Quiet(w.body)
    && LegalStmts(w.rest, false) && PlainStmts(w.rest, names, true)
  }

  /** Every leaf raises exception 7. */
  function Raising(ids: map<string, int>): Interp<int> {
    Interp((_: Expr, s: int) => Throw(7, s), (_: Stmt, s: int) => Throw(7, s),
           (_: CaseLabel, _: int, _: int) => false,
           (_: Expr, _: int, _: int) => false, (_: Expr, _: int, _: int) => false,
           ids)
  }

  // ----- the statements -----

  lemma {:induction false} CondRaises(ids: map<string, int>, e: Expr, st: State<int>)
    ensures EvalCond(Raising(ids), e, st) == Throw(7, st)
    decreases e
  {
    if e.BinaryOp? && (e.op.And? || e.op.Or?) {
      CondRaises(ids, e.left, st);
    } else if e.Not? {
      CondRaises(ids, e.operand, st);
    }
  }

  lemma {:induction false} StmtRaises(ids: map<string, int>, s: Stmt, st: State<int>, fuel: nat)
    requires !QuietStmt(s) && st.pending == 7
    ensures ExecStmt(Raising(ids), s, st, fuel) == Raised(7, st)
  {
    hide ExecStmts, ExecTail;
    if s.If? { CondRaises(ids, s.cond, st); }
  }

  /** A body that is not quiet raises at once. */
  lemma {:induction false} BodyRaises(ids: map<string, int>, ss: seq<Stmt>, st: State<int>, fuel: nat)
    requires !Quiet(ss) && st.pending == 7
    ensures ExecStmts(Raising(ids), ss, st, fuel) == Raised(7, st)
    decreases ss
  {
    if ss[0].Empty? {
      BodyRaises(ids, ss[1..], st, fuel);
    } else {
      StmtRaises(ids, ss[0], st, fuel);
    }
  }

  /** The inner TRY's handling of exception 7 raises in a block without a handler. */
  predicate Exposed(ids: map<string, int>, cs: seq<Clause>) {
    var m := FirstCatch(Raising(ids), cs, State(0, 7));
    m < |cs| ==> !Quiet(cs[m].body)
  }

  lemma {:induction false} SameCatch(ids: map<string, int>, cs: seq<Clause>, st: State<int>)
    requires st.pending == 7
    ensures FirstCatch(Raising(ids), cs, st) == FirstCatch(Raising(ids), cs, State(0, 7))
    decreases cs
  {
    if cs != [] { SameCatch(ids, cs[1..], st); }
  }

  /** The outer TRY catches what the inner handling raises. */
  lemma {:induction false} OuterCatches(w: Around, ids: map<string, int>, cs: seq<Clause>, st: State<int>, fuel: nat)
    requires Exposed(ids, cs) && !Quiet(w.body) && st.pending == 7
    ensures ExecStmts(Raising(ids), [Outer(w, cs)], st, fuel) == Normal(st)
  {
    hide Exposed, Quiet;
    var I := Raising(ids);
    HandlingRaises(ids, cs, st, fuel);
    InnerRaises(w, ids, cs, st, fuel);
    assert ([Inner(w, cs)] + w.rest)[0] == Inner(w, cs);
    assert ExecStmts(I, [Inner(w, cs)] + w.rest, st, fuel) == Raised(7, st);
    assert ExecStmts(I, [], st, fuel) == Normal(st);
    assert ExecHandlers(I, [Clause(None, [])], NoBody, st, fuel) == Normal(st);
    OneStmt(I, Outer(w, cs), st, fuel);
  }

  lemma {:induction false} HandlingRaises(ids: map<string, int>, cs: seq<Clause>, st: State<int>, fuel: nat)
    requires Exposed(ids, cs) && st.pending == 7
    ensures ExecHandlers(Raising(ids), cs, NoBody, st, fuel) == Raised(7, st)
  {
    hide ExecStmts, FirstCatch;
    SameCatch(ids, cs, st);
    var m := FirstCatch(Raising(ids), cs, st);
    if m < |cs| { BodyRaises(ids, cs[m].body, st, fuel); }
  }

  lemma {:induction false} InnerRaises(w: Around, ids: map<string, int>, cs: seq<Clause>, st: State<int>, fuel: nat)
    requires ExecHandlers(Raising(ids), cs, NoBody, st, fuel) == Raised(7, st) && !Quiet(w.body) && st.pending == 7
    ensures ExecStmt(Raising(ids), Inner(w, cs), st, fuel) == Raised(7, st)
  {
    hide ExecHandlers, Quiet;
    BodyRaises(ids, w.body, st, fuel);
    assert st.(pending := 7) == st;
  }

  lemma {:induction false} OneStmt<S>(I: Interp<S>, s: Stmt, st: State<S>, fuel: nat)
    ensures ExecStmts(I, [s], st, fuel) == ExecStmt(I, s, st, fuel)
  {
    hide ExecStmt;
    assert [s][1..] == [];
    match ExecStmt(I, s, st, fuel)
    case Normal(st1) => assert ExecStmts(I, [], st1, fuel) == Normal(st1);
    case _ =>
  }

  // ----- the graph -----

  /** A condition's first leaf is tested in the open block, and raises there. */
  lemma {:induction false} CondEscapes(ids: map<string, int>, c: seq<Block>, b: Builder, e: Expr, t: BlockId,
          f: BlockId, st: State<int>, P: set<BlockId>)
    requires Poised(b, P) && Landed(b, t, P) && Landed(b, f, P) && Completes(LowerCond(b, e, t, f), c)
    requires PlainCond(e, ids.Keys)
    ensures Leads(Raising(ids), c, Here(b, st), ThrowTo(b.blocks[b.current.value].handler, 7, st))
    decreases e
  {
    if e.BinaryOp? && (e.op.And? || e.op.Or?) {
      hide Inv, Landed, Leads, Completes, LowerCond;
      var b1, b3, t1, f1 := CondStages(b, e, t, f, c, P);
      CondEscapes(ids, c, b1, e.left, t1, f1, st, P + {|b.blocks|});
    } else if e.Not? {
      CondEscapes(ids, c, b, e.operand, f, t, st, P);
    } else {
      hide Inv, Landed, Leads;
      InvFacts(b, P);
      SealStep(Raising(ids), c, b, BranchOn(e, t, f), st);
      Leads1Leads(Raising(ids), c, Here(b, st), ThrowTo(b.blocks[b.current.value].handler, 7, st));
    }
  }

  lemma {:induction false} IfEscapes(ids: map<string, int>, c: seq<Block>, b: Builder, s: Stmt, st: State<int>,
          P: set<BlockId>)
    requires s.If? && Poised(b, P) && LegalStmt(s, b.exits != []) && PlainCond(s.cond, ids.Keys)
    requires Completes(LowerIf(b, s), c)
    ensures Leads(Raising(ids), c, Here(b, st), ThrowTo(b.blocks[b.current.value].handler, 7, st))
  {
    hide Inv, Leads, LowerBody, LowerTail, LowerCond, LegalStmts, AnyPathReaches;
    InvFacts(b, P);
    var b1, b3, b4, b5 := IfStages(b, s, P, c);
    var merge := |b.blocks|;
    var et, ef := |b1.blocks|, FalseBlock(b1, s.tail, merge);
    var Q := P + {merge};
    var b2 := if s.tail.NoElse? then NewBlock(b1) else NewBlock(NewBlock(b1));
    NewBlockInv(b1, Q);
    NewBlockInv(NewBlock(b1), Q);
    InvPromise(b2, Q, Q + {et, ef});
    CondEscapes(ids, c, b2, s.cond, et, ef, st, Q + {et, ef});
  }

  lemma {:induction false} ForEscapes(ids: map<string, int>, c: seq<Block>, b: Builder, s: Stmt, st: State<int>,
          P: set<BlockId>)
    requires s.For? && Poised(b, P) && LegalStmt(s, b.exits != []) && Completes(LowerFor(b, s), c)
    ensures Step(Raising(ids), c, Here(b, st)) == ThrowTo(b.blocks[b.current.value].handler, 7, st)
  {
    hide Inv, LowerFor, OpenFor, LowerBody, EnterLoop, LeaveLoop, LegalStmts;
    ForStages(b, s, P, c);
    assert c[b.current.value].stmts[|b.blocks[b.current.value].stmts|] == ForInit(s);
  }

  lemma {:induction false} CaseEscapes(ids: map<string, int>, c: seq<Block>, b: Builder, s: Stmt, st: State<int>,
          P: set<BlockId>)
    requires s.Case? && Poised(b, P) && LegalStmt(s, b.exits != []) && Completes(LowerCase(b, s), c)
    ensures Step(Raising(ids), c, Here(b, st)) == ThrowTo(b.blocks[b.current.value].handler, 7, st)
  {
    hide Inv, LowerCase, LowerBranches, LowerElse, OpenCase, LegalStmts, LegalBranches;
    var b1, b2, b3 := CaseStages(b, s, P, c);
  }

  lemma {:induction false} StmtEscapes(ids: map<string, int>, c: seq<Block>, b: Builder, s: Stmt, st: State<int>,
          P: set<BlockId>)
    requires !QuietStmt(s) && Poised(b, P) && LegalStmt(s, b.exits != []) && PlainStmt(s, ids.Keys, true)
    requires st.pending == 7
    requires Completes(LowerStmt(b, s), c)
    ensures Leads(Raising(ids), c, Here(b, st), ThrowTo(b.blocks[b.current.value].handler, 7, st))
  {
    hide Inv, Leads, LowerIf, LowerFor, LowerCase, LegalStmts, LegalTail, LegalBranches, PlainStmts, PlainTail,
      PlainBranches, PlainCond, Step;
    InvFacts(b, P);
    var I, h := Raising(ids), b.blocks[b.current.value].handler;
    LeadsStep(I, c, Here(b, st));
    match s {
      case If(_, _, _) => IfEscapes(ids, c, b, s, st, P);
      case For(_, _, _, _, _, _) => ForEscapes(ids, c, b, s, st, P);
      case Case(_, _, _) => CaseEscapes(ids, c, b, s, st, P);
      case Raise(e) => SealStep(I, c, b, RaiseT(e), st);
      case Return(e) => SealStep(I, c, b, ReturnT(e), st);
      case _ => PushEscapes(ids, c, b, s, st);
    }
  }

  lemma {:induction false} PushEscapes(ids: map<string, int>, c: seq<Block>, b: Builder, s: Stmt, st: State<int>)
    requires IsPrim(s) && b.current.Some? && b.current.value < |b.blocks| && Completes(Push(b, s), c)
    ensures Step(Raising(ids), c, Here(b, st)) == ThrowTo(b.blocks[b.current.value].handler, 7, st)
  {
    var k := b.current.value;
    assert Push(b, s).blocks[k].stmts <= c[k].stmts;
    assert c[k].stmts[|b.blocks[k].stmts|] == s;
  }

  lemma {:induction false} BodyEscapes(ids: map<string, int>, c: seq<Block>, b: Builder, ss: seq<Stmt>, st: State<int>,
          P: set<BlockId>)
    requires !Quiet(ss) && Poised(b, P) && LegalStmts(ss, b.exits != []) && PlainStmts(ss, ids.Keys, true)
    requires st.pending == 7
    requires Completes(LowerStmts(b, ss), c)
    ensures Leads(Raising(ids), c, Here(b, st), ThrowTo(b.blocks[b.current.value].handler, 7, st))
    decreases ss
  {
    hide Inv, Leads, LowerStmt, LegalStmt, PlainStmt, QuietStmt;
    InvFacts(b, P);
    if ss[0].Empty? {
      EmptySame(b);
      BodyEscapes(ids, c, b, ss[1..], st, P);
    } else {
      var b1 := LowerStmt(b, ss[0]);
      RestInv(b, ss, P);
      InvFacts(b1, P);
      if b1.current.Some? { CompletesBack(b1, LowerStmts(b1, ss[1..]), b1.current.value, c); }
      StmtEscapes(ids, c, b, ss[0], st, P);
    }
  }

  /** From the inner TRY, started under a handler, the exception ends the run. */
  lemma {:induction false} InnerEscapes(w: Around, ids: map<string, int>, c: seq<Block>, b: Builder, cs: seq<Clause>,
          st: State<int>, P: set<BlockId>)
    requires Exposed(ids, cs) && Poised(b, P) && Handles(cs, ids.Keys) && Fits(w, ids.Keys) && b.exits == []
    requires Completes(LowerTry(b, Inner(w, cs)), c) && st.pending == 7
    ensures Leads(Raising(ids), c, Here(b, st), Uncaught(7, st))
  {
    hide Inv, Leads, LowerStmts, LowerHandlers, OpenTry, CloseTry, SealIfOpen, LeaveTry, LowerTry, StartIfReached,
      AnyPathReaches, Quiet,
      LegalStmts, PlainStmts, Start, LowerClauses, OpenHandlers, Reraise, Exposed, Handles;
    var I, s := Raising(ids), Inner(w, cs);
    InnerLegal(w, cs, ids.Keys);
    var b3, b4, b5, b6, Q := TryStages(b, s, P, c);
    var catch, next, tryBody := |b.blocks| + 1, TryNext(b, s), b3.current.value;
    JumpStep(I, c, b.current.value, |b.blocks[b.current.value].stmts|, tryBody, st);
    Leads1Leads(I, c, Here(b, st), At(tryBody, 0, st));
    InnerBody(ids, c, b3, w.body, next, st, Q);
    LeadsTrans(I, c, Here(b, st), At(tryBody, 0, st), At(catch, 0, st));
    DispatchEscapes(ids, c, b4, cs, next, st, Q);
    LeadsTrans(I, c, Here(b, st), At(catch, 0, st), Uncaught(7, st));
  }

  /** Legal clauses, with declared names and plain bodies. */
  predicate Handles(cs: seq<Clause>, names: set<string>) {
    && LegalClauses(cs, false) && Declared(cs, names) && PlainBodies(cs, names)
    && forall i :: 0 <= i < |cs| - 1 ==> cs[i].exception.Some?
  }

  predicate PlainBodies(cs: seq<Clause>, names: set<string>) {
    forall i :: 0 <= i < |cs| ==> PlainStmts(cs[i].body, names, true)
  }

  lemma {:induction false} InnerLegal(w: Around, cs: seq<Clause>, names: set<string>)
    requires Handles(cs, names) && Fits(w, names)
    ensures LegalStmt(Inner(w, cs), false) && LegalStmts([Inner(w, cs)] + w.rest, false)
    ensures LegalStmt(Outer(w, cs), false) && LegalStmts([Outer(w, cs)], false)
  {
    hide LegalClauses, PlainStmts, Quiet;
    var ss := [Inner(w, cs)] + w.rest;
    assert ss[1..] == w.rest && [Outer(w, cs)][1..] == [];
    assert LegalStmt(Inner(w, cs), false);
    assert LegalStmts(ss, false) && LegalStmts([], false);
    assert LegalClauses([Clause(None, [])], false) by { NoClausesLegal(); }
  }

  lemma {:induction false} NoClausesLegal()
    ensures LegalClauses([Clause(None, [])], false)
  {
    var cs := [Clause(None, [])];
    assert cs[1..] == [] && LegalClauses([], false);
  }

  /** The inner body raises into the inner dispatch block. */
  lemma {:induction false} InnerBody(ids: map<string, int>, c: seq<Block>, b: Builder, ss: seq<Stmt>, next: BlockId,
          st: State<int>, Q: set<BlockId>)
    requires Ready(b, Q) && b.handlers != [] && b.exits == [] && next in Q && 0 < next < |b.blocks|
    requires b.blocks[b.current.value].stmts == [] && st.pending == 7
    requires LegalStmts(ss, false) && PlainStmts(ss, ids.Keys, true) && !Quiet(ss)
    requires Completes(SealIfOpen(LeaveTry(LowerStmts(b, ss)), Goto(next)), c)
    ensures Leads(Raising(ids), c, At(b.current.value, 0, st), At(b.handlers[|b.handlers| - 1], 0, st))
  {
    hide Inv, Leads, LowerStmts, SealIfOpen, LeaveTry, AnyPathReaches, LegalStmts, PlainStmts, Quiet;
    BodyRaises(ids, ss, st, 0);
    SimTryBody(Raising(ids), c, b, ss, next, st, 0, Q);
    assert st.(pending := 7) == st;
  }

  /** From the inner dispatch block. */
  lemma {:induction false} DispatchEscapes(ids: map<string, int>, c: seq<Block>, b: Builder, cs: seq<Clause>,
          next: BlockId, st: State<int>, Q: set<BlockId>)
    requires Exposed(ids, cs) && Handles(cs, ids.Keys) && b.exits == [] && st.pending == 7
    requires Poised(b, Q) && b.blocks[b.current.value] == Block([], None, None) && next in Q && 0 < next < |b.blocks|
    requires Completes(LowerHandlers(b, cs, NoBody, next), c)
    ensures Leads(Raising(ids), c, Here(b, st), Uncaught(7, st))
  {
    hide Inv, Leads, LowerClauses, OpenHandlers, Reraise, AnyPathReaches, LegalStmts, PlainStmts, FirstCatch, Start;
    var I, k := Raising(ids), Here(b, st);
    InvFacts(b, Q);
    if cs == [] {
      ReraiseEscapes(ids, c, b, st);
    } else {
      var reraise, Q2 := |b.blocks|, Q + Span(|b.blocks|, 1 + |cs|);
      var b2, b3, b4, b5 := HandlerStages(b, cs, NoBody, next, c, Q);
      OpenedDispatch(I, c, b, cs, st, Q);
      SameCatch(ids, cs, st);
      var m := FirstCatch(I, cs, st);
      if m < |cs| {
        ClauseEscapes(ids, c, b2, cs, reraise + 1, next, m, st, Q2);
        LeadsTrans(I, c, k, At(reraise + 1 + m, 0, st), Uncaught(7, st));
      } else {
        InvFacts(b4, Q2);
        ReraiseEscapes(ids, c, b4, st);
        LeadsTrans(I, c, k, At(reraise, 0, st), Uncaught(7, st));
      }
    }
  }

  lemma {:induction false} ReraiseEscapes(ids: map<string, int>, c: seq<Block>, b: Builder, st: State<int>)
    requires b.current.Some? && b.current.value < |b.blocks| && b.blocks[b.current.value] == Block([], None, None)
    requires st.pending == 7
    requires Completes(Reraise(b, NoBody), c)
    ensures Leads(Raising(ids), c, Here(b, st), Uncaught(7, st))
  {
    hide Leads;
    assert Reraise(b, NoBody) == Seal(b, RaiseT(None));
    SealStep(Raising(ids), c, b, RaiseT(None), st);
    Leads1Leads(Raising(ids), c, Here(b, st), Uncaught(7, st));
  }

  lemma {:induction false} ClauseEscapes(ids: map<string, int>, c: seq<Block>, b: Builder, cs: seq<Clause>,
          base: BlockId, next: BlockId, m: nat, st: State<int>, Q: set<BlockId>)
    requires m < |cs| && !Quiet(cs[m].body) && LegalClauses(cs, false) && PlainBodies(cs, ids.Keys) && st.pending == 7
    requires Inv(b, Q) && b.current.None? && b.exits == [] && Blanks(b, base, |cs|, None) && next in Q
    requires 0 < next < base
    requires Completes(LowerClauses(b, cs, base, next), c)
    ensures Leads(Raising(ids), c, At(base + m, 0, st), Uncaught(7, st))
    decreases m
  {
    hide Inv, Leads, LowerBody, LowerClauses, AnyPathReaches, LegalStmts, PlainStmts, Start, Quiet;
    InvFacts(b, Q);
    BodyInv(b, base, [], cs[0].body, next, Q);
    var b1 := LowerBody(Start(b, base), cs[0].body, next);
    UnfoldClauses(b, cs, base, next);
    var b2 := LowerClauses(b1, cs[1..], base + 1, next);
    assert Blanks(b1, base + 1, |cs[1..]|, None);
    if m > 0 {
      ClauseEscapes(ids, c, b1, cs[1..], base + 1, next, m - 1, st, Q);
    } else {
      ClausesInv(b1, cs[1..], base + 1, next, Q);
      RangeBack(b1, b2, base + 1, |cs[1..]|, None, c);
      HandlerEscapes(ids, c, b, cs[0].body, base, next, st, Q);
    }
  }

  lemma {:induction false} HandlerEscapes(ids: map<string, int>, c: seq<Block>, b: Builder, ss: seq<Stmt>,
          base: BlockId, next: BlockId, st: State<int>, Q: set<BlockId>)
    requires !Quiet(ss) && LegalStmts(ss, false) && PlainStmts(ss, ids.Keys, true) && st.pending == 7
    requires Inv(b, Q) && b.current.None? && b.exits == [] && base < |b.blocks|
    requires b.blocks[base] == Block([], None, None)
    requires next in Q && 0 < next < base && Completes(LowerBody(Start(b, base), ss, next), c)
    ensures Leads(Raising(ids), c, At(base, 0, st), Uncaught(7, st))
  {
    hide Inv, Leads, LowerStmts, AnyPathReaches, LegalStmts, PlainStmts, Quiet;
    InvFacts(b, Q);
    StartInv(b, base, Q);
    var b1 := Start(b, base);
    StmtsInv(b1, ss, Q);
    var b2 := LowerStmts(b1, ss);
    InvFacts(b2, Q);
    LandedKept(b1, b2, base, next, Q);
    SealGotoInv(b2, next, Q);
    if b2.current.Some? { CompletesBack(b2, LowerBody(b1, ss, next), b2.current.value, c); }
    BodyEscapes(ids, c, b1, ss, st, Q);
  }

  /** The whole graph leaves the exception uncaught. */
  lemma {:induction false} OuterMisses(w: Around, ids: map<string, int>, cs: seq<Clause>, st: State<int>)
    requires Exposed(ids, cs) && Handles(cs, ids.Keys) && Fits(w, ids.Keys) && st.pending == 7
    ensures Leads(Raising(ids), BuildCfg([Outer(w, cs)]), At(0, 0, st), Uncaught(7, st))
  {
    hide Inv, Leads, LowerStmts, LowerTry, LegalStmts, StartIfReached, AnyPathReaches, LowerHandlers, OpenTry, CloseTry,
      SealIfOpen, LeaveTry, Exposed, Handles, Fits;
    var I, s, b, c := Raising(ids), Outer(w, cs), New(), BuildCfg([Outer(w, cs)]);
    NewInv();
    InnerLegal(w, cs, ids.Keys);
    FinishCompletes(LowerStmts(b, [s]));
    LowerOne(b, s);
    var b3, b4, b5, b6, Q := TryStages(b, s, {}, c);
    var tryBody := b3.current.value;
    JumpStep(I, c, 0, 0, tryBody, st);
    Leads1Leads(I, c, At(0, 0, st), At(tryBody, 0, st));
    InnerCompletes(c, b3, Inner(w, cs), w.rest, TryNext(b, s), Q);
    InnerEscapes(w, ids, c, b3, cs, st, Q);
    LeadsTrans(I, c, At(0, 0, st), At(tryBody, 0, st), Uncaught(7, st));
  }

  lemma {:induction false} LowerOne(b: Builder, s: Stmt)
    requires s.Try? && b.current.Some?
    ensures LowerStmts(b, [s]) == LowerTry(b, s)
  {
    hide LowerTry;
    assert [s][1..] == [];
    assert LowerStmts(LowerStmt(b, s), []) == LowerStmt(b, s);
  }

  lemma {:induction false} InnerCompletes(c: seq<Block>, b: Builder, s: Stmt, rest: seq<Stmt>, next: BlockId,
          Q: set<BlockId>)
    requires s.Try? && Ready(b, Q) && b.handlers != [] && b.exits == [] && LegalStmts([s] + rest, false) && next in Q
    requires 0 < next < |b.blocks|
    requires Completes(SealIfOpen(LeaveTry(LowerStmts(b, [s] + rest)), Goto(next)), c)
    ensures Completes(LowerTry(b, s), c)
  {
    hide Inv, LowerTry, AnyPathReaches;
    var ss := [s] + rest;
    assert ss[0] == s && ss[1..] == rest;
    var b1, b2 := LowerTry(b, s), LowerStmts(b, ss);
    assert b2 == LowerStmts(b1, rest);
    assert LowerStmt(b, s) == b1;
    StmtsInv(b, ss, Q);
    RestInv(b, ss, Q);
    InvFacts(b1, Q);
    BodyClosed(b2, next, Q, c);
    if b1.current.Some? { CompletesBack(b1, b2, b1.current.value, c); }
  }

  lemma {:induction false} BodyClosed(b: Builder, next: BlockId, Q: set<BlockId>, c: seq<Block>)
    requires Inv(b, Q) && next in Q && 0 < next < |b.blocks| && b.handlers != []
    requires Completes(SealIfOpen(LeaveTry(b), Goto(next)), c)
    ensures Completes(b, c)
  {
    var b2 := LeaveTry(b);
    StacksInv(b, b2, Q);
    SealGotoInv(b2, next, Q);
    if b2.current.Some? { CompletesBack(b2, Seal(b2, Goto(next)), b2.current.value, c); }
  }

  // ----- exactly when -----

  predicate PlainFor(I: Interp<int>, w: Around, cs: seq<Clause>) {
    Declared(cs, I.exceptions.Keys) && PlainBodies(cs, I.exceptions.Keys) && Fits(w, I.exceptions.Keys)
  }

  /** Under every interpretation for which the clauses are plain, the graph ends as the statements do. */
  ghost predicate Preserved(w: Around, cs: seq<Clause>) {
    forall I: Interp<int>, st: State<int>, k: Config<int> :: PlainFor(I, w, cs) && !k.At? ==>
      (Leads(I, BuildCfg([Outer(w, cs)]), At(0, 0, st), k) <==> Finishes(I, [Outer(w, cs)], st, k))
  }

  predicate AllQuiet(cs: seq<Clause>) {
    forall i :: 0 <= i < |cs| ==> Quiet(cs[i].body)
  }

  /** No two clauses name the same exception, so each can be the one that catches. */
  predicate DistinctNames(cs: seq<Clause>) {
    forall i, j :: 0 <= i < j < |cs| && cs[i].exception.Some? ==> cs[i].exception != cs[j].exception
  }

  /**
     The clauses of an inner TRY keep their meaning, whatever the leaves do, if and only if there is
     a catch-all and all bodies are quiet.
   */
  lemma {:induction false} NestedIff(w: Around, cs: seq<Clause>, names: set<string>)
    requires Handles(cs, names) && DistinctNames(cs) && Fits(w, names)
    ensures Preserved(w, cs) <==> CatchesAll(cs) && AllQuiet(cs)
  {
    hide Leads, Finishes, BuildCfg, LegalClauses, Quiet, LowerStmts, PlainStmts, LegalStmts;
    InnerLegal(w, cs, names);
    if CatchesAll(cs) && AllQuiet(cs) {
      forall I: Interp<int>, st: State<int>, k: Config<int> | PlainFor(I, w, cs) && !k.At?
        ensures Leads(I, BuildCfg([Outer(w, cs)]), At(0, 0, st), k) <==> Finishes(I, [Outer(w, cs)], st, k) {
        OuterPlain(w, cs, I.exceptions.Keys);
        LoweringIsExact(I, [Outer(w, cs)], st, k);
      }
    } else {
      var ids := Expose(cs, names);
      InnerHandlerEscapes(w, ids, cs, State(0, 7));
    }
  }

  /** Ids for the names under which exception 7 meets the missing catch-all or a clause that is not quiet. */
  lemma {:induction false} Expose(cs: seq<Clause>, names: set<string>) returns (ids: map<string, int>)
    requires Handles(cs, names) && DistinctNames(cs) && !(CatchesAll(cs) && AllQuiet(cs))
    ensures ids.Keys == names && Exposed(ids, cs)
  {
    hide LegalClauses, PlainBodies, Quiet, FirstCatch;
    if !CatchesAll(cs) {
      ids := map n | n in names :: 8;
      assert forall i :: 0 <= i < |cs| ==> !Catches(Raising(ids), cs[i], State(0, 7));
    } else {
      var m :| 0 <= m < |cs| && !Quiet(cs[m].body);
      ids := map n | n in names :: if cs[m].exception == Some(n) then 7 else 8;
      var m' := FirstCatch(Raising(ids), cs, State(0, 7));
      assert Catches(Raising(ids), cs[m], State(0, 7));
      assert m' <= m;
      assert Catches(Raising(ids), cs[m'], State(0, 7));
    }
  }

  lemma {:induction false} OuterPlain(w: Around, cs: seq<Clause>, names: set<string>)
    requires Declared(cs, names) && PlainBodies(cs, names) && Fits(w, names) && CatchesAll(cs) && AllQuiet(cs)
    ensures PlainStmts([Outer(w, cs)], names, false)
  {
    hide Quiet, LegalStmts;
    var ss := [Inner(w, cs)] + w.rest;
    assert ss[1..] == w.rest && [Outer(w, cs)][1..] == [] && [Clause(None, [])][1..] == [];
    assert PlainClauses([], names, false) && PlainStmts([], names, false);
    ClausesPlain(cs, names);
    assert PlainStmt(Inner(w, cs), names, true);
    assert PlainStmts(ss, names, true);
    assert PlainClauses([Clause(None, [])], names, false);
    assert PlainStmt(Outer(w, cs), names, false);
  }

  lemma {:induction false} ClausesPlain(cs: seq<Clause>, names: set<string>)
    requires PlainBodies(cs, names) && AllQuiet(cs)
    ensures PlainClauses(cs, names, true)
    decreases cs
  {
    hide Quiet, PlainStmts;
    if cs != [] { ClausesPlain(cs[1..], names); }
  }

  /** The failing family: the statements end normally and the graph does not. */
  lemma {:induction false} InnerHandlerEscapes(w: Around, ids: map<string, int>, cs: seq<Clause>, st: State<int>)
    requires Handles(cs, ids.Keys) && Fits(w, ids.Keys) && Exposed(ids, cs) && st.pending == 7
    ensures Finishes(Raising(ids), [Outer(w, cs)], st, Done(None, st))
    ensures Leads(Raising(ids), BuildCfg([Outer(w, cs)]), At(0, 0, st), Uncaught(7, st))
    ensures !Preserved(w, cs)
  {
    hide Leads, BuildCfg, LegalClauses, Exposed, LowerStmts, ExecStmts, Declared, PlainBodies, PlainStmts, LegalStmts,
      Quiet;
    var I, c, k := Raising(ids), BuildCfg([Outer(w, cs)]), Done(None, st);
    OuterCatches(w, ids, cs, st, 0);
    OuterMisses(w, ids, cs, st);
    assert Finishes(I, [Outer(w, cs)], st, k);
    if Preserved(w, cs) {
      assert I.exceptions.Keys == ids.Keys;
      assert Leads(I, c, At(0, 0, st), k);
      LeadsUnique(I, c, At(0, 0, st), k, Uncaught(7, st));
      assert false;
    }
  }
}
