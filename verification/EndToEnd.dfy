/** From structured statements without TRY to the C lines emitted for them. */
module EndToEnd {
  import opened Wrappers
  import opened Hir
  import opened Cfg
  import opened Lowering
  import opened Protocol
  import opened Semantics
  import opened Simulation
  import opened Correctness
  import opened Arms
  import opened CEmit
  import opened CSimulation

  // ----- TRY-free bodies -----

  /** Which selectors are pure, which names conditions avoid, and whether RAISE may lack an operand. */
  datatype Shape = Shape(pure: Expr -> bool, names: set<string>, bareRaise: bool)

  /** No TRY anywhere; selectors, conditions and RAISE as `ok` asks. */
  predicate TryFree(ss: seq<Stmt>, ok: Shape)
    decreases ss, 0
  {
    ss == [] || (TryFreeStmt(ss[0], ok) && TryFree(ss[1..], ok))
  }

  predicate TryFreeStmt(s: Stmt, ok: Shape)
    decreases s, 1
  {
    match s
    case If(cond, thenBody, tail) => PlainCond(cond, ok.names) && TryFree(thenBody, ok) && TryFreeTail(tail, ok)
    case While(cond, body) => PlainCond(cond, ok.names) && TryFree(body, ok)
    case Loop(body) => TryFree(body, ok)
    case Repeat(body, cond) => PlainCond(cond, ok.names) && TryFree(body, ok)
    case For(_, _, _, _, _, body) => TryFree(body, ok)
    case Case(sel, brs, els) =>
      (ok.pure(sel) || OneLabel(brs)) && TryFreeBranches(brs, ok) && (els.Body? ==> TryFree(els.stmts, ok))
    case Try(_, _, _) => false
    case Raise(e) => e.Some? || ok.bareRaise
    case _ => true
  }

  /** One branch with one label, and that not a range. */
  predicate OneLabel(brs: seq<Branch>) {
    |brs| == 1 && |brs[0].labels| == 1 && !brs[0].labels[0].RangeLabel?
  }

  predicate TryFreeTail(t: ElseTail, ok: Shape)
    decreases t
  {
    match t
    case NoElse => true
    case Else(body) => TryFree(body, ok)
    case Elsif(cond, body, rest) => PlainCond(cond, ok.names) && TryFree(body, ok) && TryFreeTail(rest, ok)
  }

  predicate TryFreeBranches(brs: seq<Branch>, ok: Shape)
    decreases brs
  {
    brs == [] || (TryFree(brs[0].body, ok) && TryFreeBranches(brs[1..], ok))
  }

  lemma {:induction false} TryFreeIsPlain(ss: seq<Stmt>, ok: Shape)
    requires TryFree(ss, ok)
    ensures PlainStmts(ss, ok.names, false)
    decreases ss, 0
  {
    if ss != [] {
      TryFreeStmtIsPlain(ss[0], ok);
      TryFreeIsPlain(ss[1..], ok);
    }
  }

  lemma {:induction false} TryFreeStmtIsPlain(s: Stmt, ok: Shape)
    requires TryFreeStmt(s, ok)
    ensures PlainStmt(s, ok.names, false)
    decreases s, 1
  {
    match s
    case If(_, thenBody, tail) => TryFreeIsPlain(thenBody, ok); TryFreeTailIsPlain(tail, ok);
    case While(_, body) => TryFreeIsPlain(body, ok);
    case Loop(body) => TryFreeIsPlain(body, ok);
    case Repeat(body, _) => TryFreeIsPlain(body, ok);
    case For(_, _, _, _, _, body) => TryFreeIsPlain(body, ok);
    case Case(_, brs, els) =>
      TryFreeBranchesArePlain(brs, ok);
      match els { case Body(ss) => TryFreeIsPlain(ss, ok); case NoBody => }
    case _ =>
  }

  lemma {:induction false} TryFreeTailIsPlain(t: ElseTail, ok: Shape)
    requires TryFreeTail(t, ok)
    ensures PlainTail(t, ok.names, false)
    decreases t
  {
    match t
    case NoElse =>
    case Else(body) => TryFreeIsPlain(body, ok);
    case Elsif(_, body, rest) => TryFreeIsPlain(body, ok); TryFreeTailIsPlain(rest, ok);
  }

  lemma {:induction false} TryFreeBranchesArePlain(brs: seq<Branch>, ok: Shape)
    requires TryFreeBranches(brs, ok)
    ensures PlainBranches(brs, ok.names, false)
    decreases brs
  {
    if brs != [] {
      TryFreeIsPlain(brs[0].body, ok);
      TryFreeBranchesArePlain(brs[1..], ok);
    }
  }

  // ----- their graphs have no handlers -----

  predicate BareTerm(t: Terminator, ok: Shape) {
    && (t.Switch? ==> ok.pure(t.sel) || OneArm(t.arms))
    && (t.BranchOn? ==> !NamesException(t.cond, ok.names))
    && (t == RaiseT(None) ==> ok.bareRaise)
  }

  predicate BareBlock(blk: Block, ok: Shape) {
    blk.handler.None? && (blk.term.Some? ==> BareTerm(blk.term.value, ok))
  }

  predicate Bare(b: Builder, ok: Shape) {
    b.handlers == [] && forall i :: 0 <= i < |b.blocks| ==> BareBlock(b.blocks[i], ok)
  }

  lemma {:induction false} BareStart(b: Builder, id: BlockId, ok: Shape)
    requires Bare(b, ok)
    ensures Bare(Lowering.Start(b, id), ok) && Bare(StartIfReached(b, id), ok)
  {
  }

  lemma {:induction false} BareSeal(b: Builder, t: Terminator, ok: Shape)
    requires Bare(b, ok) && BareTerm(t, ok)
    ensures Bare(Seal(b, t), ok) && Bare(SealIfOpen(b, t), ok)
  {
  }

  lemma {:induction false} BareNew(b: Builder, n: nat, ok: Shape)
    requires Bare(b, ok)
    ensures Bare(NewBlock(b), ok) && Bare(NewBlocks(b, n), ok)
    decreases n
  {
    if n > 0 {
      BareNew(b, n - 1, ok);
      var b1 := NewBlocks(b, n - 1);
      assert NewBlock(b1).blocks == b1.blocks + [Block([], None, None)];
    }
  }

  lemma {:induction false} BarePush(b: Builder, ss: seq<Stmt>, ok: Shape)
    requires Bare(b, ok)
    ensures Bare(PushAll(b, ss), ok) && (forall s :: Bare(Push(b, s), ok))
    decreases ss
  {
    if ss != [] { BarePush(Push(b, ss[0]), ss[1..], ok); }
  }

  lemma {:induction false} BareCond(b: Builder, e: Expr, t: BlockId, f: BlockId, ok: Shape)
    requires Bare(b, ok) && PlainCond(e, ok.names)
    ensures Bare(LowerCond(b, e, t, f), ok)
    decreases e
  {
    hide Bare, Lowering.Start, Seal, NewBlock;
    BareNew(b, 0, ok);
    if e.BinaryOp? && (e.op.And? || e.op.Or?) {
      var rhs := |b.blocks|;
      var t1, f1 := if e.op.And? then rhs else t, if e.op.And? then f else rhs;
      BareCond(NewBlock(b), e.left, t1, f1, ok);
      var b2 := LowerCond(NewBlock(b), e.left, t1, f1);
      BareStart(b2, rhs, ok);
      BareCond(Lowering.Start(b2, rhs), e.right, t, f, ok);
    } else if e.Not? {
      BareCond(b, e.operand, f, t, ok);
    } else {
      BareSeal(b, BranchOn(e, t, f), ok);
    }
  }

  lemma {:induction false} BareStmts(b: Builder, ss: seq<Stmt>, ok: Shape)
    requires Bare(b, ok) && TryFree(ss, ok)
    ensures Bare(LowerStmts(b, ss), ok)
    decreases ss, 0
  {
    hide Bare;
    if ss != [] {
      BareStmt(b, ss[0], ok);
      BareStmts(LowerStmt(b, ss[0]), ss[1..], ok);
    }
  }

  lemma {:induction false} BareBody(b: Builder, ss: seq<Stmt>, next: BlockId, ok: Shape)
    requires Bare(b, ok) && TryFree(ss, ok)
    ensures Bare(LowerBody(b, ss, next), ok)
    decreases ss, 1
  {
    hide Bare;
    BareStmts(b, ss, ok);
    BareSeal(LowerStmts(b, ss), Goto(next), ok);
  }

  lemma {:induction false} BareLoopBody(b: Builder, body: BlockId, exit: BlockId, ss: seq<Stmt>, next: BlockId,
          ok: Shape)
    requires Bare(b, ok) && TryFree(ss, ok)
    ensures var b' := LeaveLoop(LowerBody(Lowering.Start(EnterLoop(b, exit), body), ss, next));
      Bare(b', ok) && Bare(Lowering.Start(b', exit), ok)
    decreases ss, 2
  {
    var b1 := EnterLoop(b, exit);
    BareStart(b1, body, ok);
    BareBody(Lowering.Start(b1, body), ss, next, ok);
    var b2 := LowerBody(Lowering.Start(b1, body), ss, next);
    assert Bare(LeaveLoop(b2), ok);
    BareStart(LeaveLoop(b2), exit, ok);
  }

  lemma {:induction false} BareStmt(b: Builder, s: Stmt, ok: Shape)
    requires Bare(b, ok) && TryFreeStmt(s, ok)
    ensures Bare(LowerStmt(b, s), ok)
    decreases s, 1
  {
    hide Bare, Lowering.Start, Seal, SealIfOpen, NewBlock, NewBlocks, Push, PushAll, LowerBody, LowerCond, LowerTail,
      LowerBranches, LowerElse,
      StartIfReached, EnterLoop, LeaveLoop, LowerStmts, TryFree, AnyPathReaches;
    if b.current.None? { return; }
    BarePush(b, [], ok);
    match s
    case If(cond, thenBody, tail) =>
      BareNew(b, 0, ok);
      var merge, b1 := |b.blocks|, NewBlock(b);
      BareArm(b1, cond, tail, merge, ok);
      var b2 := OpenArm(b1, cond, tail, merge);
      BareStart(b2, |b1.blocks|, ok);
      BareBody(Lowering.Start(b2, |b1.blocks|), thenBody, merge, ok);
      var b3 := LowerBody(Lowering.Start(b2, |b1.blocks|), thenBody, merge);
      BareTail(b3, tail, FalseBlock(b1, tail, merge), merge, ok);
      BareStart(LowerTail(b3, tail, FalseBlock(b1, tail, merge), merge), merge, ok);
    case While(cond, body) =>
      var header := |b.blocks|;
      BareNew(b, 3, ok);
      BareSeal(NewBlocks(b, 3), Goto(header), ok);
      BareStart(Seal(NewBlocks(b, 3), Goto(header)), header, ok);
      BareCond(EnterHeader(b), cond, header + 1, header + 2, ok);
      BareLoopBody(OpenWhile(b, s), header + 1, header + 2, body, header, ok);
    case Loop(body) =>
      BareNew(b, 2, ok);
      BareSeal(NewBlocks(b, 2), Goto(|b.blocks|), ok);
      BareLoopBody(OpenLoop(b), |b.blocks|, |b.blocks| + 1, body, |b.blocks|, ok);
    case Exit =>
      if b.exits == [] { BarePanic(b, ok); } else { BareSeal(b, Goto(b.exits[|b.exits| - 1]), ok); }
    case Repeat(body, cond) =>
      BareNew(b, 2, ok);
      BareSeal(NewBlocks(b, 2), Goto(|b.blocks|), ok);
      BareUntil(OpenLoop(b), s, |b.blocks| + 1, |b.blocks|, ok);
    case For(_, _, _, _, _, body) =>
      var cond := |b.blocks|;
      var b0 := Push(b, ForInit(s));
      BareNew(b0, 4, ok);
      BareSeal(NewBlocks(b0, 4), Goto(cond), ok);
      BareStart(Seal(NewBlocks(b0, 4), Goto(cond)), cond, ok);
      BareSeal(Lowering.Start(Seal(NewBlocks(b0, 4), Goto(cond)), cond), BranchOn(ForCond(s), cond + 1, cond + 3), ok);
      BareLoopBody(OpenFor(b, s), cond + 1, cond + 3, body, cond + 2, ok);
      var b2 := LeaveLoop(LowerBody(Lowering.Start(EnterLoop(OpenFor(b, s), cond + 3), cond + 1), body, cond + 2));
      BareStart(b2, cond + 2, ok);
      BarePush(Lowering.Start(b2, cond + 2), [], ok);
      BareSeal(Push(Lowering.Start(b2, cond + 2), ForAdvance(s)), Goto(cond), ok);
      BareStart(LowerLatch(b2, s, cond + 2, cond), cond + 3, ok);
    case Case(sel, brs, els) =>
      var merge, default, base := |b.blocks|, |b.blocks| + 1, |b.blocks| + 2;
      BareNew(b, 2 + |brs|, ok);
      BareSeal(NewBlocks(b, 2 + |brs|), Switch(sel, SwitchArms(brs, base), default), ok);
      BareBranches(OpenCase(b, s), brs, sel, base, merge, ok);
      var b1 := LowerBranches(OpenCase(b, s), brs, sel, base, merge);
      BareElse(b1, els, default, merge, ok);
      BareStart(LowerElse(b1, els, default, merge), merge, ok);
    case Raise(e) => BareSeal(b, RaiseT(e), ok);
    case Return(e) => BareSeal(b, ReturnT(e), ok);
    case _ =>
  }

  lemma {:induction false} BarePanic(b: Builder, ok: Shape)
    requires Bare(b, ok)
    ensures Bare(b.(panicked := true), ok)
  {
  }

  lemma {:induction false} BareArm(b: Builder, cond: Expr, rest: ElseTail, merge: BlockId, ok: Shape)
    requires Bare(b, ok) && PlainCond(cond, ok.names)
    ensures Bare(OpenArm(b, cond, rest, merge), ok)
  {
    hide Bare, NewBlock, LowerCond;
    BareNew(b, 0, ok);
    BareNew(NewBlock(b), 0, ok);
    BareCond(if rest.NoElse? then NewBlock(b) else NewBlock(NewBlock(b)), cond, |b.blocks|, FalseBlock(b, rest, merge),
        ok);
  }

  lemma {:induction false} BareTail(b: Builder, t: ElseTail, cur: BlockId, merge: BlockId, ok: Shape)
    requires Bare(b, ok) && TryFreeTail(t, ok)
    ensures Bare(LowerTail(b, t, cur, merge), ok)
    decreases t
  {
    hide Bare, Lowering.Start, LowerBody, OpenArm, TryFree;
    BareStart(b, cur, ok);
    match t
    case NoElse =>
    case Else(body) => BareBody(Lowering.Start(b, cur), body, merge, ok);
    case Elsif(cond, body, rest) =>
      var b1 := Lowering.Start(b, cur);
      BareArm(b1, cond, rest, merge, ok);
      var b2 := OpenArm(b1, cond, rest, merge);
      BareStart(b2, |b1.blocks|, ok);
      BareBody(Lowering.Start(b2, |b1.blocks|), body, merge, ok);
      BareTail(LowerBody(Lowering.Start(b2, |b1.blocks|), body, merge), rest, FalseBlock(b1, rest, merge), merge, ok);
  }

  lemma {:induction false} BareUntil(b: Builder, s: Stmt, exit: BlockId, body: BlockId, ok: Shape)
    requires s.Repeat? && Bare(b, ok) && TryFree(s.body, ok) && PlainCond(s.cond, ok.names)
    ensures var b1 := Lowering.Start(EnterLoop(b, exit), body);
      Bare(Lowering.Start(LeaveLoop(LowerUntil(b1, s, exit, body)), exit), ok)
    decreases s.body, 1
  {
    var b1 := EnterLoop(b, exit);
    BareStart(b1, body, ok);
    BareStmts(Lowering.Start(b1, body), s.body, ok);
    var b2 := LowerStmts(Lowering.Start(b1, body), s.body);
    BareCond(b2, s.cond, exit, body, ok);
    var b3 := LowerUntil(Lowering.Start(b1, body), s, exit, body);
    assert Bare(LeaveLoop(b3), ok);
    BareStart(LeaveLoop(b3), exit, ok);
  }

  lemma {:induction false} BareBranches(b: Builder, brs: seq<Branch>, sel: Expr, base: BlockId, merge: BlockId,
          ok: Shape)
    requires Bare(b, ok) && TryFreeBranches(brs, ok)
    ensures Bare(LowerBranches(b, brs, sel, base, merge), ok)
    decreases brs
  {
    hide Bare, Lowering.Start, LowerBody, PushAll, TryFree;
    if brs != [] {
      BareStart(b, base, ok);
      var b1 := Lowering.Start(b, base);
      BarePush(b1, Binding(sel, brs[0]), ok);
      BareBody(PushAll(b1, Binding(sel, brs[0])), brs[0].body, merge, ok);
      BareBranches(LowerBody(PushAll(b1, Binding(sel, brs[0])), brs[0].body, merge), brs[1..], sel, base + 1, merge,
          ok);
    }
  }

  lemma {:induction false} BareElse(b: Builder, els: OptBody, default: BlockId, merge: BlockId, ok: Shape)
    requires Bare(b, ok) && (els.Body? ==> TryFree(els.stmts, ok))
    ensures Bare(LowerElse(b, els, default, merge), ok)
    decreases els
  {
    BareStart(b, default, ok);
    match els
    case NoBody => BareSeal(Lowering.Start(b, default), Goto(merge), ok);
    case Body(ss) => BareBody(Lowering.Start(b, default), ss, merge, ok);
  }

  // ----- the result -----

  /** Selectors without side effects, or compared just once, and conditions that name no exception. */
  ghost function Emits<S(!new)>(I: Interp<S>, bareRaise: bool): Shape {
    Shape(e => PureExpr(I, e), I.exceptions.Keys, bareRaise)
  }

  lemma {:induction false} BuildIsEmittable<S(!new)>(I: Interp<S>, body: seq<Stmt>, bareRaise: bool)
    requires Accepted(body) && TryFree(body, Emits(I, bareRaise))
    ensures Emittable(I, BuildCfg(body))
    ensures !bareRaise ==> forall st: State<S> :: !RaisesBare(I, BuildCfg(body), st)
  {
    hide Verified, ArmsFilled, LegalStmts, Labelled, TryFree, LowerStmts;
    PassesIff(body);
    BareStmts(New(), body, Emits(I, bareRaise));
  }

  /** The statements, from `st`, end as the lines' `ck`. */
  ghost predicate StatementsEnd<S(!new)>(I: Interp<S>, body: seq<Stmt>, st: State<S>, ck: CConfig<S>, vr: Option<int>) {
    exists k: Config<S> :: !k.At? && Finishes(I, body, st, k) && OfConfig(BuildCfg(body), k, vr) == ck
  }

  lemma {:induction false} StatementsAreGraph<S(!new)>(I: Interp<S>, body: seq<Stmt>, st: State<S>, ck: CConfig<S>,
          vr: Option<int>)
    requires Accepted(body) && TryFree(body, Emits(I, true))
    ensures StatementsEnd(I, body, st, ck, vr) <==> GraphEnds(I, BuildCfg(body), st, ck, vr)
  {
    hide LegalStmts, Labelled, TryFree, LowerStmts, PlainStmts, Leads, Finishes;
    TryFreeIsPlain(body, Emits(I, true));
    forall k: Config<S> | !k.At? ensures Leads(I, BuildCfg(body), At(0, 0, st), k) <==> Finishes(I, body, st, k) {
      LoweringIsExact(I, body, st, k);
    }
  }

  /**
   End to end, for a legal TRY-free body and every start: the emitted C ends
   in a given way exactly when the statements do with exception 1 pending, and
   it never falls off its lines.
   */
  lemma {:induction false} EmittedIsExact<S(!new)>(I: Interp<S>, body: seq<Stmt>, st: State<S>, ck: CConfig<S>,
          vr: Option<int>)
    requires Accepted(body) && TryFree(body, Emits(I, true)) && !ck.Pc?
    ensures var c := BuildCfg(body);
      CLeads(I, Emitted(c, |c|, vr), Pc(0, st), ck)
      <==> CPending(ck, st.pending) == ck &&
           StatementsEnd(I, body, st.(pending := BareRaise), CPending(ck, BareRaise), vr)
    ensures ck.Crashed? ==> !CLeads(I, Emitted(BuildCfg(body), |BuildCfg(body)|, vr), Pc(0, st), ck)
  {
    hide LegalStmts, Labelled, TryFree, LowerStmts, PlainStmts, Emitted, Leads, CLeads, Finishes, Emittable, GraphEnds,
      BuildCfg;
    var c, st1 := BuildCfg(body), st.(pending := BareRaise);
    BuildIsEmittable(I, body, true);
    EmissionIsExact(I, c, st, ck, vr);
    StatementsAreGraph(I, body, st1, CPending(ck, BareRaise), vr);
    TryFreeIsPlain(body, Emits(I, true));
    NeverStuck(I, body, st1);
  }

  lemma {:induction false} NeverStuck<S(!new)>(I: Interp<S>, body: seq<Stmt>, st: State<S>)
    requires LegalStmts(body, false) && PlainStmts(body, I.exceptions.Keys, false)
    ensures !Finishes(I, body, st, Stuck)
  {
    hide LegalStmts, PlainStmts, Finishes, Leads;
    LoweringIsExact(I, body, st, Stuck);
  }

  /**
     With no bare RAISE in the body, or with exception 1 pending, that is how the statements end
     from the same start.
   */
  lemma {:induction false} EmittedIsFaithful<S(!new)>(I: Interp<S>, body: seq<Stmt>, st: State<S>, ck: CConfig<S>,
          vr: Option<int>)
    requires Accepted(body) && TryFree(body, Emits(I, true)) && !ck.Pc?
    requires st.pending == BareRaise || TryFree(body, Emits(I, false))
    ensures var c := BuildCfg(body); CLeads(I, Emitted(c, |c|, vr), Pc(0, st), ck) <==>
      StatementsEnd(I, body, st, ck, vr)
  {
    hide LegalStmts, Labelled, TryFree, LowerStmts, Emitted, CLeads, Emittable, RaisesBare, GraphEnds, StatementsEnd,
      BuildCfg;
    BuildIsEmittable(I, body, true);
    if st.pending != BareRaise { BuildIsEmittable(I, body, false); }
    EmissionAgreesIff(I, BuildCfg(body), st, vr);
    StatementsAreGraph(I, body, st, ck, vr);
  }

  ghost predicate SameEnds<S(!new)>(I: Interp<S>, body: seq<Stmt>, st: State<S>, vr: Option<int>) {
    forall ck: CConfig<S> :: !ck.Pc? ==>
      (CLeads(I, Emitted(BuildCfg(body), |BuildCfg(body)|, vr), Pc(0, st), ck) <==> StatementsEnd(I, body, st, ck, vr))
  }

  /** Exactly when: exception 1 is pending, or the run executes no bare RAISE. */
  lemma {:induction false} SameEndsIff<S(!new)>(I: Interp<S>, body: seq<Stmt>, st: State<S>, vr: Option<int>)
    requires Accepted(body) && TryFree(body, Emits(I, true))
    ensures SameEnds(I, body, st, vr) <==> st.pending == BareRaise || !RaisesBare(I, BuildCfg(body), st)
  {
    hide LegalStmts, Labelled, TryFree, LowerStmts, Emitted, CLeads, Emittable, RaisesBare, GraphEnds, StatementsEnd,
      BuildCfg;
    BuildIsEmittable(I, body, true);
    EmissionAgreesIff(I, BuildCfg(body), st, vr);
    forall ck: CConfig<S> ensures StatementsEnd(I, body, st, ck, vr) <==> GraphEnds(I, BuildCfg(body), st, ck, vr) {
      StatementsAreGraph(I, body, st, ck, vr);
    }
  }

  /** The statements run for ever exactly when the emitted C does. */
  lemma {:induction false} EmittedDiverges<S(!new)>(I: Interp<S>, body: seq<Stmt>, st: State<S>, vr: Option<int>)
    requires Accepted(body) && TryFree(body, Emits(I, true))
    ensures (forall fuel: nat :: ExecStmts(I, body, st, fuel).OutOfFuel?)
       <==> CRunsForEver(I, Emitted(BuildCfg(body), |BuildCfg(body)|, vr), Pc(0, st))
  {
    hide LegalStmts, Labelled, TryFree, LowerStmts, PlainStmts, Emitted, Emittable, ExecStmts, BuildCfg;
    BuildIsEmittable(I, body, true);
    TryFreeIsPlain(body, Emits(I, true));
    DivergenceIsExact(I, body, st);
    EmissionDiverges(I, BuildCfg(body), st, vr);
  }

  /** The simplest case: a RAISE without operand, outside any handler, with another exception pending. */
  lemma {:induction false} BareRaiseEscapes<S(!new)>(I: Interp<S>, st: State<S>, vr: Option<int>)
    requires st.pending != BareRaise
    ensures var body := [Raise(None)];
      Accepted(body) && TryFree(body, Emits(I, true)) && !SameEnds(I, body, st, vr)
  {
    var body := [Raise(None)];
    assert body[1..] == [];
    assert Accepted(body) && TryFree(body, Emits(I, true));
    var b := Seal(New(), RaiseT(None));
    assert LowerStmts(New(), body) == b;
    assert BuildCfg(body)[0].term == Some(RaiseT(None)) && BuildCfg(body)[0].stmts == [];
    assert AtBareRaise(BuildCfg(body), Run(I, BuildCfg(body), At(0, 0, st), 0));
    SameEndsIff(I, body, st, vr);
  }
}
