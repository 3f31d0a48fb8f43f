/**
 Where the builder itself panics: an EXIT outside every loop (`expect` at
 src/cfg/build.rs:306) and an EXCEPT clause after a catch-all one
 (src/cfg/build.rs:72), which the parser takes (src/parser.rs:1773).
 */
module Panics {
  import opened Wrappers
  import opened Hir
  import opened Cfg
  import opened Lowering
  import opened Protocol
  import opened ProtocolStmts
  import opened Correctness
  import opened Arms

  // ----- once panicked, always panicked -----

  lemma {:induction false} OpStays(b: Builder, id: BlockId, t: Terminator, n: nat)
    requires b.panicked
    ensures Start(b, id).panicked && Seal(b, t).panicked && SealIfOpen(b, t).panicked && NewBlock(b).panicked
    ensures NewBlocks(b, n).panicked && NewBlocksNoHandler(b, n).panicked && StartIfReached(b, id).panicked
    decreases n
  {
    if n > 0 { OpStays(b, id, t, n - 1); }
  }

  lemma {:induction false} PushStays(b: Builder, ss: seq<Stmt>)
    requires b.panicked
    ensures PushAll(b, ss).panicked
    decreases ss
  {
    if ss != [] { PushStays(Push(b, ss[0]), ss[1..]); }
  }

  lemma {:induction false} CondStays(b: Builder, e: Expr, t: BlockId, f: BlockId)
    requires b.panicked
    ensures LowerCond(b, e, t, f).panicked
    decreases e
  {
    hide Start, Seal;
    if e.BinaryOp? && (e.op.And? || e.op.Or?) {
      var rhs := |b.blocks|;
      var b1 := LowerCond(NewBlock(b), e.left, if e.op.And? then rhs else t, if e.op.And? then f else rhs);
      CondStays(NewBlock(b), e.left, if e.op.And? then rhs else t, if e.op.And? then f else rhs);
      OpStays(b1, rhs, Goto(t), 0);
      CondStays(Start(b1, rhs), e.right, t, f);
    } else if e.Not? {
      CondStays(b, e.operand, f, t);
    } else {
      OpStays(b, 0, BranchOn(e, t, f), 0);
    }
  }

  lemma {:induction false} StmtsStay(b: Builder, ss: seq<Stmt>)
    requires b.panicked
    ensures LowerStmts(b, ss).panicked
    decreases ss, 0
  {
    if ss != [] {
      StmtStays(b, ss[0]);
      StmtsStay(LowerStmt(b, ss[0]), ss[1..]);
    }
  }

  lemma {:induction false} BodyStays(b: Builder, id: BlockId, pre: seq<Stmt>, ss: seq<Stmt>, next: BlockId)
    requires b.panicked
    ensures LowerBody(PushAll(Start(b, id), pre), ss, next).panicked
    decreases ss, 1
  {
    hide Start, PushAll, LowerStmts, SealIfOpen;
    OpStays(b, id, Goto(next), 0);
    PushStays(Start(b, id), pre);
    var b1 := PushAll(Start(b, id), pre);
    StmtsStay(b1, ss);
    OpStays(LowerStmts(b1, ss), id, Goto(next), 0);
  }

  lemma {:induction false} NoPre(b: Builder)
    ensures PushAll(b, []) == b
  {
  }

  /** A body in a loop, and the block after the loop. */
  lemma {:induction false} LoopStays(b: Builder, id: BlockId, exit: BlockId, ss: seq<Stmt>, next: BlockId)
    requires b.panicked
    ensures LeaveLoop(LowerBody(Start(EnterLoop(b, exit), id), ss, next)).panicked
    decreases ss, 2
  {
    hide Start, LowerBody;
    NoPre(Start(EnterLoop(b, exit), id));
    BodyStays(EnterLoop(b, exit), id, [], ss, next);
  }

  lemma {:induction false} StmtStays(b: Builder, s: Stmt)
    requires b.panicked
    ensures LowerStmt(b, s).panicked
    decreases s, 1
  {
    hide Start, Seal, SealIfOpen, NewBlock, NewBlocks, LowerBody, LowerCond, LowerTail, LowerBranches, LowerElse,
      StartIfReached, EnterLoop, LeaveLoop, LowerStmts, LowerTry;
    if b.current.None? { return; }
    match s
    case If(cond, thenBody, tail) =>
      var merge, b1 := |b.blocks|, NewBlock(b);
      OpStays(b, 0, Goto(0), 0);
      ArmStays(b1, cond, thenBody, tail, merge);
      var b2 := LowerBody(Start(OpenArm(b1, cond, tail, merge), |b1.blocks|), thenBody, merge);
      TailStays(b2, tail, FalseBlock(b1, tail, merge), merge);
      OpStays(LowerTail(b2, tail, FalseBlock(b1, tail, merge), merge), merge, Goto(0), 0);
    case While(cond, body) =>
      var header := |b.blocks|;
      OpStays(b, header, Goto(header), 3);
      OpStays(NewBlocks(b, 3), header, Goto(header), 0);
      OpStays(Seal(NewBlocks(b, 3), Goto(header)), header, Goto(header), 0);
      CondStays(EnterHeader(b), cond, header + 1, header + 2);
      LoopStays(OpenWhile(b, s), header + 1, header + 2, body, header);
      OpStays(LeaveLoop(LowerBody(Start(EnterLoop(OpenWhile(b, s), header + 2), header + 1), body, header)),
        header + 2, Goto(0), 0);
    case Loop(body) =>
      var header := |b.blocks|;
      OpStays(b, header, Goto(header), 2);
      OpStays(NewBlocks(b, 2), header, Goto(header), 0);
      LoopStays(OpenLoop(b), header, header + 1, body, header);
      OpStays(LeaveLoop(LowerBody(Start(EnterLoop(OpenLoop(b), header + 1), header), body, header)), header + 1,
        Goto(0), 0);
    case Exit => OpStays(b, 0, if b.exits == [] then Goto(0) else Goto(b.exits[|b.exits| - 1]), 0);
    case Repeat(body, cond) =>
      var header := |b.blocks|;
      OpStays(b, header, Goto(header), 2);
      OpStays(NewBlocks(b, 2), header, Goto(header), 0);
      UntilStays(OpenLoop(b), s, header + 1, header);
    case For(_, _, _, _, _, body) => ForStays(b, s);
    case Case(_, _, _) => CaseStays(b, s);
    case Try(_, _, _) => TryStays(b, s);
    case Raise(e) => OpStays(b, 0, RaiseT(e), 0);
    case Return(e) => OpStays(b, 0, ReturnT(e), 0);
    case _ =>
  }

  lemma {:induction false} ArmStays(b: Builder, cond: Expr, body: seq<Stmt>, rest: ElseTail, merge: BlockId)
    requires b.panicked
    ensures LowerBody(Start(OpenArm(b, cond, rest, merge), |b.blocks|), body, merge).panicked
    decreases body, 2
  {
    hide Start, LowerBody, LowerCond, PushAll;
    var b1 := OpenArm(b, cond, rest, merge);
    CondStays(if rest.NoElse? then NewBlock(b) else NewBlock(NewBlock(b)), cond, |b.blocks|,
      FalseBlock(b, rest, merge));
    NoPre(Start(b1, |b.blocks|));
    BodyStays(b1, |b.blocks|, [], body, merge);
  }

  lemma {:induction false} TailStays(b: Builder, t: ElseTail, cur: BlockId, merge: BlockId)
    requires b.panicked
    ensures LowerTail(b, t, cur, merge).panicked
    decreases t
  {
    hide Start, LowerBody, OpenArm, PushAll;
    OpStays(b, cur, Goto(0), 0);
    match t
    case NoElse =>
    case Else(body) =>
      NoPre(Start(b, cur));
      BodyStays(b, cur, [], body, merge);
    case Elsif(cond, body, rest) =>
      var b1 := Start(b, cur);
      ArmStays(b1, cond, body, rest, merge);
      TailStays(LowerBody(Start(OpenArm(b1, cond, rest, merge), |b1.blocks|), body, merge), rest,
        FalseBlock(b1, rest, merge), merge);
  }

  lemma {:induction false} UntilStays(b: Builder, s: Stmt, exit: BlockId, body: BlockId)
    requires s.Repeat? && b.panicked
    ensures Start(LeaveLoop(LowerUntil(Start(EnterLoop(b, exit), body), s, exit, body)), exit).panicked
    decreases s.body, 1
  {
    hide Start, LowerStmts, LowerCond;
    var b1 := Start(EnterLoop(b, exit), body);
    OpStays(EnterLoop(b, exit), body, Goto(0), 0);
    StmtsStay(b1, s.body);
    CondStays(LowerStmts(b1, s.body), s.cond, exit, body);
    OpStays(LeaveLoop(LowerUntil(b1, s, exit, body)), exit, Goto(0), 0);
  }

  lemma {:induction false} ForStays(b: Builder, s: Stmt)
    requires s.For? && b.panicked
    ensures LowerFor(b, s).panicked
    decreases s, 0
  {
    hide Start, Seal, NewBlocks, LowerBody, EnterLoop, LeaveLoop;
    var cond, t := |b.blocks|, BranchOn(ForCond(s), |b.blocks| + 1, |b.blocks| + 3);
    var b0 := NewBlocks(Push(b, ForInit(s)), 4);
    OpStays(Push(b, ForInit(s)), cond, Goto(cond), 4);
    OpStays(b0, cond, Goto(cond), 0);
    OpStays(Seal(b0, Goto(cond)), cond, t, 0);
    OpStays(Start(Seal(b0, Goto(cond)), cond), cond, t, 0);
    LoopStays(OpenFor(b, s), cond + 1, cond + 3, s.body, cond + 2);
    var b1 := LeaveLoop(LowerBody(Start(EnterLoop(OpenFor(b, s), cond + 3), cond + 1), s.body, cond + 2));
    OpStays(b1, cond + 2, Goto(cond), 0);
    OpStays(Push(Start(b1, cond + 2), ForAdvance(s)), cond, Goto(cond), 0);
    OpStays(LowerLatch(b1, s, cond + 2, cond), cond + 3, Goto(cond), 0);
  }

  lemma {:induction false} CaseStays(b: Builder, s: Stmt)
    requires s.Case? && b.panicked
    ensures LowerCase(b, s).panicked
    decreases s, 0
  {
    hide Start, Seal, NewBlocks, LowerBranches, LowerElse, StartIfReached;
    var merge, default, base := |b.blocks|, |b.blocks| + 1, |b.blocks| + 2;
    var t := Switch(s.sel, SwitchArms(s.branches, base), default);
    OpStays(b, 0, t, 2 + |s.branches|);
    OpStays(NewBlocks(b, 2 + |s.branches|), 0, t, 0);
    BranchesStay(OpenCase(b, s), s.branches, s.sel, base, merge);
    var b1 := LowerBranches(OpenCase(b, s), s.branches, s.sel, base, merge);
    ElseStays(b1, s.elseBody, default, merge);
    OpStays(LowerElse(b1, s.elseBody, default, merge), merge, t, 0);
  }

  lemma {:induction false} BranchesStay(b: Builder, brs: seq<Branch>, sel: Expr, base: BlockId, merge: BlockId)
    requires b.panicked
    ensures LowerBranches(b, brs, sel, base, merge).panicked
    decreases brs
  {
    hide Start, LowerBody, PushAll;
    if brs != [] {
      BodyStays(b, base, Binding(sel, brs[0]), brs[0].body, merge);
      BranchesStay(LowerBody(PushAll(Start(b, base), Binding(sel, brs[0])), brs[0].body, merge), brs[1..], sel,
        base + 1, merge);
    }
  }

  lemma {:induction false} ElseStays(b: Builder, els: OptBody, default: BlockId, merge: BlockId)
    requires b.panicked
    ensures LowerElse(b, els, default, merge).panicked
    decreases els
  {
    hide Start, LowerBody, PushAll, SealIfOpen;
    OpStays(b, default, Goto(merge), 0);
    match els
    case NoBody => OpStays(Start(b, default), default, Goto(merge), 0);
    case Body(ss) =>
      NoPre(Start(b, default));
      BodyStays(b, default, [], ss, merge);
  }

  lemma {:induction false} TryStays(b: Builder, s: Stmt)
    requires s.Try? && b.panicked
    ensures LowerTry(b, s).panicked
    decreases s, 0
  {
    hide Start, Seal, SealIfOpen, LowerStmts, LowerHandlers, StartIfReached, CloseTry;
    var merge, catch, next := |b.blocks|, |b.blocks| + 1, TryNext(b, s);
    var b0 := AllocTry(b, s);
    OpStays(NewBlock(b0), 0, Goto(|b0.blocks|), 0);
    OpStays(SealIfOpen(NewBlock(b0), Goto(|b0.blocks|)), |b0.blocks|, Goto(0), 0);
    StmtsStay(OpenTry(b, s), s.body);
    var b1 := SealIfOpen(LeaveTry(LowerStmts(OpenTry(b, s), s.body)), Goto(next));
    OpStays(LeaveTry(LowerStmts(OpenTry(b, s), s.body)), 0, Goto(next), 0);
    OpStays(b1, catch, Goto(0), 0);
    HandlersStay(Start(b1, catch), s.clauses, s.finallyBody, next);
    CloseStays(LowerHandlers(Start(b1, catch), s.clauses, s.finallyBody, next), s, next, merge);
  }

  /** FINALLY and the merge block. */
  lemma {:induction false} CloseStays(b: Builder, s: Stmt, next: BlockId, merge: BlockId)
    requires s.Try? && b.panicked
    ensures StartIfReached(CloseTry(b, s, next, merge), merge).panicked
  {
    hide Start, SealIfOpen, PushAll, StartIfReached;
    if s.finallyBody.Body? {
      OpStays(b, next, Goto(merge), 0);
      PushStays(Start(b, next), s.finallyBody.stmts);
      OpStays(PushAll(Start(b, next), s.finallyBody.stmts), next, Goto(merge), 0);
    }
    OpStays(CloseTry(b, s, next, merge), merge, Goto(0), 0);
  }

  lemma {:induction false} ReraiseStays(b: Builder, fin: OptBody)
    requires b.panicked
    ensures Reraise(b, fin).panicked
  {
    hide Seal, PushAll;
    PushStays(b, OptStmts(fin));
    OpStays(PushAll(b, OptStmts(fin)), 0, RaiseT(None), 0);
  }

  lemma {:induction false} HandlersStay(b: Builder, cs: seq<Clause>, fin: OptBody, next: BlockId)
    requires b.panicked || OpenHandlers(b, cs).panicked
    ensures (cs == [] && !b.panicked) || LowerHandlers(b, cs, fin, next).panicked
    decreases cs, 1
  {
    hide Start, LowerClauses, Reraise, OpenHandlers;
    if cs == [] {
      if b.panicked { ReraiseStays(b, fin); }
    } else {
      var reraise, base := |b.blocks|, |b.blocks| + 1;
      var b1 := OpenHandlers(b, cs);
      if b.panicked { OpenStays(b, cs); }
      ClausesStay(b1, cs, base, next);
      OpStays(LowerClauses(b1, cs, base, next), reraise, Goto(0), 0);
      ReraiseStays(Start(LowerClauses(b1, cs, base, next), reraise), fin);
    }
  }

  lemma {:induction false} OpenStays(b: Builder, cs: seq<Clause>)
    requires b.panicked
    ensures OpenHandlers(b, cs).panicked
  {
    hide NewBlocksNoHandler, LowerDispatch;
    OpStays(b, 0, Goto(0), 1 + |cs|);
    DispatchStays(NewBlocksNoHandler(b, 1 + |cs|), cs, |b.blocks| + 1, |b.blocks|);
  }

  lemma {:induction false} DispatchStays(b: Builder, cs: seq<Clause>, base: BlockId, reraise: BlockId)
    requires b.panicked
    ensures LowerDispatch(b, cs, base, reraise).panicked
    decreases cs
  {
    hide Start, Seal, LocalExpr, LowerDispatch;
    if cs == [] {
      NoDispatch(b, base, reraise);
    } else {
      UnfoldDispatch(b, cs, base, reraise);
      OpStays(b, 0, Goto(base), 0);
      if cs[0].exception.None? {
        DispatchStays(Seal(b, Goto(base)), cs[1..], base + 1, reraise);
      } else {
        var test, next := LocalExpr(cs[0].exception.value), |b.blocks|;
        OpStays(b, 0, BranchOn(test, base, reraise), 0);
        OpStays(NewBlockNoHandler(b), 0, BranchOn(test, base, next), 0);
        var b1 := Seal(NewBlockNoHandler(b), BranchOn(test, base, next));
        OpStays(b1, next, Goto(0), 0);
        if |cs| > 1 { DispatchStays(Start(b1, next), cs[1..], base + 1, reraise); }
      }
    }
  }

  lemma {:induction false} NoDispatch(b: Builder, base: BlockId, reraise: BlockId)
    ensures LowerDispatch(b, [], base, reraise) == b
  {
  }

  lemma {:induction false} ClausesStay(b: Builder, cs: seq<Clause>, base: BlockId, next: BlockId)
    requires b.panicked
    ensures LowerClauses(b, cs, base, next).panicked
    decreases cs, 0
  {
    hide Start, LowerBody, PushAll;
    if cs != [] {
      NoPre(Start(b, base));
      BodyStays(b, base, [], cs[0].body, next);
      ClausesStay(LowerBody(Start(b, base), cs[0].body, next), cs[1..], base + 1, next);
    }
  }

  // ----- a clause after a catch-all -----

  predicate CatchAllLast(cs: seq<Clause>) {
    forall i :: 0 <= i < |cs| - 1 ==> cs[i].exception.Some?
  }

  /** The catch-all closes the dispatch block, and the next clause has none to close. */
  lemma {:induction false} DispatchPanics(b: Builder, cs: seq<Clause>, base: BlockId, reraise: BlockId)
    requires !CatchAllLast(cs)
    ensures LowerDispatch(b, cs, base, reraise).panicked
    decreases cs
  {
    hide Start, LocalExpr, LowerDispatch;
    UnfoldDispatch(b, cs, base, reraise);
    if cs[0].exception.None? {
      var b1 := Seal(b, Goto(base));
      ClosedPanics(b1, cs[1..], base + 1, reraise);
    } else {
      var test, next := LocalExpr(cs[0].exception.value), |b.blocks|;
      var i :| 0 <= i < |cs| - 1 && cs[i].exception.None?;
      assert cs[1..][i - 1].exception.None?;
      DispatchPanics(Start(Seal(NewBlockNoHandler(b), BranchOn(test, base, next)), next), cs[1..], base + 1, reraise);
    }
  }

  lemma {:induction false} ClosedPanics(b: Builder, cs: seq<Clause>, base: BlockId, reraise: BlockId)
    requires cs != [] && (b.current.None? || b.panicked)
    ensures LowerDispatch(b, cs, base, reraise).panicked
  {
    hide Start, LocalExpr, LowerDispatch;
    UnfoldDispatch(b, cs, base, reraise);
    if b.panicked {
      DispatchStays(b, cs, base, reraise);
    } else if cs[0].exception.None? {
      DispatchStays(Seal(b, Goto(base)), cs[1..], base + 1, reraise);
    } else {
      var test, next := LocalExpr(cs[0].exception.value), |b.blocks|;
      var b1 := Seal(NewBlockNoHandler(b), BranchOn(test, base, next));
      assert b1.panicked && Seal(b, BranchOn(test, base, reraise)).panicked;
      OpStays(b1, next, Goto(0), 0);
      if |cs| > 1 { DispatchStays(Start(b1, next), cs[1..], base + 1, reraise); }
    }
  }

  /**
   For a TRY with legal parts, anywhere in the text: the builder panics on it
   exactly when a clause follows a catch-all.
   */
  lemma {:induction false} TryPanicsIff(b: Builder, s: Stmt, P: set<BlockId>)
    requires s.Try? && Inv(b, P) && b.current.Some?
    requires LegalStmts(s.body, b.exits != []) && LegalClauses(s.clauses, b.exits != [])
    ensures LowerTry(b, s).panicked <==> !CatchAllLast(s.clauses)
  {
    hide Inv, LowerStmts, LowerHandlers, StartIfReached, CloseTry, LegalStmts, LegalClauses, OpenHandlers, OpenTry,
      SealIfOpen, Start;
    if CatchAllLast(s.clauses) {
      TryInv(b, s, P);
      InvFacts(LowerTry(b, s), P);
    } else {
      var next := TryNext(b, s);
      var b1 := Start(SealIfOpen(LeaveTry(LowerStmts(OpenTry(b, s), s.body)), Goto(next)), |b.blocks| + 1);
      OpenPanics(b1, s.clauses);
      HandlersStay(b1, s.clauses, s.finallyBody, next);
      CloseStays(LowerHandlers(b1, s.clauses, s.finallyBody, next), s, next, |b.blocks|);
    }
  }

  lemma {:induction false} OpenPanics(b: Builder, cs: seq<Clause>)
    requires !CatchAllLast(cs)
    ensures OpenHandlers(b, cs).panicked
  {
    hide LowerDispatch, NewBlocksNoHandler;
    DispatchPanics(NewBlocksNoHandler(b, 1 + |cs|), cs, |b.blocks| + 1, |b.blocks|);
  }

  /** An EXIT panics exactly when no loop is open. */
  lemma {:induction false} ExitPanicsIff(b: Builder, P: set<BlockId>)
    requires Inv(b, P) && b.current.Some?
    ensures LowerExit(b).panicked <==> b.exits == []
  {
    InvFacts(b, P);
  }

  // ----- whole bodies -----

  lemma {:induction false} StmtsPanic(b: Builder, ss: seq<Stmt>, P: set<BlockId>)
    requires Inv(b, P) && b.current.Some? && !LegalStmts(ss, b.exits != [])
    ensures LowerStmts(b, ss).panicked
    decreases ss, 0
  {
    hide Inv, LowerStmt, LegalStmt, FallsStmt, Traced;
    var b1 := LowerStmt(b, ss[0]);
    if LegalStmt(ss[0], b.exits != []) {
      StmtInv(b, ss[0], P);
      StmtTraced(b, ss[0], P);
      StmtsPanic(b1, ss[1..], P);
    } else {
      StmtPanics(b, ss[0], P);
      StmtsStay(b1, ss[1..]);
    }
  }

  lemma {:induction false} StmtPanics(b: Builder, s: Stmt, P: set<BlockId>)
    requires Inv(b, P) && b.current.Some? && !LegalStmt(s, b.exits != [])
    ensures LowerStmt(b, s).panicked
    decreases s, 1
  {
    hide Inv, LowerIf, LowerWhile, LowerLoop, LowerRepeat, LowerFor, LowerCase, LowerTry, LegalStmts, LegalTail,
      LegalBranches, LegalClauses;
    match s
    case If(_, _, _) => IfPanics(b, s, P);
    case While(_, _) => WhilePanics(b, s, P);
    case Loop(_) => LoopPanics(b, s, P);
    case Exit =>
    case Repeat(_, _) => RepeatPanics(b, s, P);
    case For(_, _, _, _, _, _) => ForPanics(b, s, P);
    case Case(_, _, _) => CasePanics(b, s, P);
    case Try(_, _, _) => TryPanics(b, s, P);
  }

  lemma {:induction false} BodyPanics(b: Builder, id: BlockId, pre: seq<Stmt>, ss: seq<Stmt>, next: BlockId,
          P: set<BlockId>)
    requires Inv(b, P) && b.current.None? && id < |b.blocks| && Open(b.blocks[id]) && !LegalStmts(ss, b.exits != [])
    ensures LowerBody(PushAll(Start(b, id), pre), ss, next).panicked
    decreases ss, 1
  {
    hide Inv, LowerStmts, LegalStmts, Start, SealIfOpen;
    StartInv(b, id, P);
    PushAllInv(Start(b, id), pre, P);
    var b1 := PushAll(Start(b, id), pre);
    StmtsPanic(b1, ss, P);
    OpStays(LowerStmts(b1, ss), 0, Goto(next), 0);
  }

  lemma {:induction false} IfPanics(b: Builder, s: Stmt, P: set<BlockId>)
    requires s.If? && Inv(b, P) && b.current.Some? && !LegalStmt(s, b.exits != [])
    ensures LowerIf(b, s).panicked
    decreases s, 0
  {
    hide Inv, LowerBody, LowerTail, StartIfReached, OpenArm, LegalStmts, LegalTail, Start, Falls, AnyPathReaches;
    InvFacts(b, P);
    var merge, b1 := |b.blocks|, NewBlock(b);
    var et, ff := |b1.blocks|, FalseBlock(b1, s.tail, merge);
    var Q1 := P + {merge};
    var Q := Q1 + {et, ff};
    NewBlockInv(b, P);
    InvPromise(b1, P, Q1);
    OpenArmInv(b1, s.cond, s.tail, merge, Q1);
    var b3 := OpenArm(b1, s.cond, s.tail, merge);
    var b4 := LowerBody(Start(b3, et), s.thenBody, merge);
    NoPre(Start(b3, et));
    if LegalStmts(s.thenBody, b.exits != []) {
      BodyInv(b3, et, [], s.thenBody, merge, Q);
      TailPanics(b4, s.tail, ff, merge, Q);
    } else {
      BodyPanics(b3, et, [], s.thenBody, merge, Q);
      TailStays(b4, s.tail, ff, merge);
    }
    OpStays(LowerTail(b4, s.tail, ff, merge), merge, Goto(0), 0);
  }

  lemma {:induction false} TailPanics(b: Builder, t: ElseTail, cur: BlockId, merge: BlockId, Q: set<BlockId>)
    requires Inv(b, Q) && b.current.None? && !LegalTail(t, b.exits != []) && merge in Q && 0 < merge < |b.blocks|
    requires !t.NoElse? ==> 0 < cur < |b.blocks| && Open(b.blocks[cur]) && cur != merge
    ensures LowerTail(b, t, cur, merge).panicked
    decreases t
  {
    hide Inv, OpenArm, LowerBody, AnyPathReaches, LegalStmts, Start, Falls;
    InvFacts(b, Q);
    match t
    case Else(body) =>
      NoPre(Start(b, cur));
      BodyPanics(b, cur, [], body, merge, Q);
    case Elsif(cond, body, rest) =>
      StartInv(b, cur, Q);
      var b1 := Start(b, cur);
      var et, ef := |b1.blocks|, FalseBlock(b1, rest, merge);
      var Q2 := Q + {et, ef};
      OpenArmInv(b1, cond, rest, merge, Q);
      var b3 := OpenArm(b1, cond, rest, merge);
      var b4 := LowerBody(Start(b3, et), body, merge);
      NoPre(Start(b3, et));
      if LegalStmts(body, b.exits != []) {
        BodyInv(b3, et, [], body, merge, Q2);
        TailPanics(b4, rest, ef, merge, Q2);
      } else {
        BodyPanics(b3, et, [], body, merge, Q2);
        TailStays(b4, rest, ef, merge);
      }
  }

  lemma {:induction false} LoopBodyPanics(b: Builder, body: BlockId, exit: BlockId, ss: seq<Stmt>, next: BlockId,
          Q: set<BlockId>)
    requires Inv(b, Q) && b.current.None? && body < |b.blocks| && Open(b.blocks[body])
    requires exit in Q && 0 < exit < |b.blocks| && !LegalStmts(ss, true)
    ensures LeaveLoop(LowerBody(Start(EnterLoop(b, exit), body), ss, next)).panicked
    decreases ss, 2
  {
    hide Inv, LowerBody, LegalStmts, Start;
    InvFacts(b, Q);
    var b1 := EnterLoop(b, exit);
    StacksInv(b, b1, Q);
    NoPre(Start(b1, body));
    BodyPanics(b1, body, [], ss, next, Q);
  }

  lemma {:induction false} WhilePanics(b: Builder, s: Stmt, P: set<BlockId>)
    requires s.While? && Inv(b, P) && b.current.Some? && !LegalStmt(s, b.exits != [])
    ensures LowerWhile(b, s).panicked
    decreases s, 0
  {
    hide Inv, OpenWhile, LowerBody, LeaveLoop, EnterLoop, LegalStmts, Start;
    InvFacts(b, P);
    var header, body, exit := |b.blocks|, |b.blocks| + 1, |b.blocks| + 2;
    OpenWhileInv(b, s, P);
    LoopBodyPanics(OpenWhile(b, s), body, exit, s.body, header, P + {header, body, exit});
    OpStays(LeaveLoop(LowerBody(Start(EnterLoop(OpenWhile(b, s), exit), body), s.body, header)), exit, Goto(0), 0);
  }

  lemma {:induction false} LoopPanics(b: Builder, s: Stmt, P: set<BlockId>)
    requires s.Loop? && Inv(b, P) && b.current.Some? && !LegalStmt(s, b.exits != [])
    ensures LowerLoop(b, s).panicked
    decreases s, 0
  {
    hide Inv, OpenLoop, LowerBody, LeaveLoop, EnterLoop, LegalStmts, Start;
    InvFacts(b, P);
    var header, exit := |b.blocks|, |b.blocks| + 1;
    OpenLoopInv(b, P);
    LoopBodyPanics(OpenLoop(b), header, exit, s.body, header, P + {header, exit});
    OpStays(LeaveLoop(LowerBody(Start(EnterLoop(OpenLoop(b), exit), header), s.body, header)), exit, Goto(0), 0);
  }

  lemma {:induction false} RepeatPanics(b: Builder, s: Stmt, P: set<BlockId>)
    requires s.Repeat? && Inv(b, P) && b.current.Some? && !LegalStmt(s, b.exits != [])
    ensures LowerRepeat(b, s).panicked
    decreases s, 0
  {
    hide Inv, OpenLoop, LowerStmts, LegalStmts, LowerCond;
    InvFacts(b, P);
    var body, exit := |b.blocks|, |b.blocks| + 1;
    var Q := P + {body, exit};
    OpenLoopInv(b, P);
    var b0 := EnterLoop(OpenLoop(b), exit);
    StacksInv(OpenLoop(b), b0, Q);
    StartInv(b0, body, Q);
    var b1 := Start(b0, body);
    StmtsPanic(b1, s.body, Q);
    CondStays(LowerStmts(b1, s.body), s.cond, exit, body);
    OpStays(LeaveLoop(LowerUntil(b1, s, exit, body)), exit, Goto(0), 0);
  }

  lemma {:induction false} ForPanics(b: Builder, s: Stmt, P: set<BlockId>)
    requires s.For? && Inv(b, P) && b.current.Some? && !LegalStmt(s, b.exits != [])
    ensures LowerFor(b, s).panicked
    decreases s, 0
  {
    hide Inv, OpenFor, LowerBody, EnterLoop, LeaveLoop, LegalStmts, Start, Seal;
    InvFacts(b, P);
    var cond, body, latch, exit := |b.blocks|, |b.blocks| + 1, |b.blocks| + 2, |b.blocks| + 3;
    OpenForInv(b, s, P);
    LoopBodyPanics(OpenFor(b, s), body, exit, s.body, latch, P + Span(cond, 4));
    var b1 := LeaveLoop(LowerBody(Start(EnterLoop(OpenFor(b, s), exit), body), s.body, latch));
    OpStays(b1, latch, Goto(cond), 0);
    OpStays(Push(Start(b1, latch), ForAdvance(s)), cond, Goto(cond), 0);
    OpStays(LowerLatch(b1, s, latch, cond), exit, Goto(cond), 0);
  }

  lemma {:induction false} BranchesPanic(b: Builder, brs: seq<Branch>, sel: Expr, base: BlockId, merge: BlockId,
          Q: set<BlockId>)
    requires Inv(b, Q) && b.current.None? && !LegalBranches(brs, b.exits != [])
    requires ProtocolStmts.Range(b, base, |brs|) && merge in Q && 0 < merge < base
    ensures LowerBranches(b, brs, sel, base, merge).panicked
    decreases brs
  {
    hide Inv, LowerBody, PushAll, AnyPathReaches, LegalStmts, LowerBranches, Start, Binding, ProtocolStmts.Range,
      FilledRange, Falls;
    InvFacts(b, Q);
    UnfoldBranches(b, brs, sel, base, merge);
    RangeStarts(b, base, |brs|);
    var b1 := LowerBody(PushAll(Start(b, base), Binding(sel, brs[0])), brs[0].body, merge);
    if LegalStmts(brs[0].body, b.exits != []) {
      BodyInv(b, base, Binding(sel, brs[0]), brs[0].body, merge, Q);
      FilledFirst(b, b1, base, |brs|);
      BranchesPanic(b1, brs[1..], sel, base + 1, merge, Q);
    } else {
      BodyPanics(b, base, Binding(sel, brs[0]), brs[0].body, merge, Q);
      BranchesStay(b1, brs[1..], sel, base + 1, merge);
    }
  }

  lemma {:induction false} CasePanics(b: Builder, s: Stmt, P: set<BlockId>)
    requires s.Case? && Inv(b, P) && b.current.Some? && !LegalStmt(s, b.exits != [])
    ensures LowerCase(b, s).panicked
    decreases s, 0
  {
    hide Inv, LowerBranches, LowerElse, StartIfReached, LegalBranches, LegalStmts, OpenCase, FallsBranches,
      AnyPathReaches;
    InvFacts(b, P);
    var merge, default, base, n := |b.blocks|, |b.blocks| + 1, |b.blocks| + 2, |s.branches|;
    var Q0 := P + Span(merge + 1, 1 + n);
    var Q := Q0 + {merge};
    OpenCaseInv(b, s, P);
    var b1 := OpenCase(b, s);
    InvPromise(b1, Q0, Q);
    var b2 := LowerBranches(b1, s.branches, s.sel, base, merge);
    if LegalBranches(s.branches, b.exits != []) {
      BranchesInv(b1, s.branches, s.sel, base, merge, Q);
      ElsePanics(b2, s.elseBody, default, merge, Q);
    } else {
      BranchesPanic(b1, s.branches, s.sel, base, merge, Q);
      ElseStays(b2, s.elseBody, default, merge);
    }
    OpStays(LowerElse(b2, s.elseBody, default, merge), merge, Goto(0), 0);
  }

  lemma {:induction false} ElsePanics(b: Builder, els: OptBody, default: BlockId, merge: BlockId, Q: set<BlockId>)
    requires Inv(b, Q) && b.current.None? && default < |b.blocks| && Open(b.blocks[default])
    requires els.Body? && !LegalStmts(els.stmts, b.exits != [])
    ensures LowerElse(b, els, default, merge).panicked
    decreases els
  {
    hide Inv, LowerBody, Start, LegalStmts;
    NoPre(Start(b, default));
    match els
    case Body(ss) => BodyPanics(b, default, [], ss, merge, Q);
  }

  lemma {:induction false} ClausesPanic(b: Builder, cs: seq<Clause>, base: BlockId, next: BlockId, Q: set<BlockId>)
    requires Inv(b, Q) && b.current.None? && !LegalClauses(cs, b.exits != [])
    requires ProtocolStmts.Range(b, base, |cs|) && next in Q && 0 < next < base
    ensures LowerClauses(b, cs, base, next).panicked
    decreases cs, 0
  {
    hide Inv, LowerBody, LegalStmts, LowerClauses, Start, ProtocolStmts.Range, FilledRange, Falls, AnyPathReaches;
    InvFacts(b, Q);
    UnfoldClauses(b, cs, base, next);
    RangeStarts(b, base, |cs|);
    NoPre(Start(b, base));
    var b1 := LowerBody(Start(b, base), cs[0].body, next);
    if LegalStmts(cs[0].body, b.exits != []) {
      BodyInv(b, base, [], cs[0].body, next, Q);
      FilledFirst(b, b1, base, |cs|);
      ClausesPanic(b1, cs[1..], base + 1, next, Q);
    } else {
      BodyPanics(b, base, [], cs[0].body, next, Q);
      ClausesStay(b1, cs[1..], base + 1, next);
    }
  }

  lemma {:induction false} HandlersPanic(b: Builder, cs: seq<Clause>, fin: OptBody, next: BlockId, Q: set<BlockId>)
    requires Inv(b, Q) && b.current.Some? && !(CatchAllLast(cs) && LegalClauses(cs, b.exits != []))
    requires next in Q && 0 < next < |b.blocks|
    ensures LowerHandlers(b, cs, fin, next).panicked
    decreases cs, 1
  {
    hide Inv, LowerClauses, OpenHandlers, Reraise, Start, AnyPathReaches, LegalStmts;
    InvFacts(b, Q);
    if CatchAllLast(cs) {
      var reraise, base := |b.blocks|, |b.blocks| + 1;
      OpenHandlersInv(b, cs, Q);
      var b1 := OpenHandlers(b, cs);
      ClausesPanic(b1, cs, base, next, Q + Span(reraise, 1 + |cs|));
      OpStays(LowerClauses(b1, cs, base, next), reraise, Goto(0), 0);
      ReraiseStays(Start(LowerClauses(b1, cs, base, next), reraise), fin);
    } else {
      OpenPanics(b, cs);
      HandlersStay(b, cs, fin, next);
    }
  }

  lemma {:induction false} TryPanics(b: Builder, s: Stmt, P: set<BlockId>)
    requires s.Try? && Inv(b, P) && b.current.Some? && !LegalStmt(s, b.exits != [])
    ensures LowerTry(b, s).panicked
    decreases s, 0
  {
    hide Inv, LowerStmts, LowerHandlers, StartIfReached, OpenTry, CloseTry, SealIfOpen, LeaveTry, Start,
      AnyPathReaches, LegalStmts, LegalClauses, Falls;
    InvFacts(b, P);
    var merge, catch, next := |b.blocks|, |b.blocks| + 1, TryNext(b, s);
    OpenTryInv(b, s, P);
    var b1 := OpenTry(b, s);
    var Q0 := P + {b1.current.value};
    var Q := Q0 + {next};
    InvPromise(b1, Q0, Q);
    var b2 := SealIfOpen(LeaveTry(LowerStmts(b1, s.body)), Goto(next));
    if LegalStmts(s.body, b.exits != []) {
      TryBodyInv(b1, s.body, next, Q);
      StartInv(b2, catch, Q);
      HandlersPanic(Start(b2, catch), s.clauses, s.finallyBody, next, Q);
    } else {
      StmtsPanic(b1, s.body, Q);
      LeaveStays(LowerStmts(b1, s.body), next, catch);
      if s.clauses == [] {
        NoHandlers(Start(b2, catch), s.finallyBody, next);
        ReraiseStays(Start(b2, catch), s.finallyBody);
      } else {
        HandlersStay(Start(b2, catch), s.clauses, s.finallyBody, next);
      }
    }
    CloseStays(LowerHandlers(Start(b2, catch), s.clauses, s.finallyBody, next), s, next, merge);
  }

  lemma {:induction false} LeaveStays(b: Builder, next: BlockId, catch: BlockId)
    requires b.panicked
    ensures Start(SealIfOpen(LeaveTry(b), Goto(next)), catch).panicked
  {
    OpStays(LeaveTry(b), catch, Goto(next), 0);
    OpStays(SealIfOpen(LeaveTry(b), Goto(next)), catch, Goto(next), 0);
  }

  /**
   The builder panics exactly when, among the statements it lowers, an EXIT
   stands outside every loop or a clause follows a catch-all one.
   */
  lemma {:induction false} BuilderPanicsIff(body: seq<Stmt>)
    ensures LowerStmts(New(), body).panicked <==> !LegalStmts(body, false)
  {
    hide Inv, LowerStmts, LegalStmts;
    NewInv();
    if LegalStmts(body, false) {
      StmtsInv(New(), body, {});
      InvFacts(LowerStmts(New(), body), {});
    } else {
      StmtsPanic(New(), body, {});
    }
  }

  /** `build_cfg` returns, neither the builder nor `verify` having panicked, exactly for the accepted bodies. */
  lemma {:induction false} BuildReturnsIff(body: seq<Stmt>)
    ensures !LowerStmts(New(), body).panicked && Passes(BuildCfg(body)) <==> Accepted(body)
  {
    hide LowerStmts, LegalStmts, Labelled, Passes, BuildCfg;
    BuilderPanicsIff(body);
    if LegalStmts(body, false) { PassesIff(body); }
  }

  /** The shortest such body: two catch-all clauses. */
  lemma {:induction false} TwoCatchAlls(rest: seq<Stmt>)
    ensures LowerStmts(New(), [Try([], [Clause(None, []), Clause(None, [])], NoBody)] + rest).panicked
  {
    hide LowerStmts, LowerTry;
    var cs := [Clause(None, []), Clause(None, [])];
    var s := Try([], cs, NoBody);
    NewInv();
    assert cs[1..] == [Clause(None, [])] && cs[1..][1..] == [];
    assert LegalClauses(cs[1..][1..], false) && LegalClauses(cs[1..], false);
    assert cs[0].exception.None?;
    TryPanicsIff(New(), s, {});
    FirstStmt(New(), s, rest);
    StmtsStay(LowerStmt(New(), s), rest);
  }

  lemma {:induction false} FirstStmt(b: Builder, s: Stmt, rest: seq<Stmt>)
    ensures LowerStmts(b, [s] + rest) == LowerStmts(LowerStmt(b, s), rest)
  {
    hide LowerStmt;
    assert ([s] + rest)[1..] == rest;
  }
}
