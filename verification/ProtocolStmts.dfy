/** The builder protocol, construct by construct, and its conclusion for a whole body. */
module ProtocolStmts {
  import opened Wrappers
  import opened Hir
  import opened Cfg
  import opened Lowering
  import opened Protocol

  /** The n block ids from `lo` on. */
  function Span(lo: BlockId, n: nat): (s: set<BlockId>)
    ensures forall i :: i in s <==> lo <= i < lo + n
  {
    if n == 0 then {} else Span(lo, n - 1) + {lo + n - 1}
  }

  lemma {:induction false} GrownTrans(b: Builder, b1: Builder, b2: Builder, P: set<BlockId>)
    requires Inv(b, P) && Grown(b, b1, P) && Grown(b1, b2, P)
    ensures Grown(b, b2, P)
  {
    if b.current.Some? && b1.current.Some? {
      FrameTrans(b, b1, b2, b.current.value, b1.current.value);
    }
  }

  /** Promises made on the way are dropped again. */
  lemma {:induction false} GrownMore(b: Builder, b': Builder, P0: set<BlockId>, P: set<BlockId>)
    requires Inv(b, P) && Grown(b, b', P0) && P0 <= P
    ensures Grown(b, b', P)
  {
    hide Inv;
    InvPromise(b', P0, P);
  }

  /** Only blocks that exist need a promise. */
  function Below(P: set<BlockId>, n: nat): (P0: set<BlockId>)
    ensures P0 <= P && forall x :: x in P0 <==> x in P && x < n
  {
    set x | x in P && x < n
  }

  lemma {:induction false} InvBelow(b: Builder, P: set<BlockId>)
    requires Inv(b, P)
    ensures Inv(b, Below(P, |b.blocks|))
  {
    hide Inv, AnyPathReaches;
    InvFacts(b, P);
    InvPromise(b, P, Below(P, |b.blocks|));
  }

  /** With no block open nothing is lowered. */
  lemma {:induction false} ClosedSame(b: Builder, ss: seq<Stmt>)
    requires b.current.None?
    ensures LowerStmts(b, ss) == b
    decreases ss
  {
    if ss != [] { ClosedSame(b, ss[1..]); }
  }

  lemma {:induction false} StmtsInv(b: Builder, ss: seq<Stmt>, P: set<BlockId>)
    requires Inv(b, P) && LegalStmts(ss, b.exits != [])
    ensures Grown(b, LowerStmts(b, ss), P)
    ensures LowerStmts(b, ss).current.Some? ==> Falls(ss)
    decreases ss, 0
  {
    hide Inv, LowerStmt, LegalStmt, FallsStmt;
    InvFacts(b, P);
    if ss != [] {
      var b1 := LowerStmt(b, ss[0]);
      StmtInv(b, ss[0], P);
      if FallsStmt(ss[0]) {
        StmtsInv(b1, ss[1..], P);
      } else {
        ClosedSame(b1, ss[1..]);
        GrownRefl(b1, P);
      }
      GrownTrans(b, b1, LowerStmts(b1, ss[1..]), P);
    } else {
      GrownRefl(b, P);
    }
  }

  /** The statements after the first, if they are lowered at all. */
  lemma {:induction false} RestInv(b: Builder, ss: seq<Stmt>, P: set<BlockId>)
    requires ss != [] && Inv(b, P) && LegalStmts(ss, b.exits != [])
    ensures var b1 := LowerStmt(b, ss[0]);
      && Grown(b, b1, P) && Grown(b1, LowerStmts(b1, ss[1..]), P)
      && (b1.current.Some? ==> b.current.Some? && FallsStmt(ss[0]) && LegalStmts(ss[1..], b1.exits != []))
    decreases ss, 1
  {
    hide Inv, LowerStmt, LowerStmts, LegalStmt, FallsStmt;
    var b1 := LowerStmt(b, ss[0]);
    InvFacts(b, P);
    StmtInv(b, ss[0], P);
    if b1.current.Some? {
      StmtsInv(b1, ss[1..], P);
    } else {
      ClosedSame(b1, ss[1..]);
      GrownRefl(b1, P);
    }
  }

  lemma {:induction false} GrownRefl(b: Builder, P: set<BlockId>)
    requires Inv(b, P)
    ensures Grown(b, b, P)
  {
  }

  lemma {:induction false} StmtInv(b: Builder, s: Stmt, P: set<BlockId>)
    requires Inv(b, P) && LegalStmt(s, b.exits != [])
    ensures Grown(b, LowerStmt(b, s), P)
    ensures LowerStmt(b, s).current.Some? ==> b.current.Some? && FallsStmt(s)
    decreases s, 1
  {
    hide Inv, LowerIf, LowerWhile, LowerLoop, LowerRepeat, LowerFor, LowerCase, LowerTry, LegalStmts, LegalTail,
      LegalBranches,
      LegalClauses, AnyPathReaches;
    InvFacts(b, P);
    if b.current.None? { return; }
    match s
    case Empty =>
    case Assign(_, _) => PushInv(b, s, P);
    case ProcCall(_, _) => PushInv(b, s, P);
    case If(_, _, _) => IfInv(b, s, P);
    case While(_, _) => WhileInv(b, s, P);
    case Loop(_) => LoopInv(b, s, P);
    case Exit => SealInv(b, Goto(b.exits[|b.exits| - 1]), P);
    case Repeat(_, _) => RepeatInv(b, s, P);
    case For(_, _, _, _, _, _) => ForInv(b, s, P);
    case Case(_, _, _) => CaseInv(b, s, P);
    case Try(_, _, _) => TryInv(b, s, P);
    case Raise(e) => SealInv(b, RaiseT(e), P);
    case Return(e) => SealInv(b, ReturnT(e), P);
  }

  /** Starting block `id` with `pre`, lowering a body into it and leaving for `next`. */
  lemma {:induction false} BodyInv(b: Builder, id: BlockId, pre: seq<Stmt>, ss: seq<Stmt>, next: BlockId,
          P: set<BlockId>)
    requires Inv(b, P) && b.current.None? && id < |b.blocks| && Open(b.blocks[id])
    requires LegalStmts(ss, b.exits != []) && (Falls(ss) ==> Landed(b, next, P))
    ensures var b' := LowerBody(PushAll(Start(b, id), pre), ss, next);
      Inv(b', P) && Filled(b, b', id)
    decreases ss, 1
  {
    hide Inv;
    InvFacts(b, P);
    var b1 := Start(b, id);
    StartInv(b, id, P);
    PushAllInv(b1, pre, P);
    var b2 := PushAll(b1, pre);
    StmtsInv(b2, ss, P);
    var b3 := LowerStmts(b2, ss);
    FrameTrans(b, b2, b3, id, id);
    if b3.current.Some? {
      LandedKept(b, b3, id, next, P);
      SealGotoInv(b3, next, P);
      FrameTrans(b, b3, Seal(b3, Goto(next)), id, b3.current.value);
    }
  }

  lemma {:induction false} OpenArmInv(b: Builder, cond: Expr, rest: ElseTail, merge: BlockId, Q: set<BlockId>)
    requires Inv(b, Q) && b.current.Some? && (rest.NoElse? ==> merge in Q) && 0 < merge < |b.blocks|
    ensures var b', et, ef := OpenArm(b, cond, rest, merge), |b.blocks|, FalseBlock(b, rest, merge);
      && Inv(b', Q + {et, ef}) && Filled(b, b', b.current.value) && et < |b'.blocks| && ef < |b'.blocks|
      && b'.blocks[et] == Block([], None, Last(b.handlers))
      && (!rest.NoElse? ==> b'.blocks[ef] == Block([], None, Last(b.handlers)))
  {
    hide Inv, LowerCond, AnyPathReaches;
    InvFacts(b, Q);
    var b1 := if rest.NoElse? then NewBlock(b) else NewBlock(NewBlock(b));
    var et, ef := |b.blocks|, FalseBlock(b, rest, merge);
    var Q2 := Q + {et, ef};
    NewBlockInv(b, Q); NewBlockInv(NewBlock(b), Q);
    InvPromise(b1, Q, Q2);
    CondInv(b1, cond, et, ef, Q2);
  }

  /** The merge block of a construct that can fall through. */
  function MergeOf(s: Stmt, merge: BlockId): (M: set<BlockId>)
    ensures forall x :: x in M <==> FallsStmt(s) && x == merge
  {
    if FallsStmt(s) then {merge} else {}
  }

  lemma {:induction false} NoElseFalls(t: ElseTail)
    ensures t.NoElse? ==> FallsTail(t)
    ensures t.Elsif? && t.rest.NoElse? ==> FallsTail(t)
  {
  }

  lemma {:induction false} IfInv(b: Builder, s: Stmt, P: set<BlockId>)
    requires s.If? && Inv(b, P) && b.current.Some? && LegalStmt(s, b.exits != [])
    ensures Grown(b, LowerIf(b, s), P) && (LowerIf(b, s).current.Some? ==> FallsStmt(s))
    decreases s, 0
  {
    hide Inv, LowerBody, LowerTail, StartIfReached, OpenArm, LegalStmts, Start, Falls, FallsTail, LegalTail,
      AnyPathReaches, Successors, BlockOk, EdgesOk, Below, Span;
    InvFacts(b, P);
    NoElseFalls(s.tail);
    var P0 := Below(P, |b.blocks|);
    var k, merge, b1 := b.current.value, |b.blocks|, NewBlock(b);
    var et, ff := |b1.blocks|, FalseBlock(b1, s.tail, merge);
    var Q1 := P0 + MergeOf(s, merge);
    var Q := Q1 + {et, ff};
    InvBelow(b, P);
    NewBlockInv(b, P0);
    InvPromise(b1, P0, Q1);
    OpenArmInv(b1, s.cond, s.tail, merge, Q1);
    var b3 := OpenArm(b1, s.cond, s.tail, merge);
    BodyInv(b3, et, [], s.thenBody, merge, Q);
    var b4 := LowerBody(Start(b3, et), s.thenBody, merge);
    TailInv(b4, s.tail, ff, merge, Q);
    var b5 := LowerTail(b4, s.tail, ff, merge);
    FrameTrans(b, b3, b4, k, et);
    if !s.tail.NoElse? { FrameTrans(b, b4, b5, k, ff); }
    MergeInv(b, b5, merge, P0, Q);
    GrownMore(b, LowerIf(b, s), P0, P);
  }

  /** Closing a construct at its merge block, which starts only if an edge reaches it. */
  lemma {:induction false} MergeInv(b: Builder, b': Builder, merge: BlockId, P: set<BlockId>, Q: set<BlockId>)
    requires b.current.Some? && Inv(b, P) && Inv(b', Q) && P <= Q && merge >= |b.blocks|
    requires Frame(b, b', b.current.value) && b'.current.None? && SameStacks(b, b')
    requires merge < |b'.blocks| && b'.blocks[merge] == Block([], None, Last(b.handlers))
    requires forall x :: x in Q && x !in P ==> |b.blocks| <= x < |b'.blocks| && (x == merge || !Open(b'.blocks[x]))
    ensures Grown(b, StartIfReached(b', merge), P)
    ensures StartIfReached(b', merge).current.Some? ==> merge in Q
  {
    hide Inv;
    InvFacts(b, P);
    if AnyPathReaches(b', merge) {
      StartInv(b', merge, Q);
      ReachedPromised(b', merge, Q);
    }
    InvPromise(StartIfReached(b', merge), Q, P);
  }

  /** An edge to an open block was promised. */
  lemma {:induction false} ReachedPromised(b: Builder, x: BlockId, Q: set<BlockId>)
    requires Inv(b, Q) && b.current.None? && AnyPathReaches(b, x) && x < |b.blocks| && Open(b.blocks[x])
    ensures x in Q
  {
    var j :| 0 <= j < |b.blocks| && b.blocks[j].term.Some? && x in Successors(b.blocks[j].term.value);
    assert BlockOk(b, j, Q);
    assert Landed(b, x, Q);
  }

  lemma {:induction false} TailInv(b: Builder, t: ElseTail, cur: BlockId, merge: BlockId, Q: set<BlockId>)
    requires Inv(b, Q) && b.current.None? && LegalTail(t, b.exits != [])
    requires (FallsTail(t) ==> merge in Q) && 0 < merge < |b.blocks|
    requires !t.NoElse? ==> 0 < cur < |b.blocks| && Open(b.blocks[cur]) && cur != merge
    ensures var b' := LowerTail(b, t, cur, merge);
      Inv(b', Q) && (if t.NoElse? then b' == b else Filled(b, b', cur))
    decreases t
  {
    hide Inv, OpenArm, LowerBody, AnyPathReaches, LegalStmts, Start, Falls;
    InvFacts(b, Q);
    NoElseFalls(t);
    match t
    case NoElse =>
    case Else(body) => BodyInv(b, cur, [], body, merge, Q);
    case Elsif(cond, body, rest) =>
      StartInv(b, cur, Q);
      var b1 := Start(b, cur);
      var et, ef := |b1.blocks|, FalseBlock(b1, rest, merge);
      var Q2 := Q + {et, ef};
      OpenArmInv(b1, cond, rest, merge, Q);
      var b3 := OpenArm(b1, cond, rest, merge);
      BodyInv(b3, et, [], body, merge, Q2);
      var b4 := LowerBody(Start(b3, et), body, merge);
      TailInv(b4, rest, ef, merge, Q2);
      var b5 := LowerTail(b4, rest, ef, merge);
      FrameTrans(b, b3, b4, cur, et);
      if !rest.NoElse? { FrameTrans(b, b4, b5, cur, ef); }
      InvPromise(b5, Q2, Q);
  }

  lemma {:induction false} OpenWhileInv(b: Builder, s: Stmt, P: set<BlockId>)
    requires s.While? && Inv(b, P) && b.current.Some?
    ensures var b', header := OpenWhile(b, s), |b.blocks|;
      && Inv(b', P + {header, header + 1, header + 2}) && Filled(b, b', b.current.value)
      && header + 2 < |b'.blocks| && !Open(b'.blocks[header])
      && b'.blocks[header + 1] == b'.blocks[header + 2] == Block([], None, Last(b.handlers))
      && b'.blocks[b.current.value] == b.blocks[b.current.value].(term := Some(Goto(header)))
    ensures var h, header := EnterHeader(b), |b.blocks|;
      && Inv(h, P + {header, header + 1, header + 2}) && h.current == Some(header) && SameStacks(b, h)
      && |h.blocks| == header + 3 && h.blocks[header] == Block([], None, Last(b.handlers))
  {
    hide Inv, LowerCond, Seal, Start, NewBlocks, AnyPathReaches;
    InvFacts(b, P);
    var header := |b.blocks|;
    var Q := P + {header, header + 1, header + 2};
    var b0 := NewBlocks(b, 3);
    NewBlocksInv(b, 3, P);
    InvPromise(b0, P, Q);
    SealGotoInv(b0, header, Q);
    StartInv(Seal(b0, Goto(header)), header, Q);
    var b1 := Start(Seal(b0, Goto(header)), header);
    CondInv(b1, s.cond, header + 1, header + 2, Q);
    FrameTrans(b, b1, LowerCond(b1, s.cond, header + 1, header + 2), b.current.value, header);
  }

  lemma {:induction false} WhileInv(b: Builder, s: Stmt, P: set<BlockId>)
    requires s.While? && Inv(b, P) && b.current.Some? && LegalStmt(s, b.exits != [])
    ensures Grown(b, LowerWhile(b, s), P)
    decreases s, 0
  {
    hide Inv, OpenWhile, LowerBody, LeaveLoop, EnterLoop;
    InvFacts(b, P);
    var header, body, exit := |b.blocks|, |b.blocks| + 1, |b.blocks| + 2;
    var Q := P + {header, body, exit};
    OpenWhileInv(b, s, P);
    var b1 := OpenWhile(b, s);
    LoopBodyInv(b, b1, body, exit, s.body, header, P, Q);
    CloseLoop(b, LeaveLoop(LowerBody(Start(EnterLoop(b1, exit), body), s.body, header)), exit, P, Q);
  }

  /** A loop body runs with the loop's exit on the stack and takes it off again. */
  lemma {:induction false} LoopBodyInv(b: Builder, b1: Builder, body: BlockId, exit: BlockId, ss: seq<Stmt>,
          next: BlockId, P: set<BlockId>, Q: set<BlockId>)
    requires b.current.Some? && Inv(b, P) && Inv(b1, Q) && b1.current.None? && SameStacks(b, b1)
    requires Frame(b, b1, b.current.value)
    requires |b.blocks| <= body < |b1.blocks| && Open(b1.blocks[body])
    requires exit in Q && |b.blocks| <= exit < |b1.blocks| && Open(b1.blocks[exit]) && exit != body
    requires Landed(b1, next, Q) && LegalStmts(ss, true)
    ensures var b' := LeaveLoop(LowerBody(Start(EnterLoop(b1, exit), body), ss, next));
      && Inv(b', Q) && Filled(b1, b', body) && Frame(b, b', b.current.value)
    decreases ss, 2
  {
    var b2 := EnterLoop(b1, exit);
    StacksInv(b1, b2, Q);
    BodyInv(b2, body, [], ss, next, Q);
    var b3 := LowerBody(Start(b2, body), ss, next);
    var b4 := LeaveLoop(b3);
    StacksInv(b3, b4, Q);
    FrameTrans(b, b1, b4, b.current.value, body);
  }

  lemma {:induction false} CloseLoop(b: Builder, b': Builder, exit: BlockId, P: set<BlockId>, Q: set<BlockId>)
    requires b.current.Some? && Inv(b, P) && Inv(b', Q) && P <= Q && exit >= |b.blocks|
    requires Frame(b, b', b.current.value) && b'.current.None? && SameStacks(b, b')
    requires exit < |b'.blocks| && b'.blocks[exit] == Block([], None, Last(b.handlers))
    requires forall x :: x in Q && x !in P ==> |b.blocks| <= x < |b'.blocks| && (x == exit || !Open(b'.blocks[x]))
    ensures Grown(b, Start(b', exit), P)
  {
    hide Inv;
    InvFacts(b, P);
    StartInv(b', exit, Q);
    InvPromise(Start(b', exit), Q, P);
  }

  lemma {:induction false} OpenLoopInv(b: Builder, P: set<BlockId>)
    requires Inv(b, P) && b.current.Some?
    ensures var b', header := OpenLoop(b), |b.blocks|;
      && Inv(b', P + {header, header + 1}) && Filled(b, b', b.current.value) && |b'.blocks| == header + 2
      && b'.blocks[header] == b'.blocks[header + 1] == Block([], None, Last(b.handlers))
      && b'.blocks[b.current.value] == b.blocks[b.current.value].(term := Some(Goto(header)))
  {
    hide Inv, Seal, NewBlocks, AnyPathReaches;
    InvFacts(b, P);
    var header := |b.blocks|;
    var Q := P + {header, header + 1};
    NewBlocksInv(b, 2, P);
    InvPromise(NewBlocks(b, 2), P, Q);
    SealGotoInv(NewBlocks(b, 2), header, Q);
  }

  lemma {:induction false} LoopInv(b: Builder, s: Stmt, P: set<BlockId>)
    requires s.Loop? && Inv(b, P) && b.current.Some? && LegalStmt(s, b.exits != [])
    ensures Grown(b, LowerLoop(b, s), P)
    decreases s, 0
  {
    hide Inv, OpenLoop, LowerBody, EnterLoop, LeaveLoop;
    InvFacts(b, P);
    var header, exit := |b.blocks|, |b.blocks| + 1;
    var Q := P + {header, exit};
    OpenLoopInv(b, P);
    LoopBodyInv(b, OpenLoop(b), header, exit, s.body, header, P, Q);
    CloseLoop(b, LeaveLoop(LowerBody(Start(EnterLoop(OpenLoop(b), exit), header), s.body, header)), exit, P, Q);
  }

  lemma {:induction false} RepeatInv(b: Builder, s: Stmt, P: set<BlockId>)
    requires s.Repeat? && Inv(b, P) && b.current.Some? && LegalStmt(s, b.exits != [])
    ensures Grown(b, LowerRepeat(b, s), P)
    decreases s, 0
  {
    hide Inv, OpenLoop, LowerUntil, LegalStmts, AnyPathReaches, Start, EdgesOk, Successors, BlockOk;
    InvFacts(b, P);
    var k, body, exit := b.current.value, |b.blocks|, |b.blocks| + 1;
    var Q := P + {body, exit};
    OpenLoopInv(b, P);
    var b1 := EnterLoop(OpenLoop(b), exit);
    StacksInv(OpenLoop(b), b1, Q);
    StartInv(b1, body, Q);
    var b2 := Start(b1, body);
    UntilInv(b2, s, exit, body, Q);
    var b3 := LowerUntil(b2, s, exit, body);
    FrameTrans(b, b2, b3, k, body);
    StacksInv(b3, LeaveLoop(b3), Q);
    CloseLoop(b, LeaveLoop(b3), exit, P, Q);
  }

  lemma {:induction false} UntilInv(b: Builder, s: Stmt, exit: BlockId, body: BlockId, Q: set<BlockId>)
    requires s.Repeat? && Inv(b, Q) && b.current == Some(body) && b.exits != [] && LegalStmts(s.body, true)
    requires Landed(b, exit, Q) && Landed(b, body, Q)
    ensures Inv(LowerUntil(b, s, exit, body), Q) && Filled(b, LowerUntil(b, s, exit, body), body)
    decreases s.body, 1
  {
    hide Inv, LowerStmts, LowerCond, LegalStmts;
    InvFacts(b, Q);
    StmtsInv(b, s.body, Q);
    var b1 := LowerStmts(b, s.body);
    if b1.current.Some? {
      InvFacts(b1, Q);
      CondInv(b1, s.cond, exit, body, Q);
      FrameTrans(b, b1, LowerCond(b1, s.cond, exit, body), body, b1.current.value);
    }
  }

  lemma {:induction false} OpenForInv(b: Builder, s: Stmt, P: set<BlockId>)
    requires s.For? && Inv(b, P) && b.current.Some?
    ensures var b', cond := OpenFor(b, s), |b.blocks|;
      && Inv(b', P + Span(cond, 4)) && Filled(b, b', b.current.value)
      && |b'.blocks| == cond + 4
      && b'.blocks[cond] == Block([], Some(BranchOn(ForCond(s), cond + 1, cond + 3)), Last(b.handlers))
      && b'.blocks[cond + 1] == b'.blocks[cond + 2] == b'.blocks[cond + 3] == Block([], None, Last(b.handlers))
      && var blk := b.blocks[b.current.value];
         b'.blocks[b.current.value] == blk.(stmts := blk.stmts + [ForInit(s)], term := Some(Goto(cond)))
  {
    hide Inv, Seal, Start, Push, NewBlocks, AnyPathReaches;
    InvFacts(b, P);
    var cond := |b.blocks|;
    var Q := P + Span(cond, 4);
    var bp := Push(b, ForInit(s));
    PushInv(b, ForInit(s), P);
    var b0 := NewBlocks(bp, 4);
    NewBlocksInv(bp, 4, P);
    InvPromise(b0, P, Q);
    SealGotoInv(b0, cond, Q);
    StartInv(Seal(b0, Goto(cond)), cond, Q);
    SealInv(Start(Seal(b0, Goto(cond)), cond), BranchOn(ForCond(s), cond + 1, cond + 3), Q);
  }

  lemma {:induction false} ForInv(b: Builder, s: Stmt, P: set<BlockId>)
    requires s.For? && Inv(b, P) && b.current.Some? && LegalStmt(s, b.exits != [])
    ensures Grown(b, LowerFor(b, s), P)
    decreases s, 0
  {
    hide Inv, OpenFor, LowerBody, EnterLoop, LeaveLoop, LowerLatch;
    InvFacts(b, P);
    var cond, body, latch, exit := |b.blocks|, |b.blocks| + 1, |b.blocks| + 2, |b.blocks| + 3;
    var Q := P + Span(cond, 4);
    OpenForInv(b, s, P);
    var b1 := OpenFor(b, s);
    LoopBodyInv(b, b1, body, exit, s.body, latch, P, Q);
    var b2 := LeaveLoop(LowerBody(Start(EnterLoop(b1, exit), body), s.body, latch));
    LatchInv(b2, s, latch, cond, Q);
    FrameTrans(b, b2, LowerLatch(b2, s, latch, cond), b.current.value, latch);
    CloseLoop(b, LowerLatch(b2, s, latch, cond), exit, P, Q);
  }

  lemma {:induction false} LatchInv(b: Builder, s: Stmt, latch: BlockId, cond: BlockId, Q: set<BlockId>)
    requires s.For? && Inv(b, Q) && b.current.None? && latch < |b.blocks| && Open(b.blocks[latch]) && Landed(b, cond, Q)
    ensures var b' := LowerLatch(b, s, latch, cond);
      && Inv(b', Q) && Filled(b, b', latch) && |b'.blocks| == |b.blocks|
      && var blk := b.blocks[latch];
         b'.blocks[latch] == blk.(stmts := blk.stmts + [ForAdvance(s)], term := Some(Goto(cond)))
  {
    hide Inv, Seal, Start, Push, Landed;
    StartInv(b, latch, Q);
    var b1 := Start(b, latch);
    PushInv(b1, ForAdvance(s), Q);
    LandedKept(b, Push(b1, ForAdvance(s)), latch, cond, Q);
    SealGotoInv(Push(b1, ForAdvance(s)), cond, Q);
  }

  // ----- CASE and TYPECASE -----

  /** The n blocks from `lo` were each opened, filled and sealed; no other old block was touched. */
  ghost predicate FilledRange(b: Builder, b': Builder, lo: BlockId, n: nat) {
    && |b.blocks| <= |b'.blocks|
    && (forall i :: 0 <= i < |b.blocks| && !(lo <= i < lo + n) ==> b'.blocks[i] == b.blocks[i])
    && (forall i :: lo <= i < lo + n && i < |b.blocks| ==>
      !Open(b'.blocks[i]) && b'.blocks[i].handler == b.blocks[i].handler)
    && b'.current.None?
    && SameStacks(b, b')
  }

  lemma {:induction false} RangeFrame(b: Builder, b1: Builder, b2: Builder, k: BlockId, lo: BlockId, n: nat)
    requires Frame(b, b1, k) && b1.current.None? && FilledRange(b1, b2, lo, n) && lo >= |b.blocks| > k
    ensures Frame(b, b2, k)
  {
  }

  predicate Range(b: Builder, lo: BlockId, n: nat) {
    lo + n <= |b.blocks| && forall i :: lo <= i < lo + n ==> Open(b.blocks[i])
  }

  /** Filling the first of a range of blocks, then the rest. */
  lemma {:induction false} FilledFirst(b: Builder, b1: Builder, lo: BlockId, n: nat)
    requires n > 0 && Range(b, lo, n) && Filled(b, b1, lo) && !Open(b1.blocks[lo])
    ensures Range(b1, lo + 1, n - 1)
    ensures forall b2 :: FilledRange(b1, b2, lo + 1, n - 1) ==> FilledRange(b, b2, lo, n)
  {
  }

  lemma {:induction false} RangeStarts(b: Builder, lo: BlockId, n: nat)
    requires n > 0 && Range(b, lo, n)
    ensures lo < |b.blocks| && Open(b.blocks[lo])
  {
  }

  lemma {:induction false} FilledNone(b: Builder, lo: BlockId)
    requires b.current.None?
    ensures FilledRange(b, b, lo, 0)
  {
  }

  lemma {:induction false} UnfoldBranches(b: Builder, brs: seq<Branch>, sel: Expr, base: BlockId, merge: BlockId)
    requires brs != []
    ensures LowerBranches(b, brs, sel, base, merge)
         == LowerBranches(LowerBody(PushAll(Start(b, base), Binding(sel, brs[0])), brs[0].body, merge),
                          brs[1..], sel, base + 1, merge)
  {
  }

  lemma {:induction false} NoBranches(b: Builder, sel: Expr, base: BlockId, merge: BlockId)
    ensures LowerBranches(b, [], sel, base, merge) == b
  {
  }

  lemma {:induction false} BranchesInv(b: Builder, brs: seq<Branch>, sel: Expr, base: BlockId, merge: BlockId,
          Q: set<BlockId>)
    requires Inv(b, Q) && b.current.None? && LegalBranches(brs, b.exits != [])
    requires Range(b, base, |brs|) && (FallsBranches(brs) ==> merge in Q) && 0 < merge < base
    ensures var b' := LowerBranches(b, brs, sel, base, merge);
      Inv(b', Q) && FilledRange(b, b', base, |brs|)
    decreases brs
  {
    hide Inv, LowerBody, PushAll, AnyPathReaches, LegalStmts, LowerBranches, Start, Binding, Range, FilledRange;
    InvFacts(b, Q);
    if brs == [] {
      NoBranches(b, sel, base, merge);
      FilledNone(b, base);
    } else {
      UnfoldBranches(b, brs, sel, base, merge);
      RangeStarts(b, base, |brs|);
      BodyInv(b, base, Binding(sel, brs[0]), brs[0].body, merge, Q);
      var b1 := LowerBody(PushAll(Start(b, base), Binding(sel, brs[0])), brs[0].body, merge);
      FilledFirst(b, b1, base, |brs|);
      BranchesInv(b1, brs[1..], sel, base + 1, merge, Q);
    }
  }

  lemma {:induction false} OpenCaseInv(b: Builder, s: Stmt, P: set<BlockId>)
    requires s.Case? && Inv(b, P) && b.current.Some?
    ensures var b' := OpenCase(b, s);
      var merge, n := |b.blocks|, 2 + |s.branches|;
      && Inv(b', P + Span(merge + 1, n - 1)) && Filled(b, b', b.current.value)
      && |b'.blocks| == merge + n
      && (forall i :: merge <= i < merge + n ==> b'.blocks[i] == Block([], None, Last(b.handlers)))
      && b'.blocks[b.current.value] == b.blocks[b.current.value].(
           term := Some(Switch(s.sel, SwitchArms(s.branches, merge + 2), merge + 1)))
  {
    hide Inv, LegalStmts, AnyPathReaches, Seal, NewBlocks;
    InvFacts(b, P);
    var merge, n := |b.blocks|, |s.branches|;
    var Q := P + Span(merge + 1, 1 + n);
    NewBlocksInv(b, 2 + n, P);
    var b1 := NewBlocks(b, 2 + n);
    InvPromise(b1, P, Q);
    var sw := Switch(s.sel, SwitchArms(s.branches, merge + 2), merge + 1);
    assert EdgesOk(b1, sw, Q);
    SealInv(b1, sw, Q);
  }

  lemma {:induction false} ElseInv(b: Builder, els: OptBody, default: BlockId, merge: BlockId, Q: set<BlockId>)
    requires Inv(b, Q) && b.current.None? && default < |b.blocks| && Open(b.blocks[default])
    requires (FallsElse(els) ==> merge in Q) && 0 < merge < |b.blocks|
    requires els.Body? ==> LegalStmts(els.stmts, b.exits != [])
    ensures var b' := LowerElse(b, els, default, merge); Inv(b', Q) && Filled(b, b', default)
    decreases els
  {
    match els
    case NoBody =>
      StartInv(b, default, Q);
      SealGotoInv(Start(b, default), merge, Q);
    case Body(ss) => BodyInv(b, default, [], ss, merge, Q);
  }

  /** Arms and default filled, control goes on at the merge block if anything reaches it. */
  lemma {:induction false} CaseJoin(b: Builder, b1: Builder, b2: Builder, b3: Builder, s: Stmt, P: set<BlockId>,
          Q: set<BlockId>)
    requires s.Case? && Inv(b, P) && b.current.Some? && Inv(b3, Q) && |b.blocks| !in P
    requires var merge, n := |b.blocks|, |s.branches|;
      && Q == P + Span(merge + 1, 1 + n) + MergeOf(s, merge)
      && Filled(b, b1, b.current.value) && FilledRange(b1, b2, merge + 2, n) && Filled(b2, b3, merge + 1)
      && |b1.blocks| == merge + 2 + n
      && forall i :: merge <= i < merge + 2 + n ==> b1.blocks[i] == Block([], None, Last(b.handlers))
    ensures var b' := StartIfReached(b3, |b.blocks|);
      Grown(b, b', P) && (b'.current.Some? ==> FallsStmt(s))
  {
    hide Inv, StartIfReached, FallsStmt;
    InvFacts(b, P);
    var k, merge := b.current.value, |b.blocks|;
    RangeFrame(b, b1, b2, k, merge + 2, |s.branches|);
    FrameTrans(b, b2, b3, k, merge + 1);
    MergeInv(b, b3, merge, P, Q);
  }

  lemma {:induction false} CaseInv(b: Builder, s: Stmt, P: set<BlockId>)
    requires s.Case? && Inv(b, P) && b.current.Some? && LegalStmt(s, b.exits != [])
    ensures Grown(b, LowerCase(b, s), P) && (LowerCase(b, s).current.Some? ==> FallsStmt(s))
    decreases s, 0
  {
    hide Inv, LowerBranches, LowerElse, StartIfReached, LegalBranches, LegalStmts, OpenCase, FallsBranches, FallsElse;
    InvFacts(b, P);
    var P0 := Below(P, |b.blocks|);
    var k, merge, default, base := b.current.value, |b.blocks|, |b.blocks| + 1, |b.blocks| + 2;
    var n := |s.branches|;
    var Q0 := P0 + Span(merge + 1, 1 + n);
    var Q := Q0 + MergeOf(s, merge);
    InvBelow(b, P);
    OpenCaseInv(b, s, P0);
    var b1 := OpenCase(b, s);
    InvPromise(b1, Q0, Q);
    BranchesInv(b1, s.branches, s.sel, base, merge, Q);
    var b2 := LowerBranches(b1, s.branches, s.sel, base, merge);
    ElseInv(b2, s.elseBody, default, merge, Q);
    var b3 := LowerElse(b2, s.elseBody, default, merge);
    CaseJoin(b, b1, b2, b3, s, P0, Q);
    GrownMore(b, LowerCase(b, s), P0, P);
  }

  // ----- TRY -----

  lemma {:induction false} UnfoldDispatch(b: Builder, cs: seq<Clause>, base: BlockId, reraise: BlockId)
    requires cs != []
    ensures LowerDispatch(b, [], base, reraise) == b
    ensures cs[0].exception.None? ==>
      LowerDispatch(b, cs, base, reraise) == LowerDispatch(Seal(b, Goto(base)), cs[1..], base + 1, reraise)
    ensures cs[0].exception.None? && |cs| == 1 ==> LowerDispatch(b, cs, base, reraise) == Seal(b, Goto(base))
    ensures cs[0].exception.Some? && |cs| == 1 ==>
      LowerDispatch(b, cs, base, reraise) == Seal(b, BranchOn(LocalExpr(cs[0].exception.value), base, reraise))
    ensures cs[0].exception.Some? && |cs| > 1 ==>
      var next := |b.blocks|;
      var b1 := Start(Seal(NewBlockNoHandler(b), BranchOn(LocalExpr(cs[0].exception.value), base, next)), next);
      LowerDispatch(b, cs, base, reraise) == LowerDispatch(b1, cs[1..], base + 1, reraise)
  {
    hide Seal, Start, LocalExpr;
    if |cs| == 1 { assert cs[1..] == []; }
    assert LowerDispatch(Seal(b, Goto(base)), [], base + 1, reraise) == Seal(b, Goto(base));
  }

  lemma {:induction false} DispatchInv(b: Builder, cs: seq<Clause>, base: BlockId, reraise: BlockId, Q: set<BlockId>)
    requires Inv(b, Q) && b.current.Some? && cs != []
    requires forall i :: 0 <= i < |cs| - 1 ==> cs[i].exception.Some?
    requires 0 < base && base + |cs| <= |b.blocks| && forall i :: base <= i < base + |cs| ==> i in Q
    requires reraise in Q && 0 < reraise < |b.blocks|
    ensures var b' := LowerDispatch(b, cs, base, reraise);
      Inv(b', Q) && Filled(b, b', b.current.value)
    decreases cs
  {
    hide Inv, LowerDispatch, Seal, Start, LocalExpr, AnyPathReaches;
    InvFacts(b, Q);
    UnfoldDispatch(b, cs, base, reraise);
    if cs[0].exception.None? {
      SealInv(b, Goto(base), Q);
      assert cs[1..] == [];
    } else {
      var test := LocalExpr(cs[0].exception.value);
      if |cs| > 1 {
        var next := |b.blocks|;
        var Q' := Q + {next};
        var b0 := NewBlockNoHandler(b);
        NewBlockInv(b, Q);
        InvPromise(b0, Q, Q');
        SealInv(b0, BranchOn(test, base, next), Q');
        var b1 := Start(Seal(b0, BranchOn(test, base, next)), next);
        StartInv(Seal(b0, BranchOn(test, base, next)), next, Q');
        DispatchInv(b1, cs[1..], base + 1, reraise, Q');
        var b2 := LowerDispatch(b1, cs[1..], base + 1, reraise);
        FrameTrans(b, b1, b2, b.current.value, next);
        InvPromise(b2, Q', Q);
      } else {
        SealInv(b, BranchOn(test, base, reraise), Q);
      }
    }
  }

  lemma {:induction false} UnfoldClauses(b: Builder, cs: seq<Clause>, base: BlockId, next: BlockId)
    requires cs != []
    ensures LowerClauses(b, cs, base, next)
      == LowerClauses(LowerBody(Start(b, base), cs[0].body, next), cs[1..], base + 1, next)
  {
  }

  lemma {:induction false} ClausesInv(b: Builder, cs: seq<Clause>, base: BlockId, next: BlockId, Q: set<BlockId>)
    requires Inv(b, Q) && b.current.None? && LegalClauses(cs, b.exits != [])
    requires Range(b, base, |cs|) && (FallsClauses(cs) ==> next in Q) && 0 < next < base
    ensures var b' := LowerClauses(b, cs, base, next);
      Inv(b', Q) && FilledRange(b, b', base, |cs|)
    decreases cs, 0
  {
    hide Inv, LowerBody;
    InvFacts(b, Q);
    if cs != [] {
      assert Open(b.blocks[base]);
      BodyInv(b, base, [], cs[0].body, next, Q);
      var b1 := LowerBody(Start(b, base), cs[0].body, next);
      assert Range(b1, base + 1, |cs| - 1);
      ClausesInv(b1, cs[1..], base + 1, next, Q);
    }
  }

  lemma {:induction false} ReraiseInv(b: Builder, fin: OptBody, Q: set<BlockId>)
    requires Inv(b, Q) && b.current.Some?
    ensures Inv(Reraise(b, fin), Q) && Filled(b, Reraise(b, fin), b.current.value)
  {
    hide Inv, PushAll, Seal;
    InvFacts(b, Q);
    PushAllInv(b, OptStmts(fin), Q);
    SealInv(PushAll(b, OptStmts(fin)), RaiseT(None), Q);
  }

  lemma {:induction false} OpenHandlersInv(b: Builder, cs: seq<Clause>, Q: set<BlockId>)
    requires Inv(b, Q) && b.current.Some? && cs != []
    requires forall i :: 0 <= i < |cs| - 1 ==> cs[i].exception.Some?
    ensures var b', reraise := OpenHandlers(b, cs), |b.blocks|;
      && Inv(b', Q + Span(reraise, 1 + |cs|)) && Filled(b, b', b.current.value)
      && reraise + 1 + |cs| <= |b'.blocks|
      && forall i :: reraise <= i < reraise + 1 + |cs| ==> b'.blocks[i] == Block([], None, None)
  {
    hide Inv, LowerDispatch, NewBlocksNoHandler, AnyPathReaches;
    InvFacts(b, Q);
    var reraise, n := |b.blocks|, 1 + |cs|;
    NewBlocksNoHandlerInv(b, n, Q);
    InvPromise(NewBlocksNoHandler(b, n), Q, Q + Span(reraise, n));
    DispatchInv(NewBlocksNoHandler(b, n), cs, reraise + 1, reraise, Q + Span(reraise, n));
  }

  lemma {:induction false} HandlersInv(b: Builder, cs: seq<Clause>, fin: OptBody, next: BlockId, Q: set<BlockId>)
    requires Inv(b, Q) && b.current.Some? && LegalClauses(cs, b.exits != [])
    requires forall i :: 0 <= i < |cs| - 1 ==> cs[i].exception.Some?
    requires (FallsClauses(cs) ==> next in Q) && 0 < next < |b.blocks|
    ensures var b' := LowerHandlers(b, cs, fin, next);
      Inv(b', Q) && Filled(b, b', b.current.value)
    decreases cs, 1
  {
    hide Inv, LowerClauses, OpenHandlers, LegalClauses, Reraise, Start, AnyPathReaches;
    InvFacts(b, Q);
    if cs == [] {
      ReraiseInv(b, fin, Q);
    } else {
      var k, reraise, base := b.current.value, |b.blocks|, |b.blocks| + 1;
      var Q2 := Q + Span(reraise, 1 + |cs|);
      OpenHandlersInv(b, cs, Q);
      var b2 := OpenHandlers(b, cs);
      ClausesInv(b2, cs, base, next, Q2);
      var b3 := LowerClauses(b2, cs, base, next);
      RangeFrame(b, b2, b3, k, base, |cs|);
      StartInv(b3, reraise, Q2);
      var b4 := Start(b3, reraise);
      ReraiseInv(b4, fin, Q2);
      FrameTrans(b, b4, Reraise(b4, fin), k, reraise);
      InvPromise(Reraise(b4, fin), Q2, Q);
    }
  }

  lemma {:induction false} OpenTryInv(b: Builder, s: Stmt, P: set<BlockId>)
    requires s.Try? && Inv(b, P) && b.current.Some?
    ensures var b' := OpenTry(b, s);
      var merge, catch, next := |b.blocks|, |b.blocks| + 1, TryNext(b, s);
      var tryBody := if s.finallyBody.Body? then merge + 3 else merge + 2;
      && Inv(b', P + {tryBody}) && Frame(b, b', b.current.value)
      && b'.current == Some(tryBody) && |b'.blocks| == tryBody + 1
      && b'.exits == b.exits && b'.handlers == b.handlers + [catch]
      && b'.blocks[merge] == b'.blocks[next] == Block([], None, Last(b.handlers))
      && b'.blocks[catch] == Block([], None, None)
      && b'.blocks[tryBody] == Block([], None, Some(catch))
      && b'.blocks[b.current.value] == b.blocks[b.current.value].(term := Some(Goto(tryBody)))
  {
    hide Inv, Seal, Start, AnyPathReaches, AllocTry;
    InvFacts(b, P);
    var b2 := AllocTry(b, s);
    var tryBody := |b2.blocks|;
    var Q := P + {tryBody};
    AllocTryInv(b, s, P);
    NewBlockInv(b2, P);
    InvPromise(NewBlock(b2), P, Q);
    SealGotoInv(NewBlock(b2), tryBody, Q);
    StartInv(Seal(NewBlock(b2), Goto(tryBody)), tryBody, Q);
  }

  lemma {:induction false} AllocTryInv(b: Builder, s: Stmt, P: set<BlockId>)
    requires s.Try? && Inv(b, P) && b.current.Some?
    ensures var b', merge, catch := AllocTry(b, s), |b.blocks|, |b.blocks| + 1;
      && Inv(b', P) && b'.current == b.current && b'.exits == b.exits && b'.handlers == b.handlers + [catch]
      && |b'.blocks| == (if s.finallyBody.Body? then merge + 3 else merge + 2)
      && b.blocks <= b'.blocks
      && b'.blocks[merge] == b'.blocks[TryNext(b, s)] == Block([], None, Last(b.handlers))
      && b'.blocks[catch] == Block([], None, None)
  {
    hide Inv;
    InvFacts(b, P);
    var b1 := NewBlockNoHandler(NewBlock(b));
    var b1' := if s.finallyBody.Body? then NewBlock(b1) else b1;
    NewBlockInv(b, P); NewBlockInv(NewBlock(b), P); NewBlockInv(b1, P);
    StacksInv(b1', AllocTry(b, s), P);
  }

  lemma {:induction false} CloseTryInv(b: Builder, s: Stmt, next: BlockId, merge: BlockId, Q: set<BlockId>)
    requires s.Try? && Inv(b, Q) && b.current.None? && 0 < merge < |b.blocks|
    requires s.finallyBody.Body? ==> merge in Q && next < |b.blocks| && Open(b.blocks[next])
    ensures var b' := CloseTry(b, s, next, merge);
      Inv(b', Q) && (if s.finallyBody.Body? then Filled(b, b', next) else b' == b)
  {
    hide Inv, Seal, Start, PushAll;
    InvFacts(b, Q);
    if s.finallyBody.Body? {
      StartInv(b, next, Q);
      PushAllInv(Start(b, next), s.finallyBody.stmts, Q);
      SealGotoInv(PushAll(Start(b, next), s.finallyBody.stmts), merge, Q);
    }
  }

  lemma {:induction false} TryInv(b: Builder, s: Stmt, P: set<BlockId>)
    requires s.Try? && Inv(b, P) && b.current.Some? && LegalStmt(s, b.exits != [])
    ensures Grown(b, LowerTry(b, s), P) && (LowerTry(b, s).current.Some? ==> FallsStmt(s))
    decreases s, 0
  {
    hide Inv, LowerStmts, LowerHandlers, StartIfReached, OpenTry, CloseTry, SealIfOpen, LeaveTry, Start,
      AnyPathReaches, LegalStmts, Falls, FallsClauses;
    InvFacts(b, P);
    var P0 := Below(P, |b.blocks|);
    var k, merge, catch, next := b.current.value, |b.blocks|, |b.blocks| + 1, TryNext(b, s);
    InvBelow(b, P);
    OpenTryInv(b, s, P0);
    var b3 := OpenTry(b, s);
    var tryBody := b3.current.value;
    var Q := P0 + {tryBody} + MergeOf(s, merge) + (if s.finallyBody.Body? then {next} else {});
    InvPromise(b3, P0 + {tryBody}, Q);
    TryBodyInv(b3, s.body, next, Q);
    var b4 := SealIfOpen(LeaveTry(LowerStmts(b3, s.body)), Goto(next));
    FrameTrans(b, b3, b4, k, tryBody);
    StartInv(b4, catch, Q);
    HandlersInv(Start(b4, catch), s.clauses, s.finallyBody, next, Q);
    var b5 := LowerHandlers(Start(b4, catch), s.clauses, s.finallyBody, next);
    FrameTrans(b, Start(b4, catch), b5, k, catch);
    CloseTryInv(b5, s, next, merge, Q);
    var b6 := CloseTry(b5, s, next, merge);
    if s.finallyBody.Body? { FrameTrans(b, b5, b6, k, next); }
    MergeInv(b, b6, merge, P0, Q);
    GrownMore(b, LowerTry(b, s), P0, P);
  }

  /** The TRY body is lowered under its own handler, which then comes off the stack. */
  lemma {:induction false} TryBodyInv(b: Builder, ss: seq<Stmt>, next: BlockId, Q: set<BlockId>)
    requires Inv(b, Q) && b.current.Some? && b.handlers != [] && LegalStmts(ss, b.exits != [])
    requires (Falls(ss) ==> next in Q) && 0 < next < |b.blocks|
    ensures var b' := SealIfOpen(LeaveTry(LowerStmts(b, ss)), Goto(next));
      && Inv(b', Q) && Frame(b, b', b.current.value) && b'.current.None?
      && b'.exits == b.exits && b'.handlers == b.handlers[..|b.handlers| - 1]
    decreases ss, 1
  {
    StmtsInv(b, ss, Q);
    var b1 := LowerStmts(b, ss);
    var b2 := LeaveTry(b1);
    StacksInv(b1, b2, Q);
    if b2.current.Some? {
      SealGotoInv(b2, next, Q);
      FrameTrans(b, b2, Seal(b2, Goto(next)), b.current.value, b2.current.value);
    }
  }
}
