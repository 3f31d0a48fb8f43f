/** Lowering preserves meaning, construct by construct. */
module SimulationStmts {
  import opened Wrappers
  import opened Hir
  import opened Cfg
  import opened Lowering
  import opened Protocol
  import opened ProtocolStmts
  import opened Semantics
  import opened Simulation

  // ----- edges that a lowering is sure to leave -----

  lemma {:induction false} ReachesKept(b: Builder, b': Builder, k: BlockId, x: BlockId)
    requires Frame(b, b', k) && (k < |b.blocks| ==> Open(b.blocks[k])) && AnyPathReaches(b, x)
    ensures AnyPathReaches(b', x)
  {
    var j :| 0 <= j < |b.blocks| && b.blocks[j].term.Some? && x in Successors(b.blocks[j].term.value);
    assert b'.blocks[j] == b.blocks[j];
  }

  lemma {:induction false} GotoReaches(b: Builder, x: BlockId)
    requires b.current.Some? && b.current.value < |b.blocks| && Open(b.blocks[b.current.value])
    ensures AnyPathReaches(Seal(b, Goto(x)), x)
  {
    var b' := Seal(b, Goto(x));
    assert b'.blocks[b.current.value].term == Some(Goto(x));
    assert x in Successors(Goto(x));
  }

  /** A lowered condition has an edge to each of its two targets. */
  lemma {:induction false} CondReaches(b: Builder, e: Expr, t: BlockId, f: BlockId, P: set<BlockId>)
    requires Inv(b, P) && b.current.Some? && Landed(b, t, P) && Landed(b, f, P)
    ensures AnyPathReaches(LowerCond(b, e, t, f), t) && AnyPathReaches(LowerCond(b, e, t, f), f)
    decreases e
  {
    hide Inv, Landed;
    InvFacts(b, P);
    if e.BinaryOp? && e.op.And? {
      AndOrInv(b, e, |b.blocks|, f, t, f, P);
      CondReaches(Start(LowerCond(NewBlock(b), e.left, |b.blocks|, f), |b.blocks|), e.right, t, f, P + {|b.blocks|});
    } else if e.BinaryOp? && e.op.Or? {
      AndOrInv(b, e, t, |b.blocks|, t, f, P);
      CondReaches(Start(LowerCond(NewBlock(b), e.left, t, |b.blocks|), |b.blocks|), e.right, t, f, P + {|b.blocks|});
    } else if e.Not? {
      CondReaches(b, e.operand, f, t, P);
    } else {
      var b' := LowerCond(b, e, t, f);
      assert b'.blocks[b.current.value].term == Some(BranchOn(e, t, f));
      assert Successors(BranchOn(e, t, f)) == [t, f];
    }
  }

  // ----- straight-line code -----

  lemma {:induction false} SimPrims<S>(I: Interp<S>, c: seq<Block>, id: BlockId, i: nat, ss: seq<Stmt>, st: State<S>)
    requires id < |c| && i + |ss| <= |c[id].stmts| && c[id].stmts[i..i + |ss|] == ss && StraightLine(ss)
    ensures ExecPrims(I, ss, st).Normal? || ExecPrims(I, ss, st).Raised?
    ensures Goes(I, c, At(id, i, st), ExecPrims(I, ss, st), Route(Some((id, i + |ss|)), None, c[id].handler), 0)
    decreases ss
  {
    if ss == [] {
      LeadsRefl(I, c, At(id, i, st));
    } else {
      assert c[id].stmts[i] == ss[0];
      var k := At(id, i, st);
      LeadsStep(I, c, k);
      match PrimOf(I, ss[0], st)
      case Normal(st1) =>
        assert c[id].stmts[i + 1..i + 1 + |ss[1..]|] == ss[1..];
        SimPrims(I, c, id, i + 1, ss[1..], st1);
        GoesAfter(I, c, k, At(id, i + 1, st1), ExecPrims(I, ss, st), Route(Some((id, i + |ss|)), None, c[id].handler),
            0);
      case _ =>
    }
  }

  // ----- statement lists -----

  lemma {:induction false} SimStmts<S>(I: Interp<S>, c: seq<Block>, b: Builder, ss: seq<Stmt>, st: State<S>, fuel: nat,
          P: set<BlockId>)
    requires Poised(b, P) && (Under(b) || Quiet(ss))
    requires LegalStmts(ss, b.exits != []) && PlainStmts(ss, I.exceptions.Keys, b.handlers != [])
    requires Completes(LowerStmts(b, ss), c)
    ensures Goes(I, c, Here(b, st), ExecStmts(I, ss, st, fuel), RouteOf(b, LowerStmts(b, ss)), fuel + 1)
    decreases fuel, ss, 0
  {
    hide Inv, Leads, Lives, AnyPathReaches, LowerStmt, LegalStmt, PlainStmt, ExecStmt, QuietStmt, Under, Quiet,
      Completes;
    InvFacts(b, P);
    if ss == [] {
      LeadsRefl(I, c, Here(b, st));
    } else {
      var b1 := LowerStmt(b, ss[0]);
      var b2 := LowerStmts(b1, ss[1..]);
      RestInv(b, ss, P);
      InvFacts(b1, P);
      if b1.current.Some? { CompletesBack(b1, b2, b1.current.value, c); }
      NextUnder(b, ss, P, c);
      SimStmt(I, c, b, ss[0], st, fuel, P);
      match ExecStmt(I, ss[0], st, fuel)
      case Normal(st1) =>
        SimStmts(I, c, b1, ss[1..], st1, fuel, P);
        GoesAfter(I, c, Here(b, st), Here(b1, st1), ExecStmts(I, ss[1..], st1, fuel), RouteOf(b1, b2), fuel + 1);
      case _ =>
    }
  }

  /** After the first statement the open block is under the handler again, or the rest is quiet too. */
  lemma {:induction false} NextUnder(b: Builder, ss: seq<Stmt>, P: set<BlockId>, c: seq<Block>)
    requires ss != [] && Poised(b, P) && (Under(b) || Quiet(ss)) && LegalStmt(ss[0], b.exits != [])
    requires LowerStmt(b, ss[0]).current.Some? ==> Completes(LowerStmt(b, ss[0]), c)
    ensures Under(b) || QuietStmt(ss[0])
    ensures var b1 := LowerStmt(b, ss[0]); b1.current.Some? ==> Under(b1) || Quiet(ss[1..])
  {
    hide Inv, AnyPathReaches, LowerStmt;
    InvFacts(b, P);
    StmtInv(b, ss[0], P);
    var b1 := LowerStmt(b, ss[0]);
    InvFacts(b1, P);
    if ss[0].Empty? {
      EmptySame(b);
    } else if !Under(b) && b1.current.Some? {
      QuietMoves(b, ss[0], P, c);
    }
  }

  lemma {:induction false} EmptySame(b: Builder)
    ensures LowerStmt(b, Empty) == b
  {
  }

  /** A quiet statement never goes on in the block it started in. */
  lemma {:induction false} QuietMoves(b: Builder, s: Stmt, P: set<BlockId>, c: seq<Block>)
    requires QuietStmt(s) && !s.Empty? && Poised(b, P) && LegalStmt(s, b.exits != [])
    requires LowerStmt(b, s).current.Some? && !LowerStmt(b, s).panicked && Completes(LowerStmt(b, s), c)
    ensures LowerStmt(b, s).current != b.current
  {
    hide Inv, LowerBody, LowerUntil, OpenWhile, OpenLoop, LowerTry, StartIfReached;
    InvFacts(b, P);
    if s.Try? {
      TryMoves(b, s, P, c);
    }
  }

  lemma {:induction false} TryMoves(b: Builder, s: Stmt, P: set<BlockId>, c: seq<Block>)
    requires s.Try? && Poised(b, P) && LegalStmt(s, b.exits != []) && Completes(LowerTry(b, s), c)
    requires LowerTry(b, s).current.Some?
    ensures LowerTry(b, s).current != b.current
  {
    hide Inv, LowerTry, LowerStmts, LowerHandlers, OpenTry, CloseTry;
    InvFacts(b, P);
    var b3, b4, b5, b6, Q := TryStages(b, s, P, c);
  }

  lemma {:induction false} SimStmt<S>(I: Interp<S>, c: seq<Block>, b: Builder, s: Stmt, st: State<S>, fuel: nat,
          P: set<BlockId>)
    requires Poised(b, P) && (Under(b) || QuietStmt(s))
    requires LegalStmt(s, b.exits != []) && PlainStmt(s, I.exceptions.Keys, b.handlers != [])
    requires Completes(LowerStmt(b, s), c)
    ensures Goes(I, c, Here(b, st), ExecStmt(I, s, st, fuel), RouteOf(b, LowerStmt(b, s)), fuel + 1)
    decreases fuel, s, 9
  {
    hide Inv, Leads, Lives, ExecTail, ExecWhile, ExecLoop, ExecRepeat, ExecFor, ExecHandlers, AnyPathReaches,
      LegalStmts, PlainStmts,
      LowerIf, LowerWhile, LowerLoop, LowerRepeat, LowerFor, LowerCase, LowerTry, Completes, RouteOf, Here, Push,
      PlainTail, PlainBranches,
      PlainClauses, LegalTail, LegalBranches, LegalClauses, PlainCond, Goes;
    InvFacts(b, P);
    match s
    case Empty => SimEmpty(I, c, b, st);
    case Assign(_, _) => SimPush(I, c, b, s, st, P);
    case ProcCall(_, _) => SimPush(I, c, b, s, st, P);
    case If(_, _, _) => SimIf(I, c, b, s, st, fuel, P);
    case While(_, _) => SimWhile(I, c, b, s, st, fuel, P);
    case Loop(_) => SimLoop(I, c, b, s, st, fuel, P);
    case Exit => SimSeal(I, c, b, Goto(b.exits[|b.exits| - 1]), st, Exited(st));
    case Repeat(_, _) => SimRepeat(I, c, b, s, st, fuel, P);
    case For(_, _, _, _, _, _) => SimFor(I, c, b, s, st, fuel, P);
    case Case(_, _, _) => SimCase(I, c, b, s, st, fuel, P);
    case Try(_, _, _) => SimTry(I, c, b, s, st, fuel, P);
    case Raise(e) => SimSeal(I, c, b, RaiseT(e), st, RaiseOf(I, e, st));
    case Return(e) => SimSeal(I, c, b, ReturnT(e), st, ReturnOf(I, e, st));
  }

  lemma {:induction false} SimEmpty<S>(I: Interp<S>, c: seq<Block>, b: Builder, st: State<S>)
    requires b.current.Some? && b.current.value < |b.blocks|
    ensures forall n: nat :: Goes(I, c, Here(b, st), Normal(st), RouteOf(b, b), n)
  {
    LeadsRefl(I, c, Here(b, st));
  }

  lemma {:induction false} SimPush<S>(I: Interp<S>, c: seq<Block>, b: Builder, s: Stmt, st: State<S>, P: set<BlockId>)
    requires IsPrim(s) && Ready(b, P) && Completes(Push(b, s), c)
    ensures forall n: nat :: Goes(I, c, Here(b, st), PrimOf(I, s, st), RouteOf(b, Push(b, s)), n)
  {
    var b' := Push(b, s);
    var k := b.current.value;
    assert b'.blocks[k].stmts <= c[k].stmts;
    assert c[k].stmts[|b.blocks[k].stmts|] == s;
    LeadsStep(I, c, Here(b, st));
  }

  /** Sealing with a terminator that ends the statement as outcome o. */
  lemma {:induction false} SimSeal<S>(I: Interp<S>, c: seq<Block>, b: Builder, t: Terminator, st: State<S>,
          o: Outcome<S>)
    requires b.current.Some? && b.current.value < |b.blocks| && Open(b.blocks[b.current.value])
    requires Completes(Seal(b, t), c) && !o.Normal? && !o.OutOfFuel?
    requires Dest(Route(None, Last(b.exits), Last(b.handlers)), o)
      == Some(StepTerm(I, b.blocks[b.current.value].handler, t, st))
    ensures forall n: nat :: Goes(I, c, Here(b, st), o, RouteOf(b, Seal(b, t)), n)
  {
    SealStep(I, c, b, t, st);
    Leads1Leads(I, c, Here(b, st), StepTerm(I, b.blocks[b.current.value].handler, t, st));
  }

  /** A body started in its own block and left for `next`; `pre` has already run. */
  lemma {:induction false} SimBody<S>(I: Interp<S>, c: seq<Block>, b: Builder, id: BlockId, pre: seq<Stmt>,
          ss: seq<Stmt>, next: BlockId,
                                      st: State<S>, fuel: nat, P: set<BlockId>)
    requires Inv(b, P) && b.current.None? && id < |b.blocks| && b.blocks[id] == Block([], None, b.blocks[id].handler)
    requires b.blocks[id].handler == Last(b.handlers) || (pre == [] && Quiet(ss))
    requires LegalStmts(ss, b.exits != []) && PlainStmts(ss, I.exceptions.Keys, b.handlers != []) && Landed(b, next, P)
    requires Completes(LowerBody(PushAll(Start(b, id), pre), ss, next), c)
    ensures id < |c| && pre <= c[id].stmts && c[id].handler == b.blocks[id].handler
    ensures var o := ExecStmts(I, ss, st, fuel);
      && Goes(I, c, At(id, |pre|, st), o, Onward(b, next), fuel + 1)
      && (o.Normal? ==> Leads1(I, c, At(id, |pre|, st), At(next, 0, o.st)))
      && (o.Normal? ==> AnyPathReaches(LowerBody(PushAll(Start(b, id), pre), ss, next), next))
    decreases fuel, ss, 1
  {
    hide Inv, Leads, Leads1, Lives, Landed, LowerStmts, LowerBody, PushAll, Start, AnyPathReaches, LegalStmts,
      PlainStmts, ExecStmts,
      EdgesOk, Completes, Quiet;
    var b2, b3 := BodyStages(b, id, pre, ss, next, c, P);
    SimStmts(I, c, b2, ss, st, fuel, P);
    match ExecStmts(I, ss, st, fuel)
    case Normal(st1) =>
      SealStep(I, c, b3, Goto(next), st1);
      LeadsLeads1(I, c, At(id, |pre|, st), Here(b3, st1), At(next, 0, st1));
      GotoReaches(b3, next);
    case _ =>
  }

  /** The builder's states through such a body. */
  lemma {:induction false} BodyStages(b: Builder, id: BlockId, pre: seq<Stmt>, ss: seq<Stmt>, next: BlockId,
          c: seq<Block>, P: set<BlockId>)
    returns (b2: Builder, b3: Builder)
    requires Inv(b, P) && b.current.None? && id < |b.blocks| && b.blocks[id] == Block([], None, b.blocks[id].handler)
    requires LegalStmts(ss, b.exits != []) && Landed(b, next, P)
    requires Completes(LowerBody(PushAll(Start(b, id), pre), ss, next), c)
    ensures Poised(b2, P) && b2.current == Some(id) && SameStacks(b, b2)
    ensures b2.blocks[id] == Block(pre, None, b.blocks[id].handler)
    ensures Completes(b3, c) && id < |c| && pre <= c[id].stmts && c[id].handler == b.blocks[id].handler
    ensures b3.current.Some? ==>
      && b3.current.value < |b3.blocks| && Open(b3.blocks[b3.current.value])
      && LowerBody(b2, ss, next) == Seal(b3, Goto(next)) && Completes(Seal(b3, Goto(next)), c)
    ensures b2 == PushAll(Start(b, id), pre) && b3 == LowerStmts(b2, ss)
  {
    hide Inv, Landed, LowerStmts, PushAll, Start, AnyPathReaches, LegalStmts, EdgesOk;
    StartInv(b, id, P);
    PushAllInv(Start(b, id), pre, P);
    b2 := PushAll(Start(b, id), pre);
    StmtsInv(b2, ss, P);
    b3 := LowerStmts(b2, ss);
    InvFacts(b3, P);
    LandedKept(b, b3, id, next, P);
    SealGotoInv(b3, next, P);
    if b3.current.Some? { CompletesBack(b3, LowerBody(b2, ss, next), b3.current.value, c); }
    CompletesBack(b2, b3, id, c);
  }

  // ----- IF -----

  /** The test of one IF or ELSIF part. */
  lemma {:induction false} SimArm<S>(I: Interp<S>, c: seq<Block>, b: Builder, cond: Expr, rest: ElseTail,
          merge: BlockId, st: State<S>, Q: set<BlockId>)
    requires Ready(b, Q) && merge in Q && 0 < merge < |b.blocks| && Completes(OpenArm(b, cond, rest, merge), c)
    requires PlainCond(cond, I.exceptions.Keys)
    ensures CondGoes(I, c, Here(b, st), EvalCond(I, cond, st), |b.blocks|, FalseBlock(b, rest, merge), Last(b.handlers))
    ensures AnyPathReaches(OpenArm(b, cond, rest, merge), FalseBlock(b, rest, merge))
  {
    hide Inv, AnyPathReaches, CondGoes, LowerCond;
    InvFacts(b, Q);
    var b1 := if rest.NoElse? then NewBlock(b) else NewBlock(NewBlock(b));
    var et, ef := |b.blocks|, FalseBlock(b, rest, merge);
    var Q2 := Q + {et, ef};
    NewBlockInv(b, Q); NewBlockInv(NewBlock(b), Q);
    InvPromise(b1, Q, Q2);
    SimCond(I, c, b1, cond, et, ef, st, Q2);
    CondReaches(b1, cond, et, ef, Q2);
  }

  /** Closing at the merge block: an outcome that falls through makes the block start. */
  lemma {:induction false} SimMerge<S>(I: Interp<S>, c: seq<Block>, b: Builder, b': Builder, merge: BlockId,
          k: Config<S>, o: Outcome<S>, n: nat)
    requires b'.current.None? && merge < |b'.blocks| && b'.blocks[merge].stmts == [] && Open(b'.blocks[merge])
    requires Goes(I, c, k, o, Onward(b, merge), n) && (o.Normal? ==> AnyPathReaches(b', merge))
    ensures Goes(I, c, k, o, RouteOf(b, StartIfReached(b', merge)), n)
  {
  }

  lemma {:induction false} SimIf<S>(I: Interp<S>, c: seq<Block>, b: Builder, s: Stmt, st: State<S>, fuel: nat,
          P: set<BlockId>)
    requires s.If? && Ready(b, P) && LegalStmt(s, b.exits != []) && PlainStmt(s, I.exceptions.Keys, b.handlers != [])
    requires Completes(LowerIf(b, s), c)
    ensures Goes(I, c, Here(b, st), ExecStmt(I, s, st, fuel), RouteOf(b, LowerIf(b, s)), fuel + 1)
    decreases fuel, s, 0
  {
    hide Inv, Leads, Leads1, Lives, LowerBody, LowerTail, OpenArm, AnyPathReaches, LegalStmts, PlainStmts, Start,
      ExecStmts, ExecTail, Completes, Quiet;
    InvFacts(b, P);
    var b1, b3, b4, b5 := IfStages(b, s, P, c);
    var merge := |b.blocks|;
    var et, ff := |b1.blocks|, FalseBlock(b1, s.tail, merge);
    var Q1 := P + {merge};
    var Q := Q1 + {et, ff};
    SimArm(I, c, b1, s.cond, s.tail, merge, st, Q1);
    var o := ExecStmt(I, s, st, fuel);
    var r := Onward(b, merge);
    match EvalCond(I, s.cond, st)
    case Throw(x, st1) => Leads1Leads(I, c, Here(b, st), ThrowTo(Last(b.handlers), x, st1));
    case Val(v, st1) =>
      Leads1Leads(I, c, Here(b, st), At(if v != 0 then et else ff, 0, st1));
      if v != 0 {
        SimBody(I, c, b3, et, [], s.thenBody, merge, st1, fuel, Q);
        GoesAfter(I, c, Here(b, st), At(et, 0, st1), o, r, fuel + 1);
        if o.Normal? && !s.tail.NoElse? { ReachesKept(b4, b5, ff, merge); }
      } else {
        SimTail(I, c, b4, s.tail, ff, merge, st1, fuel, Q);
        GoesAfter(I, c, Here(b, st), At(ff, 0, st1), o, r, fuel + 1);
        if s.tail.NoElse? { ReachesKept(b3, b4, et, merge); }
      }
    SimMerge(I, c, b, b5, merge, Here(b, st), o, fuel + 1);
  }

  /** The builder's states through an IF, up to its ELSIF parts. */
  lemma {:induction false} IfStages(b: Builder, s: Stmt, P: set<BlockId>, c: seq<Block>)
    returns (b1: Builder, b3: Builder, b4: Builder, b5: Builder)
    requires s.If? && Poised(b, P) && LegalStmt(s, b.exits != []) && Completes(LowerIf(b, s), c)
    ensures var merge := |b.blocks|;
      var et, ff := |b1.blocks|, FalseBlock(b1, s.tail, merge);
      var Q := P + {merge} + {et, ff};
      && b1 == NewBlock(b) && Poised(b1, P + {merge}) && 0 < merge
      && b1.blocks[b.current.value] == b.blocks[b.current.value]
      && Inv(b3, Q) && b3.current.None? && SameStacks(b, b3) && et < |b3.blocks|
      && b3.blocks[et] == Block([], None, Last(b.handlers))
      && Landed(b3, merge, Q) && Completes(b3, c) && Frame(b3, b4, et) && Completes(b4, c)
      && Inv(b4, Q) && b4.current.None? && SameStacks(b, b4) && merge < |b4.blocks|
      && (if s.tail.NoElse? then ff == merge && b5 == b4
          else 0 < ff < |b4.blocks| && b4.blocks[ff] == Block([], None, Last(b.handlers)) && ff != merge
               && Frame(b4, b5, ff))
      && b5.current.None? && merge < |b5.blocks| && b5.blocks[merge].stmts == [] && Open(b5.blocks[merge])
    ensures b3 == OpenArm(b1, s.cond, s.tail, |b.blocks|)
    ensures b4 == LowerBody(Start(b3, |b1.blocks|), s.thenBody, |b.blocks|)
    ensures b5 == LowerTail(b4, s.tail, FalseBlock(b1, s.tail, |b.blocks|), |b.blocks|)
    ensures LowerIf(b, s) == StartIfReached(b5, |b.blocks|)
    ensures Completes(b5, c)
  {
    hide Inv, LowerBody, LowerTail, OpenArm, AnyPathReaches, LegalStmts, Start;
    InvFacts(b, P);
    var merge := |b.blocks|;
    b1 := NewBlock(b);
    var et, ff := |b1.blocks|, FalseBlock(b1, s.tail, merge);
    var Q1 := P + {merge};
    var Q := Q1 + {et, ff};
    NewBlockInv(b, P);
    InvPromise(b1, P, Q1);
    OpenArmInv(b1, s.cond, s.tail, merge, Q1);
    b3 := OpenArm(b1, s.cond, s.tail, merge);
    BodyInv(b3, et, [], s.thenBody, merge, Q);
    b4 := LowerBody(Start(b3, et), s.thenBody, merge);
    TailInv(b4, s.tail, ff, merge, Q);
    b5 := LowerTail(b4, s.tail, ff, merge);
    StartIfReachedBlocks(b5, merge, Q);
    if s.tail.NoElse? { NoTail(b4, ff, merge); } else { CompletesBack(b4, b5, ff, c); }
    CompletesBack(b3, b4, et, c);
  }

  lemma {:induction false} NoTail(b: Builder, cur: BlockId, merge: BlockId)
    ensures LowerTail(b, NoElse, cur, merge) == b
  {
  }

  lemma {:induction false} StartIfReachedBlocks(b: Builder, id: BlockId, Q: set<BlockId>)
    requires Inv(b, Q) && b.current.None? && id < |b.blocks| && Open(b.blocks[id])
    ensures StartIfReached(b, id).blocks == b.blocks
  {
  }

  lemma {:induction false} SimTail<S>(I: Interp<S>, c: seq<Block>, b: Builder, t: ElseTail, cur: BlockId,
          merge: BlockId, st: State<S>, fuel: nat, Q: set<BlockId>)
    requires Inv(b, Q) && b.current.None? && LegalTail(t, b.exits != [])
    requires PlainTail(t, I.exceptions.Keys, b.handlers != [])
    requires merge in Q && 0 < merge < |b.blocks|
    requires if t.NoElse? then cur == merge
             else 0 < cur < |b.blocks| && b.blocks[cur] == Block([], None, Last(b.handlers)) && cur != merge
    requires Completes(LowerTail(b, t, cur, merge), c)
    ensures var o := ExecTail(I, t, st, fuel);
      && Goes(I, c, At(cur, 0, st), o, Onward(b, merge), fuel + 1)
      && (o.Normal? && !t.NoElse? ==> AnyPathReaches(LowerTail(b, t, cur, merge), merge))
    decreases fuel, t
  {
    hide Inv, Leads, Leads1, Lives, LowerBody, OpenArm, AnyPathReaches, LegalStmts, PlainStmts, Start, ExecStmts,
      Completes, Quiet;
    InvFacts(b, Q);
    match t
    case NoElse => LeadsRefl(I, c, At(cur, 0, st));
    case Else(body) => SimBody(I, c, b, cur, [], body, merge, st, fuel, Q);
    case Elsif(cond, body, rest) =>
      var b1, b3, b4, b5 := ElsifStages(b, t, cur, merge, c, Q);
      var et, ef := |b1.blocks|, FalseBlock(b1, rest, merge);
      var Q2 := Q + {et, ef};
      SimArm(I, c, b1, cond, rest, merge, st, Q);
      var o := ExecTail(I, t, st, fuel);
      var r := Onward(b, merge);
      match EvalCond(I, cond, st)
      case Throw(x, st1) => Leads1Leads(I, c, At(cur, 0, st), ThrowTo(Last(b.handlers), x, st1));
      case Val(v, st1) =>
        Leads1Leads(I, c, At(cur, 0, st), At(if v != 0 then et else ef, 0, st1));
        if v != 0 {
          SimBody(I, c, b3, et, [], body, merge, st1, fuel, Q2);
          GoesAfter(I, c, At(cur, 0, st), At(et, 0, st1), o, r, fuel + 1);
          if o.Normal? && !rest.NoElse? { ReachesKept(b4, b5, ef, merge); }
        } else {
          SimTail(I, c, b4, rest, ef, merge, st1, fuel, Q2);
          GoesAfter(I, c, At(cur, 0, st), At(ef, 0, st1), o, r, fuel + 1);
          if rest.NoElse? { ReachesKept(b3, b4, et, merge); }
        }
  }

  /** The builder's states through an ELSIF part. */
  lemma {:induction false} ElsifStages(b: Builder, t: ElseTail, cur: BlockId, merge: BlockId, c: seq<Block>,
          Q: set<BlockId>)
    returns (b1: Builder, b3: Builder, b4: Builder, b5: Builder)
    requires t.Elsif? && Inv(b, Q) && b.current.None? && LegalTail(t, b.exits != [])
    requires merge in Q && 0 < merge < |b.blocks|
    requires 0 < cur < |b.blocks| && b.blocks[cur] == Block([], None, Last(b.handlers)) && cur != merge
    requires Completes(LowerTail(b, t, cur, merge), c)
    ensures var et, ef := |b.blocks|, FalseBlock(b1, t.rest, merge);
      var Q2 := Q + {et, ef};
      && b1 == b.(current := Some(cur)) && Ready(b1, Q)
      && Inv(b3, Q2) && b3.current.None? && SameStacks(b, b3) && et < |b3.blocks|
      && b3.blocks[et] == Block([], None, Last(b.handlers))
      && Landed(b3, merge, Q2) && Completes(b3, c) && Frame(b3, b4, et) && Completes(b4, c)
      && Inv(b4, Q2) && b4.current.None? && SameStacks(b, b4) && merge < |b4.blocks|
      && (if t.rest.NoElse? then ef == merge
          else 0 < ef < |b4.blocks| && b4.blocks[ef] == Block([], None, Last(b.handlers)) && ef != merge
               && Frame(b4, b5, ef))
      && (t.rest.NoElse? ==> b5 == b4)
    ensures b3 == OpenArm(b1, t.cond, t.rest, merge) && b4 == LowerBody(Start(b3, |b.blocks|), t.body, merge)
    ensures b5 == LowerTail(b4, t.rest, FalseBlock(b1, t.rest, merge), merge) && b5 == LowerTail(b, t, cur, merge)
  {
    hide Inv, LowerBody, OpenArm, AnyPathReaches, LegalStmts, Start;
    InvFacts(b, Q);
    StartInv(b, cur, Q);
    b1 := Start(b, cur);
    var et, ef := |b1.blocks|, FalseBlock(b1, t.rest, merge);
    var Q2 := Q + {et, ef};
    OpenArmInv(b1, t.cond, t.rest, merge, Q);
    b3 := OpenArm(b1, t.cond, t.rest, merge);
    BodyInv(b3, et, [], t.body, merge, Q2);
    b4 := LowerBody(Start(b3, et), t.body, merge);
    TailInv(b4, t.rest, ef, merge, Q2);
    b5 := LowerTail(b4, t.rest, ef, merge);
    if !t.rest.NoElse? { CompletesBack(b4, b5, ef, c); }
    CompletesBack(b3, b4, et, c);
  }

  // ----- loops -----

  /** A block of c that only jumps on. */
  lemma {:induction false} JumpStep<S>(I: Interp<S>, c: seq<Block>, id: BlockId, pos: nat, x: BlockId, st: State<S>)
    requires id < |c| && |c[id].stmts| == pos && c[id].term == Some(Goto(x))
    ensures Leads1(I, c, At(id, pos, st), At(x, 0, st))
  {
    LeadsRefl(I, c, At(x, 0, st));
  }

  /** A loop body, with the loop's exit block on the stack. */
  lemma {:induction false} SimLoopBody<S>(I: Interp<S>, c: seq<Block>, b: Builder, body: BlockId, exit: BlockId,
          ss: seq<Stmt>, next: BlockId,
                                          st: State<S>, fuel: nat, Q: set<BlockId>)
    requires Inv(b, Q) && b.current.None? && body < |b.blocks| && b.blocks[body] == Block([], None, Last(b.handlers))
    requires exit in Q && 0 < exit < |b.blocks| && Landed(b, next, Q)
    requires LegalStmts(ss, true) && PlainStmts(ss, I.exceptions.Keys, b.handlers != [])
    requires Completes(LeaveLoop(LowerBody(Start(EnterLoop(b, exit), body), ss, next)), c)
    ensures var o := ExecStmts(I, ss, st, fuel);
      && Goes(I, c, At(body, 0, st), o, Route(Some((next, 0)), Some(exit), Last(b.handlers)), fuel + 1)
      && (o.Normal? ==> Leads1(I, c, At(body, 0, st), At(next, 0, o.st)))
    decreases fuel, ss, 2
  {
    hide Inv, Leads, Leads1, Lives, LowerBody, AnyPathReaches, LegalStmts, PlainStmts;
    InvFacts(b, Q);
    var b1 := EnterLoop(b, exit);
    StacksInv(b, b1, Q);
    SimBody(I, c, b1, body, [], ss, next, st, fuel, Q);
  }

  /** One turn of a loop: after the body, go on from `next`, leave at `exit`, or stop. */
  lemma {:induction false} LoopTurn<S>(I: Interp<S>, c: seq<Block>, k: Config<S>, ob: Outcome<S>, o: Outcome<S>,
          next: BlockId, exit: BlockId,
                    r: Route, n: nat)
    requires Goes(I, c, k, ob, Route(Some((next, 0)), Some(exit), r.handler), n) && r.normal == Some((exit, 0))
    requires match ob
      case Normal(st) => Goes(I, c, At(next, 0, st), o, r, n)
      case Exited(st) => o == Normal(st)
      case _ => o == ob
    ensures Goes(I, c, k, o, r, n)
  {
    hide Leads, Lives;
    if ob.Normal? {
      GoesAfter(I, c, k, At(next, 0, ob.st), o, r, n);
    }
  }

  lemma {:induction false} SimWhile<S>(I: Interp<S>, c: seq<Block>, b: Builder, s: Stmt, st: State<S>, fuel: nat,
          P: set<BlockId>)
    requires s.While? && Poised(b, P) && LegalStmt(s, b.exits != [])
    requires PlainStmt(s, I.exceptions.Keys, b.handlers != [])
    requires Completes(LowerWhile(b, s), c)
    ensures Goes(I, c, Here(b, st), ExecStmt(I, s, st, fuel), RouteOf(b, LowerWhile(b, s)), fuel + 1)
    decreases fuel, s, 2
  {
    hide Inv, Leads, Leads1, Lives, OpenWhile, LowerBody, EnterLoop, LeaveLoop, ExecWhile, LegalStmts, PlainStmts;
    InvFacts(b, P);
    WhileStages(b, s, P, c);
    var header := |b.blocks|;
    JumpStep(I, c, b.current.value, |b.blocks[b.current.value].stmts|, header, st);
    WhileFrom(I, c, b, s, st, fuel, P);
    GoesAfter1(I, c, Here(b, st), At(header, 0, st), ExecWhile(I, s, st, fuel), Onward(b, header + 2), fuel);
  }

  /** What the finished graph holds of a WHILE. */
  lemma {:induction false} WhileStages(b: Builder, s: Stmt, P: set<BlockId>, c: seq<Block>)
    requires s.While? && Poised(b, P) && LegalStmt(s, b.exits != []) && Completes(LowerWhile(b, s), c)
    ensures var b1, b', header := OpenWhile(b, s), LowerWhile(b, s), |b.blocks|;
      && Completes(b1, c)
      && Completes(LeaveLoop(LowerBody(Start(EnterLoop(b1, header + 2), header + 1), s.body, header)), c)
      && b'.current == Some(header + 2) && header + 2 < |b'.blocks| && b'.blocks[header + 2].stmts == []
      && c[b.current.value] == b.blocks[b.current.value].(term := Some(Goto(header)))
  {
    hide Inv, OpenWhile, LowerBody, EnterLoop, LeaveLoop, LegalStmts;
    InvFacts(b, P);
    var header, body, exit := |b.blocks|, |b.blocks| + 1, |b.blocks| + 2;
    OpenWhileInv(b, s, P);
    var b1 := OpenWhile(b, s);
    LoopBodyInv(b, b1, body, exit, s.body, header, P, P + {header, body, exit});
    var b2 := LeaveLoop(LowerBody(Start(EnterLoop(b1, exit), body), s.body, header));
    assert LowerWhile(b, s).blocks == b2.blocks;
    CompletesBack(b1, b2, body, c);
  }

  /** From the loop header on. */
  lemma {:induction false} WhileFrom<S>(I: Interp<S>, c: seq<Block>, b: Builder, s: Stmt, st: State<S>, fuel: nat,
          P: set<BlockId>)
    requires s.While? && Poised(b, P) && LegalStmt(s, b.exits != [])
    requires PlainStmt(s, I.exceptions.Keys, b.handlers != [])
    requires Completes(LowerWhile(b, s), c)
    ensures Goes(I, c, At(|b.blocks|, 0, st), ExecWhile(I, s, st, fuel), Onward(b, |b.blocks| + 2), fuel)
    decreases fuel, s, 1
  {
    hide Inv, Leads, Leads1, OpenWhile, LowerBody, EnterLoop, LeaveLoop, LegalStmts, PlainStmts, EnterHeader,
      ExecStmts, LowerCond, Completes, Quiet;
    if fuel == 0 { return; }
    InvFacts(b, P);
    WhileStages(b, s, P, c);
    OpenWhileInv(b, s, P);
    var header, body, exit := |b.blocks|, |b.blocks| + 1, |b.blocks| + 2;
    var Q := P + {header, body, exit};
    var k := At(header, 0, st);
    var r := Onward(b, exit);
    WhileTest(I, c, b, s, st, P);
    match EvalCond(I, s.cond, st)
    case Throw(x, st1) => Leads1Leads(I, c, k, ThrowTo(Last(b.handlers), x, st1));
    case Val(v, st1) =>
      Leads1Leads(I, c, k, At(if v != 0 then body else exit, 0, st1));
      if v != 0 {
        SimLoopBody(I, c, OpenWhile(b, s), body, exit, s.body, header, st1, fuel - 1, Q);
        var ob, o := ExecStmts(I, s.body, st1, fuel - 1), ExecWhile(I, s, st, fuel);
        GoesLess(I, c, At(body, 0, st1), ob, Route(Some((header, 0)), Some(exit), r.handler), fuel, fuel - 1);
        if ob.Normal? { WhileFrom(I, c, b, s, ob.st, fuel - 1, P); }
        LoopTurn(I, c, At(body, 0, st1), ob, o, header, exit, r, fuel - 1);
        GoesAfter1(I, c, k, At(body, 0, st1), o, r, fuel - 1);
      }
  }

  lemma {:induction false} WhileTest<S>(I: Interp<S>, c: seq<Block>, b: Builder, s: Stmt, st: State<S>, P: set<BlockId>)
    requires s.While? && Poised(b, P) && Completes(OpenWhile(b, s), c) && PlainCond(s.cond, I.exceptions.Keys)
    ensures var header := |b.blocks|;
      CondGoes(I, c, At(header, 0, st), EvalCond(I, s.cond, st), header + 1, header + 2, Last(b.handlers))
  {
    hide Inv, LowerCond, EnterHeader, CondGoes;
    OpenWhileInv(b, s, P);
    var header := |b.blocks|;
    SimCond(I, c, EnterHeader(b), s.cond, header + 1, header + 2, st, P + {header, header + 1, header + 2});
  }

  lemma {:induction false} SimLoop<S>(I: Interp<S>, c: seq<Block>, b: Builder, s: Stmt, st: State<S>, fuel: nat,
          P: set<BlockId>)
    requires s.Loop? && Poised(b, P) && LegalStmt(s, b.exits != []) && PlainStmt(s, I.exceptions.Keys, b.handlers != [])
    requires Completes(LowerLoop(b, s), c)
    ensures Goes(I, c, Here(b, st), ExecStmt(I, s, st, fuel), RouteOf(b, LowerLoop(b, s)), fuel + 1)
    decreases fuel, s, 2
  {
    hide Inv, Leads, Leads1, Lives, OpenLoop, LowerBody, EnterLoop, LeaveLoop, ExecLoop, LegalStmts, PlainStmts;
    InvFacts(b, P);
    LoopStages(b, s, P, c);
    var header := |b.blocks|;
    JumpStep(I, c, b.current.value, |b.blocks[b.current.value].stmts|, header, st);
    LoopFrom(I, c, b, s, st, fuel, P);
    GoesAfter1(I, c, Here(b, st), At(header, 0, st), ExecLoop(I, s, st, fuel), Onward(b, header + 1), fuel);
  }

  lemma {:induction false} LoopStages(b: Builder, s: Stmt, P: set<BlockId>, c: seq<Block>)
    requires s.Loop? && Poised(b, P) && LegalStmt(s, b.exits != []) && Completes(LowerLoop(b, s), c)
    ensures var b1, b', header := OpenLoop(b), LowerLoop(b, s), |b.blocks|;
      && Completes(LeaveLoop(LowerBody(Start(EnterLoop(b1, header + 1), header), s.body, header)), c)
      && b'.current == Some(header + 1) && header + 1 < |b'.blocks| && b'.blocks[header + 1].stmts == []
      && c[b.current.value] == b.blocks[b.current.value].(term := Some(Goto(header)))
  {
    hide Inv, OpenLoop, LowerBody, EnterLoop, LeaveLoop, LegalStmts;
    InvFacts(b, P);
    var header, exit := |b.blocks|, |b.blocks| + 1;
    OpenLoopInv(b, P);
    var b1 := OpenLoop(b);
    LoopBodyInv(b, b1, header, exit, s.body, header, P, P + {header, exit});
    var b2 := LeaveLoop(LowerBody(Start(EnterLoop(b1, exit), header), s.body, header));
    assert LowerLoop(b, s).blocks == b2.blocks;
    CompletesBack(b1, b2, header, c);
  }

  lemma {:induction false} LoopFrom<S>(I: Interp<S>, c: seq<Block>, b: Builder, s: Stmt, st: State<S>, fuel: nat,
          P: set<BlockId>)
    requires s.Loop? && Poised(b, P) && LegalStmt(s, b.exits != []) && PlainStmt(s, I.exceptions.Keys, b.handlers != [])
    requires Completes(LowerLoop(b, s), c)
    ensures Goes(I, c, At(|b.blocks|, 0, st), ExecLoop(I, s, st, fuel), Onward(b, |b.blocks| + 1), fuel)
    decreases fuel, s, 1
  {
    hide Inv, Leads, Leads1, OpenLoop, LowerBody, EnterLoop, LeaveLoop, LegalStmts, PlainStmts, ExecStmts;
    if fuel == 0 { return; }
    InvFacts(b, P);
    LoopStages(b, s, P, c);
    OpenLoopInv(b, P);
    var header, exit := |b.blocks|, |b.blocks| + 1;
    var k := At(header, 0, st);
    SimLoopBody(I, c, OpenLoop(b), header, exit, s.body, header, st, fuel - 1, P + {header, exit});
    var ob := ExecStmts(I, s.body, st, fuel - 1);
    if ob.Normal? {
      LoopFrom(I, c, b, s, ob.st, fuel - 1, P);
      GoesAfter1(I, c, k, At(header, 0, ob.st), ExecLoop(I, s, st, fuel), Onward(b, exit), fuel - 1);
    }
  }

  lemma {:induction false} SimRepeat<S>(I: Interp<S>, c: seq<Block>, b: Builder, s: Stmt, st: State<S>, fuel: nat,
          P: set<BlockId>)
    requires s.Repeat? && Poised(b, P) && LegalStmt(s, b.exits != [])
    requires PlainStmt(s, I.exceptions.Keys, b.handlers != [])
    requires Completes(LowerRepeat(b, s), c)
    ensures Goes(I, c, Here(b, st), ExecStmt(I, s, st, fuel), RouteOf(b, LowerRepeat(b, s)), fuel + 1)
    decreases fuel, s, 2
  {
    hide Inv, Leads, Leads1, Lives, OpenLoop, LowerUntil, EnterLoop, LeaveLoop, ExecRepeat, LegalStmts, PlainStmts;
    InvFacts(b, P);
    RepeatStages(b, s, P, c);
    var body := |b.blocks|;
    JumpStep(I, c, b.current.value, |b.blocks[b.current.value].stmts|, body, st);
    RepeatFrom(I, c, b, s, st, fuel, P);
    GoesAfter1(I, c, Here(b, st), At(body, 0, st), ExecRepeat(I, s, st, fuel), Onward(b, body + 1), fuel);
  }

  lemma {:induction false} RepeatStages(b: Builder, s: Stmt, P: set<BlockId>, c: seq<Block>)
    requires s.Repeat? && Poised(b, P) && LegalStmt(s, b.exits != []) && Completes(LowerRepeat(b, s), c)
    ensures var body, exit := |b.blocks|, |b.blocks| + 1;
      var b1, b' := Start(EnterLoop(OpenLoop(b), exit), body), LowerRepeat(b, s);
      && Inv(b1, P + {body, exit}) && b1 == OpenLoop(b).(exits := b.exits + [exit], current := Some(body))
      && b1.handlers == b.handlers
      && |b1.blocks| == body + 2 && b1.blocks[body] == Block([], None, Last(b.handlers))
      && Completes(LowerUntil(b1, s, exit, body), c)
      && b'.current == Some(exit) && exit < |b'.blocks| && b'.blocks[exit].stmts == []
      && c[b.current.value] == b.blocks[b.current.value].(term := Some(Goto(body)))
  {
    hide Inv, OpenLoop, LowerUntil, LegalStmts;
    InvFacts(b, P);
    var body, exit := |b.blocks|, |b.blocks| + 1;
    var Q := P + {body, exit};
    OpenLoopInv(b, P);
    StacksInv(OpenLoop(b), EnterLoop(OpenLoop(b), exit), Q);
    StartInv(EnterLoop(OpenLoop(b), exit), body, Q);
    var b1 := Start(EnterLoop(OpenLoop(b), exit), body);
    UntilInv(b1, s, exit, body, Q);
    CompletesBack(b1, LowerUntil(b1, s, exit, body), body, c);
  }

  lemma {:induction false} RepeatFrom<S>(I: Interp<S>, c: seq<Block>, b: Builder, s: Stmt, st: State<S>, fuel: nat,
          P: set<BlockId>)
    requires s.Repeat? && Poised(b, P) && LegalStmt(s, b.exits != [])
    requires PlainStmt(s, I.exceptions.Keys, b.handlers != [])
    requires Completes(LowerRepeat(b, s), c)
    ensures Goes(I, c, At(|b.blocks|, 0, st), ExecRepeat(I, s, st, fuel), Onward(b, |b.blocks| + 1), fuel)
    decreases fuel, s, 1
  {
    hide Inv, Leads, Leads1, OpenLoop, LowerCond, LowerStmts, LegalStmts, PlainStmts, ExecStmts, LowerUntil, Completes,
      Quiet;
    if fuel == 0 { return; }
    InvFacts(b, P);
    RepeatStages(b, s, P, c);
    var body, exit := |b.blocks|, |b.blocks| + 1;
    var b1 := Start(EnterLoop(OpenLoop(b), exit), body);
    var k := At(body, 0, st);
    UntilFrom(I, c, b1, s, exit, body, st, fuel - 1, P + {body, exit});
    var ob := ExecStmts(I, s.body, st, fuel - 1);
    if ob.Normal? {
      match EvalCond(I, s.cond, ob.st)
      case Throw(x, st2) => Leads1Leads(I, c, k, ThrowTo(Last(b.handlers), x, st2));
      case Val(v, st2) =>
        Leads1Leads(I, c, k, At(if v != 0 then exit else body, 0, st2));
        if v == 0 {
          RepeatFrom(I, c, b, s, st2, fuel - 1, P);
          GoesAfter1(I, c, k, At(body, 0, st2), ExecRepeat(I, s, st, fuel), Onward(b, exit), fuel - 1);
        }
    }
  }

  /** One pass of a REPEAT: the body and, if it falls through, the test. */
  lemma {:induction false} UntilFrom<S>(I: Interp<S>, c: seq<Block>, b: Builder, s: Stmt, exit: BlockId, body: BlockId,
          st: State<S>, fuel: nat, Q: set<BlockId>)
    requires s.Repeat? && Ready(b, Q) && b.current == Some(body) && b.blocks[body].stmts == [] && b.exits != []
    requires b.exits[|b.exits| - 1] == exit
    requires LegalStmts(s.body, true) && PlainStmts(s.body, I.exceptions.Keys, b.handlers != [])
    requires PlainCond(s.cond, I.exceptions.Keys)
    requires Landed(b, exit, Q) && Landed(b, body, Q)
    requires Completes(LowerUntil(b, s, exit, body), c)
    ensures var ob := ExecStmts(I, s.body, st, fuel);
      if ob.Normal? then CondGoes(I, c, At(body, 0, st), EvalCond(I, s.cond, ob.st), exit, body, Last(b.handlers))
      else Goes(I, c, At(body, 0, st), ob, Route(None, Some(exit), Last(b.handlers)), fuel + 1)
    decreases fuel, s.body, 1
  {
    hide Inv, Leads, Leads1, Lives, LowerCond, LowerStmts, LegalStmts, PlainStmts, ExecStmts, Landed;
    StmtsInv(b, s.body, Q);
    var b1 := LowerStmts(b, s.body);
    if b1.current.Some? {
      InvFacts(b1, Q);
      LandedKept(b, b1, body, exit, Q);
      LandedKept(b, b1, body, body, Q);
      CondInv(b1, s.cond, exit, body, Q);
      CompletesBack(b1, LowerCond(b1, s.cond, exit, body), b1.current.value, c);
    }
    SimStmts(I, c, b, s.body, st, fuel, Q);
    var ob := ExecStmts(I, s.body, st, fuel);
    if ob.Normal? {
      SimCond(I, c, b1, s.cond, exit, body, ob.st, Q);
      CondLater(I, c, At(body, 0, st), Here(b1, ob.st), EvalCond(I, s.cond, ob.st), exit, body, Last(b.handlers));
    }
  }

  lemma {:induction false} CondLater<S>(I: Interp<S>, c: seq<Block>, k: Config<S>, k': Config<S>, r: Eval<State<S>>,
          t: BlockId, f: BlockId, h: Option<BlockId>)
    requires Leads(I, c, k, k') && CondGoes(I, c, k', r, t, f, h)
    ensures CondGoes(I, c, k, r, t, f, h)
  {
    var d := match r case Val(v, st) => At(if v != 0 then t else f, 0, st) case Throw(x, st) => ThrowTo(h, x, st);
    LeadsLeads1(I, c, k, k', d);
  }

  lemma {:induction false} SimFor<S>(I: Interp<S>, c: seq<Block>, b: Builder, s: Stmt, st: State<S>, fuel: nat,
          P: set<BlockId>)
    requires s.For? && Ready(b, P) && LegalStmt(s, b.exits != []) && PlainStmt(s, I.exceptions.Keys, b.handlers != [])
    requires Completes(LowerFor(b, s), c)
    ensures Goes(I, c, Here(b, st), ExecStmt(I, s, st, fuel), RouteOf(b, LowerFor(b, s)), fuel + 1)
    decreases fuel, s, 2
  {
    hide Inv, Leads, Leads1, Lives, LowerFor, ExecFor, LegalStmts, PlainStmts, ForStart, ForTest, ForNext;
    InvFacts(b, P);
    ForStages(b, s, P, c);
    var k, cond := b.current.value, |b.blocks|;
    var blk := b.blocks[k];
    var o := ExecStmt(I, s, st, fuel);
    var r := Onward(b, cond + 3);
    assert c[k].stmts[|blk.stmts|] == ForInit(s);
    LeadsStep(I, c, Here(b, st));
    ForIsItsParts(s);
    match PrimOf(I, ForStart(s), st)
    case Normal(st1) =>
      JumpStep(I, c, k, |blk.stmts| + 1, cond, st1);
      ForFrom(I, c, b, s, st1, fuel, P);
      GoesAfter1(I, c, At(k, |blk.stmts| + 1, st1), At(cond, 0, st1), o, r, fuel);
      GoesAfter(I, c, Here(b, st), At(k, |blk.stmts| + 1, st1), o, r, fuel + 1);
    case _ =>
  }

  lemma {:induction false} ForStages(b: Builder, s: Stmt, P: set<BlockId>, c: seq<Block>)
    requires s.For? && Poised(b, P) && LegalStmt(s, b.exits != []) && Completes(LowerFor(b, s), c)
    ensures var b1, b', cond := OpenFor(b, s), LowerFor(b, s), |b.blocks|;
      && Completes(LeaveLoop(LowerBody(Start(EnterLoop(b1, cond + 3), cond + 1), s.body, cond + 2)), c)
      && b'.current == Some(cond + 3) && cond + 3 < |b'.blocks| <= |c| && b'.blocks[cond + 3].stmts == []
      && c[cond] == Block([], Some(BranchOn(ForCond(s), cond + 1, cond + 3)), Last(b.handlers))
      && c[cond + 2] == Block([ForAdvance(s)], Some(Goto(cond)), Last(b.handlers))
      && var blk := b.blocks[b.current.value];
         c[b.current.value] == blk.(stmts := blk.stmts + [ForInit(s)], term := Some(Goto(cond)))
  {
    hide Inv, OpenFor, LowerBody, EnterLoop, LeaveLoop, LowerLatch, LegalStmts, AnyPathReaches;
    InvFacts(b, P);
    var cond, body, latch, exit := |b.blocks|, |b.blocks| + 1, |b.blocks| + 2, |b.blocks| + 3;
    var Q := P + Span(cond, 4);
    OpenForInv(b, s, P);
    var b1 := OpenFor(b, s);
    LoopBodyInv(b, b1, body, exit, s.body, latch, P, Q);
    var b2 := LeaveLoop(LowerBody(Start(EnterLoop(b1, exit), body), s.body, latch));
    LatchInv(b2, s, latch, cond, Q);
    var b3 := LowerLatch(b2, s, latch, cond);
    assert LowerFor(b, s).blocks == b3.blocks;
    CompletesBack(b2, b3, latch, c);
    CompletesBack(b1, b2, body, c);
  }

  lemma {:induction false} ForFrom<S>(I: Interp<S>, c: seq<Block>, b: Builder, s: Stmt, st: State<S>, fuel: nat,
          P: set<BlockId>)
    requires s.For? && Ready(b, P) && LegalStmt(s, b.exits != []) && PlainStmt(s, I.exceptions.Keys, b.handlers != [])
    requires Completes(LowerFor(b, s), c)
    ensures Goes(I, c, At(|b.blocks|, 0, st), ExecFor(I, s, st, fuel), Onward(b, |b.blocks| + 3), fuel)
    decreases fuel, s, 1
  {
    hide Inv, Leads, LowerFor, LegalStmts, PlainStmts, ExecStmts, OpenFor, LowerBody, EnterLoop, LeaveLoop, Completes;
    hide Quiet, ForStart, ForTest, ForNext;
    if fuel == 0 { return; }
    InvFacts(b, P);
    ForStages(b, s, P, c);
    OpenForInv(b, s, P);
    var cond, body, latch, exit := |b.blocks|, |b.blocks| + 1, |b.blocks| + 2, |b.blocks| + 3;
    var k := At(cond, 0, st);
    var r := Onward(b, exit);
    LeadsStep(I, c, k);
    LeadsRefl(I, c, Step(I, c, k));
    ForIsItsParts(s);
    match EvalExpr(I, ForTest(s), st)
    case Throw(_, _) =>
    case Val(v, st1) =>
      if v != 0 {
        SimLoopBody(I, c, OpenFor(b, s), body, exit, s.body, latch, st1, fuel - 1, P + Span(cond, 4));
        var ob, o := ExecStmts(I, s.body, st1, fuel - 1), ExecFor(I, s, st, fuel);
        GoesLess(I, c, At(body, 0, st1), ob, Route(Some((latch, 0)), Some(exit), r.handler), fuel, fuel - 1);
        if ob.Normal? {
          LatchFrom(I, c, b, s, ob.st, fuel - 1, P);
        }
        LoopTurn(I, c, At(body, 0, st1), ob, o, latch, exit, r, fuel - 1);
        GoesAfter1(I, c, k, At(body, 0, st1), o, r, fuel - 1);
      }
  }

  /** From the latch: advance the control variable and test again. */
  lemma {:induction false} LatchFrom<S>(I: Interp<S>, c: seq<Block>, b: Builder, s: Stmt, st: State<S>, fuel: nat,
          P: set<BlockId>)
    requires s.For? && Ready(b, P) && LegalStmt(s, b.exits != []) && PlainStmt(s, I.exceptions.Keys, b.handlers != [])
    requires Completes(LowerFor(b, s), c)
    ensures var o := match PrimOf(I, ForNext(s), st) case Normal(st1) => ExecFor(I, s, st1, fuel) case o => o;
      Goes(I, c, At(|b.blocks| + 2, 0, st), o, Onward(b, |b.blocks| + 3), fuel)
    decreases fuel, s, 2
  {
    hide Inv, Leads, Leads1, Lives, LowerFor, LegalStmts, PlainStmts, ExecFor, OpenFor, LowerBody, EnterLoop,
      LeaveLoop, Completes, Quiet;
    InvFacts(b, P);
    ForStages(b, s, P, c);
    var cond, latch := |b.blocks|, |b.blocks| + 2;
    LeadsStep(I, c, At(latch, 0, st));
    ForIsItsParts(s);
    match PrimOf(I, ForNext(s), st)
    case Normal(st1) =>
      JumpStep(I, c, latch, 1, cond, st1);
      ForFrom(I, c, b, s, st1, fuel, P);
      Leads1Leads(I, c, At(latch, 1, st1), At(cond, 0, st1));
      LeadsTrans(I, c, At(latch, 0, st), At(latch, 1, st1), At(cond, 0, st1));
      GoesAfter(I, c, At(latch, 0, st), At(cond, 0, st1), ExecFor(I, s, st1, fuel), Onward(b, cond + 3), fuel);
    case _ =>
  }

  // ----- CASE and TYPECASE -----

  predicate Blanks(b: Builder, lo: BlockId, n: nat, h: Option<BlockId>) {
    lo + n <= |b.blocks| && forall i :: lo <= i < lo + n ==> b.blocks[i] == Block([], None, h)
  }

  lemma {:induction false} RangeBack(b: Builder, b': Builder, lo: BlockId, n: nat, h: Option<BlockId>, c: seq<Block>)
    requires FilledRange(b, b', lo, n) && Completes(b', c) && Blanks(b, lo, n, h)
    ensures Completes(b, c)
  {
  }

  lemma {:induction false} RangeReaches(b: Builder, b': Builder, lo: BlockId, n: nat, h: Option<BlockId>, x: BlockId)
    requires FilledRange(b, b', lo, n) && Blanks(b, lo, n, h) && AnyPathReaches(b, x)
    ensures AnyPathReaches(b', x)
  {
    var j :| 0 <= j < |b.blocks| && b.blocks[j].term.Some? && x in Successors(b.blocks[j].term.value);
    assert b'.blocks[j] == b.blocks[j];
  }

  /** The switch takes the arm of the first branch that matches. */
  lemma {:induction false} SwitchTakes<S>(I: Interp<S>, brs: seq<Branch>, base: BlockId, default: BlockId, v: int,
          st: State<S>)
    ensures var k := FirstHit(I, brs, v, st);
      SwitchTarget(I, SwitchArms(brs, base), default, v, st) == if k < |brs| then base + k else default
    decreases brs
  {
    if brs != [] {
      assert SwitchArms(brs, base)[1..] == SwitchArms(brs[1..], base + 1);
      SwitchTakes(I, brs[1..], base + 1, default, v, st);
    }
  }

  /** What the code puts in front of a branch does the binding. */
  lemma {:induction false} BindingBinds<S>(I: Interp<S>, sel: Expr, br: Branch, st: State<S>)
    ensures ExecPrims(I, Binding(sel, br), st) == BindOf(I, sel, br, st) && StraightLine(Binding(sel, br))
  {
    if br.bind.Some? {
      var ss := Binding(sel, br);
      assert ss[1..] == [];
      match PrimOf(I, ss[0], st)
      case Normal(st1) => assert ExecPrims(I, [], st1) == Normal(st1);
      case _ =>
    }
  }

  lemma {:induction false} FinallyRuns<S>(I: Interp<S>, fin: OptBody, st: State<S>)
    ensures ExecPrims(I, OptStmts(fin), st) == FinallyOf(I, fin, st)
  {
  }

  /** The statements the code makes for a FOR are those that give it its meaning. */
  lemma {:induction false} ForIsItsParts(s: Stmt)
    requires s.For?
    ensures ForInit(s) == ForStart(s) && ForCond(s) == ForTest(s) && ForAdvance(s) == ForNext(s)
  {
  }

  function ExecBranch<S>(I: Interp<S>, br: Branch, sel: Expr, st: State<S>, fuel: nat): Outcome<S> {
    match BindOf(I, sel, br, st)
    case Normal(st1) => ExecStmts(I, br.body, st1, fuel)
    case o => o
  }

  /** Branch k, from its own block. */
  lemma {:induction false} SimBranch<S>(I: Interp<S>, c: seq<Block>, b: Builder, brs: seq<Branch>, sel: Expr,
          base: BlockId, merge: BlockId,
                                        k: nat, st: State<S>, fuel: nat, Q: set<BlockId>)
    requires Inv(b, Q) && b.current.None? && LegalBranches(brs, b.exits != [])
    requires PlainBranches(brs, I.exceptions.Keys, b.handlers != [])
    requires Blanks(b, base, |brs|, Last(b.handlers)) && merge in Q && 0 < merge < base && k < |brs|
    requires Completes(LowerBranches(b, brs, sel, base, merge), c)
    ensures var o := ExecBranch(I, brs[k], sel, st, fuel);
      && Goes(I, c, At(base + k, 0, st), o, Onward(b, merge), fuel + 1)
      && (o.Normal? ==> AnyPathReaches(LowerBranches(b, brs, sel, base, merge), merge))
    decreases fuel, brs
  {
    hide Inv, Leads, Leads1, Lives, LowerBody, LowerBranches, AnyPathReaches, LegalStmts, PlainStmts, PushAll,
      ExecStmts, ExecPrims, Binding, Start, Completes, Quiet, Goes, CondGoes;
    InvFacts(b, Q);
    var pre := Binding(sel, brs[0]);
    BodyInv(b, base, pre, brs[0].body, merge, Q);
    var b1 := LowerBody(PushAll(Start(b, base), pre), brs[0].body, merge);
    assert LowerBranches(b, brs, sel, base, merge)
      == LowerBranches(b1, brs[1..], sel, base + 1, merge) by { UnfoldBranches(b, brs, sel, base, merge); }
    var b2 := LowerBranches(b1, brs[1..], sel, base + 1, merge);
    assert Blanks(b1, base + 1, |brs[1..]|, Last(b.handlers));
    if k > 0 {
      SimBranch(I, c, b1, brs[1..], sel, base + 1, merge, k - 1, st, fuel, Q);
    } else {
      BranchesInv(b1, brs[1..], sel, base + 1, merge, Q);
      RangeBack(b1, b2, base + 1, |brs[1..]|, Last(b.handlers), c);
      FirstBranch(I, c, b, brs[0], sel, base, merge, st, fuel, Q);
      if ExecBranch(I, brs[0], sel, st, fuel).Normal? {
        RangeReaches(b1, b2, base + 1, |brs[1..]|, Last(b.handlers), merge);
      }
    }
  }

  lemma {:induction false} FirstBranch<S>(I: Interp<S>, c: seq<Block>, b: Builder, br: Branch, sel: Expr, id: BlockId,
          merge: BlockId,
                                          st: State<S>, fuel: nat, Q: set<BlockId>)
    requires Inv(b, Q) && b.current.None? && LegalStmts(br.body, b.exits != [])
    requires PlainStmts(br.body, I.exceptions.Keys, b.handlers != [])
    requires id < |b.blocks| && b.blocks[id] == Block([], None, Last(b.handlers)) && merge in Q
    requires 0 < merge < |b.blocks|
    requires Completes(LowerBody(PushAll(Start(b, id), Binding(sel, br)), br.body, merge), c)
    ensures var o := ExecBranch(I, br, sel, st, fuel);
      && Goes(I, c, At(id, 0, st), o, Onward(b, merge), fuel + 1)
      && (o.Normal? ==> AnyPathReaches(LowerBody(PushAll(Start(b, id), Binding(sel, br)), br.body, merge), merge))
    decreases fuel, br.body, 2
  {
    hide Inv, Leads, Leads1, Lives, LowerBody, AnyPathReaches, LegalStmts, PlainStmts, PushAll, ExecStmts;
    var pre := Binding(sel, br);
    var ob := ExecPrims(I, pre, st);
    BindingBinds(I, sel, br, st);
    SimBody(I, c, b, id, pre, br.body, merge, if ob.Normal? then ob.st else st, fuel, Q);
    SimPrims(I, c, id, 0, pre, st);
    if ob.Normal? {
      GoesAfter(I, c, At(id, 0, st), At(id, |pre|, ob.st), ExecStmts(I, br.body, ob.st, fuel), Onward(b, merge),
          fuel + 1);
    }
  }

  lemma {:induction false} SimCase<S>(I: Interp<S>, c: seq<Block>, b: Builder, s: Stmt, st: State<S>, fuel: nat,
          P: set<BlockId>)
    requires s.Case? && Ready(b, P) && LegalStmt(s, b.exits != []) && PlainStmt(s, I.exceptions.Keys, b.handlers != [])
    requires Completes(LowerCase(b, s), c)
    ensures Goes(I, c, Here(b, st), ExecStmt(I, s, st, fuel), RouteOf(b, LowerCase(b, s)), fuel + 1)
    decreases fuel, s, 0
  {
    hide Inv, Leads, Leads1, Lives, LowerBranches, LowerElse, LegalBranches, LegalStmts, PlainBranches, PlainStmts,
      OpenCase, AnyPathReaches,
      ExecStmts, Completes, Step, SwitchTarget, FirstHit, StartIfReached, Binding, ExecPrims, LowerCase;
    InvFacts(b, P);
    var k, merge, default, base := b.current.value, |b.blocks|, |b.blocks| + 1, |b.blocks| + 2;
    var n := |s.branches|;
    var Q := P + Span(merge, 2 + n);
    var b1, b2, b3 := CaseStages(b, s, P, c);
    var o := ExecStmt(I, s, st, fuel);
    SwitchStep(I, c, k, |b.blocks[k].stmts|, s.sel, SwitchArms(s.branches, base), default, st);
    match EvalExpr(I, s.sel, st)
    case Throw(_, _) =>
    case Val(v, st1) =>
      SwitchTakes(I, s.branches, base, default, v, st1);
      var hit := FirstHit(I, s.branches, v, st1);
      if hit < n {
        SimBranch(I, c, b1, s.branches, s.sel, base, merge, hit, st1, fuel, Q);
        GoesAfter(I, c, Here(b, st), At(base + hit, 0, st1), o, Onward(b, merge), fuel + 1);
        if o.Normal? { ReachesKept(b2, b3, default, merge); }
      } else {
        SimElse(I, c, b2, s.elseBody, default, merge, st1, fuel, Q);
        GoesAfter(I, c, Here(b, st), At(default, 0, st1), o, Onward(b, merge), fuel + 1);
      }
    SimMerge(I, c, b, b3, merge, Here(b, st), o, fuel + 1);
  }

  /** A block of c that ends in a switch. */
  lemma {:induction false} SwitchStep<S>(I: Interp<S>, c: seq<Block>, id: BlockId, pos: nat, sel: Expr, arms: seq<Arm>,
          d: BlockId, st: State<S>)
    requires id < |c| && |c[id].stmts| == pos && c[id].term == Some(Switch(sel, arms, d))
    ensures Leads(I, c, At(id, pos, st), match EvalExpr(I, sel, st)
      case Val(v, st1) => At(SwitchTarget(I, arms, d, v, st1), 0, st1)
      case Throw(x, st1) => ThrowTo(c[id].handler, x, st1))
  {
    hide Leads;
    LeadsStep(I, c, At(id, pos, st));
  }

  /** The builder's states through a CASE. */
  lemma {:induction false} CaseStages(b: Builder, s: Stmt, P: set<BlockId>, c: seq<Block>)
    returns (b1: Builder, b2: Builder, b3: Builder)
    requires s.Case? && Poised(b, P) && LegalStmt(s, b.exits != []) && Completes(LowerCase(b, s), c)
    ensures var merge, default, base, n := |b.blocks|, |b.blocks| + 1, |b.blocks| + 2, |s.branches|;
      var Q := P + Span(merge, 2 + n);
      && Inv(b1, Q) && b1.current.None? && SameStacks(b, b1) && Blanks(b1, base, n, Last(b.handlers))
      && Completes(b2, c) && Inv(b2, Q) && b2.current.None? && SameStacks(b, b2) && merge < default < |b2.blocks|
      && b2.blocks[default] == Block([], None, Last(b.handlers)) && Frame(b2, b3, default)
      && Completes(b3, c) && b3.current.None? && merge < |b3.blocks| && b3.blocks[merge].stmts == []
      && Open(b3.blocks[merge])
      && b.current.value < |c|
      && c[b.current.value] == b.blocks[b.current.value].(
           term := Some(Switch(s.sel, SwitchArms(s.branches, base), default)))
    ensures b1 == OpenCase(b, s) && b2 == LowerBranches(b1, s.branches, s.sel, |b.blocks| + 2, |b.blocks|)
    ensures b3 == LowerElse(b2, s.elseBody, |b.blocks| + 1, |b.blocks|)
    ensures LowerCase(b, s) == StartIfReached(b3, |b.blocks|)
  {
    hide Inv, LowerBranches, LowerElse, LegalBranches, LegalStmts, OpenCase, AnyPathReaches;
    InvFacts(b, P);
    var merge, default, base, n := |b.blocks|, |b.blocks| + 1, |b.blocks| + 2, |s.branches|;
    var Q := P + Span(merge, 2 + n);
    OpenCaseInv(b, s, P);
    b1 := OpenCase(b, s);
    InvPromise(b1, P + Span(merge + 1, 1 + n), Q);
    BranchesInv(b1, s.branches, s.sel, base, merge, Q);
    b2 := LowerBranches(b1, s.branches, s.sel, base, merge);
    ElseInv(b2, s.elseBody, default, merge, Q);
    b3 := LowerElse(b2, s.elseBody, default, merge);
    StartIfReachedBlocks(b3, merge, Q);
    CompletesBack(b2, b3, default, c);
    RangeBack(b1, b2, base, n, Last(b.handlers), c);
  }

  lemma {:induction false} SimElse<S>(I: Interp<S>, c: seq<Block>, b: Builder, els: OptBody, default: BlockId,
          merge: BlockId, st: State<S>, fuel: nat, Q: set<BlockId>)
    requires Inv(b, Q) && b.current.None? && default < |b.blocks|
    requires b.blocks[default] == Block([], None, Last(b.handlers))
    requires merge in Q && 0 < merge < |b.blocks|
    requires els.Body? ==> LegalStmts(els.stmts, b.exits != [])
    requires els.Body? ==> PlainStmts(els.stmts, I.exceptions.Keys, b.handlers != [])
    requires Completes(LowerElse(b, els, default, merge), c)
    ensures var o := if els.Body? then ExecStmts(I, els.stmts, st, fuel) else Normal(st);
      && Goes(I, c, At(default, 0, st), o, Onward(b, merge), fuel + 1)
      && (o.Normal? ==> AnyPathReaches(LowerElse(b, els, default, merge), merge))
    decreases fuel, els
  {
    hide Inv, Leads, Leads1, Lives, LowerBody, LegalStmts, PlainStmts, AnyPathReaches;
    InvFacts(b, Q);
    match els
    case Body(ss) => SimBody(I, c, b, default, [], ss, merge, st, fuel, Q);
    case NoBody =>
      var b1 := Start(b, default);
      SealStep(I, c, b1, Goto(merge), st);
      Leads1Leads(I, c, At(default, 0, st), At(merge, 0, st));
      GotoReaches(b1, merge);
  }

  // ----- TRY -----

  /** The tests lead to the first clause that catches, or to the re-raise block. */
  lemma {:induction false} SimDispatch<S>(I: Interp<S>, c: seq<Block>, b: Builder, cs: seq<Clause>, base: BlockId,
          reraise: BlockId, st: State<S>, Q: set<BlockId>)
    requires Inv(b, Q) && b.current.Some? && b.current.value < |b.blocks| && cs != []
    requires forall i :: 0 <= i < |cs| - 1 ==> cs[i].exception.Some?
    requires Declared(cs, I.exceptions.Keys)
    requires 0 < base && base + |cs| <= |b.blocks| && forall i :: base <= i < base + |cs| ==> i in Q
    requires reraise in Q && 0 < reraise < |b.blocks|
    requires Completes(LowerDispatch(b, cs, base, reraise), c)
    ensures var m := FirstCatch(I, cs, st);
      Leads(I, c, Here(b, st), At(if m < |cs| then base + m else reraise, 0, st))
    decreases cs
  {
    hide Inv, Leads, Leads1, Completes, Quiet, Goes, CondGoes, LowerDispatch, Seal, Start, AnyPathReaches;
    InvFacts(b, Q);
    UnfoldDispatch(b, cs, base, reraise);
    if cs[0].exception.None? {
      assert cs[1..] == [];
      SealStep(I, c, b, Goto(base), st);
      Leads1Leads(I, c, Here(b, st), At(base, 0, st));
    } else {
      var test := LocalExpr(cs[0].exception.value);
      var hit := Catches(I, cs[0], st);
      if |cs| > 1 {
        var next := |b.blocks|;
        var t := BranchOn(test, base, next);
        DispatchStage(b, cs, base, reraise, c, Q);
        var b1 := Start(Seal(NewBlockNoHandler(b), t), next);
        SealStep(I, c, NewBlockNoHandler(b), t, st);
        Leads1Leads(I, c, Here(b, st), At(if hit then base else next, 0, st));
        if !hit {
          SimDispatch(I, c, b1, cs[1..], base + 1, reraise, st, Q + {next});
          LeadsTrans(I, c, Here(b, st), Here(b1, st),
              At(if FirstCatch(I, cs, st) < |cs| then base + FirstCatch(I, cs, st) else reraise, 0, st));
        }
      } else {
        SealStep(I, c, b, BranchOn(test, base, reraise), st);
        Leads1Leads(I, c, Here(b, st), At(if hit then base else reraise, 0, st));
      }
    }
  }

  lemma {:induction false} DispatchStage(b: Builder, cs: seq<Clause>, base: BlockId, reraise: BlockId, c: seq<Block>,
          Q: set<BlockId>)
    requires Inv(b, Q) && b.current.Some? && |cs| > 1 && cs[0].exception.Some?
    requires forall i :: 0 <= i < |cs| - 1 ==> cs[i].exception.Some?
    requires 0 < base && base + |cs| <= |b.blocks| && forall i :: base <= i < base + |cs| ==> i in Q
    requires reraise in Q && 0 < reraise < |b.blocks|
    requires Completes(LowerDispatch(b, cs, base, reraise), c)
    ensures var next := |b.blocks|;
      var b0 := Seal(NewBlockNoHandler(b), BranchOn(LocalExpr(cs[0].exception.value), base, next));
      var b1 := Start(b0, next);
      && Completes(b0, c) && b1 == b0.(current := Some(next)) && Inv(b1, Q + {next}) && |b1.blocks| == next + 1
      && b1.blocks[next].stmts == []
      && LowerDispatch(b, cs, base, reraise) == LowerDispatch(b1, cs[1..], base + 1, reraise)
  {
    hide Inv, Seal, AnyPathReaches;
    InvFacts(b, Q);
    var next := |b.blocks|;
    var Q' := Q + {next};
    var b0 := NewBlockNoHandler(b);
    var t := BranchOn(LocalExpr(cs[0].exception.value), base, next);
    NewBlockInv(b, Q);
    InvPromise(b0, Q, Q');
    SealInv(b0, t, Q');
    StartInv(Seal(b0, t), next, Q');
    var b1 := Start(Seal(b0, t), next);
    DispatchInv(b1, cs[1..], base + 1, reraise, Q');
    CompletesBack(b1, LowerDispatch(b1, cs[1..], base + 1, reraise), next, c);
  }

  /** The body of clause m, from its own block. */
  lemma {:induction false} SimClause<S>(I: Interp<S>, c: seq<Block>, b: Builder, cs: seq<Clause>, base: BlockId,
          next: BlockId,
                                        m: nat, st: State<S>, fuel: nat, Q: set<BlockId>)
    requires Inv(b, Q) && b.current.None? && LegalClauses(cs, b.exits != [])
    requires PlainClauses(cs, I.exceptions.Keys, b.handlers != [])
    requires Blanks(b, base, |cs|, None) && next in Q && 0 < next < base && m < |cs|
    requires Completes(LowerClauses(b, cs, base, next), c)
    ensures var o := ExecStmts(I, cs[m].body, st, fuel);
      && Goes(I, c, At(base + m, 0, st), o, Onward(b, next), fuel + 1)
      && (o.Normal? ==> AnyPathReaches(LowerClauses(b, cs, base, next), next))
    decreases fuel, cs, 0
  {
    hide Inv, Leads, Leads1, Lives, LowerBody, LowerClauses, AnyPathReaches, LegalStmts, PlainStmts, ExecStmts, Start,
      Completes, Quiet, Goes, CondGoes;
    InvFacts(b, Q);
    BodyInv(b, base, [], cs[0].body, next, Q);
    var b1 := LowerBody(Start(b, base), cs[0].body, next);
    assert LowerClauses(b, cs, base, next)
      == LowerClauses(b1, cs[1..], base + 1, next) by { UnfoldClauses(b, cs, base, next); }
    var b2 := LowerClauses(b1, cs[1..], base + 1, next);
    assert Blanks(b1, base + 1, |cs[1..]|, None);
    if m > 0 {
      SimClause(I, c, b1, cs[1..], base + 1, next, m - 1, st, fuel, Q);
    } else {
      ClausesInv(b1, cs[1..], base + 1, next, Q);
      RangeBack(b1, b2, base + 1, |cs[1..]|, None, c);
      SimBody(I, c, b, base, [], cs[0].body, next, st, fuel, Q);
      if ExecStmts(I, cs[0].body, st, fuel).Normal? {
        RangeReaches(b1, b2, base + 1, |cs[1..]|, None, next);
      }
    }
  }

  /** The unmatched path. */
  lemma {:induction false} SimReraise<S>(I: Interp<S>, c: seq<Block>, b: Builder, fin: OptBody, st: State<S>,
          Q: set<BlockId>)
    requires Ready(b, Q) && b.blocks[b.current.value].stmts == [] && StraightLine(OptStmts(fin))
    requires Completes(Reraise(b, fin), c)
    ensures var o := ReraiseOf(I, fin, st); o.Raised? && Leads(I, c, Here(b, st), ThrowTo(Last(b.handlers), o.x, o.st))
  {
    hide Inv, Leads, PushAll, Completes, Reraise;
    var k, ss := b.current.value, OptStmts(fin);
    ReraiseStage(b, fin, c, Q);
    assert c[k].stmts[0..|ss|] == ss;
    SimPrims(I, c, k, 0, ss, st);
    match ExecPrims(I, ss, st)
    case Normal(st1) =>
      LeadsStep(I, c, At(k, |ss|, st1));
      LeadsTrans(I, c, Here(b, st), At(k, |ss|, st1), ThrowTo(Last(b.handlers), st1.pending, st1));
    case _ =>
  }

  lemma {:induction false} ReraiseStage(b: Builder, fin: OptBody, c: seq<Block>, Q: set<BlockId>)
    requires Poised(b, Q) && b.blocks[b.current.value].stmts == [] && Completes(Reraise(b, fin), c)
    ensures b.current.value < |c|
    ensures c[b.current.value] == Block(OptStmts(fin), Some(RaiseT(None)), b.blocks[b.current.value].handler)
  {
    hide Inv, PushAll;
    InvFacts(b, Q);
    PushAllInv(b, OptStmts(fin), Q);
    InvFacts(PushAll(b, OptStmts(fin)), Q);
    assert c[b.current.value] == Reraise(b, fin).blocks[b.current.value];
  }

  lemma {:induction false} SimHandlers<S>(I: Interp<S>, c: seq<Block>, b: Builder, cs: seq<Clause>, fin: OptBody,
          next: BlockId, st: State<S>, fuel: nat, Q: set<BlockId>)
    requires Poised(b, Q) && b.blocks[b.current.value].stmts == [] && b.blocks[b.current.value].handler.None?
    requires LegalClauses(cs, b.exits != []) && PlainClauses(cs, I.exceptions.Keys, b.handlers != [])
    requires Declared(cs, I.exceptions.Keys) && (b.handlers == [] || CatchesAll(cs)) && StraightLine(OptStmts(fin))
    requires forall i :: 0 <= i < |cs| - 1 ==> cs[i].exception.Some?
    requires next in Q && 0 < next < |b.blocks|
    requires Completes(LowerHandlers(b, cs, fin, next), c)
    ensures var o := ExecHandlers(I, cs, fin, st, fuel);
      && Goes(I, c, Here(b, st), o, Onward(b, next), fuel + 1)
      && (o.Normal? ==> AnyPathReaches(LowerHandlers(b, cs, fin, next), next))
    decreases fuel, cs, 1
  {
    hide Inv, Leads, Lives, LowerClauses, OpenHandlers, LegalClauses, PlainClauses, Reraise, AnyPathReaches, ExecStmts,
      FirstCatch;
    InvFacts(b, Q);
    if cs == [] {
      SimReraise(I, c, b, fin, st, Q);
    } else {
      var reraise, base := |b.blocks|, |b.blocks| + 1;
      var Q2 := Q + Span(reraise, 1 + |cs|);
      var b2, b3, b4, b5 := HandlerStages(b, cs, fin, next, c, Q);
      OpenedDispatch(I, c, b, cs, st, Q);
      var m, o := FirstCatch(I, cs, st), ExecHandlers(I, cs, fin, st, fuel);
      if m < |cs| {
        SimClause(I, c, b2, cs, base, next, m, st, fuel, Q2);
        GoesAfter(I, c, Here(b, st), At(base + m, 0, st), o, Onward(b, next), fuel + 1);
        if o.Normal? {
          ReachesSame(b3, b4, next);
          ReachesKept(b4, b5, reraise, next);
        }
      } else {
        SimReraise(I, c, b4, fin, st, Q2);
        GoesAfter(I, c, Here(b, st), At(reraise, 0, st), o, Onward(b, next), fuel + 1);
      }
    }
  }

  lemma {:induction false} HandlerStages(b: Builder, cs: seq<Clause>, fin: OptBody, next: BlockId, c: seq<Block>,
          Q: set<BlockId>)
    returns (b2: Builder, b3: Builder, b4: Builder, b5: Builder)
    requires Poised(b, Q) && cs != [] && LegalClauses(cs, b.exits != [])
    requires forall i :: 0 <= i < |cs| - 1 ==> cs[i].exception.Some?
    requires next in Q && 0 < next < |b.blocks|
    requires Completes(LowerHandlers(b, cs, fin, next), c)
    ensures var reraise, Q2 := |b.blocks|, Q + Span(|b.blocks|, 1 + |cs|);
      && Inv(b2, Q2) && b2.current.None? && SameStacks(b, b2) && Blanks(b2, reraise + 1, |cs|, None) && Completes(b2, c)
      && Completes(b3, c)
      && Poised(b4, Q2) && b4 == b3.(current := Some(reraise)) && SameStacks(b, b4)
      && b4.blocks[reraise].stmts == [] && b4.blocks[reraise].handler.None?
      && Open(b4.blocks[reraise]) && Frame(b4, b5, reraise) && Completes(b5, c)
    ensures b2 == OpenHandlers(b, cs) && b3 == LowerClauses(b2, cs, |b.blocks| + 1, next)
    ensures b5 == Reraise(b4, fin) && b5 == LowerHandlers(b, cs, fin, next)
  {
    hide Inv, LowerClauses, OpenHandlers, LegalClauses, Reraise, AnyPathReaches;
    var reraise, base := |b.blocks|, |b.blocks| + 1;
    var Q2 := Q + Span(reraise, 1 + |cs|);
    OpenHandlersInv(b, cs, Q);
    b2 := OpenHandlers(b, cs);
    ClausesInv(b2, cs, base, next, Q2);
    b3 := LowerClauses(b2, cs, base, next);
    StartInv(b3, reraise, Q2);
    b4 := Start(b3, reraise);
    ReraiseInv(b4, fin, Q2);
    b5 := Reraise(b4, fin);
    CompletesBack(b4, b5, reraise, c);
    RangeBack(b2, b3, base, |cs|, None, c);
  }

  lemma {:induction false} ReachesSame(b: Builder, b': Builder, x: BlockId)
    requires b'.blocks == b.blocks && AnyPathReaches(b, x)
    ensures AnyPathReaches(b', x)
  {
  }

  lemma {:induction false} OpenedDispatch<S>(I: Interp<S>, c: seq<Block>, b: Builder, cs: seq<Clause>, st: State<S>,
          Q: set<BlockId>)
    requires Inv(b, Q) && b.current.Some? && b.current.value < |b.blocks| && cs != []
    requires forall i :: 0 <= i < |cs| - 1 ==> cs[i].exception.Some?
    requires Declared(cs, I.exceptions.Keys)
    requires Completes(OpenHandlers(b, cs), c)
    ensures var m := FirstCatch(I, cs, st);
      Leads(I, c, Here(b, st), At(if m < |cs| then |b.blocks| + 1 + m else |b.blocks|, 0, st))
  {
    hide Inv, LowerDispatch, NewBlocksNoHandler, AnyPathReaches, Leads, Declared;
    InvFacts(b, Q);
    var reraise, n := |b.blocks|, 1 + |cs|;
    NewBlocksNoHandlerInv(b, n, Q);
    InvPromise(NewBlocksNoHandler(b, n), Q, Q + Span(reraise, n));
    SimDispatch(I, c, NewBlocksNoHandler(b, n), cs, reraise + 1, reraise, st, Q + Span(reraise, n));
  }

  /** FINALLY on the normal path: it runs once and control goes on to the merge block. */
  lemma {:induction false} SimFinally<S>(I: Interp<S>, c: seq<Block>, b: Builder, s: Stmt, next: BlockId,
          merge: BlockId, st: State<S>, Q: set<BlockId>)
    requires s.Try? && Inv(b, Q) && b.current.None? && merge in Q && 0 < merge < |b.blocks|
    requires StraightLine(OptStmts(s.finallyBody))
    requires if s.finallyBody.Body? then next < |b.blocks| && b.blocks[next] == Block([], None, Last(b.handlers))
             else next == merge
    requires Completes(CloseTry(b, s, next, merge), c)
    ensures var o := FinallyOf(I, s.finallyBody, st);
      !o.OutOfFuel? && forall n: nat :: Goes(I, c, At(next, 0, st), o, Onward(b, merge), n)
    ensures s.finallyBody.Body? ==> AnyPathReaches(CloseTry(b, s, next, merge), merge)
  {
    hide Inv, Leads, PushAll, AnyPathReaches;
    InvFacts(b, Q);
    var ss := OptStmts(s.finallyBody);
    FinallyRuns(I, s.finallyBody, st);
    if s.finallyBody.NoBody? {
      LeadsRefl(I, c, At(next, 0, st));
    } else {
      StartInv(b, next, Q);
      PushAllInv(Start(b, next), ss, Q);
      var b1 := PushAll(Start(b, next), ss);
      InvFacts(b1, Q);
      GotoReaches(b1, merge);
      assert c[next] == Seal(b1, Goto(merge)).blocks[next];
      assert c[next].stmts == ss && c[next].stmts[0..|ss|] == ss;
      SimPrims(I, c, next, 0, ss, st);
      match ExecPrims(I, ss, st)
      case Normal(st1) =>
        JumpStep(I, c, next, |ss|, merge, st1);
        Leads1Leads(I, c, At(next, |ss|, st1), At(merge, 0, st1));
        LeadsTrans(I, c, At(next, 0, st), At(next, |ss|, st1), At(merge, 0, st1));
      case _ =>
    }
  }

  /** The body, under its own handler; falling through continues at `next`. */
  lemma {:induction false} SimTryBody<S>(I: Interp<S>, c: seq<Block>, b: Builder, ss: seq<Stmt>, next: BlockId,
          st: State<S>, fuel: nat, Q: set<BlockId>)
    requires Ready(b, Q) && b.handlers != [] && LegalStmts(ss, b.exits != []) && PlainStmts(ss, I.exceptions.Keys, true)
    requires next in Q && 0 < next < |b.blocks|
    requires Completes(SealIfOpen(LeaveTry(LowerStmts(b, ss)), Goto(next)), c)
    ensures var o := ExecStmts(I, ss, st, fuel);
      && Goes(I, c, Here(b, st), o, Onward(b, next), fuel + 1)
      && (o.Normal? ==> AnyPathReaches(SealIfOpen(LeaveTry(LowerStmts(b, ss)), Goto(next)), next))
    decreases fuel, ss, 1
  {
    hide Inv, Leads, Leads1, Lives, LowerStmts, AnyPathReaches, LegalStmts, PlainStmts;
    StmtsInv(b, ss, Q);
    var b1 := LowerStmts(b, ss);
    InvFacts(b1, Q);
    var b2 := LeaveTry(b1);
    StacksInv(b1, b2, Q);
    SealGotoInv(b2, next, Q);
    if b2.current.Some? { CompletesBack(b2, Seal(b2, Goto(next)), b2.current.value, c); }
    SimStmts(I, c, b, ss, st, fuel, Q);
    match ExecStmts(I, ss, st, fuel)
    case Normal(st1) =>
      SealStep(I, c, b2, Goto(next), st1);
      Leads1Leads(I, c, Here(b2, st1), At(next, 0, st1));
      LeadsTrans(I, c, Here(b, st), Here(b1, st1), At(next, 0, st1));
      GotoReaches(b2, next);
    case _ =>
  }

  /** The builder's states through a TRY. */
  lemma {:induction false} TryShape(b: Builder, s: Stmt, P: set<BlockId>)
    returns (b3: Builder, b4: Builder, b5: Builder, b6: Builder, Q: set<BlockId>)
    requires s.Try? && Poised(b, P) && LegalStmt(s, b.exits != [])
    ensures var merge, catch, next := |b.blocks|, |b.blocks| + 1, TryNext(b, s);
      && merge in Q && next in Q && 0 < merge && 0 < next
      && Ready(b3, Q) && b3.exits == b.exits && b3.handlers == b.handlers + [catch] && next < |b3.blocks|
      && b3.blocks[b3.current.value].stmts == [] && b3.current.value >= |b.blocks| && Open(b3.blocks[b3.current.value])
      && Frame(b3, b4.(current := None), b3.current.value) && b.current.value < |b3.blocks|
      && b3.blocks[b.current.value] == b.blocks[b.current.value].(term := Some(Goto(b3.current.value)))
      && Poised(b4, Q) && b4.current == Some(catch) && SameStacks(b, b4) && b4.blocks[catch] == Block([], None, None)
      && Inv(b5, Q) && b5.current.None? && SameStacks(b, b5) && merge < |b5.blocks| && Frame(b4, b5, catch)
      && (s.finallyBody.Body? ==>
            next < |b5.blocks| && b5.blocks[next] == Block([], None, Last(b.handlers)) && Frame(b5, b6, next))
      && (s.finallyBody.NoBody? ==> next == merge && b6 == b5)
      && b6.current.None? && merge < |b6.blocks| && b6.blocks[merge] == Block([], None, Last(b.handlers))
    ensures b3 == OpenTry(b, s)
    ensures b4 == SealIfOpen(LeaveTry(LowerStmts(b3, s.body)), Goto(TryNext(b, s))).(current := Some(|b.blocks| + 1))
    ensures b5 == LowerHandlers(b4, s.clauses, s.finallyBody, TryNext(b, s))
    ensures b6 == CloseTry(b5, s, TryNext(b, s), |b.blocks|)
    ensures LowerTry(b, s) == StartIfReached(b6, |b.blocks|) && StartIfReached(b6, |b.blocks|).blocks == b6.blocks
  {
    hide Inv, LowerStmts, LowerHandlers, OpenTry, CloseTry, SealIfOpen, LeaveTry, Start, LegalStmts, LegalClauses,
      AnyPathReaches,
      Successors, EdgesOk;
    InvFacts(b, P);
    var merge, catch, next := |b.blocks|, |b.blocks| + 1, TryNext(b, s);
    OpenTryInv(b, s, P);
    b3 := OpenTry(b, s);
    var tryBody := b3.current.value;
    Q := P + {merge, next, tryBody};
    InvPromise(b3, P + {tryBody}, Q);
    TryBodyInv(b3, s.body, next, Q);
    var b4' := SealIfOpen(LeaveTry(LowerStmts(b3, s.body)), Goto(next));
    StartInv(b4', catch, Q);
    b4 := Start(b4', catch);
    HandlersInv(b4, s.clauses, s.finallyBody, next, Q);
    b5 := LowerHandlers(b4, s.clauses, s.finallyBody, next);
    CloseTryInv(b5, s, next, merge, Q);
    b6 := CloseTry(b5, s, next, merge);
    StartIfReachedBlocks(b6, merge, Q);
  }

  /** The same, and what the finished graph holds of them. */
  lemma {:induction false} TryStages(b: Builder, s: Stmt, P: set<BlockId>, c: seq<Block>)
    returns (b3: Builder, b4: Builder, b5: Builder, b6: Builder, Q: set<BlockId>)
    requires s.Try? && Poised(b, P) && LegalStmt(s, b.exits != []) && Completes(LowerTry(b, s), c)
    ensures var merge, catch, next := |b.blocks|, |b.blocks| + 1, TryNext(b, s);
      && merge in Q && next in Q && 0 < merge && 0 < next
      && Ready(b3, Q) && b3.exits == b.exits && b3.handlers == b.handlers + [catch] && next < |b3.blocks|
      && b3.blocks[b3.current.value].stmts == [] && b3.current.value >= |b.blocks|
      && Poised(b4, Q) && b4.current == Some(catch) && SameStacks(b, b4)
      && b4.blocks[catch] == Block([], None, None) && next < |b4.blocks|
      && Completes(b4, c)
      && Completes(b5, c) && Inv(b5, Q) && b5.current.None? && SameStacks(b, b5) && merge < |b5.blocks|
      && Frame(b4, b5, catch)
      && (s.finallyBody.Body? ==> next < |b5.blocks| && b5.blocks[next] == Block([], None, Last(b.handlers)))
      && (s.finallyBody.NoBody? ==> next == merge && b6 == b5)
      && Completes(b6, c) && b6.current.None? && merge < |b6.blocks|
      && b6.blocks[merge] == Block([], None, Last(b.handlers))
      && b.current.value < |c|
      && c[b.current.value] == b.blocks[b.current.value].(term := Some(Goto(b3.current.value)))
    ensures b3 == OpenTry(b, s)
    ensures b4 == SealIfOpen(LeaveTry(LowerStmts(b3, s.body)), Goto(TryNext(b, s))).(current := Some(|b.blocks| + 1))
    ensures b5 == LowerHandlers(b4, s.clauses, s.finallyBody, TryNext(b, s))
    ensures b6 == CloseTry(b5, s, TryNext(b, s), |b.blocks|)
    ensures LowerTry(b, s) == StartIfReached(b6, |b.blocks|)
  {
    hide Inv, LowerStmts, LowerHandlers, OpenTry, CloseTry, SealIfOpen, LeaveTry, LegalStmt, AnyPathReaches, LowerTry,
      StartIfReached,
      TryNext, Successors, EdgesOk;
    b3, b4, b5, b6, Q := TryShape(b, s, P);
    assert Completes(b6, c);
    if s.finallyBody.Body? { CompletesBack(b5, b6, TryNext(b, s), c); }
    CompletesBack(b4, b5, |b.blocks| + 1, c);
    CompletesBack(b3, b4.(current := None), b3.current.value, c);
  }

  lemma {:induction false} SimTry<S>(I: Interp<S>, c: seq<Block>, b: Builder, s: Stmt, st: State<S>, fuel: nat,
          P: set<BlockId>)
    requires s.Try? && Poised(b, P) && LegalStmt(s, b.exits != []) && PlainStmt(s, I.exceptions.Keys, b.handlers != [])
    requires Completes(LowerTry(b, s), c)
    ensures Goes(I, c, Here(b, st), ExecStmt(I, s, st, fuel), RouteOf(b, LowerTry(b, s)), fuel + 1)
    decreases fuel, s, 0
  {
    hide Inv, Leads, Leads1, Lives, LowerStmts, LowerHandlers, OpenTry, CloseTry, SealIfOpen, LeaveTry, Start,
      AnyPathReaches,
      LegalStmts, LegalClauses, PlainStmts, PlainClauses, ExecStmts, FinallyOf, LowerTry, StartIfReached, TryNext,
      FirstCatch, ReraiseOf;
    var b3, b4, b5, b6, Q := TryStages(b, s, P, c);
    var merge, catch, next, tryBody := |b.blocks|, |b.blocks| + 1, TryNext(b, s), b3.current.value;
    var k, o, n := Here(b, st), ExecStmt(I, s, st, fuel), fuel + 1;
    JumpStep(I, c, b.current.value, |b.blocks[b.current.value].stmts|, tryBody, st);
    Leads1Leads(I, c, k, At(tryBody, 0, st));
    SimTryBody(I, c, b3, s.body, next, st, fuel, Q);
    var ob := ExecStmts(I, s.body, st, fuel);
    GoesAfter(I, c, k, At(tryBody, 0, st), ob, Onward(b3, next), n);
    match ob {
    case Normal(st1) =>
      TryContinue(I, c, b, s, b5, b6, k, st1, n, Q);
      if s.finallyBody.NoBody? {
        ReachesSame(SealIfOpen(LeaveTry(LowerStmts(b3, s.body)), Goto(next)), b4, next);
        ReachesKept(b4, b5, catch, next);
      }
    case Raised(x, st1) =>
      TryCaught(I, c, b, s, b4, b5, b6, k, st1.(pending := x), fuel, Q);
    case _ =>
    }
    SimMerge(I, c, b, b6, merge, k, o, n);
  }

  /** From the dispatch block, with the exception recorded. */
  lemma {:induction false} TryCaught<S>(I: Interp<S>, c: seq<Block>, b: Builder, s: Stmt, b4: Builder, b5: Builder,
          b6: Builder, k: Config<S>, st: State<S>, fuel: nat, Q: set<BlockId>)
    requires s.Try? && StraightLine(OptStmts(s.finallyBody)) && |b.blocks| in Q && 0 < |b.blocks| < |b5.blocks|
    requires LegalStmt(s, b.exits != []) && PlainClauses(s.clauses, I.exceptions.Keys, b.handlers != [])
    requires Declared(s.clauses, I.exceptions.Keys) && (b.handlers == [] || CatchesAll(s.clauses))
    requires Poised(b4, Q) && b4.current == Some(|b.blocks| + 1) && SameStacks(b, b4)
    requires b4.blocks[|b.blocks| + 1] == Block([], None, None)
    requires TryNext(b, s) in Q && 0 < TryNext(b, s) < |b4.blocks|
    requires b5 == LowerHandlers(b4, s.clauses, s.finallyBody, TryNext(b, s)) && Completes(b5, c)
    requires Inv(b5, Q) && b5.current.None? && SameStacks(b, b5)
    requires s.finallyBody.Body? ==>
      TryNext(b, s) < |b5.blocks| && b5.blocks[TryNext(b, s)] == Block([], None, Last(b.handlers))
    requires b6 == CloseTry(b5, s, TryNext(b, s), |b.blocks|) && Completes(b6, c)
    requires Leads(I, c, k, At(|b.blocks| + 1, 0, st))
    ensures var o := match ExecHandlers(I, s.clauses, s.finallyBody, st, fuel)
                     case Normal(st1) => FinallyOf(I, s.finallyBody, st1)
                     case o => o;
      Goes(I, c, k, o, Onward(b, |b.blocks|), fuel + 1) && (o.Normal? ==> AnyPathReaches(b6, |b.blocks|))
    decreases fuel, s.clauses, 2
  {
    hide Inv, Leads, Lives, LowerHandlers, CloseTry, AnyPathReaches, LegalStmts, LegalClauses, PlainClauses, FinallyOf,
      ExecHandlers, Declared, CatchesAll;
    var merge, catch, next := |b.blocks|, |b.blocks| + 1, TryNext(b, s);
    SimHandlers(I, c, b4, s.clauses, s.finallyBody, next, st, fuel, Q);
    var oh := ExecHandlers(I, s.clauses, s.finallyBody, st, fuel);
    GoesAfter(I, c, k, At(catch, 0, st), oh, Onward(b, next), fuel + 1);
    if oh.Normal? {
      TryContinue(I, c, b, s, b5, b6, k, oh.st, fuel + 1, Q);
      if s.finallyBody.NoBody? { ClosedSame(b5, s, next, merge); }
    }
  }

  lemma {:induction false} ClosedSame(b: Builder, s: Stmt, next: BlockId, merge: BlockId)
    requires s.Try? && s.finallyBody.NoBody?
    ensures CloseTry(b, s, next, merge) == b
  {
  }

  /** From `next`, where the body or a handler fell through. */
  lemma {:induction false} TryContinue<S>(I: Interp<S>, c: seq<Block>, b: Builder, s: Stmt, b5: Builder, b6: Builder,
          k: Config<S>, st: State<S>, n: nat, Q: set<BlockId>)
    requires s.Try? && StraightLine(OptStmts(s.finallyBody)) && Leads(I, c, k, At(TryNext(b, s), 0, st))
    requires Inv(b5, Q) && b5.current.None? && SameStacks(b, b5) && |b.blocks| in Q && 0 < |b.blocks| < |b5.blocks|
    requires s.finallyBody.Body? ==>
      TryNext(b, s) < |b5.blocks| && b5.blocks[TryNext(b, s)] == Block([], None, Last(b.handlers))
    requires b6 == CloseTry(b5, s, TryNext(b, s), |b.blocks|) && Completes(b6, c)
    ensures Goes(I, c, k, FinallyOf(I, s.finallyBody, st), Onward(b, |b.blocks|), n)
    ensures s.finallyBody.Body? ==> AnyPathReaches(b6, |b.blocks|)
  {
    hide Inv, Leads, Lives, CloseTry, AnyPathReaches, FinallyOf;
    var merge, next := |b.blocks|, TryNext(b, s);
    SimFinally(I, c, b5, s, next, merge, st, Q);
    GoesAfter(I, c, k, At(next, 0, st), FinallyOf(I, s.finallyBody, st), Onward(b5, merge), n);
  }
}
