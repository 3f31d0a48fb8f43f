/**
 When `Cfg::verify` accepts the switches that the builder makes (T3 and T5,
 src/cfg/mod.rs:186-197).  Nothing before it asks a CASE for a branch: the
 parser (src/parser.rs:1311-1321) and the builder both take one without.
 */
module Arms {
  import opened Wrappers
  import opened Hir
  import opened Cfg
  import opened Lowering
  import opened Protocol
  import opened ProtocolStmts
  import opened Simulation
  import opened SimulationStmts
  import opened Correctness

  // ----- what the text must give -----

  /** Every CASE that the builder lowers has a branch, and each of its branches a label. */
  predicate Labelled(ss: seq<Stmt>)
    decreases ss, 0
  {
    ss == [] || (LabelledStmt(ss[0]) && (FallsStmt(ss[0]) ==> Labelled(ss[1..])))
  }

  predicate LabelledStmt(s: Stmt)
    decreases s, 1
  {
    match s
    case If(_, thenBody, tail) => Labelled(thenBody) && LabelledTail(tail)
    case While(_, body) => Labelled(body)
    case Loop(body) => Labelled(body)
    case Repeat(body, _) => Labelled(body)
    case For(_, _, _, _, _, body) => Labelled(body)
    case Case(_, brs, els) => HaveLabels(brs) && LabelledBranches(brs) && LabelledElse(els)
    case Try(body, clauses, _) => Labelled(body) && LabelledClauses(clauses)
    case _ => true
  }

  predicate HaveLabels(brs: seq<Branch>) {
    brs != [] && forall i :: 0 <= i < |brs| ==> brs[i].labels != []
  }

  predicate LabelledTail(t: ElseTail)
    decreases t
  {
    match t
    case NoElse => true
    case Else(body) => Labelled(body)
    case Elsif(_, body, rest) => Labelled(body) && LabelledTail(rest)
  }

  predicate LabelledElse(els: OptBody)
    decreases els
  {
    els.Body? ==> Labelled(els.stmts)
  }

  predicate LabelledBranches(brs: seq<Branch>)
    decreases brs
  {
    brs == [] || (Labelled(brs[0].body) && LabelledBranches(brs[1..]))
  }

  predicate LabelledClauses(cs: seq<Clause>)
    decreases cs
  {
    cs == [] || (Labelled(cs[0].body) && LabelledClauses(cs[1..]))
  }

  // ----- edges and switches, from one state of the builder to a later one -----

  /**
   From b to b' the old blocks that are not loop exits gain exactly the edges
   to X, and every switch added has its arms and labels exactly if `ok`.
   */
  ghost predicate Traced(b: Builder, b': Builder, X: set<BlockId>, ok: bool) {
    && |b.blocks| <= |b'.blocks|
    && (ArmsFilled(b'.blocks) <==> ArmsFilled(b.blocks) && ok)
    && forall x: BlockId :: x < |b.blocks| && x !in b.exits ==>
         (AnyPathReaches(b', x) <==> AnyPathReaches(b, x) || x in X)
  }

  lemma {:induction false} TracedTrans(b: Builder, b1: Builder, b2: Builder, X: set<BlockId>, Y: set<BlockId>,
          p: bool, q: bool, Z: set<BlockId>)
    requires Traced(b, b1, X, p) && Traced(b1, b2, Y, q)
    requires forall x :: x in b1.exits ==> x in b.exits || x >= |b.blocks|
    requires forall x :: x in Z <==> x < |b.blocks| && (x in X || x in Y)
    ensures Traced(b, b2, Z, p && q)
  {
    hide AnyPathReaches, ArmsFilled;
  }

  /** No terminator is touched and the new blocks are open. */
  predicate KeepsTerms(b: Builder, b': Builder) {
    && |b.blocks| <= |b'.blocks|
    && (forall i :: 0 <= i < |b.blocks| ==> b'.blocks[i].term == b.blocks[i].term)
    && (forall i :: |b.blocks| <= i < |b'.blocks| ==> Open(b'.blocks[i]))
  }

  lemma {:induction false} KeepsTraced(b: Builder, b': Builder)
    requires KeepsTerms(b, b')
    ensures Traced(b, b', {}, true)
  {
    forall x: BlockId ensures AnyPathReaches(b', x) <==> AnyPathReaches(b, x) {
      if AnyPathReaches(b, x) {
        var j :| 0 <= j < |b.blocks| && b.blocks[j].term.Some? && x in Successors(b.blocks[j].term.value);
        assert b'.blocks[j].term == b.blocks[j].term;
      }
      if AnyPathReaches(b', x) {
        var j :| 0 <= j < |b'.blocks| && b'.blocks[j].term.Some? && x in Successors(b'.blocks[j].term.value);
        assert b'.blocks[j].term == b.blocks[j].term;
      }
    }
    forall i | 0 <= i < |b.blocks| && b.blocks[i].term.Some? && ArmsFilled(b'.blocks)
      ensures ArmsOk(b.blocks[i].term.value) {
      assert b'.blocks[i].term == b.blocks[i].term;
    }
  }

  lemma {:induction false} SealTraced(b: Builder, t: Terminator)
    requires b.current.Some? && b.current.value < |b.blocks| && Open(b.blocks[b.current.value])
    ensures Traced(b, Seal(b, t), (set x | x in Successors(t)), ArmsOk(t))
  {
    hide Successors, ArmsOk;
    var b', k := Seal(b, t), b.current.value;
    forall x: BlockId ensures AnyPathReaches(b', x) <==> AnyPathReaches(b, x) || x in Successors(t) {
      if AnyPathReaches(b, x) {
        var j :| 0 <= j < |b.blocks| && b.blocks[j].term.Some? && x in Successors(b.blocks[j].term.value);
        assert b'.blocks[j] == b.blocks[j];
      }
      if x in Successors(t) { assert b'.blocks[k].term == Some(t); }
    }
    forall i | 0 <= i < |b.blocks| && b.blocks[i].term.Some? && ArmsFilled(b'.blocks)
      ensures ArmsOk(b.blocks[i].term.value) {
      assert b'.blocks[i] == b.blocks[i];
    }
    assert b'.blocks[k].term == Some(t);
  }

  lemma {:induction false} GotoTraced(b: Builder, x: BlockId)
    requires b.current.Some? ==> b.current.value < |b.blocks| && Open(b.blocks[b.current.value])
    ensures Traced(b, SealIfOpen(b, Goto(x)), if b.current.Some? then {x} else {}, true)
  {
    hide AnyPathReaches, ArmsFilled;
    if b.current.Some? {
      SealTraced(b, Goto(x));
      assert (set y | y in Successors(Goto(x))) == {x};
    } else {
      KeepsTraced(b, b);
    }
  }

  /** No edge points past the blocks that exist. */
  lemma {:induction false} NoneBeyond(b: Builder, P: set<BlockId>, x: BlockId)
    requires Inv(b, P) && x >= |b.blocks|
    ensures !AnyPathReaches(b, x)
  {
    forall j | 0 <= j < |b.blocks| && b.blocks[j].term.Some? ensures x !in Successors(b.blocks[j].term.value) {
      assert BlockOk(b, j, P);
    }
  }

  lemma {:induction false} PushKeeps(b: Builder, ss: seq<Stmt>)
    ensures KeepsTerms(b, PushAll(b, ss)) && |PushAll(b, ss).blocks| == |b.blocks|
    ensures PushAll(b, ss).exits == b.exits
    decreases ss
  {
    if ss != [] { PushKeeps(Push(b, ss[0]), ss[1..]); }
  }

  // ----- conditions -----

  lemma {:induction false} CondTraced(b: Builder, e: Expr, t: BlockId, f: BlockId, P: set<BlockId>)
    requires Inv(b, P) && b.current.Some? && Landed(b, t, P) && Landed(b, f, P)
    ensures Traced(b, LowerCond(b, e, t, f), {t, f}, true)
    decreases e
  {
    hide Inv, Landed, Traced;
    InvFacts(b, P);
    if e.BinaryOp? && e.op.And? {
      AndOrTraced(b, e, |b.blocks|, f, t, f, P);
    } else if e.BinaryOp? && e.op.Or? {
      AndOrTraced(b, e, t, |b.blocks|, t, f, P);
    } else if e.Not? {
      CondTraced(b, e.operand, f, t, P);
      assert {f, t} == {t, f};
    } else {
      BranchTraced(b, e, t, f);
    }
  }

  lemma {:induction false} BranchTraced(b: Builder, e: Expr, t: BlockId, f: BlockId)
    requires b.current.Some? && b.current.value < |b.blocks| && Open(b.blocks[b.current.value])
    ensures Traced(b, Seal(b, BranchOn(e, t, f)), {t, f}, true)
  {
    hide AnyPathReaches, ArmsFilled;
    SealTraced(b, BranchOn(e, t, f));
    assert Successors(BranchOn(e, t, f)) == [t, f];
  }

  lemma {:induction false} AndOrTraced(b: Builder, e: Expr, t1: BlockId, f1: BlockId, t: BlockId, f: BlockId,
          P: set<BlockId>)
    requires e.BinaryOp?
    requires Inv(b, P) && b.current.Some? && Landed(b, t, P) && Landed(b, f, P)
    requires (t1 == |b.blocks| && f1 == f) || (t1 == t && f1 == |b.blocks|)
    ensures var b3 := Start(LowerCond(NewBlock(b), e.left, t1, f1), |b.blocks|);
      Traced(b, LowerCond(b3, e.right, t, f), {t, f}, true)
    decreases e, 0
  {
    hide Inv, Traced, LowerCond;
    AndOrInv(b, e, t1, f1, t, f, P);
    var rhs, Q, b1 := |b.blocks|, P + {|b.blocks|}, NewBlock(b);
    var b2 := LowerCond(b1, e.left, t1, f1);
    var b3 := Start(b2, rhs);
    var b4 := LowerCond(b3, e.right, t, f);
    LandedIn(b, t, P);
    LandedIn(b, f, P);
    KeepsTraced(b, b1);
    CondTraced(b1, e.left, t1, f1, Q);
    KeepsTraced(b2, b3);
    CondTraced(b3, e.right, t, f, Q);
    TracedTrans(b, b1, b2, {}, {t1, f1}, true, true, {t1, f1} - {rhs});
    TracedTrans(b, b2, b3, {t1, f1} - {rhs}, {}, true, true, {t1, f1} - {rhs});
    TracedTrans(b, b3, b4, {t1, f1} - {rhs}, {t, f}, true, true, {t, f});
  }

  lemma {:induction false} LandedIn(b: Builder, x: BlockId, P: set<BlockId>)
    requires Landed(b, x, P)
    ensures 0 < x < |b.blocks|
  {
  }

  // ----- statements -----

  lemma {:induction false} StmtsTraced(b: Builder, ss: seq<Stmt>, P: set<BlockId>)
    requires Inv(b, P) && b.current.Some? && LegalStmts(ss, b.exits != [])
    ensures Traced(b, LowerStmts(b, ss), {}, Labelled(ss))
    ensures LowerStmts(b, ss).current.Some? <==> Falls(ss)
    decreases ss, 0
  {
    hide Inv, Traced, LowerStmt, FallsStmt, LabelledStmt;
    if ss == [] {
      KeepsTraced(b, b);
    } else {
      var b1 := LowerStmt(b, ss[0]);
      var b2 := LowerStmts(b1, ss[1..]);
      RestInv(b, ss, P);
      StmtTraced(b, ss[0], P);
      if b1.current.Some? {
        StmtsTraced(b1, ss[1..], P);
        TracedTrans(b, b1, b2, {}, {}, LabelledStmt(ss[0]), Labelled(ss[1..]), {});
      }
    }
  }

  lemma {:induction false} StmtTraced(b: Builder, s: Stmt, P: set<BlockId>)
    requires Inv(b, P) && b.current.Some? && LegalStmt(s, b.exits != [])
    ensures Traced(b, LowerStmt(b, s), {}, LabelledStmt(s))
    ensures LowerStmt(b, s).current.Some? <==> FallsStmt(s)
    decreases s, 1
  {
    hide Inv, Traced, LowerIf, LowerWhile, LowerLoop, LowerRepeat, LowerFor, LowerCase, LowerTry, LegalStmts,
      LegalTail, LegalBranches, LegalClauses;
    InvFacts(b, P);
    match s
    case Empty => KeepsTraced(b, b);
    case Assign(_, _) => KeepsTraced(b, Push(b, s));
    case ProcCall(_, _) => KeepsTraced(b, Push(b, s));
    case If(_, _, _) => IfTraced(b, s, P);
    case While(_, _) => WhileTraced(b, s, P);
    case Loop(_) => LoopTraced(b, s, P);
    case Exit => LeaveTraced(b, Goto(b.exits[|b.exits| - 1]));
    case Repeat(_, _) => RepeatTraced(b, s, P);
    case For(_, _, _, _, _, _) => ForTraced(b, s, P);
    case Case(_, _, _) => CaseTraced(b, s, P);
    case Try(_, _, _) => TryTraced(b, s, P);
    case Raise(e) => LeaveTraced(b, RaiseT(e));
    case Return(e) => LeaveTraced(b, ReturnT(e));
  }

  /** A statement that only closes the block, for a loop exit if anywhere. */
  lemma {:induction false} LeaveTraced(b: Builder, t: Terminator)
    requires b.current.Some? && b.current.value < |b.blocks| && Open(b.blocks[b.current.value])
    requires !t.Switch? && forall x :: x in Successors(t) ==> x in b.exits
    ensures Traced(b, Seal(b, t), {}, true) && Seal(b, t).current.None?
  {
    hide AnyPathReaches, ArmsFilled;
    SealTraced(b, t);
  }

  /** Starting block `id` with `pre`, lowering a body into it and leaving for `next`. */
  lemma {:induction false} BodyTraced(b: Builder, id: BlockId, pre: seq<Stmt>, ss: seq<Stmt>, next: BlockId,
          P: set<BlockId>)
    requires Inv(b, P) && b.current.None? && id < |b.blocks| && Open(b.blocks[id])
    requires LegalStmts(ss, b.exits != []) && Landed(b, next, P)
    ensures var b' := LowerBody(PushAll(Start(b, id), pre), ss, next);
      Traced(b, b', if Falls(ss) then {next} else {}, Labelled(ss))
    decreases ss, 1
  {
    hide Inv, Traced, LowerStmts, PushAll, AnyPathReaches, LegalStmts, Falls, Labelled;
    LandedIn(b, next, P);
    StartInv(b, id, P);
    var b1 := Start(b, id);
    PushAllInv(b1, pre, P);
    PushKeeps(b1, pre);
    var b2 := PushAll(b1, pre);
    assert KeepsTerms(b, b2);
    KeepsTraced(b, b2);
    StmtsInv(b2, ss, P);
    StmtsTraced(b2, ss, P);
    var b3 := LowerStmts(b2, ss);
    InvFacts(b3, P);
    TracedTrans(b, b2, b3, {}, {}, true, Labelled(ss), {});
    GotoTraced(b3, next);
    var X := if Falls(ss) then {next} else {};
    TracedTrans(b, b3, SealIfOpen(b3, Goto(next)), {}, X, Labelled(ss), true, X);
  }

  /** A construct that ends at its merge block goes on exactly if an edge was put there. */
  lemma {:induction false} MergeTraced(b: Builder, b1: Builder, b2: Builder, merge: BlockId, X: set<BlockId>, ok: bool,
          P: set<BlockId>)
    requires Inv(b, P) && KeepsTerms(b, b1) && b1.exits == b.exits && |b.blocks| <= merge < |b1.blocks|
    requires Traced(b1, b2, X, ok) && forall x :: x in X ==> x >= |b.blocks|
    requires b2.current.None? && merge < |b2.blocks| && Open(b2.blocks[merge])
    ensures Traced(b, StartIfReached(b2, merge), {}, ok)
    ensures StartIfReached(b2, merge).current.Some? <==> merge in X
  {
    hide Inv, AnyPathReaches, ArmsFilled;
    InvFacts(b, P);
    KeepsTraced(b, b1);
    NoneBeyond(b, P, merge);
    OldOnly(b, b1, merge);
    TracedTrans(b, b1, b2, {}, X, true, ok, {});
    var b3 := StartIfReached(b2, merge);
    MovedTraced(b, b2, b3, {}, ok);
  }

  /** Where the builder stands and what is on its stacks does not matter. */
  lemma {:induction false} MovedTraced(b: Builder, b1: Builder, b2: Builder, X: set<BlockId>, ok: bool)
    requires Traced(b, b1, X, ok) && b2.blocks == b1.blocks
    ensures Traced(b, b2, X, ok)
  {
    hide ArmsFilled;
  }

  /** New blocks and then a terminator that only points at them. */
  lemma {:induction false} SealNewTraced(b: Builder, b1: Builder, t: Terminator)
    requires KeepsTerms(b, b1) && b1.exits == b.exits
    requires b1.current.Some? && b1.current.value < |b1.blocks| && Open(b1.blocks[b1.current.value])
    requires forall x :: x in Successors(t) ==> x >= |b.blocks|
    ensures Traced(b, Seal(b1, t), {}, ArmsOk(t))
  {
    hide Traced, KeepsTerms, ArmsOk;
    KeepsTraced(b, b1);
    SealTraced(b1, t);
    TracedTrans(b, b1, Seal(b1, t), {}, (set x | x in Successors(t)), true, ArmsOk(t), {});
  }

  lemma {:induction false} OldOnly(b: Builder, b1: Builder, x: BlockId)
    requires KeepsTerms(b, b1) && !AnyPathReaches(b, x)
    ensures !AnyPathReaches(b1, x)
  {
    forall j | 0 <= j < |b1.blocks| && b1.blocks[j].term.Some? ensures x !in Successors(b1.blocks[j].term.value) {
      assert b1.blocks[j].term == b.blocks[j].term;
    }
  }

  // ----- IF -----

  lemma {:induction false} ArmTraced(b: Builder, cond: Expr, rest: ElseTail, merge: BlockId, Q: set<BlockId>)
    requires Inv(b, Q) && b.current.Some? && merge in Q && 0 < merge < |b.blocks|
    ensures Traced(b, OpenArm(b, cond, rest, merge), if rest.NoElse? then {merge} else {}, true)
  {
    hide Inv, LowerCond, AnyPathReaches, Traced;
    InvFacts(b, Q);
    var b1 := if rest.NoElse? then NewBlock(b) else NewBlock(NewBlock(b));
    var et, ef := |b.blocks|, FalseBlock(b, rest, merge);
    var Q2 := Q + {et, ef};
    NewBlockInv(b, Q); NewBlockInv(NewBlock(b), Q);
    InvPromise(b1, Q, Q2);
    CondTraced(b1, cond, et, ef, Q2);
    KeepsTraced(b, b1);
    TracedTrans(b, b1, LowerCond(b1, cond, et, ef), {}, {et, ef}, true, true, if rest.NoElse? then {merge} else {});
  }

  /** One IF or ELSIF part: its test, then its body. */
  lemma {:induction false} PartTraced(b: Builder, b3: Builder, b4: Builder, cond: Expr, body: seq<Stmt>, rest: ElseTail,
          merge: BlockId, Q: set<BlockId>)
    requires Inv(b, Q) && b.current.Some? && merge in Q && 0 < merge < |b.blocks| && LegalStmts(body, b.exits != [])
    requires b3 == OpenArm(b, cond, rest, merge) && b4 == LowerBody(Start(b3, |b.blocks|), body, merge)
    ensures Traced(b, b4, if rest.NoElse? || Falls(body) then {merge} else {}, Labelled(body))
    decreases body, 2
  {
    hide Inv, LowerBody, OpenArm, AnyPathReaches, Traced, LegalStmts, Falls, Labelled, Start;
    InvFacts(b, Q);
    var et, ef := |b.blocks|, FalseBlock(b, rest, merge);
    OpenArmInv(b, cond, rest, merge, Q);
    ArmTraced(b, cond, rest, merge, Q);
    BodyTraced(b3, et, [], body, merge, Q + {et, ef});
    TracedTrans(b, b3, b4, if rest.NoElse? then {merge} else {}, if Falls(body) then {merge} else {}, true,
      Labelled(body), if rest.NoElse? || Falls(body) then {merge} else {});
  }

  lemma {:induction false} IfTraced(b: Builder, s: Stmt, P: set<BlockId>)
    requires s.If? && Inv(b, P) && b.current.Some? && LegalStmt(s, b.exits != [])
    ensures Traced(b, LowerIf(b, s), {}, LabelledStmt(s))
    ensures LowerIf(b, s).current.Some? <==> FallsStmt(s)
    decreases s, 0
  {
    hide Inv, LowerBody, LowerTail, OpenArm, AnyPathReaches, Traced, LegalStmts, Falls, Labelled, Start, LowerIf,
      StartIfReached, Completes, LabelledTail, FallsTail, KeepsTerms, LegalTail;
    InvFacts(b, P);
    CompletesSelf(LowerIf(b, s));
    var b1, b3, b4, b5 := IfStages(b, s, P, LowerIf(b, s).blocks);
    var merge := |b.blocks|;
    var ff := FalseBlock(b1, s.tail, merge);
    var Q1 := P + {merge};
    var Q := Q1 + {|b1.blocks|, ff};
    PartTraced(b1, b3, b4, s.cond, s.thenBody, s.tail, merge, Q1);
    TailTraced(b4, s.tail, ff, merge, Q);
    var X := if s.tail.NoElse? || Falls(s.thenBody) then {merge} else {};
    var Y := if !s.tail.NoElse? && FallsTail(s.tail) then {merge} else {};
    TracedTrans(b1, b4, b5, X, Y, Labelled(s.thenBody), LabelledTail(s.tail), X + Y);
    NewKeeps(b);
    MergeTraced(b, b1, b5, merge, X + Y, Labelled(s.thenBody) && LabelledTail(s.tail), P);
    UnfoldTail(s.tail);
  }

  lemma {:induction false} UnfoldTail(t: ElseTail)
    ensures t.NoElse? ==> FallsTail(t)
  {
  }

  lemma {:induction false} NewKeeps(b: Builder)
    ensures KeepsTerms(b, NewBlock(b)) && KeepsTerms(b, NewBlockNoHandler(b))
  {
  }

  lemma {:induction false} CompletesSelf(b: Builder)
    ensures Completes(b, b.blocks)
  {
  }

  lemma {:induction false} TailTraced(b: Builder, t: ElseTail, cur: BlockId, merge: BlockId, Q: set<BlockId>)
    requires Inv(b, Q) && b.current.None? && LegalTail(t, b.exits != [])
    requires merge in Q && 0 < merge < |b.blocks|
    requires !t.NoElse? ==> 0 < cur < |b.blocks| && b.blocks[cur] == Block([], None, Last(b.handlers)) && cur != merge
    ensures Traced(b, LowerTail(b, t, cur, merge), if !t.NoElse? && FallsTail(t) then {merge} else {}, LabelledTail(t))
    decreases t
  {
    hide Inv, LowerBody, OpenArm, AnyPathReaches, Traced, LegalStmts, Falls, Labelled, Completes, KeepsTerms, Start;
    InvFacts(b, Q);
    match t
    case NoElse => SameTraced(b);
    case Else(body) => BodyTraced(b, cur, [], body, merge, Q);
    case Elsif(cond, body, rest) =>
      CompletesSelf(LowerTail(b, t, cur, merge));
      var b1, b3, b4, b5 := ElsifStages(b, t, cur, merge, LowerTail(b, t, cur, merge).blocks, Q);
      var ef := FalseBlock(b1, rest, merge);
      PartTraced(b1, b3, b4, cond, body, rest, merge, Q);
      TailTraced(b4, rest, ef, merge, Q + {|b.blocks|, ef});
      var X := if rest.NoElse? || Falls(body) then {merge} else {};
      var Y := if !rest.NoElse? && FallsTail(rest) then {merge} else {};
      TracedTrans(b1, b4, b5, X, Y, Labelled(body), LabelledTail(rest), X + Y);
      StartTraced(b, cur);
      var Z := if Falls(body) || FallsTail(rest) then {merge} else {};
      UnfoldTail(rest);
      TracedTrans(b, b1, b5, {}, X + Y, true, Labelled(body) && LabelledTail(rest), Z);
  }

  lemma {:induction false} SameTraced(b: Builder)
    ensures Traced(b, b, {}, true)
  {
    KeepsTraced(b, b);
  }

  /** Moving the open position or changing the stacks leaves the blocks alone. */
  lemma {:induction false} StartTraced(b: Builder, cur: BlockId)
    ensures Traced(b, b.(current := Some(cur)), {}, true)
  {
    KeepsTraced(b, b.(current := Some(cur)));
  }

  // ----- loops -----

  lemma {:induction false} NewBlocksKeep(b: Builder, n: nat, P: set<BlockId>)
    requires Inv(b, P)
    ensures KeepsTerms(b, NewBlocks(b, n)) && KeepsTerms(b, NewBlocksNoHandler(b, n))
  {
    hide Inv, NewBlocks, NewBlocksNoHandler;
    NewBlocksInv(b, n, P);
    NewBlocksNoHandlerInv(b, n, P);
  }

  lemma {:induction false} LoopBodyTraced(b: Builder, b1: Builder, body: BlockId, exit: BlockId, ss: seq<Stmt>,
          next: BlockId, Q: set<BlockId>)
    requires Traced(b, b1, {}, true) && b1.exits == b.exits && Inv(b1, Q) && b1.current.None?
    requires body < |b1.blocks| && Open(b1.blocks[body])
    requires exit in Q && 0 < exit < |b1.blocks| && |b.blocks| <= exit && |b.blocks| <= next
    requires Landed(b1, next, Q) && LegalStmts(ss, true)
    ensures Traced(b, LeaveLoop(LowerBody(Start(EnterLoop(b1, exit), body), ss, next)), {}, Labelled(ss))
    decreases ss, 2
  {
    hide Inv, Traced, LowerBody, LegalStmts, Falls, Labelled, Start;
    InvFacts(b1, Q);
    var b2 := EnterLoop(b1, exit);
    StacksInv(b1, b2, Q);
    MovedTraced(b, b1, b2, {}, true);
    BodyTraced(b2, body, [], ss, next, Q);
    var b3 := LowerBody(Start(b2, body), ss, next);
    TracedTrans(b, b2, b3, {}, if Falls(ss) then {next} else {}, true, Labelled(ss), {});
    MovedTraced(b, b3, LeaveLoop(b3), {}, Labelled(ss));
  }

  lemma {:induction false} OpenLoopTraced(b: Builder, P: set<BlockId>)
    requires Inv(b, P) && b.current.Some?
    ensures Traced(b, OpenLoop(b), {}, true)
  {
    hide Inv, NewBlocks, Traced, KeepsTerms;
    InvFacts(b, P);
    NewBlocksInv(b, 2, P);
    NewBlocksKeep(b, 2, P);
    SealNewTraced(b, NewBlocks(b, 2), Goto(|b.blocks|));
  }

  lemma {:induction false} OpenWhileTraced(b: Builder, s: Stmt, P: set<BlockId>)
    requires s.While? && Inv(b, P) && b.current.Some?
    ensures Traced(b, OpenWhile(b, s), {}, true)
  {
    hide Inv, NewBlocks, Traced, KeepsTerms, LowerCond, Start, Seal;
    InvFacts(b, P);
    var header := |b.blocks|;
    var Q := P + {header, header + 1, header + 2};
    NewBlocksInv(b, 3, P);
    NewBlocksKeep(b, 3, P);
    SealNewTraced(b, NewBlocks(b, 3), Goto(header));
    OpenWhileInv(b, s, P);
    var b1, h := Seal(NewBlocks(b, 3), Goto(header)), EnterHeader(b);
    StartSame(b1, header);
    MovedTraced(b, b1, h, {}, true);
    CondTraced(h, s.cond, header + 1, header + 2, Q);
    TracedTrans(b, h, OpenWhile(b, s), {}, {header + 1, header + 2}, true, true, {});
  }

  lemma {:induction false} StartSame(b: Builder, id: BlockId)
    ensures Start(b, id).blocks == b.blocks && StartIfReached(b, id).blocks == b.blocks
  {
  }

  lemma {:induction false} WhileTraced(b: Builder, s: Stmt, P: set<BlockId>)
    requires s.While? && Inv(b, P) && b.current.Some? && LegalStmt(s, b.exits != [])
    ensures Traced(b, LowerWhile(b, s), {}, Labelled(s.body)) && LowerWhile(b, s).current.Some?
    decreases s, 0
  {
    hide Inv, OpenWhile, LowerBody, EnterLoop, LeaveLoop, LegalStmts, Traced, Labelled, Start;
    InvFacts(b, P);
    var header, body, exit := |b.blocks|, |b.blocks| + 1, |b.blocks| + 2;
    var Q := P + {header, body, exit};
    OpenWhileInv(b, s, P);
    OpenWhileTraced(b, s, P);
    var b1 := OpenWhile(b, s);
    LoopBodyTraced(b, b1, body, exit, s.body, header, Q);
    var b2 := LeaveLoop(LowerBody(Start(EnterLoop(b1, exit), body), s.body, header));
    LoopBodyInv(b, b1, body, exit, s.body, header, P, Q);
    StartInv(b2, exit, Q);
    MovedTraced(b, b2, Start(b2, exit), {}, Labelled(s.body));
  }

  lemma {:induction false} LoopTraced(b: Builder, s: Stmt, P: set<BlockId>)
    requires s.Loop? && Inv(b, P) && b.current.Some? && LegalStmt(s, b.exits != [])
    ensures Traced(b, LowerLoop(b, s), {}, Labelled(s.body)) && LowerLoop(b, s).current.Some?
    decreases s, 0
  {
    hide Inv, OpenLoop, LowerBody, EnterLoop, LeaveLoop, LegalStmts, Traced, Labelled, Start;
    InvFacts(b, P);
    var header, exit := |b.blocks|, |b.blocks| + 1;
    var Q := P + {header, exit};
    OpenLoopInv(b, P);
    OpenLoopTraced(b, P);
    var b1 := OpenLoop(b);
    LoopBodyTraced(b, b1, header, exit, s.body, header, Q);
    var b2 := LeaveLoop(LowerBody(Start(EnterLoop(b1, exit), header), s.body, header));
    LoopBodyInv(b, b1, header, exit, s.body, header, P, Q);
    StartInv(b2, exit, Q);
    MovedTraced(b, b2, Start(b2, exit), {}, Labelled(s.body));
  }

  lemma {:induction false} UntilTraced(b: Builder, b1: Builder, s: Stmt, exit: BlockId, body: BlockId, Q: set<BlockId>)
    requires Traced(b, b1, {}, true) && forall x :: x in b1.exits ==> x in b.exits || x >= |b.blocks|
    requires s.Repeat? && Inv(b1, Q) && b1.current == Some(body) && b1.exits != [] && LegalStmts(s.body, true)
    requires Landed(b1, exit, Q) && Landed(b1, body, Q) && |b.blocks| <= exit && |b.blocks| <= body
    ensures Traced(b, LowerUntil(b1, s, exit, body), {}, Labelled(s.body))
    decreases s.body, 1
  {
    hide Inv, Traced, LowerStmts, LowerCond, LegalStmts, Labelled, Falls, Landed;
    InvFacts(b1, Q);
    StmtsInv(b1, s.body, Q);
    StmtsTraced(b1, s.body, Q);
    var b2 := LowerStmts(b1, s.body);
    TracedTrans(b, b1, b2, {}, {}, true, Labelled(s.body), {});
    if b2.current.Some? {
      LandedKept(b1, b2, body, exit, Q);
      LandedKept(b1, b2, body, body, Q);
      CondTraced(b2, s.cond, exit, body, Q);
      TracedTrans(b, b2, LowerCond(b2, s.cond, exit, body), {}, {exit, body}, Labelled(s.body), true, {});
    }
  }

  lemma {:induction false} RepeatTraced(b: Builder, s: Stmt, P: set<BlockId>)
    requires s.Repeat? && Inv(b, P) && b.current.Some? && LegalStmt(s, b.exits != [])
    ensures Traced(b, LowerRepeat(b, s), {}, Labelled(s.body)) && LowerRepeat(b, s).current.Some?
    decreases s, 0
  {
    hide Inv, OpenLoop, LowerUntil, LegalStmts, Traced, Labelled, Completes, Start;
    InvFacts(b, P);
    var body, exit := |b.blocks|, |b.blocks| + 1;
    CompletesSelf(LowerRepeat(b, s));
    RepeatStages(b, s, P, LowerRepeat(b, s).blocks);
    OpenLoopTraced(b, P);
    var b1 := Start(EnterLoop(OpenLoop(b), exit), body);
    MovedTraced(b, OpenLoop(b), b1, {}, true);
    UntilTraced(b, b1, s, exit, body, P + {body, exit});
    var b2 := LowerUntil(b1, s, exit, body);
    StartSame(LeaveLoop(b2), exit);
    MovedTraced(b, b2, LowerRepeat(b, s), {}, Labelled(s.body));
  }

  lemma {:induction false} OpenForTraced(b: Builder, s: Stmt, P: set<BlockId>)
    requires s.For? && Inv(b, P) && b.current.Some?
    ensures Traced(b, OpenFor(b, s), {}, true)
  {
    hide Inv, NewBlocks, Traced, Start, Seal, Push;
    InvFacts(b, P);
    var cond := |b.blocks|;
    var Q := P + Span(cond, 4);
    var bp := Push(b, ForInit(s));
    PushInv(b, ForInit(s), P);
    var b0 := NewBlocks(bp, 4);
    NewBlocksInv(bp, 4, P);
    assert KeepsTerms(b, b0);
    SealNewTraced(b, b0, Goto(cond));
    var b1 := Seal(b0, Goto(cond));
    InvPromise(b0, P, Q);
    SealGotoInv(b0, cond, Q);
    StartInv(b1, cond, Q);
    var b2 := Start(b1, cond);
    MovedTraced(b, b1, b2, {}, true);
    BranchTraced(b2, ForCond(s), cond + 1, cond + 3);
    TracedTrans(b, b2, OpenFor(b, s), {}, {cond + 1, cond + 3}, true, true, {});
  }

  lemma {:induction false} ForTraced(b: Builder, s: Stmt, P: set<BlockId>)
    requires s.For? && Inv(b, P) && b.current.Some? && LegalStmt(s, b.exits != [])
    ensures Traced(b, LowerFor(b, s), {}, Labelled(s.body)) && LowerFor(b, s).current.Some?
    decreases s, 0
  {
    hide Inv, OpenFor, LowerBody, EnterLoop, LeaveLoop, LowerLatch, LegalStmts, Traced, Labelled, Start;
    InvFacts(b, P);
    var cond, body, latch, exit := |b.blocks|, |b.blocks| + 1, |b.blocks| + 2, |b.blocks| + 3;
    var Q := P + Span(cond, 4);
    OpenForInv(b, s, P);
    OpenForTraced(b, s, P);
    var b1 := OpenFor(b, s);
    LoopBodyTraced(b, b1, body, exit, s.body, latch, Q);
    LoopBodyInv(b, b1, body, exit, s.body, latch, P, Q);
    var b2 := LeaveLoop(LowerBody(Start(EnterLoop(b1, exit), body), s.body, latch));
    LatchTraced(b, b2, s, latch, cond, Labelled(s.body), Q);
    LatchInv(b2, s, latch, cond, Q);
    var b3 := LowerLatch(b2, s, latch, cond);
    StartInv(b3, exit, Q);
    MovedTraced(b, b3, Start(b3, exit), {}, Labelled(s.body));
  }

  lemma {:induction false} LatchTraced(b: Builder, b1: Builder, s: Stmt, latch: BlockId, cond: BlockId, ok: bool,
          Q: set<BlockId>)
    requires Traced(b, b1, {}, ok) && b1.exits == b.exits && |b.blocks| <= cond
    requires s.For? && Inv(b1, Q) && b1.current.None? && latch < |b1.blocks| && Open(b1.blocks[latch])
    ensures Traced(b, LowerLatch(b1, s, latch, cond), {}, ok)
  {
    hide Inv, Traced, Start, Seal, Push;
    StartInv(b1, latch, Q);
    PushInv(Start(b1, latch), ForAdvance(s), Q);
    var b2 := Push(Start(b1, latch), ForAdvance(s));
    assert KeepsTerms(b1, b2);
    KeepsTraced(b1, b2);
    TracedTrans(b, b1, b2, {}, {}, ok, true, {});
    GotoTraced(b2, cond);
    TracedTrans(b, b2, Seal(b2, Goto(cond)), {}, {cond}, ok, true, {});
  }

  // ----- CASE -----

  lemma {:induction false} BranchesTraced(b: Builder, brs: seq<Branch>, sel: Expr, base: BlockId, merge: BlockId,
          Q: set<BlockId>)
    requires Inv(b, Q) && b.current.None? && LegalBranches(brs, b.exits != [])
    requires ProtocolStmts.Range(b, base, |brs|) && merge in Q && 0 < merge < base
    ensures Traced(b, LowerBranches(b, brs, sel, base, merge), if FallsBranches(brs) then {merge} else {},
              LabelledBranches(brs))
    decreases brs
  {
    hide Inv, Traced, LowerBody, PushAll, LegalStmts, LowerBranches, Start, Binding, ProtocolStmts.Range, FilledRange,
      Falls,
      Labelled;
    InvFacts(b, Q);
    if brs == [] {
      NoBranches(b, sel, base, merge);
      SameTraced(b);
    } else {
      UnfoldBranches(b, brs, sel, base, merge);
      RangeStarts(b, base, |brs|);
      BodyInv(b, base, Binding(sel, brs[0]), brs[0].body, merge, Q);
      BodyTraced(b, base, Binding(sel, brs[0]), brs[0].body, merge, Q);
      var b1 := LowerBody(PushAll(Start(b, base), Binding(sel, brs[0])), brs[0].body, merge);
      FilledFirst(b, b1, base, |brs|);
      BranchesTraced(b1, brs[1..], sel, base + 1, merge, Q);
      var X := if Falls(brs[0].body) then {merge} else {};
      var Y := if FallsBranches(brs[1..]) then {merge} else {};
      TracedTrans(b, b1, LowerBranches(b, brs, sel, base, merge), X, Y, Labelled(brs[0].body),
        LabelledBranches(brs[1..]), if FallsBranches(brs) then {merge} else {});
    }
  }

  lemma {:induction false} ElseTraced(b: Builder, els: OptBody, default: BlockId, merge: BlockId, Q: set<BlockId>)
    requires Inv(b, Q) && b.current.None? && default < |b.blocks| && Open(b.blocks[default])
    requires merge in Q && 0 < merge < |b.blocks|
    requires els.Body? ==> LegalStmts(els.stmts, b.exits != [])
    ensures Traced(b, LowerElse(b, els, default, merge), if FallsElse(els) then {merge} else {}, LabelledElse(els))
    decreases els
  {
    hide Inv, Traced, Start;
    InvFacts(b, Q);
    match els
    case NoBody =>
      StartInv(b, default, Q);
      StartTraced(b, default);
      GotoTraced(Start(b, default), merge);
      TracedTrans(b, Start(b, default), LowerElse(b, els, default, merge), {}, {merge}, true, true, {merge});
    case Body(ss) => BodyTraced(b, default, [], ss, merge, Q);
  }

  /** The switch: its arms are the branches, and it does not point at the merge block. */
  lemma {:induction false} SwitchTraced(b: Builder, s: Stmt, P: set<BlockId>) returns (X: set<BlockId>)
    requires s.Case? && Inv(b, P) && b.current.Some?
    ensures Traced(NewBlocks(b, 2 + |s.branches|), OpenCase(b, s), X, HaveLabels(s.branches))
    ensures forall x :: x in X ==> x > |b.blocks|
  {
    hide Inv, NewBlocks, Traced;
    InvFacts(b, P);
    var b0, arms, default := NewBlocks(b, 2 + |s.branches|), SwitchArms(s.branches, |b.blocks| + 2), |b.blocks| + 1;
    NewBlocksInv(b, 2 + |s.branches|, P);
    var t := Switch(s.sel, arms, default);
    SealTraced(b0, t);
    X := set x | x in Successors(t);
    assert ArmsOk(t) <==> HaveLabels(s.branches) by {
      if ArmsOk(t) {
        forall i | 0 <= i < |s.branches| ensures s.branches[i].labels != [] { assert arms[i].labels != []; }
      }
    }
  }

  lemma {:induction false} CaseTraced(b: Builder, s: Stmt, P: set<BlockId>)
    requires s.Case? && Inv(b, P) && b.current.Some? && LegalStmt(s, b.exits != [])
    ensures Traced(b, LowerCase(b, s), {}, LabelledStmt(s))
    ensures LowerCase(b, s).current.Some? <==> FallsStmt(s)
    decreases s, 0
  {
    hide Inv, LowerBranches, LowerElse, LegalBranches, LegalStmts, OpenCase, AnyPathReaches, Traced, Labelled, Falls,
      HaveLabels, NewBlocks, Completes, KeepsTerms, StartIfReached, LowerCase, LabelledBranches, FallsBranches;
    InvFacts(b, P);
    CompletesSelf(LowerCase(b, s));
    var b1, b2, b3 := CaseStages(b, s, P, LowerCase(b, s).blocks);
    var merge, default, base, n := |b.blocks|, |b.blocks| + 1, |b.blocks| + 2, |s.branches|;
    var Q := P + Span(merge, 2 + n);
    var b0 := NewBlocks(b, 2 + n);
    NewBlocksInv(b, 2 + n, P);
    NewBlocksKeep(b, 2 + n, P);
    var X := SwitchTraced(b, s, P);
    BranchesTraced(b1, s.branches, s.sel, base, merge, Q);
    ElseTraced(b2, s.elseBody, default, merge, Q);
    var Y := if FallsBranches(s.branches) then {merge} else {};
    var Z := if FallsElse(s.elseBody) then {merge} else {};
    var ok := HaveLabels(s.branches) && LabelledBranches(s.branches);
    TracedTrans(b0, b1, b2, X, Y, HaveLabels(s.branches), LabelledBranches(s.branches), BelowOf(X + Y, |b0.blocks|));
    TracedTrans(b0, b2, b3, BelowOf(X + Y, |b0.blocks|), Z, ok, LabelledElse(s.elseBody),
      BelowOf(X + Y + Z, |b0.blocks|));
    MergeTraced(b, b0, b3, merge, BelowOf(X + Y + Z, |b0.blocks|), ok && LabelledElse(s.elseBody), P);
  }

  function BelowOf(X: set<BlockId>, n: nat): (Y: set<BlockId>)
    ensures forall x :: x in Y <==> x < n && x in X
  {
    set x | x in X && x < n
  }

  // ----- TRY -----

  lemma {:induction false} DispatchTraced(b: Builder, cs: seq<Clause>, base: BlockId, reraise: BlockId,
          lo: BlockId, Q: set<BlockId>) returns (X: set<BlockId>)
    requires Inv(b, Q) && b.current.Some? && cs != []
    requires forall i :: 0 <= i < |cs| - 1 ==> cs[i].exception.Some?
    requires 0 < base && base + |cs| <= |b.blocks| && forall i :: base <= i < base + |cs| ==> i in Q
    requires reraise in Q && 0 < reraise < |b.blocks| && lo <= reraise && lo <= base
    ensures Traced(b, LowerDispatch(b, cs, base, reraise), X, true) && forall x :: x in X ==> x >= lo
    decreases cs
  {
    hide Inv, LowerDispatch, Seal, Start, LocalExpr, Traced;
    InvFacts(b, Q);
    UnfoldDispatch(b, cs, base, reraise);
    if cs[0].exception.None? {
      GotoTraced(b, base);
      X := {base};
    } else {
      var test := LocalExpr(cs[0].exception.value);
      if |cs| > 1 {
        var next := |b.blocks|;
        var Q' := Q + {next};
        var b0 := NewBlockNoHandler(b);
        NewBlockInv(b, Q);
        InvPromise(b0, Q, Q');
        SealInv(b0, BranchOn(test, base, next), Q');
        var b1 := Seal(b0, BranchOn(test, base, next));
        StartInv(b1, next, Q');
        var b2 := Start(b1, next);
        NewKeeps(b);
        KeepsTraced(b, b0);
        BranchTraced(b0, test, base, next);
        TracedTrans(b, b0, b1, {}, {base, next}, true, true, {base});
        MovedTraced(b, b1, b2, {base}, true);
        var Y := DispatchTraced(b2, cs[1..], base + 1, reraise, lo, Q');
        X := BelowOf({base} + Y, |b.blocks|);
        TracedTrans(b, b2, LowerDispatch(b2, cs[1..], base + 1, reraise), {base}, Y, true, true, X);
      } else {
        BranchTraced(b, test, base, reraise);
        X := {base, reraise};
      }
    }
  }

  lemma {:induction false} ClausesTraced(b: Builder, cs: seq<Clause>, base: BlockId, next: BlockId, Q: set<BlockId>)
    requires Inv(b, Q) && b.current.None? && LegalClauses(cs, b.exits != [])
    requires ProtocolStmts.Range(b, base, |cs|) && next in Q && 0 < next < base
    ensures Traced(b, LowerClauses(b, cs, base, next), if FallsClauses(cs) then {next} else {}, LabelledClauses(cs))
    decreases cs, 0
  {
    hide Inv, Traced, LowerBody, LegalStmts, LowerClauses, Start, ProtocolStmts.Range, FilledRange, Falls, Labelled;
    InvFacts(b, Q);
    if cs == [] {
      NoClauses(b, base, next);
      SameTraced(b);
    } else {
      UnfoldClauses(b, cs, base, next);
      RangeStarts(b, base, |cs|);
      BodyInv(b, base, [], cs[0].body, next, Q);
      BodyTraced(b, base, [], cs[0].body, next, Q);
      var b1 := LowerBody(Start(b, base), cs[0].body, next);
      FilledFirst(b, b1, base, |cs|);
      ClausesTraced(b1, cs[1..], base + 1, next, Q);
      var X := if Falls(cs[0].body) then {next} else {};
      var Y := if FallsClauses(cs[1..]) then {next} else {};
      TracedTrans(b, b1, LowerClauses(b, cs, base, next), X, Y, Labelled(cs[0].body),
        LabelledClauses(cs[1..]), if FallsClauses(cs) then {next} else {});
    }
  }

  lemma {:induction false} NoClauses(b: Builder, base: BlockId, next: BlockId)
    ensures LowerClauses(b, [], base, next) == b
  {
  }

  lemma {:induction false} ReraiseTraced(b: Builder, fin: OptBody, Q: set<BlockId>)
    requires Inv(b, Q) && b.current.Some?
    ensures Traced(b, Reraise(b, fin), {}, true)
  {
    hide Inv, Traced, PushAll, Seal;
    InvFacts(b, Q);
    var b1 := PushAll(b, OptStmts(fin));
    PushAllInv(b, OptStmts(fin), Q);
    InvFacts(b1, Q);
    PushKeeps(b, OptStmts(fin));
    KeepsTraced(b, b1);
    LeaveTraced(b1, RaiseT(None));
    TracedTrans(b, b1, Reraise(b, fin), {}, {}, true, true, {});
  }

  lemma {:induction false} OpenHandlersTraced(b: Builder, cs: seq<Clause>, Q: set<BlockId>)
    requires Inv(b, Q) && b.current.Some? && cs != []
    requires forall i :: 0 <= i < |cs| - 1 ==> cs[i].exception.Some?
    ensures Traced(b, OpenHandlers(b, cs), {}, true)
  {
    hide Inv, Traced, LowerDispatch, NewBlocksNoHandler, KeepsTerms;
    InvFacts(b, Q);
    var reraise, n := |b.blocks|, 1 + |cs|;
    var b0 := NewBlocksNoHandler(b, n);
    NewBlocksNoHandlerInv(b, n, Q);
    NewBlocksKeep(b, n, Q);
    KeepsTraced(b, b0);
    assert Inv(b0, Q + Span(reraise, n)) by { OldPromise(b, b0, n, Q); }
    var X := DispatchTraced(b0, cs, reraise + 1, reraise, reraise, Q + Span(reraise, n));
    TracedTrans(b, b0, OpenHandlers(b, cs), {}, X, true, true, {});
  }

  lemma {:induction false} OldPromise(b: Builder, b0: Builder, n: nat, Q: set<BlockId>)
    requires Inv(b0, Q)
    ensures Inv(b0, Q + Span(|b.blocks|, n))
  {
    hide Inv;
    InvFacts(b0, Q);
    InvPromise(b0, Q, Q + Span(|b.blocks|, n));
  }

  lemma {:induction false} HandlersTraced(b: Builder, cs: seq<Clause>, fin: OptBody, next: BlockId, Q: set<BlockId>)
    requires Inv(b, Q) && b.current.Some? && b.current.value < |b.blocks| && LegalClauses(cs, b.exits != [])
    requires forall i :: 0 <= i < |cs| - 1 ==> cs[i].exception.Some?
    requires next in Q && 0 < next < |b.blocks|
    ensures Traced(b, LowerHandlers(b, cs, fin, next), if FallsClauses(cs) then {next} else {}, LabelledClauses(cs))
    decreases cs, 1
  {
    hide Inv, Traced, LowerClauses, OpenHandlers, LegalClauses, Reraise, Start, Completes, LowerHandlers, Labelled,
      Falls;
    InvFacts(b, Q);
    if cs == [] {
      NoHandlers(b, fin, next);
      ReraiseTraced(b, fin, Q);
    } else {
      CompletesSelf(LowerHandlers(b, cs, fin, next));
      var b2, b3, b4, b5 := HandlerStages(b, cs, fin, next, LowerHandlers(b, cs, fin, next).blocks, Q);
      var reraise, Q2 := |b.blocks|, Q + Span(|b.blocks|, 1 + |cs|);
      OpenHandlersTraced(b, cs, Q);
      ClausesTraced(b2, cs, reraise + 1, next, Q2);
      var X := if FallsClauses(cs) then {next} else {};
      TracedTrans(b, b2, b3, {}, X, true, LabelledClauses(cs), X);
      MovedTraced(b, b3, b4, X, LabelledClauses(cs));
      ReraiseTraced(b4, fin, Q2);
      TracedTrans(b, b4, b5, X, {}, LabelledClauses(cs), true, X);
    }
  }

  lemma {:induction false} NoHandlers(b: Builder, fin: OptBody, next: BlockId)
    ensures LowerHandlers(b, [], fin, next) == Reraise(b, fin)
  {
  }

  lemma {:induction false} OpenTryTraced(b: Builder, s: Stmt, P: set<BlockId>)
    requires s.Try? && Inv(b, P) && b.current.Some?
    ensures KeepsTerms(b, AllocTry(b, s)) && Traced(AllocTry(b, s), OpenTry(b, s), {}, true)
  {
    hide Inv, Seal, Start, Traced, AllocTry;
    InvFacts(b, P);
    var b2 := AllocTry(b, s);
    AllocTryInv(b, s, P);
    assert KeepsTerms(b, b2) by { AllocKeeps(b, s); }
    NewKeeps(b2);
    InvFacts(b2, P);
    SealNewTraced(b2, NewBlock(b2), Goto(|b2.blocks|));
    StartSame(Seal(NewBlock(b2), Goto(|b2.blocks|)), |b2.blocks|);
    MovedTraced(b2, Seal(NewBlock(b2), Goto(|b2.blocks|)), OpenTry(b, s), {}, true);
  }

  lemma {:induction false} AllocKeeps(b: Builder, s: Stmt)
    requires s.Try?
    ensures KeepsTerms(b, AllocTry(b, s))
  {
  }

  lemma {:induction false} TryBodyTraced(b: Builder, ss: seq<Stmt>, next: BlockId, Q: set<BlockId>)
    requires Inv(b, Q) && b.current.Some? && b.handlers != [] && LegalStmts(ss, b.exits != [])
    requires next in Q && 0 < next < |b.blocks|
    ensures var b' := SealIfOpen(LeaveTry(LowerStmts(b, ss)), Goto(next));
      Traced(b, b', if Falls(ss) then {next} else {}, Labelled(ss))
    decreases ss, 1
  {
    hide Inv, Traced, LowerStmts, LegalStmts, Falls, Labelled;
    StmtsInv(b, ss, Q);
    StmtsTraced(b, ss, Q);
    var b1 := LowerStmts(b, ss);
    InvFacts(b1, Q);
    var b2 := LeaveTry(b1);
    MovedTraced(b, b1, b2, {}, Labelled(ss));
    GotoTraced(b2, next);
    var X := if Falls(ss) then {next} else {};
    TracedTrans(b, b2, SealIfOpen(b2, Goto(next)), {}, X, Labelled(ss), true, X);
  }

  lemma {:induction false} CloseTryTraced(b: Builder, s: Stmt, next: BlockId, merge: BlockId, Q: set<BlockId>)
    requires s.Try? && Inv(b, Q) && b.current.None? && merge in Q && 0 < merge < |b.blocks|
    requires s.finallyBody.Body? ==> next < |b.blocks| && Open(b.blocks[next])
    ensures Traced(b, CloseTry(b, s, next, merge), if s.finallyBody.Body? then {merge} else {}, true)
  {
    hide Inv, Traced, Seal, Start, PushAll;
    InvFacts(b, Q);
    if s.finallyBody.Body? {
      var b1 := PushAll(Start(b, next), s.finallyBody.stmts);
      StartInv(b, next, Q);
      PushAllInv(Start(b, next), s.finallyBody.stmts, Q);
      InvFacts(b1, Q);
      PushKeeps(Start(b, next), s.finallyBody.stmts);
      assert KeepsTerms(b, b1);
      KeepsTraced(b, b1);
      GotoTraced(b1, merge);
      TracedTrans(b, b1, Seal(b1, Goto(merge)), {}, {merge}, true, true, {merge});
    } else {
      SameTraced(b);
    }
  }

  lemma {:induction false} TryTraced(b: Builder, s: Stmt, P: set<BlockId>)
    requires s.Try? && Inv(b, P) && b.current.Some? && LegalStmt(s, b.exits != [])
    ensures Traced(b, LowerTry(b, s), {}, LabelledStmt(s))
    ensures LowerTry(b, s).current.Some? <==> FallsStmt(s)
    decreases s, 0
  {
    hide Inv, LowerStmts, LowerHandlers, OpenTry, CloseTry, SealIfOpen, LeaveTry, Start, LegalStmts, LegalClauses,
      AnyPathReaches, LowerTry, StartIfReached, Traced, KeepsTerms, Falls, Labelled, FallsClauses, LabelledClauses,
      AllocTry;
    InvFacts(b, P);
    var b3, b4, b5, b6, Q := TryShape(b, s, P);
    var merge, next, b0 := |b.blocks|, TryNext(b, s), AllocTry(b, s);
    var b4' := SealIfOpen(LeaveTry(LowerStmts(b3, s.body)), Goto(next));
    AllocTryInv(b, s, P);
    OpenTryTraced(b, s, P);
    TryBodyTraced(b3, s.body, next, Q);
    var X := if Falls(s.body) then {next} else {};
    var Y := if FallsClauses(s.clauses) then {next} else {};
    var Z := if s.finallyBody.Body? then {merge} else {};
    TracedTrans(b0, b3, b4', {}, X, true, Labelled(s.body), X);
    MovedTraced(b0, b4', b4, X, Labelled(s.body));
    HandlersTraced(b4, s.clauses, s.finallyBody, next, Q);
    TracedTrans(b0, b4, b5, X, Y, Labelled(s.body), LabelledClauses(s.clauses), X + Y);
    CloseTryTraced(b5, s, next, merge, Q);
    var ok := Labelled(s.body) && LabelledClauses(s.clauses);
    TracedTrans(b0, b5, b6, X + Y, Z, ok, true, X + Y + Z);
    MergeTraced(b, b0, b6, merge, X + Y + Z, ok, P);
  }

  // ----- the result -----

  /** The closing pass adds no switch. */
  lemma {:induction false} FinishArms(b: Builder)
    ensures ArmsFilled(Finish(b)) <==> ArmsFilled(b.blocks)
  {
    var c := Finish(b);
    forall i | 0 <= i < |c| && b.blocks[i].term.Some? ensures c[i].term == b.blocks[i].term {
    }
    if ArmsFilled(c) {
      forall i | 0 <= i < |b.blocks| && b.blocks[i].term.Some? ensures ArmsOk(b.blocks[i].term.value) {
        assert c[i].term == b.blocks[i].term;
      }
    }
  }

  /** The checks T3 and T5 pass exactly when every CASE that is lowered has a branch, and the branches labels. */
  lemma {:induction false} ArmsFilledIff(body: seq<Stmt>)
    requires LegalStmts(body, false)
    ensures ArmsFilled(BuildCfg(body)) <==> Labelled(body)
  {
    hide Inv, LowerStmts, AnyPathReaches;
    NewInv();
    StmtsTraced(New(), body, {});
    FinishArms(LowerStmts(New(), body));
    assert ArmsFilled(New().blocks);
  }

  /** `build_cfg` gets past `cfg.verify()` exactly then: all the other checks always pass. */
  lemma {:induction false} PassesIff(body: seq<Stmt>)
    requires LegalStmts(body, false)
    ensures Passes(BuildCfg(body)) <==> Labelled(body)
  {
    hide Verified, ArmsFilled, LowerStmts, Labelled, LegalStmts;
    BuildIsSafe(body);
    ArmsFilledIff(body);
  }

  /** `build_cfg` does not panic: the precondition of all that follows it. */
  predicate Accepted(body: seq<Stmt>) {
    LegalStmts(body, false) && Labelled(body)
  }

  /** A CASE with only an ELSE part, whatever that holds: nothing fails in the builder, and then T3 does. */
  lemma {:induction false} CaseWithoutBranches(sel: Expr, els: OptBody)
    requires els.Body? ==> LegalStmts(els.stmts, false)
    ensures var body := [Case(sel, [], els)];
      !LowerStmts(New(), body).panicked && Verified(BuildCfg(body)) && !ArmsFilled(BuildCfg(body))
  {
    hide Verified, ArmsFilled, LowerStmts;
    var body := [Case(sel, [], els)];
    assert body[1..] == [];
    assert LegalStmt(body[0], false);
    BuildIsSafe(body);
    ArmsFilledIff(body);
  }
}
