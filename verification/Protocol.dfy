/**
 The builder protocol: on every legal statement list no assertion of the
 builder fails, the loop and handler stacks come back as they were, earlier
 blocks are left alone, every edge lands on a block that exists, and a block
 that some edge reaches is always finished.
 */
module Protocol {
  import opened Wrappers
  import opened Hir
  import opened Cfg
  import opened Lowering

  // ----- after which statements the builder goes on -----

  /** The builder has an open block after the statements; what follows one that closes it is not lowered. */
  predicate Falls(ss: seq<Stmt>)
    decreases ss, 0
  {
    ss == [] || (FallsStmt(ss[0]) && Falls(ss[1..]))
  }

  predicate FallsStmt(s: Stmt)
    decreases s, 1
  {
    match s
    case If(_, thenBody, tail) => Falls(thenBody) || FallsTail(tail)
    case Exit => false
    case Case(_, brs, els) => FallsBranches(brs) || FallsElse(els)
    case Try(body, clauses, fin) => fin.Body? || Falls(body) || FallsClauses(clauses)
    case Raise(_) => false
    case Return(_) => false
    case _ => true
  }

  predicate FallsTail(t: ElseTail)
    decreases t
  {
    match t
    case NoElse => true
    case Else(body) => Falls(body)
    case Elsif(_, body, rest) => Falls(body) || FallsTail(rest)
  }

  predicate FallsElse(els: OptBody)
    decreases els
  {
    els.Body? ==> Falls(els.stmts)
  }

  predicate FallsBranches(brs: seq<Branch>)
    decreases brs
  {
    brs != [] && (Falls(brs[0].body) || FallsBranches(brs[1..]))
  }

  predicate FallsClauses(cs: seq<Clause>)
    decreases cs
  {
    cs != [] && (Falls(cs[0].body) || FallsClauses(cs[1..]))
  }

  // ----- which inputs the builder accepts -----

  /** Of the statements that are lowered: EXIT only inside a loop, a catch-all clause only last. */
  predicate LegalStmts(ss: seq<Stmt>, inLoop: bool)
    decreases ss, 0
  {
    ss == [] || (LegalStmt(ss[0], inLoop) && (FallsStmt(ss[0]) ==> LegalStmts(ss[1..], inLoop)))
  }

  predicate LegalStmt(s: Stmt, inLoop: bool)
    decreases s, 1
  {
    match s
    case If(_, thenBody, tail) => LegalStmts(thenBody, inLoop) && LegalTail(tail, inLoop)
    case While(_, body) => LegalStmts(body, true)
    case Loop(body) => LegalStmts(body, true)
    case Repeat(body, _) => LegalStmts(body, true)
    case For(_, _, _, _, _, body) => LegalStmts(body, true)
    case Exit => inLoop
    case Case(_, brs, els) =>
      LegalBranches(brs, inLoop) && (els.Body? ==> LegalStmts(els.stmts, inLoop))
    case Try(body, clauses, _) =>
      && LegalStmts(body, inLoop)
      && (forall i :: 0 <= i < |clauses| - 1 ==> clauses[i].exception.Some?)
      && LegalClauses(clauses, inLoop)
    case _ => true
  }

  predicate LegalTail(t: ElseTail, inLoop: bool)
    decreases t
  {
    match t
    case NoElse => true
    case Else(body) => LegalStmts(body, inLoop)
    case Elsif(_, body, rest) => LegalStmts(body, inLoop) && LegalTail(rest, inLoop)
  }

  predicate LegalBranches(brs: seq<Branch>, inLoop: bool)
    decreases brs
  {
    brs == [] || (LegalStmts(brs[0].body, inLoop) && LegalBranches(brs[1..], inLoop))
  }

  predicate LegalClauses(cs: seq<Clause>, inLoop: bool)
    decreases cs
  {
    cs == [] || (LegalStmts(cs[0].body, inLoop) && LegalClauses(cs[1..], inLoop))
  }

  // ----- the invariant -----

  /** Block `t` is a legitimate target: it is finished, being written, or promised in P. */
  predicate Landed(b: Builder, t: BlockId, P: set<BlockId>) {
    0 < t < |b.blocks| && (!Open(b.blocks[t]) || b.current == Some(t) || t in P)
  }

  ghost predicate EdgesOk(b: Builder, t: Terminator, P: set<BlockId>) {
    forall x :: x in Successors(t) ==> Landed(b, x, P)
  }

  ghost predicate BlockOk(b: Builder, i: nat, P: set<BlockId>)
    requires i < |b.blocks|
  {
    var blk := b.blocks[i];
    && (blk.handler.Some? ==> blk.handler.value < |b.blocks| && b.blocks[blk.handler.value].handler.None?)
    && (blk.term.Some? ==> EdgesOk(b, blk.term.value, P))
  }

  /** P holds the open blocks that edges may already point at. */
  ghost predicate Inv(b: Builder, P: set<BlockId>) {
    && !b.panicked
    && |b.blocks| > 0
    && (b.current.Some? ==> b.current.value < |b.blocks| && Open(b.blocks[b.current.value]))
    && (forall i :: 0 <= i < |b.exits| ==> b.exits[i] in P && 0 < b.exits[i] < |b.blocks|)
    && (forall i :: 0 <= i < |b.handlers| ==> b.handlers[i] < |b.blocks| && b.blocks[b.handlers[i]].handler.None?)
    && (forall i :: 0 <= i < |b.blocks| ==> BlockOk(b, i, P))
  }

  /** What the proofs about whole constructs need of the invariant. */
  lemma {:induction false} InvFacts(b: Builder, P: set<BlockId>)
    requires Inv(b, P)
    ensures !b.panicked && |b.blocks| > 0
    ensures b.current.Some? ==> b.current.value < |b.blocks| && Open(b.blocks[b.current.value])
    ensures forall x :: x in b.exits ==> x in P && 0 < x < |b.blocks|
    ensures forall i :: 0 <= i < |b.exits| ==> b.exits[i] in P && 0 < b.exits[i] < |b.blocks|
    ensures forall i :: 0 <= i < |b.handlers| ==> b.handlers[i] < |b.blocks| && b.blocks[b.handlers[i]].handler.None?
  {
  }

  /** From b to b' only block k, and blocks that b did not have, were written. */
  ghost predicate Frame(b: Builder, b': Builder, k: BlockId) {
    && |b.blocks| <= |b'.blocks|
    && (forall i :: 0 <= i < |b.blocks| && i != k ==> b'.blocks[i] == b.blocks[i])
    && (k < |b.blocks| ==>
          && b'.blocks[k].handler == b.blocks[k].handler
          && b.blocks[k].stmts <= b'.blocks[k].stmts
          && (b'.current == Some(k) || !Open(b'.blocks[k])))
    && (b'.current.Some? ==> b'.current.value == k || b'.current.value >= |b.blocks|)
  }

  predicate SameStacks(b: Builder, b': Builder) {
    b'.exits == b.exits && b'.handlers == b.handlers
  }

  /** What lowering a statement keeps and promises. */
  ghost predicate Grown(b: Builder, b': Builder, P: set<BlockId>) {
    && Inv(b', P)
    && SameStacks(b, b')
    && (b.current.None? ==> b' == b)
    && (b.current.Some? ==>
          && Frame(b, b', b.current.value)
          && (b'.current.Some? && b'.current != b.current ==>
                b'.current.value < |b'.blocks| && b'.blocks[b'.current.value].handler == Last(b.handlers)))
  }

  /** `id` was opened, filled and sealed; nothing else that existed was touched. */
  ghost predicate Filled(b: Builder, b': Builder, id: BlockId) {
    && Frame(b, b', id)
    && b'.current.None?
    && SameStacks(b, b')
  }

  // ----- single operations -----

  lemma {:induction false} NewBlockInv(b: Builder, P: set<BlockId>)
    requires Inv(b, P)
    ensures Inv(NewBlock(b), P) && Inv(NewBlockNoHandler(b), P)
  {
    forall b' | b' in {NewBlock(b), NewBlockNoHandler(b)}
      ensures Inv(b', P)
    {
      forall i | 0 <= i < |b'.blocks|
        ensures BlockOk(b', i, P)
      {
        if i < |b.blocks| {
          assert BlockOk(b, i, P);
        }
      }
    }
  }

  lemma {:induction false} NewBlocksInv(b: Builder, n: nat, P: set<BlockId>)
    requires Inv(b, P)
    ensures var b' := NewBlocks(b, n);
      && Inv(b', P) && |b'.blocks| == |b.blocks| + n
      && b' == b.(blocks := b'.blocks)
      && (forall i :: 0 <= i < |b.blocks| ==> b'.blocks[i] == b.blocks[i])
      && (forall i :: |b.blocks| <= i < |b'.blocks| ==> b'.blocks[i] == Block([], None, Last(b.handlers)))
    decreases n
  {
    if n > 0 {
      NewBlocksInv(b, n - 1, P);
      NewBlockInv(NewBlocks(b, n - 1), P);
    }
  }

  lemma {:induction false} NewBlocksNoHandlerInv(b: Builder, n: nat, P: set<BlockId>)
    requires Inv(b, P)
    ensures var b' := NewBlocksNoHandler(b, n);
      && Inv(b', P) && |b'.blocks| == |b.blocks| + n
      && b' == b.(blocks := b'.blocks)
      && (forall i :: 0 <= i < |b.blocks| ==> b'.blocks[i] == b.blocks[i])
      && (forall i :: |b.blocks| <= i < |b'.blocks| ==> b'.blocks[i] == Block([], None, None))
    decreases n
  {
    if n > 0 {
      NewBlocksNoHandlerInv(b, n - 1, P);
      NewBlockInv(NewBlocksNoHandler(b, n - 1), P);
    }
  }

  /** Changing the stacks to other promised exits and handler-free dispatch blocks. */
  lemma {:induction false} StacksInv(b: Builder, b': Builder, P: set<BlockId>)
    requires Inv(b, P) && b' == b.(exits := b'.exits, handlers := b'.handlers)
    requires forall i :: 0 <= i < |b'.exits| ==> b'.exits[i] in P && 0 < b'.exits[i] < |b.blocks|
    requires forall i :: 0 <= i < |b'.handlers| ==>
      b'.handlers[i] < |b.blocks| && b.blocks[b'.handlers[i]].handler.None?
    ensures Inv(b', P)
  {
    forall i | 0 <= i < |b.blocks| ensures BlockOk(b', i, P) {
      assert BlockOk(b, i, P);
      if b.blocks[i].term.Some? {
        forall x | x in Successors(b.blocks[i].term.value) ensures Landed(b', x, P) {
          assert Landed(b, x, P);
        }
      }
    }
  }

  lemma {:induction false} SealInv(b: Builder, t: Terminator, P: set<BlockId>)
    requires Inv(b, P) && b.current.Some? && EdgesOk(b, t, P)
    ensures Inv(Seal(b, t), P) && Filled(b, Seal(b, t), b.current.value) && |Seal(b, t).blocks| == |b.blocks|
    ensures Seal(b, t).blocks[b.current.value] == b.blocks[b.current.value].(term := Some(t))
  {
    var b' := Seal(b, t);
    forall i | 0 <= i < |b'.blocks|
      ensures BlockOk(b', i, P)
    {
      assert BlockOk(b, i, P);
      if b'.blocks[i].term.Some? {
        forall x | x in Successors(b'.blocks[i].term.value)
          ensures Landed(b', x, P)
        {
          assert Landed(b, x, P);
        }
      }
    }
  }

  lemma {:induction false} SealGotoInv(b: Builder, x: BlockId, P: set<BlockId>)
    requires Inv(b, P) && Landed(b, x, P)
    ensures Inv(SealIfOpen(b, Goto(x)), P)
    ensures b.current.Some? ==> Filled(b, Seal(b, Goto(x)), b.current.value) && |Seal(b, Goto(x)).blocks| == |b.blocks|
    ensures b.current.Some? ==>
      Seal(b, Goto(x)).blocks[b.current.value] == b.blocks[b.current.value].(term := Some(Goto(x)))
  {
    if b.current.Some? {
      SealInv(b, Goto(x), P);
    }
  }

  lemma {:induction false} StartInv(b: Builder, id: BlockId, P: set<BlockId>)
    requires Inv(b, P) && b.current.None? && id < |b.blocks| && Open(b.blocks[id])
    ensures Inv(Start(b, id), P) && Start(b, id) == b.(current := Some(id))
  {
    var b' := Start(b, id);
    forall i | 0 <= i < |b'.blocks|
      ensures BlockOk(b', i, P)
    {
      assert BlockOk(b, i, P);
      if b'.blocks[i].term.Some? {
        forall x | x in Successors(b'.blocks[i].term.value)
          ensures Landed(b', x, P)
        {
          assert Landed(b, x, P);
        }
      }
    }
  }

  lemma {:induction false} PushInv(b: Builder, s: Stmt, P: set<BlockId>)
    requires Inv(b, P)
    ensures Inv(Push(b, s), P) && SameStacks(b, Push(b, s)) && Push(b, s).current == b.current
    ensures b.current.Some? ==>
        && Frame(b, Push(b, s), b.current.value) && |Push(b, s).blocks| == |b.blocks|
        && var blk := b.blocks[b.current.value];
           Push(b, s).blocks[b.current.value] == blk.(stmts := blk.stmts + [s])
  {
    var b' := Push(b, s);
    forall i | 0 <= i < |b'.blocks|
      ensures BlockOk(b', i, P)
    {
      assert BlockOk(b, i, P);
      if b'.blocks[i].term.Some? {
        forall x | x in Successors(b'.blocks[i].term.value)
          ensures Landed(b', x, P)
        {
          assert Landed(b, x, P);
        }
      }
    }
  }

  lemma {:induction false} PushAllInv(b: Builder, ss: seq<Stmt>, P: set<BlockId>)
    requires Inv(b, P)
    ensures var b' := PushAll(b, ss);
      && Inv(b', P) && SameStacks(b, b') && b'.current == b.current && |b'.blocks| == |b.blocks|
      && (b.current.Some? ==>
            && Frame(b, b', b.current.value)
            && b'.blocks[b.current.value] == b.blocks[b.current.value].(stmts := b.blocks[b.current.value].stmts + ss))
    decreases ss
  {
    if ss != [] {
      PushInv(b, ss[0], P);
      PushAllInv(Push(b, ss[0]), ss[1..], P);
    }
  }

  /** Promises may be added, and dropped once kept. */
  lemma {:induction false} InvPromise(b: Builder, P: set<BlockId>, Q: set<BlockId>)
    requires Inv(b, P)
    requires forall x :: x in P && x !in Q ==>
        && x !in b.exits
        && (x < |b.blocks| ==> !Open(b.blocks[x]) || b.current == Some(x) || !AnyPathReaches(b, x))
    ensures Inv(b, Q)
  {
    forall i | 0 <= i < |b.blocks|
      ensures BlockOk(b, i, Q)
    {
      assert BlockOk(b, i, P);
      if b.blocks[i].term.Some? {
        forall x | x in Successors(b.blocks[i].term.value)
          ensures Landed(b, x, Q)
        {
          assert Landed(b, x, P);
          assert AnyPathReaches(b, x);
        }
      }
    }
  }

  lemma {:induction false} FrameTrans(b: Builder, b1: Builder, b2: Builder, k: BlockId, k1: BlockId)
    requires Frame(b, b1, k) && Frame(b1, b2, k1)
    requires k1 == k || k1 >= |b.blocks|
    requires b1.current.None? || b1.current == Some(k1)
    ensures Frame(b, b2, k)
  {
  }

  /** A target stays legitimate while only the current block and new blocks are written. */
  lemma {:induction false} LandedKept(b: Builder, b': Builder, k: BlockId, x: BlockId, P: set<BlockId>)
    requires Landed(b, x, P) && Frame(b, b', k) && (b.current.None? || b.current == Some(k))
    ensures Landed(b', x, P)
  {
  }

  // ----- conditions -----

  lemma {:induction false} CondInv(b: Builder, e: Expr, t: BlockId, f: BlockId, P: set<BlockId>)
    requires Inv(b, P) && b.current.Some? && Landed(b, t, P) && Landed(b, f, P)
    ensures Inv(LowerCond(b, e, t, f), P)
    ensures Filled(b, LowerCond(b, e, t, f), b.current.value)
    decreases e
  {
    if e.BinaryOp? && e.op.And? {
      AndOrInv(b, e, |b.blocks|, f, t, f, P);
    } else if e.BinaryOp? && e.op.Or? {
      AndOrInv(b, e, t, |b.blocks|, t, f, P);
    } else if e.Not? {
      CondInv(b, e.operand, f, t, P);
    } else {
      SealInv(b, BranchOn(e, t, f), P);
    }
  }

  /** Both operators: test the left operand, then start a block for the right one. */
  lemma {:induction false} AndOrInv(b: Builder, e: Expr, t1: BlockId, f1: BlockId, t: BlockId, f: BlockId,
          P: set<BlockId>)
    requires e.BinaryOp?
    requires Inv(b, P) && b.current.Some? && Landed(b, t, P) && Landed(b, f, P)
    requires (t1 == |b.blocks| && f1 == f) || (t1 == t && f1 == |b.blocks|)
    ensures var rhs := |b.blocks|;
      var b2 := LowerCond(NewBlock(b), e.left, t1, f1);
      var b3 := Start(b2, rhs);
      var b4 := LowerCond(b3, e.right, t, f);
      && Inv(b4, P) && Filled(b, b4, b.current.value)
      && Inv(NewBlock(b), P + {rhs}) && Landed(NewBlock(b), t1, P + {rhs}) && Landed(NewBlock(b), f1, P + {rhs})
      && b3 == b2.(current := Some(rhs)) && Inv(b3, P + {rhs}) && SameStacks(b, b3)
      && b3.blocks[rhs] == Block([], None, Last(b.handlers))
      && Landed(b3, t, P + {rhs}) && Landed(b3, f, P + {rhs}) && Filled(b3, b4, rhs)
    decreases e, 0
  {
    var k, rhs := b.current.value, |b.blocks|;
    var Q := P + {rhs};
    var b1 := NewBlock(b);
    NewBlockInv(b, P);
    InvPromise(b1, P, Q);
    CondInv(b1, e.left, t1, f1, Q);
    var b2 := LowerCond(b1, e.left, t1, f1);
    StartInv(b2, rhs, Q);
    var b3 := Start(b2, rhs);
    LandedKept(b1, b2, k, t, Q);
    LandedKept(b1, b2, k, f, Q);
    CondInv(b3, e.right, t, f, Q);
    var b4 := LowerCond(b3, e.right, t, f);
    FrameTrans(b, b3, b4, k, rhs);
    InvPromise(b4, Q, P);
  }
}
