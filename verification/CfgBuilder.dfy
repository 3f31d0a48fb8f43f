/**
 `CfgBuilder` (src/cfg/build.rs) in its own form: an object whose fields the
 lowering methods update in place.  Each method is proved to leave the state
 that the function of the same name in `Lowering` gives.
 */
module CfgBuilding {
  import opened Wrappers
  import opened Hir
  import opened Cfg
  import L = Lowering
  import Protocol
  import Correctness
  import Arms
  import Panics

  class CfgBuilder {
    var blocks: seq<Block>
    var current: Option<BlockId>
    var loopExits: seq<BlockId>
    var handlers: seq<BlockId>
    var panicked: bool

    ghost function State(): L.Builder
      reads this
    {
      L.Builder(blocks, current, loopExits, handlers, panicked)
    }

    constructor ()
      ensures State() == L.New()
    {
      blocks, current, loopExits, handlers, panicked := [Block([], None, None)], Some(0), [], [], false;
    }

    method NewBlock() returns (id: BlockId)
      modifies this
      ensures State() == L.NewBlock(old(State())) && id == |old(blocks)|
    {
      id := |blocks|;
      var handler := if handlers == [] then None else Some(handlers[|handlers| - 1]);
      blocks := blocks + [Block([], None, handler)];
    }

    method NewBlockNoHandler() returns (id: BlockId)
      modifies this
      ensures State() == L.NewBlockNoHandler(old(State())) && id == |old(blocks)|
    {
      id := |blocks|;
      blocks := blocks + [Block([], None, None)];
    }

    method StartBlock(id: BlockId)
      modifies this
      ensures State() == L.Start(old(State()), id)
    {
      if current.Some? || id >= |blocks| || blocks[id].term.Some? {
        panicked := true;
      } else {
        current := Some(id);
      }
    }

    method Seal(t: Terminator)
      modifies this
      ensures State() == L.Seal(old(State()), t)
    {
      if current.None? || current.value >= |blocks| || blocks[current.value].term.Some? {
        panicked := true;
      } else {
        blocks := blocks[current.value := blocks[current.value].(term := Some(t))];
        current := None;
      }
    }

    method SealIfOpen(t: Terminator)
      modifies this
      ensures State() == L.SealIfOpen(old(State()), t)
    {
      if current.Some? { Seal(t); }
    }

    method PushStmt(s: Stmt)
      modifies this
      ensures State() == L.Push(old(State()), s)
    {
      if current.Some? && current.value < |blocks| {
        var blk := blocks[current.value];
        blocks := blocks[current.value := blk.(stmts := blk.stmts + [s])];
      }
    }

    method PushAll(ss: seq<Stmt>)
      modifies this
      ensures State() == L.PushAll(old(State()), ss)
    {
      for i := 0 to |ss|
        invariant L.PushAll(State(), ss[i..]) == L.PushAll(old(State()), ss)
      {
        assert ss[i..][1..] == ss[i + 1..];
        PushStmt(ss[i]);
      }
    }

    method AnyPathReaches(target: BlockId) returns (found: bool)
      ensures found == L.AnyPathReaches(State(), target)
    {
      for j := 0 to |blocks|
        invariant forall i :: 0 <= i < j && blocks[i].term.Some? ==> target !in Successors(blocks[i].term.value)
      {
        if blocks[j].term.Some? && target in Successors(blocks[j].term.value) {
          return true;
        }
      }
      return false;
    }

    method StartIfReached(id: BlockId)
      modifies this
      ensures State() == L.StartIfReached(old(State()), id)
    {
      var reached := AnyPathReaches(id);
      if reached { StartBlock(id); }
    }

    method Finish() returns (cfg: seq<Block>)
      modifies this
      ensures cfg == L.Finish(old(State()))
    {
      if current.Some? && current.value < |blocks| && blocks[current.value].term.None? {
        blocks := blocks[current.value := blocks[current.value].(term := Some(ReturnT(None)))];
      }
      current := None;
      for i := 0 to |blocks|
        invariant |blocks| == |old(blocks)|
        invariant forall j :: 0 <= j < |blocks| ==> L.SealBlock(blocks[j]) == L.SealBlock(old(blocks)[j])
        invariant forall j :: 0 <= j < i ==> blocks[j].term.Some?
      {
        if blocks[i].term.None? {
          blocks := blocks[i := blocks[i].(term := Some(ReturnT(None)))];
        }
      }
      cfg := blocks;
      assert cfg == L.Finish(old(State()));
    }

    method LowerExprAsBranch(e: Expr, onTrue: BlockId, onFalse: BlockId)
      modifies this
      ensures State() == L.LowerCond(old(State()), e, onTrue, onFalse)
      decreases e
    {
      if e.BinaryOp? && e.op.And? {
        var rhs := NewBlock();
        LowerExprAsBranch(e.left, rhs, onFalse);
        StartBlock(rhs);
        LowerExprAsBranch(e.right, onTrue, onFalse);
      } else if e.BinaryOp? && e.op.Or? {
        var rhs := NewBlock();
        LowerExprAsBranch(e.left, onTrue, rhs);
        StartBlock(rhs);
        LowerExprAsBranch(e.right, onTrue, onFalse);
      } else if e.Not? {
        LowerExprAsBranch(e.operand, onFalse, onTrue);
      } else {
        Seal(BranchOn(e, onTrue, onFalse));
      }
    }

    method LowerStmts(ss: seq<Stmt>)
      modifies this
      ensures State() == L.LowerStmts(old(State()), ss)
      decreases ss, 0
    {
      for i := 0 to |ss|
        invariant L.LowerStmts(State(), ss[i..]) == L.LowerStmts(old(State()), ss)
      {
        assert ss[i..][1..] == ss[i + 1..];
        LowerStmt(ss[i]);
      }
    }

    method LowerStmt(s: Stmt)
      modifies this
      ensures State() == L.LowerStmt(old(State()), s)
      decreases s, 1
    {
      hide L.LowerIf, L.LowerWhile, L.LowerLoop, L.LowerExit, L.LowerRepeat, L.LowerFor, L.LowerCase, L.LowerTry,
        L.Seal, L.Push;
      if current.None? { return; }
      match s {
        case Empty =>
        case Assign(_, _) => PushStmt(s);
        case ProcCall(_, _) => PushStmt(s);
        case If(_, _, _) => LowerIf(s);
        case While(_, _) => LowerWhile(s);
        case Loop(_) => LowerLoop(s);
        case Exit => LowerExit();
        case Repeat(_, _) => LowerRepeat(s);
        case For(_, _, _, _, _, _) => LowerFor(s);
        case Case(_, _, _) => LowerCase(s);
        case Try(_, _, _) => LowerTry(s);
        case Raise(e) => Seal(RaiseT(e));
        case Return(e) => Seal(ReturnT(e));
      }
    }

    method LowerBody(ss: seq<Stmt>, next: BlockId)
      modifies this
      ensures State() == L.LowerBody(old(State()), ss, next)
      decreases ss, 1
    {
      LowerStmts(ss);
      SealIfOpen(Goto(next));
    }

    method OpenArm(cond: Expr, rest: ElseTail, merge: BlockId) returns (thenBlock: BlockId, falseBlock: BlockId)
      modifies this
      ensures State() == L.OpenArm(old(State()), cond, rest, merge)
      ensures thenBlock == |old(blocks)| && falseBlock == L.FalseBlock(old(State()), rest, merge)
    {
      thenBlock := NewBlock();
      falseBlock := merge;
      if !rest.NoElse? { falseBlock := NewBlock(); }
      LowerExprAsBranch(cond, thenBlock, falseBlock);
    }

    method LowerIf(s: Stmt)
      requires s.If?
      modifies this
      ensures State() == L.LowerIf(old(State()), s)
      decreases s, 0
    {
      var merge := NewBlock();
      var thenBlock, cur := OpenArm(s.cond, s.tail, merge);
      StartBlock(thenBlock);
      LowerBody(s.thenBody, merge);
      ghost var rest := L.LowerTail(State(), s.tail, cur, merge);
      var t := s.tail;
      while t.Elsif?
        invariant t == s.tail || t < s.tail
        invariant L.LowerTail(State(), t, cur, merge) == rest
        decreases t
      {
        StartBlock(cur);
        var elsifThen, elsifFalse := OpenArm(t.cond, t.rest, merge);
        StartBlock(elsifThen);
        LowerBody(t.body, merge);
        t, cur := t.rest, elsifFalse;
      }
      if t.Else? {
        StartBlock(cur);
        LowerBody(t.elseBody, merge);
      }
      StartIfReached(merge);
    }

    method PushExit(id: BlockId)
      modifies this
      ensures State() == L.EnterLoop(old(State()), id)
    {
      loopExits := loopExits + [id];
    }

    method PopExit()
      modifies this
      ensures State() == L.LeaveLoop(old(State()))
    {
      if loopExits != [] { loopExits := loopExits[..|loopExits| - 1]; }
    }

    method NewBlocks(n: nat) returns (base: BlockId)
      modifies this
      ensures State() == L.NewBlocks(old(State()), n) && base == |old(blocks)|
    {
      base := |blocks|;
      for i := 0 to n
        invariant State() == L.NewBlocks(old(State()), i)
      {
        var _ := NewBlock();
      }
    }

    method NewBlocksNoHandler(n: nat) returns (base: BlockId)
      modifies this
      ensures State() == L.NewBlocksNoHandler(old(State()), n) && base == |old(blocks)|
    {
      base := |blocks|;
      for i := 0 to n
        invariant State() == L.NewBlocksNoHandler(old(State()), i)
      {
        var _ := NewBlockNoHandler();
      }
    }

    method LowerWhile(s: Stmt)
      requires s.While?
      modifies this
      ensures State() == L.LowerWhile(old(State()), s)
      decreases s, 0
    {
      var header := NewBlocks(3);
      var body, exit := header + 1, header + 2;
      Seal(Goto(header));
      StartBlock(header);
      LowerExprAsBranch(s.cond, body, exit);
      PushExit(exit);
      StartBlock(body);
      LowerBody(s.body, header);
      PopExit();
      StartBlock(exit);
    }

    method LowerLoop(s: Stmt)
      requires s.Loop?
      modifies this
      ensures State() == L.LowerLoop(old(State()), s)
      decreases s, 0
    {
      var header := NewBlocks(2);
      Seal(Goto(header));
      PushExit(header + 1);
      StartBlock(header);
      LowerBody(s.body, header);
      PopExit();
      StartBlock(header + 1);
    }

    method LowerExit()
      modifies this
      ensures State() == L.LowerExit(old(State()))
    {
      if loopExits == [] {
        panicked := true;
      } else {
        Seal(Goto(loopExits[|loopExits| - 1]));
      }
    }

    method LowerRepeat(s: Stmt)
      requires s.Repeat?
      modifies this
      ensures State() == L.LowerRepeat(old(State()), s)
      decreases s, 0
    {
      var body := NewBlocks(2);
      Seal(Goto(body));
      PushExit(body + 1);
      StartBlock(body);
      LowerStmts(s.body);
      if current.Some? { LowerExprAsBranch(s.cond, body + 1, body); }
      PopExit();
      StartBlock(body + 1);
    }

    method LowerFor(s: Stmt)
      requires s.For?
      modifies this
      ensures State() == L.LowerFor(old(State()), s)
      decreases s, 0
    {
      ghost var n := |blocks|;
      PushStmt(L.ForInit(s));
      var cond := NewBlocks(4);
      assert cond == n;
      var body, latch, exit := cond + 1, cond + 2, cond + 3;
      Seal(Goto(cond));
      StartBlock(cond);
      Seal(BranchOn(L.ForCond(s), body, exit));
      PushExit(exit);
      StartBlock(body);
      LowerBody(s.body, latch);
      PopExit();
      StartBlock(latch);
      PushStmt(L.ForAdvance(s));
      Seal(Goto(cond));
      StartBlock(exit);
    }

    method LowerCase(s: Stmt)
      requires s.Case?
      modifies this
      ensures State() == L.LowerCase(old(State()), s)
      decreases s, 0
    {
      var merge := NewBlocks(2 + |s.branches|);
      var default, base := merge + 1, merge + 2;
      Seal(Switch(s.sel, L.SwitchArms(s.branches, base), default));
      LowerBranches(s.branches, s.sel, base, merge);
      LowerElse(s.elseBody, default, merge);
      StartIfReached(merge);
    }

    method LowerBranches(brs: seq<Branch>, sel: Expr, base: BlockId, merge: BlockId)
      modifies this
      ensures State() == L.LowerBranches(old(State()), brs, sel, base, merge)
      decreases brs
    {
      hide L.LowerBody, L.PushAll, L.Start;
      for i := 0 to |brs|
        invariant L.LowerBranches(State(), brs[i..], sel, base + i, merge)
          == L.LowerBranches(old(State()), brs, sel, base, merge)
      {
        assert brs[i..][1..] == brs[i + 1..];
        StartBlock(base + i);
        PushAll(L.Binding(sel, brs[i]));
        LowerBody(brs[i].body, merge);
      }
    }

    method LowerElse(els: OptBody, default: BlockId, merge: BlockId)
      modifies this
      ensures State() == L.LowerElse(old(State()), els, default, merge)
      decreases els
    {
      StartBlock(default);
      match els {
        case NoBody => SealIfOpen(Goto(merge));
        case Body(ss) => LowerBody(ss, merge);
      }
    }

    method OpenTry(s: Stmt) returns (merge: BlockId, catch: BlockId, next: BlockId)
      requires s.Try?
      modifies this
      ensures State() == L.OpenTry(old(State()), s)
      ensures merge == |old(blocks)| && catch == merge + 1 && next == L.TryNext(old(State()), s)
    {
      merge := NewBlock();
      catch := NewBlockNoHandler();
      next := merge;
      if s.finallyBody.Body? { next := NewBlock(); }
      handlers := handlers + [catch];
      var tryBody := NewBlock();
      SealIfOpen(Goto(tryBody));
      StartBlock(tryBody);
    }

    method CloseTry(s: Stmt, next: BlockId, merge: BlockId)
      requires s.Try?
      modifies this
      ensures State() == L.CloseTry(old(State()), s, next, merge)
    {
      if s.finallyBody.Body? {
        StartBlock(next);
        PushAll(s.finallyBody.stmts);
        SealIfOpen(Goto(merge));
      }
    }

    method PopHandler()
      modifies this
      ensures State() == L.LeaveTry(old(State()))
    {
      if handlers != [] { handlers := handlers[..|handlers| - 1]; }
    }

    method LowerTry(s: Stmt)
      requires s.Try?
      modifies this
      ensures State() == L.LowerTry(old(State()), s)
      decreases s, 0
    {
      hide L.OpenTry, L.LowerStmts, L.LeaveTry, L.SealIfOpen, L.Start, L.LowerHandlers, L.CloseTry, L.StartIfReached;
      var merge, catch, next := OpenTry(s);
      LowerStmts(s.body);
      PopHandler();
      SealIfOpen(Goto(next));
      StartBlock(catch);
      LowerHandlers(s.clauses, s.finallyBody, next);
      CloseTry(s, next, merge);
      StartIfReached(merge);
    }

    method Reraise(fin: OptBody)
      modifies this
      ensures State() == L.Reraise(old(State()), fin)
    {
      PushAll(L.OptStmts(fin));
      Seal(RaiseT(None));
    }

    method LowerHandlers(clauses: seq<Clause>, fin: OptBody, next: BlockId)
      modifies this
      ensures State() == L.LowerHandlers(old(State()), clauses, fin, next)
      decreases clauses, 1
    {
      if clauses == [] {
        Reraise(fin);
        return;
      }
      var reraise := NewBlocksNoHandler(1 + |clauses|);
      var base := reraise + 1;
      LowerDispatch(clauses, base, reraise);
      LowerClauses(clauses, base, next);
      StartBlock(reraise);
      Reraise(fin);
    }

    method LowerClauses(clauses: seq<Clause>, base: BlockId, next: BlockId)
      modifies this
      ensures State() == L.LowerClauses(old(State()), clauses, base, next)
      decreases clauses, 0
    {
      hide L.LowerBody, L.Start;
      for i := 0 to |clauses|
        invariant L.LowerClauses(State(), clauses[i..], base + i, next)
          == L.LowerClauses(old(State()), clauses, base, next)
      {
        assert clauses[i..][1..] == clauses[i + 1..];
        StartBlock(base + i);
        LowerBody(clauses[i].body, next);
      }
    }

    method LowerDispatch(clauses: seq<Clause>, base: BlockId, reraise: BlockId)
      modifies this
      ensures State() == L.LowerDispatch(old(State()), clauses, base, reraise)
    {
      for i := 0 to |clauses|
        invariant L.LowerDispatch(State(), clauses[i..], base + i, reraise)
          == L.LowerDispatch(old(State()), clauses, base, reraise)
      {
        assert clauses[i..][1..] == clauses[i + 1..];
        var handler := base + i;
        if clauses[i].exception.None? {
          Seal(Goto(handler));
        } else {
          var test := LocalExpr(clauses[i].exception.value);
          if i + 1 < |clauses| {
            var nextCheck := NewBlockNoHandler();
            Seal(BranchOn(test, handler, nextCheck));
            StartBlock(nextCheck);
          } else {
            Seal(BranchOn(test, handler, reraise));
          }
        }
      }
    }
  }

  /** `build_cfg`: what it returns, when the builder panics, and when `verify` passes. */
  method BuildCfg(body: seq<Stmt>) returns (cfg: seq<Block>, panicked: bool)
    ensures cfg == L.BuildCfg(body)
    ensures panicked <==> !Protocol.LegalStmts(body, false)
    ensures !panicked ==> Verified(cfg)
    ensures !panicked && Passes(cfg) <==> Arms.Accepted(body)
  {
    var builder := new CfgBuilder();
    builder.LowerStmts(body);
    panicked := builder.panicked;
    cfg := builder.Finish();
    Panics.BuilderPanicsIff(body);
    Panics.BuildReturnsIff(body);
    if !panicked { Correctness.BuildIsSafe(body); }
  }
}
