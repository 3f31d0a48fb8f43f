/**
 The CFG builder of src/cfg/build.rs as a function of its state: what each
 operation of `CfgBuilder` leaves behind.  A debug assertion or `expect` that
 would fail sets `panicked`, which no operation ever clears.
 */
module Lowering {
  import opened Wrappers
  import opened Hir
  import opened Cfg

  datatype Builder = Builder(
    blocks: seq<Block>,
    current: Option<BlockId>,
    exits: seq<BlockId>,       // innermost loop's exit block last
    handlers: seq<BlockId>,    // innermost TRY's dispatch block last
    panicked: bool
  )

  function Last<T>(s: seq<T>): Option<T> {
    if s == [] then None else Some(s[|s| - 1])
  }

  // ----- block-level operations, build.rs:23-116 -----

  function New(): Builder {
    Builder([Block([], None, None)], Some(0), [], [], false)
  }

  /** The id of the new block is `|b.blocks|`. */
  function NewBlock(b: Builder): Builder {
    b.(blocks := b.blocks + [Block([], None, Last(b.handlers))])
  }

  function NewBlockNoHandler(b: Builder): Builder {
    b.(blocks := b.blocks + [Block([], None, None)])
  }

  function Start(b: Builder, id: BlockId): Builder {
    if b.current.Some? || id >= |b.blocks| || !Open(b.blocks[id])
    then b.(panicked := true)
    else b.(current := Some(id))
  }

  function Seal(b: Builder, t: Terminator): Builder {
    if b.current.None? || b.current.value >= |b.blocks| || !Open(b.blocks[b.current.value])
    then b.(panicked := true)
    else b.(blocks := b.blocks[b.current.value := b.blocks[b.current.value].(term := Some(t))], current := None)
  }

  function Push(b: Builder, s: Stmt): Builder {
    if b.current.Some? && b.current.value < |b.blocks| then
      var blk := b.blocks[b.current.value];
      b.(blocks := b.blocks[b.current.value := blk.(stmts := blk.stmts + [s])])
    else b
  }

  function PushAll(b: Builder, ss: seq<Stmt>): Builder
    decreases ss
  {
    if ss == [] then b else PushAll(Push(b, ss[0]), ss[1..])
  }

  function SealIfOpen(b: Builder, t: Terminator): Builder {
    if b.current.Some? then Seal(b, t) else b
  }

  /** Does some sealed block list `target` among its successors? */
  predicate AnyPathReaches(b: Builder, target: BlockId) {
    exists j :: 0 <= j < |b.blocks| && b.blocks[j].term.Some? && target in Successors(b.blocks[j].term.value)
  }

  function StartIfReached(b: Builder, id: BlockId): Builder {
    if AnyPathReaches(b, id) then Start(b, id) else b
  }

  function NewBlocks(b: Builder, n: nat): Builder {
    if n == 0 then b else NewBlock(NewBlocks(b, n - 1))
  }

  function NewBlocksNoHandler(b: Builder, n: nat): Builder {
    if n == 0 then b else NewBlockNoHandler(NewBlocksNoHandler(b, n - 1))
  }

  function EnterLoop(b: Builder, exit: BlockId): Builder {
    b.(exits := b.exits + [exit])
  }

  function LeaveLoop(b: Builder): Builder {
    if b.exits == [] then b else b.(exits := b.exits[..|b.exits| - 1])
  }

  function EnterTry(b: Builder, h: BlockId): Builder {
    b.(handlers := b.handlers + [h])
  }

  function LeaveTry(b: Builder): Builder {
    if b.handlers == [] then b else b.(handlers := b.handlers[..|b.handlers| - 1])
  }

  function SealBlock(blk: Block): Block {
    if Open(blk) then blk.(term := Some(ReturnT(None))) else blk
  }

  /** Closing the graph: every block still open returns. */
  function Finish(b: Builder): seq<Block> {
    seq(|b.blocks|, i requires 0 <= i < |b.blocks| => SealBlock(b.blocks[i]))
  }

  // ----- short-circuit conditions, build.rs:702-732 -----

  function LowerCond(b: Builder, e: Expr, onTrue: BlockId, onFalse: BlockId): Builder
    decreases e
  {
    if e.BinaryOp? && e.op.And? then
      var rhs := |b.blocks|;
      LowerCond(Start(LowerCond(NewBlock(b), e.left, rhs, onFalse), rhs), e.right, onTrue, onFalse)
    else if e.BinaryOp? && e.op.Or? then
      var rhs := |b.blocks|;
      LowerCond(Start(LowerCond(NewBlock(b), e.left, onTrue, rhs), rhs), e.right, onTrue, onFalse)
    else if e.Not? then
      LowerCond(b, e.operand, onFalse, onTrue)
    else
      Seal(b, BranchOn(e, onTrue, onFalse))
  }

  // ----- statements, build.rs:120-698 -----

  function LowerStmts(b: Builder, ss: seq<Stmt>): Builder
    decreases ss, 0
  {
    if ss == [] then b else LowerStmts(LowerStmt(b, ss[0]), ss[1..])
  }

  function LowerStmt(b: Builder, s: Stmt): Builder
    decreases s, 1
  {
    if b.current.None? then b else
    match s
    case Empty => b
    case Assign(_, _) => Push(b, s)
    case ProcCall(_, _) => Push(b, s)
    case If(_, _, _) => LowerIf(b, s)
    case While(_, _) => LowerWhile(b, s)
    case Loop(_) => LowerLoop(b, s)
    case Exit => LowerExit(b)
    case Repeat(_, _) => LowerRepeat(b, s)
    case For(_, _, _, _, _, _) => LowerFor(b, s)
    case Case(_, _, _) => LowerCase(b, s)
    case Try(_, _, _) => LowerTry(b, s)
    case Raise(e) => Seal(b, RaiseT(e))
    case Return(e) => Seal(b, ReturnT(e))
  }

  /** Lower a body that falls through to `next`. */
  function LowerBody(b: Builder, ss: seq<Stmt>, next: BlockId): Builder
    decreases ss, 1
  {
    SealIfOpen(LowerStmts(b, ss), Goto(next))
  }

  /** Where a failed test goes: a new block if anything follows, else the merge block. */
  function FalseBlock(b: Builder, rest: ElseTail, merge: BlockId): BlockId {
    if rest.NoElse? then merge else |b.blocks| + 1
  }

  /** The test of one IF or ELSIF part; its body will go to block `|b.blocks|`. */
  function OpenArm(b: Builder, cond: Expr, rest: ElseTail, merge: BlockId): Builder {
    var b1 := if rest.NoElse? then NewBlock(b) else NewBlock(NewBlock(b));
    LowerCond(b1, cond, |b.blocks|, FalseBlock(b, rest, merge))
  }

  function LowerIf(b: Builder, s: Stmt): Builder
    requires s.If?
    decreases s, 0
  {
    var merge, b1 := |b.blocks|, NewBlock(b);
    var b2 := LowerBody(Start(OpenArm(b1, s.cond, s.tail, merge), |b1.blocks|), s.thenBody, merge);
    StartIfReached(LowerTail(b2, s.tail, FalseBlock(b1, s.tail, merge), merge), merge)
  }

  function LowerTail(b: Builder, t: ElseTail, cur: BlockId, merge: BlockId): Builder
    decreases t
  {
    match t
    case NoElse => b
    case Else(body) => LowerBody(Start(b, cur), body, merge)
    case Elsif(cond, body, rest) =>
      var b1 := Start(b, cur);
      var b2 := LowerBody(Start(OpenArm(b1, cond, rest, merge), |b1.blocks|), body, merge);
      LowerTail(b2, rest, FalseBlock(b1, rest, merge), merge)
  }

  function LowerWhile(b: Builder, s: Stmt): Builder
    requires s.While?
    decreases s, 0
  {
    var header, body, exit := |b.blocks|, |b.blocks| + 1, |b.blocks| + 2;
    var b1 := Start(EnterLoop(OpenWhile(b, s), exit), body);
    Start(LeaveLoop(LowerBody(b1, s.body, header)), exit)
  }

  /** Header, body and exit blocks are allocated and the header's test is sealed. */
  function OpenWhile(b: Builder, s: Stmt): Builder
    requires s.While?
  {
    LowerCond(EnterHeader(b), s.cond, |b.blocks| + 1, |b.blocks| + 2)
  }

  function EnterHeader(b: Builder): Builder {
    Start(Seal(NewBlocks(b, 3), Goto(|b.blocks|)), |b.blocks|)
  }

  function LowerLoop(b: Builder, s: Stmt): Builder
    requires s.Loop?
    decreases s, 0
  {
    var header, exit := |b.blocks|, |b.blocks| + 1;
    var b1 := Start(EnterLoop(OpenLoop(b), exit), header);
    Start(LeaveLoop(LowerBody(b1, s.body, header)), exit)
  }

  /** Body and exit blocks are allocated and the open block jumps to the body. */
  function OpenLoop(b: Builder): Builder {
    Seal(NewBlocks(b, 2), Goto(|b.blocks|))
  }

  function LowerExit(b: Builder): Builder {
    if b.exits == [] then b.(panicked := true) else Seal(b, Goto(b.exits[|b.exits| - 1]))
  }

  function LowerRepeat(b: Builder, s: Stmt): Builder
    requires s.Repeat?
    decreases s, 0
  {
    var body, exit := |b.blocks|, |b.blocks| + 1;
    var b1 := Start(EnterLoop(OpenLoop(b), exit), body);
    Start(LeaveLoop(LowerUntil(b1, s, exit, body)), exit)
  }

  /** The body, then a test that leaves when it holds and otherwise goes back. */
  function LowerUntil(b: Builder, s: Stmt, exit: BlockId, body: BlockId): Builder
    requires s.Repeat?
    decreases s.body, 1
  {
    var b1 := LowerStmts(b, s.body);
    if b1.current.Some? then LowerCond(b1, s.cond, exit, body) else b1
  }

  /** `control <= limit` or `control >= limit`. */
  function ForCond(s: Stmt): Expr
    requires s.For?
  {
    BinaryOp(if s.dir.Up? then Le else Ge, LocalExpr(s.control), s.limit)
  }

  /** BY is the signed increment; without it the step is +1 or -1. */
  function ForStep(s: Stmt): Expr
    requires s.For?
  {
    if s.step.Some? then s.step.value else IntLit(if s.dir.Up? then 1 else -1)
  }

  function ForInit(s: Stmt): Stmt
    requires s.For?
  {
    Assign(LocalPlace(s.control), s.start)
  }

  function ForAdvance(s: Stmt): Stmt
    requires s.For?
  {
    Assign(LocalPlace(s.control), BinaryOp(Add, LocalExpr(s.control), ForStep(s)))
  }

  function LowerFor(b: Builder, s: Stmt): Builder
    requires s.For?
    decreases s, 0
  {
    var cond, body, latch, exit := |b.blocks|, |b.blocks| + 1, |b.blocks| + 2, |b.blocks| + 3;
    var b1 := Start(EnterLoop(OpenFor(b, s), exit), body);
    Start(LowerLatch(LeaveLoop(LowerBody(b1, s.body, latch)), s, latch, cond), exit)
  }

  /** Advance the control variable and go back to the test. */
  function LowerLatch(b: Builder, s: Stmt, latch: BlockId, cond: BlockId): Builder
    requires s.For?
  {
    Seal(Push(Start(b, latch), ForAdvance(s)), Goto(cond))
  }

  /** The initial assignment, then test, body, latch and exit blocks with the test sealed. */
  function OpenFor(b: Builder, s: Stmt): Builder
    requires s.For?
  {
    var cond := |b.blocks|;
    Seal(Start(Seal(NewBlocks(Push(b, ForInit(s)), 4), Goto(cond)), cond), BranchOn(ForCond(s), cond + 1, cond + 3))
  }

  /** One switch arm per branch; branch k's block is `base + k`. */
  function SwitchArms(branches: seq<Branch>, base: BlockId): (arms: seq<Arm>)
    ensures |arms| == |branches|
    ensures forall i :: 0 <= i < |branches| ==> arms[i] == Arm(branches[i].labels, base + i)
  {
    seq(|branches|, i requires 0 <= i < |branches| => Arm(branches[i].labels, base + i))
  }

  function Binding(sel: Expr, br: Branch): seq<Stmt> {
    if br.bind.Some? then [Assign(LocalPlace(br.bind.value), sel)] else []
  }

  function OptStmts(e: OptBody): seq<Stmt> {
    if e.Body? then e.stmts else []
  }

  /** Merge, default and branch blocks are allocated and the switch is sealed. */
  function OpenCase(b: Builder, s: Stmt): Builder
    requires s.Case?
  {
    var default, base := |b.blocks| + 1, |b.blocks| + 2;
    Seal(NewBlocks(b, 2 + |s.branches|), Switch(s.sel, SwitchArms(s.branches, base), default))
  }

  function LowerCase(b: Builder, s: Stmt): Builder
    requires s.Case?
    decreases s, 0
  {
    var merge, default, base := |b.blocks|, |b.blocks| + 1, |b.blocks| + 2;
    var b1 := LowerBranches(OpenCase(b, s), s.branches, s.sel, base, merge);
    StartIfReached(LowerElse(b1, s.elseBody, default, merge), merge)
  }

  function LowerElse(b: Builder, els: OptBody, default: BlockId, merge: BlockId): Builder
    decreases els
  {
    match els
    case NoBody => SealIfOpen(Start(b, default), Goto(merge))
    case Body(ss) => LowerBody(Start(b, default), ss, merge)
  }

  function LowerBranches(b: Builder, brs: seq<Branch>, sel: Expr, base: BlockId, merge: BlockId): Builder
    decreases brs
  {
    if brs == [] then b else
    var b1 := LowerBody(PushAll(Start(b, base), Binding(sel, brs[0])), brs[0].body, merge);
    LowerBranches(b1, brs[1..], sel, base + 1, merge)
  }

  /** Where a TRY body and its handlers continue: the FINALLY block, or the merge block. */
  function TryNext(b: Builder, s: Stmt): BlockId
    requires s.Try?
  {
    if s.finallyBody.Body? then |b.blocks| + 2 else |b.blocks|
  }

  /** Merge, dispatch and FINALLY blocks are allocated; the body starts in a block under the new handler. */
  function OpenTry(b: Builder, s: Stmt): Builder
    requires s.Try?
  {
    var b1 := AllocTry(b, s);
    Start(SealIfOpen(NewBlock(b1), Goto(|b1.blocks|)), |b1.blocks|)
  }

  function AllocTry(b: Builder, s: Stmt): Builder
    requires s.Try?
  {
    var b1 := NewBlockNoHandler(NewBlock(b));
    EnterTry(if s.finallyBody.Body? then NewBlock(b1) else b1, |b.blocks| + 1)
  }

  /** The FINALLY statements are copied into their block as they stand. */
  function CloseTry(b: Builder, s: Stmt, next: BlockId, merge: BlockId): Builder
    requires s.Try?
  {
    if s.finallyBody.Body?
    then SealIfOpen(PushAll(Start(b, next), s.finallyBody.stmts), Goto(merge))
    else b
  }

  function LowerTry(b: Builder, s: Stmt): Builder
    requires s.Try?
    decreases s, 0
  {
    var merge, catch, next := |b.blocks|, |b.blocks| + 1, TryNext(b, s);
    var b1 := SealIfOpen(LeaveTry(LowerStmts(OpenTry(b, s), s.body)), Goto(next));
    var b2 := LowerHandlers(Start(b1, catch), s.clauses, s.finallyBody, next);
    StartIfReached(CloseTry(b2, s, next, merge), merge)
  }

  /** The unmatched path: run FINALLY and raise again. */
  function Reraise(b: Builder, fin: OptBody): Builder {
    Seal(PushAll(b, OptStmts(fin)), RaiseT(None))
  }

  /** The dispatch block, the handler bodies and the re-raise block. */
  function LowerHandlers(b: Builder, clauses: seq<Clause>, fin: OptBody, next: BlockId): Builder
    decreases clauses, 1
  {
    if clauses == [] then
      Reraise(b, fin)
    else
      var reraise, base := |b.blocks|, |b.blocks| + 1;
      Reraise(Start(LowerClauses(OpenHandlers(b, clauses), clauses, base, next), reraise), fin)
  }

  /** Re-raise and handler blocks are allocated and the tests are sealed. */
  function OpenHandlers(b: Builder, clauses: seq<Clause>): Builder {
    LowerDispatch(NewBlocksNoHandler(b, 1 + |clauses|), clauses, |b.blocks| + 1, |b.blocks|)
  }

  /** The chain of tests; clause k's handler block is `base + k`. */
  function LowerDispatch(b: Builder, clauses: seq<Clause>, base: BlockId, reraise: BlockId): Builder
    decreases clauses
  {
    if clauses == [] then b
    else if clauses[0].exception.None? then
      LowerDispatch(Seal(b, Goto(base)), clauses[1..], base + 1, reraise)
    else
      var test := LocalExpr(clauses[0].exception.value);
      if |clauses| > 1 then
        var next := |b.blocks|;
        var b1 := Start(Seal(NewBlockNoHandler(b), BranchOn(test, base, next)), next);
        LowerDispatch(b1, clauses[1..], base + 1, reraise)
      else
        Seal(b, BranchOn(test, base, reraise))
  }

  function LowerClauses(b: Builder, clauses: seq<Clause>, base: BlockId, next: BlockId): Builder
    decreases clauses, 0
  {
    if clauses == [] then b else
    LowerClauses(LowerBody(Start(b, base), clauses[0].body, next), clauses[1..], base + 1, next)
  }

  function BuildCfg(body: seq<Stmt>): seq<Block> {
    Finish(LowerStmts(New(), body))
  }
}
