/**
 Basic blocks, terminators and the finished graph (src/cfg/mod.rs).
 A block's id is its index in the block list.
 */
module Cfg {
  import opened Wrappers
  import opened Hir

  type BlockId = nat

  datatype Terminator =
    | Goto(target: BlockId)
    | BranchOn(cond: Expr, onTrue: BlockId, onFalse: BlockId)
    | Switch(sel: Expr, arms: seq<Arm>, default: BlockId)
    | ReturnT(expr: Option<Expr>)
    | RaiseT(exn: Option<Expr>)

  datatype Arm = Arm(labels: seq<CaseLabel>, target: BlockId)

  /** `term` is None while the block is under construction. */
  datatype Block = Block(stmts: seq<Stmt>, term: Option<Terminator>, handler: Option<BlockId>)

  function ArmTargets(arms: seq<Arm>): (ts: seq<BlockId>)
    ensures |ts| == |arms| && forall i :: 0 <= i < |arms| ==> ts[i] == arms[i].target
  {
    if arms == [] then [] else [arms[0].target] + ArmTargets(arms[1..])
  }

  /** Successor ids, derived from the terminator alone. */
  function Successors(t: Terminator): seq<BlockId> {
    match t
    case Goto(b) => [b]
    case BranchOn(_, x, y) => [x, y]
    case Switch(_, arms, d) => ArmTargets(arms) + [d]
    case ReturnT(_) => []
    case RaiseT(_) => []
  }

  predicate Open(blk: Block) {
    blk.term.None?
  }

  /** Control may pass from block i to block x. */
  predicate Edge(c: seq<Block>, i: BlockId, x: BlockId) {
    i < |c| && c[i].term.Some? && x in Successors(c[i].term.value)
  }

  predicate HasPred(c: seq<Block>, x: BlockId) {
    exists j: BlockId :: j < |c| && Edge(c, j, x)
  }

  /**
   The structural checks of `Cfg::verify` (mod.rs:160-242) but for T3 and T5:
   blocks sealed (S4), successors in range (T1), handlers in range, never a
   block's own and in chains that end (H1 to H3), and an entry without
   predecessors (P3).
   */
  ghost predicate Verified(c: seq<Block>) {
    && |c| > 0
    && (forall i :: 0 <= i < |c| ==> c[i].term.Some?)
    && (forall i: BlockId, x: BlockId :: Edge(c, i, x) ==> x < |c|)
    && (forall i :: 0 <= i < |c| && c[i].handler.Some? ==>
          c[i].handler.value < |c| && c[i].handler.value != i && c[c[i].handler.value].handler.None?)
    && !HasPred(c, 0)
  }

  /** A switch has an arm (T3) and every arm a label (T5). */
  predicate ArmsOk(t: Terminator) {
    t.Switch? ==> t.arms != [] && forall i :: 0 <= i < |t.arms| ==> t.arms[i].labels != []
  }

  predicate ArmsFilled(c: seq<Block>) {
    forall i :: 0 <= i < |c| && c[i].term.Some? ==> ArmsOk(c[i].term.value)
  }

  /** `Cfg::verify` passes. */
  ghost predicate Passes(c: seq<Block>) {
    Verified(c) && ArmsFilled(c)
  }
}
