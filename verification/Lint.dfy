/**
 The two graph lints of src/cfg/lint.rs: W10 (a variable may be used before
 it is assigned) and W11 (a pointer may be NIL when dereferenced).
 */
module Lint {
  import opened Wrappers
  import opened Hir
  import opened Cfg
  import opened Dataflow
  import opened Paths
  import opened Occurrences
  import opened LintScans

  // ----- W10: assigned on every path -----

  /** A statement-by-statement transfer over the first k statements of a block. */
  function After(step: (Stmt, Bits) -> Bits, ss: seq<Stmt>, k: nat, bits: Bits): Bits
    requires k <= |ss|
    decreases k
  {
    if k == 0 then bits else step(ss[k - 1], After(step, ss, k - 1, bits))
  }

  function AssignBlock(vars: seq<string>, blk: Block, bits: Bits): Bits {
    var out := After((s, x) => AssignStmt(vars, s, x), blk.stmts, |blk.stmts|, bits);
    var e := TermExpr(blk.term);
    if e.Some? then ScanExpr(vars, e.value, out) else out
  }

  lemma {:induction false} AssignAfter(vars: seq<string>, ss: seq<Stmt>, k: nat, bits: Bits)
    requires k <= |ss|
    ensures var r := After((s, x) => AssignStmt(vars, s, x), ss, k, bits);
      && |r| == |bits|
      && forall i: nat :: i < |bits| ==> (r[i] <==> bits[i] || exists j :: 0 <= j < k && StmtDefines(vars, ss[j], i))
    decreases k
  {
    if k > 0 {
      AssignAfter(vars, ss, k - 1, bits);
      AssignMeaning(vars, ss[k - 1], After((s, x) => AssignStmt(vars, s, x), ss, k - 1, bits));
    }
  }

  function DefinitelyAssigned(vars: seq<string>, c: seq<Block>): Analysis<Bits> {
    Analysis(seq(|vars|, _ => false), AllTrue(|vars|), Meet,
             (b: BlockId, x: Bits) => if b < |c| then AssignBlock(vars, c[b], x) else x)
  }

  function AssignEffect(vars: seq<string>, c: seq<Block>): (BlockId, nat) -> Effect {
    (b: BlockId, i: nat) => if b < |c| && BlockDefines(vars, c[b], i) then Gen else Keep
  }

  lemma {:induction false} AssignedIsBitwise(vars: seq<string>, c: seq<Block>)
    ensures Bitwise(DefinitelyAssigned(vars, c), |vars|, AssignEffect(vars, c))
  {
    var a, n, eff := DefinitelyAssigned(vars, c), |vars|, AssignEffect(vars, c);
    forall b: BlockId, x: Bits | |x| == n
      ensures |a.transfer(b, x)| == n && forall i: nat :: i < n ==> a.transfer(b, x)[i] == App(eff(b, i), x[i])
    {
      if b < |c| {
        var ss := c[b].stmts;
        AssignAfter(vars, ss, |ss|, x);
        var e := TermExpr(c[b].term);
        if e.Some? { ScanMeaning(vars, e.value, After((s, y) => AssignStmt(vars, s, y), ss, |ss|, x)); }
      }
    }
  }

  /** Some block of the path defines variable i. */
  predicate PathDefines(vars: seq<string>, c: seq<Block>, p: seq<BlockId>, i: nat) {
    exists k :: 0 <= k < |p| && p[k] < |c| && BlockDefines(vars, c[p[k]], i)
  }

  /** A path's bit is set exactly when one of its blocks defines the variable. */
  lemma {:induction false} AssignedOnPath(vars: seq<string>, c: seq<Block>, p: seq<BlockId>, i: nat)
    requires i < |vars|
    ensures PathBit(DefinitelyAssigned(vars, c).entry, AssignEffect(vars, c), p, i)
       <==> PathDefines(vars, c, p, i)
    decreases p
  {
    if p != [] {
      var init := p[..|p| - 1];
      AssignedOnPath(vars, c, init, i);
      assert forall k :: 0 <= k < |init| ==> init[k] == p[k];
      var l := p[|p| - 1];
      if l < |c| && BlockDefines(vars, c[l], i) { assert p[|p| - 1] == l; }
    }
  }

  lemma {:induction false} AssignedExactAt(vars: seq<string>, c: seq<Block>, preds: seq<seq<BlockId>>,
          inn: seq<Bits>, out: seq<Bits>, b: BlockId, i: nat)
    requires GraphOk(c, preds) && SolverInv(DefinitelyAssigned(vars, c), BitLattice(|vars|), c, preds, [], inn, out)
    requires b < |c| && i < |vars|
    ensures |out[b]| == |vars|
    ensures out[b][i] <==> forall p :: PathTo(c, p, b) ==> PathDefines(vars, c, p, i)
  {
    var a, eff := DefinitelyAssigned(vars, c), AssignEffect(vars, c);
    AssignedIsBitwise(vars, c);
    FixpointIsMop(a, |vars|, eff, c, preds, inn, out, b, i);
    forall p ensures PathBit(a.entry, eff, p, i) <==> PathDefines(vars, c, p, i) {
      AssignedOnPath(vars, c, p, i);
    }
  }

  /** Some block of the path writes the local. */
  ghost predicate PathWrites(c: seq<Block>, p: seq<BlockId>, name: string) {
    exists k :: 0 <= k < |p| && p[k] < |c| && BlockWrites(c[p[k]], name)
  }

  lemma {:induction false} PathWritesIff(vars: seq<string>, c: seq<Block>, p: seq<BlockId>, name: string, i: nat)
    requires IndexOf(vars, name) == Some(i)
    ensures PathDefines(vars, c, p, i) <==> PathWrites(c, p, name)
  {
    hide IndexOf, BlockDefines, BlockWrites;
    forall k | 0 <= k < |p| && p[k] < |c| ensures BlockDefines(vars, c[p[k]], i) <==> BlockWrites(c[p[k]], name) {
      BlockDefinesIff(vars, c[p[k]], name, i);
    }
  }

  /**
   W10's analysis is exact: the bit of a tracked variable at the end of block b
   is set exactly when every path from the entry through b contains a block
   that writes the variable.
   */
  lemma {:induction false} DefinitelyAssignedExact(vars: seq<string>, c: seq<Block>, preds: seq<seq<BlockId>>,
          inn: seq<Bits>, out: seq<Bits>, b: BlockId, name: string)
    requires GraphOk(c, preds) && SolverInv(DefinitelyAssigned(vars, c), BitLattice(|vars|), c, preds, [], inn, out)
    requires b < |c| && name in vars
    ensures var i := IndexOf(vars, name);
      && i.Some? && i.value < |vars| == |out[b]|
      && (out[b][i.value] <==> forall p :: PathTo(c, p, b) ==> PathWrites(c, p, name))
  {
    hide PathDefines, PathWrites, SolverInv, GraphOk;
    var i := IndexOf(vars, name).value;
    AssignedExactAt(vars, c, preds, inn, out, b, i);
    forall p ensures PathDefines(vars, c, p, i) <==> PathWrites(c, p, name) {
      PathWritesIff(vars, c, p, name, i);
    }
  }

  // ----- W11: the last change on the way -----

  /** The last of the first k statements that changes variable i decides. */
  function NilEffects(vars: seq<string>, ss: seq<Stmt>, k: nat, i: nat): Effect
    requires k <= |ss|
    decreases k
  {
    if k == 0 then Keep
    else if NilEffect(vars, ss[k - 1], i).Keep? then NilEffects(vars, ss, k - 1, i)
    else NilEffect(vars, ss[k - 1], i)
  }

  lemma {:induction false} NilAfter(vars: seq<string>, ss: seq<Stmt>, k: nat, bits: Bits)
    requires k <= |ss|
    ensures var r := After((s, x) => NilStmt(vars, s, x), ss, k, bits);
      && |r| == |bits|
      && forall i: nat :: i < |bits| ==> r[i] == App(NilEffects(vars, ss, k, i), bits[i])
    decreases k
  {
    if k > 0 { NilAfter(vars, ss, k - 1, bits); }
  }

  function NilSafety(vars: seq<string>, params: seq<string>, c: seq<Block>): Analysis<Bits> {
    Analysis(NilEntry(vars, params, seq(|vars|, _ => false)), AllTrue(|vars|), Meet,
             (b: BlockId, x: Bits) =>
               if b < |c| then After((s, y) => NilStmt(vars, s, y), c[b].stmts, |c[b].stmts|, x) else x)
  }

  function NilBlockEffect(vars: seq<string>, c: seq<Block>): (BlockId, nat) -> Effect {
    (b: BlockId, i: nat) => if b < |c| then NilEffects(vars, c[b].stmts, |c[b].stmts|, i) else Keep
  }

  lemma {:induction false} NilIsBitwise(vars: seq<string>, params: seq<string>, c: seq<Block>)
    ensures Bitwise(NilSafety(vars, params, c), |vars|, NilBlockEffect(vars, c))
  {
    var a, n, eff := NilSafety(vars, params, c), |vars|, NilBlockEffect(vars, c);
    forall b: BlockId, x: Bits | |x| == n
      ensures |a.transfer(b, x)| == n && forall i: nat :: i < n ==> a.transfer(b, x)[i] == App(eff(b, i), x[i])
    {
      if b < |c| { NilAfter(vars, c[b].stmts, |c[b].stmts|, x); }
    }
  }

  /**
   W11's analysis is exact exactly when no block that only sleeping paths reach
   assigns NIL to, or disposes of, a tracked pointer as its last change of it.
   */
  lemma {:induction false} NilSafetyExactIff(vars: seq<string>, params: seq<string>, c: seq<Block>,
          preds: seq<seq<BlockId>>, inn: seq<Bits>, out: seq<Bits>)
    requires GraphOk(c, preds) && SolverInv(NilSafety(vars, params, c), BitLattice(|vars|), c, preds, [], inn, out)
    ensures ExactAtReachable(NilSafety(vars, params, c), |vars|, NilBlockEffect(vars, c), c, out) <==>
        forall b: BlockId, i: nat ::
          Sleeps(c, NilSafety(vars, params, c).entry, NilBlockEffect(vars, c), b) && i < |vars| ==>
          !NilBlockEffect(vars, c)(b, i).Kill?
  {
    hide ExactAtReachable, NilEffects, Sleeps;
    NilIsBitwise(vars, params, c);
    FixpointIsMopIff(NilSafety(vars, params, c), |vars|, NilBlockEffect(vars, c), c, preds, inn, out);
  }

  /** NEW(p), an empty block, then p := NIL: the empty block changes nothing, so the last one is never visited. */
  function AsleepBody(): seq<Block> {
    [Block([ProcCall(Direct("NEW"), [LocalExpr("p")])], Some(Goto(1)), None),
     Block([], Some(Goto(2)), None),
     Block([Assign(LocalPlace("p"), NilLit)], Some(ReturnT(None)), None)]
  }

  lemma {:induction false} AsleepEdge(i: BlockId, x: BlockId)
    ensures Edge(AsleepBody(), i, x) <==> (i == 0 && x == 1) || (i == 1 && x == 2)
  {
    var c := AsleepBody();
    assert Successors(c[0].term.value) == [1] && Successors(c[1].term.value) == [2];
    assert Successors(c[2].term.value) == [];
  }

  lemma {:induction false} AsleepGraph()
    ensures GraphOk(AsleepBody(), [[], [0], [1]])
    ensures forall i: BlockId, x: BlockId :: Edge(AsleepBody(), i, x) <==> (i == 0 && x == 1) || (i == 1 && x == 2)
  {
    hide Edge;
    forall i: BlockId, x: BlockId ensures Edge(AsleepBody(), i, x) <==> (i == 0 && x == 1) || (i == 1 && x == 2) {
      AsleepEdge(i, x);
    }
  }

  lemma {:induction false} AsleepPaths(p: seq<BlockId>)
    requires PathTo(AsleepBody(), p, 2)
    ensures p == [0, 1, 2]
  {
    AsleepGraph();
    var c := AsleepBody();
    var q := p[..|p| - 1];
    LastEdge(c, p, 2);
    PathInit(c, p, 2);
    LastEdge(c, q, 1);
    PathInit(c, q, 1);
    EntryPath(c, [[], [0], [1]], q[..|q| - 1]);
    assert p == q[..|q| - 1] + [1] + [2];
  }

  /** Here W11's states are not exact: p is taken for non-NIL after the block that assigns NIL to it. */
  lemma {:induction false} AsleepIsInexact(inn: seq<Bits>, out: seq<Bits>)
    requires SolverInv(NilSafety(["p"], [], AsleepBody()), BitLattice(1), AsleepBody(), [[], [0], [1]], [], inn, out)
    ensures var c := AsleepBody();
      !ExactAtReachable(NilSafety(["p"], [], c), 1, NilBlockEffect(["p"], c), c, out)
  {
    hide ExactAtReachable, SolverInv, BitLattice;
    var vars, c := ["p"], AsleepBody();
    var entry, eff := NilSafety(vars, [], c).entry, NilBlockEffect(vars, c);
    AsleepGraph();
    AsleepEffects();
    assert IsPath(c, [0, 1, 2]) && PathTo(c, [0, 1, 2], 2);
    forall p ensures !Wakes(c, entry, eff, p, 2) {
      if Wakes(c, entry, eff, p, 2) {
        AsleepPaths(p);
        assert SomeClear(entry, eff, p[..2]);
        assert p[..2] == [0, 1];
        AsleepBit(entry, eff);
        assert false;
      }
    }
    assert Sleeps(c, entry, eff, 2);
    NilSafetyExactIff(vars, [], c, [[], [0], [1]], inn, out);
  }

  lemma {:induction false} AsleepEffects()
    ensures var eff := NilBlockEffect(["p"], AsleepBody()); eff(0, 0) == Gen && eff(1, 0) == Keep && eff(2, 0) == Kill
  {
    var vars, c := ["p"], AsleepBody();
    assert IndexOf(vars, "p") == Some(0);
    assert NilEffect(vars, c[0].stmts[0], 0) == Gen && NilEffect(vars, c[2].stmts[0], 0) == Kill;
    assert NilEffects(vars, c[0].stmts, 1, 0) == Gen && NilEffects(vars, c[2].stmts, 1, 0) == Kill;
    assert NilEffects(vars, c[1].stmts, 0, 0) == Keep;
  }

  lemma {:induction false} AsleepBit(entry: Bits, eff: (BlockId, nat) -> Effect)
    requires |entry| == 1 && eff(0, 0) == Gen && eff(1, 0) == Keep
    ensures !SomeClear(entry, eff, [0, 1])
  {
    assert [0, 1][..1] == [0] && [0][..0] == [];
    assert PathBit(entry, eff, [0], 0) && PathBit(entry, eff, [0, 1], 0);
  }

  // ----- the scan for warnings -----

  /** A warning about `name`, at statement `pos` of a block or at its terminator. */
  datatype Warning = Warning(name: string, block: BlockId, pos: nat)

  /** How a lint reads a program point: the names it asks about, and the state it keeps. */
  datatype Scan = Scan(
    names: Stmt -> seq<string>,
    termNames: Option<Terminator> -> seq<string>,
    step: (Stmt, Bits) -> Bits
  )

  function NamesAt(sc: Scan, blk: Block, pos: nat): seq<string> {
    if pos < |blk.stmts| then sc.names(blk.stmts[pos]) else sc.termNames(blk.term)
  }

  /** `name` is asked about at (b, pos) while its bit is clear. */
  ghost predicate Flagged(sc: Scan, vars: seq<string>, c: seq<Block>, inn: seq<Bits>, name: string, b: BlockId,
          pos: nat) {
    && b < |c| == |inn| && pos <= |c[b].stmts| && name in NamesAt(sc, c[b], pos)
    && ClearAt(vars, After(sc.step, c[b].stmts, pos, inn[b]), name)
  }

  predicate ClearAt(vars: seq<string>, bits: Bits, name: string) {
    var i := IndexOf(vars, name);
    i.Some? && !(i.value < |bits| && bits[i.value])
  }

  ghost predicate Warned(ws: seq<Warning>, name: string) {
    exists k :: 0 <= k < |ws| && ws[k].name == name
  }

  /** Every warning is about a flagged name, and no name is warned about twice. */
  ghost predicate Honest(sc: Scan, vars: seq<string>, c: seq<Block>, inn: seq<Bits>, ws: seq<Warning>) {
    && (forall k :: 0 <= k < |ws| ==> Flagged(sc, vars, c, inn, ws[k].name, ws[k].block, ws[k].pos))
    && (forall j, k :: 0 <= j < k < |ws| ==> ws[j].name != ws[k].name)
  }

  /** One program point. */
  method ScanPoint(sc: Scan, vars: seq<string>, c: seq<Block>, ghost inn: seq<Bits>, b: BlockId, pos: nat, bits: Bits,
          ws0: seq<Warning>)
    returns (ws: seq<Warning>)
    requires b < |c| == |inn| && pos <= |c[b].stmts| && bits == After(sc.step, c[b].stmts, pos, inn[b])
    requires Honest(sc, vars, c, inn, ws0)
    ensures Honest(sc, vars, c, inn, ws) && ws0 <= ws
    ensures forall name :: Flagged(sc, vars, c, inn, name, b, pos) ==> Warned(ws, name)
  {
    hide IndexOf, After;
    ws := ws0;
    var names := NamesAt(sc, c[b], pos);
    var warned := set k | 0 <= k < |ws| :: ws[k].name;
    for n := 0 to |names|
      invariant Honest(sc, vars, c, inn, ws) && ws0 <= ws
      invariant forall name :: name in warned <==> Warned(ws, name)
      invariant forall m :: 0 <= m < n && ClearAt(vars, bits, names[m]) ==> Warned(ws, names[m])
    {
      if ClearAt(vars, bits, names[n]) && names[n] !in warned {
        ghost var old_ws := ws;
        ws := ws + [Warning(names[n], b, pos)];
        warned := warned + {names[n]};
        assert ws[|ws| - 1].name == names[n];
        assert forall name :: Warned(old_ws, name) ==> Warned(ws, name) by { WarnedMore(old_ws, ws); }
        assert forall name :: Warned(ws, name) ==> Warned(old_ws, name) || name == names[n];
        assert Warned(ws, names[n]);
      }
    }
  }

  lemma {:induction false} WarnedMore(ws: seq<Warning>, ws': seq<Warning>)
    requires ws <= ws'
    ensures forall name :: Warned(ws, name) ==> Warned(ws', name)
  {
    forall name | Warned(ws, name) ensures Warned(ws', name) {
      var k :| 0 <= k < |ws| && ws[k].name == name;
      assert ws'[k].name == name;
    }
  }

  /** One block: its statements in order, then its terminator. */
  method ScanBlock(sc: Scan, vars: seq<string>, c: seq<Block>, inn: seq<Bits>, b: BlockId,
          ws0: seq<Warning>) returns (ws: seq<Warning>)
    requires b < |c| == |inn| && Honest(sc, vars, c, inn, ws0)
    ensures Honest(sc, vars, c, inn, ws) && ws0 <= ws
    ensures forall name, pos :: Flagged(sc, vars, c, inn, name, b, pos) ==> Warned(ws, name)
  {
    ws := ws0;
    var bits := inn[b];
    for pos := 0 to |c[b].stmts|
      invariant bits == After(sc.step, c[b].stmts, pos, inn[b])
      invariant Honest(sc, vars, c, inn, ws) && ws0 <= ws
      invariant forall name, q: nat :: q < pos && Flagged(sc, vars, c, inn, name, b, q) ==> Warned(ws, name)
    {
      ghost var before := ws;
      ws := ScanPoint(sc, vars, c, inn, b, pos, bits, ws);
      WarnedMore(before, ws);
      bits := sc.step(c[b].stmts[pos], bits);
    }
    ghost var before := ws;
    ws := ScanPoint(sc, vars, c, inn, b, |c[b].stmts|, bits, ws);
    WarnedMore(before, ws);
  }

  /** All blocks. */
  method ScanGraph(sc: Scan, vars: seq<string>, c: seq<Block>, inn: seq<Bits>) returns (ws: seq<Warning>)
    requires |c| == |inn|
    ensures Honest(sc, vars, c, inn, ws)
    ensures forall name, b, pos :: Flagged(sc, vars, c, inn, name, b, pos) ==> Warned(ws, name)
  {
    ws := [];
    for b := 0 to |c|
      invariant Honest(sc, vars, c, inn, ws)
      invariant forall name, d: BlockId, pos :: d < b && Flagged(sc, vars, c, inn, name, d, pos) ==> Warned(ws, name)
    {
      ghost var before := ws;
      ws := ScanBlock(sc, vars, c, inn, b, ws);
      WarnedMore(before, ws);
    }
  }

  // ----- the lints -----

  function UseScan(vars: seq<string>): Scan {
    Scan((s: Stmt) => StmtNames(s).uses, TermUses, (s: Stmt, x: Bits) => UseStmt(vars, s, x))
  }

  function DerefScan(vars: seq<string>): Scan {
    Scan(StmtDerefs, TermDerefs, (s: Stmt, x: Bits) => NilStmt(vars, s, x))
  }

  // ----- bad uses -----

  predicate AtPoint(c: seq<Block>, w: Warning) {
    w.block < |c| && w.pos <= |c[w.block].stmts|
  }

  /** On the path, up to the point, nothing writes the local. */
  ghost predicate UnwrittenOn(c: seq<Block>, p: seq<BlockId>, w: Warning) {
    && PathTo(c, p, w.block) && AtPoint(c, w)
    && (forall k :: 0 <= k < |p| - 1 && p[k] < |c| ==> !BlockWrites(c[p[k]], w.name))
    && (forall j :: 0 <= j < w.pos ==> !StmtWrites(c[w.block].stmts[j], w.name))
  }

  /** The local is tracked, and some path comes to the point without writing it. */
  ghost predicate UseWitness(vars: seq<string>, c: seq<Block>, w: Warning) {
    w.name in vars && exists p :: UnwrittenOn(c, p, w)
  }

  /**
   The point reads the local, on some path nothing has written it there, and
   no call before it in the block counts as writing it.
   */
  ghost predicate BadUse(vars: seq<string>, c: seq<Block>, w: Warning) {
    && UseWitness(vars, c, w) && AtPoint(c, w) && PointReads(c[w.block], w.pos, w.name)
    && forall j :: 0 <= j < w.pos ==> !StmtCallsWrite(c[w.block].stmts[j], w.name)
  }

  /** The block is the entry, or nowhere writes the local. */
  ghost predicate Visible(c: seq<Block>, name: string, b: BlockId) {
    b == 0 || (b < |c| && !BlockWrites(c[b], name))
  }

  lemma {:induction false} PointReadsIff(vars: seq<string>, blk: Block, pos: nat, name: string)
    ensures name in NamesAt(UseScan(vars), blk, pos) <==> PointReads(blk, pos, name)
  {
    hide StmtReads, Reads, Evaluates;
    if pos < |blk.stmts| { StmtReadsIff(blk.stmts[pos], name); } else { TermReadsIff(blk.term, name); }
  }

  /** Exactly the definitions and the names written by calls before the point set the bit. */
  lemma {:induction false} UseAfterIff(vars: seq<string>, ss: seq<Stmt>, k: nat, bits: Bits, i: nat)
    requires k <= |ss| && i < |bits|
    ensures |After(UseScan(vars).step, ss, k, bits)| == |bits|
    ensures After(UseScan(vars).step, ss, k, bits)[i] <==>
      bits[i] || exists j :: 0 <= j < k && (StmtDefines(vars, ss[j], i) || NamesWritten(vars, ss[j], i))
    decreases k
  {
    hide StmtDefines, NamesWritten, UseStmt;
    if k > 0 {
      UseAfterIff(vars, ss, k - 1, bits, i);
      UseStmtIff(vars, ss[k - 1], After(UseScan(vars).step, ss, k - 1, bits), i);
    }
  }

  /** A call in the statement is collected as writing variable i. */
  predicate NamesWritten(vars: seq<string>, s: Stmt, i: nat) {
    exists k :: 0 <= k < |StmtNames(s).defs| && IndexOf(vars, StmtNames(s).defs[k]) == Some(i)
  }

  lemma {:induction false} NamesWrittenIff(vars: seq<string>, s: Stmt, name: string, i: nat)
    requires IndexOf(vars, name) == Some(i)
    ensures NamesWritten(vars, s, i) <==> StmtCallsWrite(s, name)
  {
    hide StmtNames, StmtCallsWrite, IndexOf;
    StmtReadsIff(s, name);
    forall x: string ensures IndexOf(vars, x) == Some(i) <==> x == name {
      SameIndex(vars, x, name, i);
    }
  }

  lemma {:induction false} SameIndex(vars: seq<string>, x: string, name: string, i: nat)
    requires IndexOf(vars, name) == Some(i)
    ensures IndexOf(vars, x) == Some(i) <==> x == name
  {
  }

  lemma {:induction false} UseStmtIff(vars: seq<string>, s: Stmt, bits: Bits, i: nat)
    requires i < |bits|
    ensures |UseStmt(vars, s, bits)| == |bits|
    ensures UseStmt(vars, s, bits)[i] <==> bits[i] || StmtDefines(vars, s, i) || NamesWritten(vars, s, i)
  {
    hide StmtNames, StmtDefines, AssignStmt;
    AssignMeaning(vars, s, bits);
    SetNamesIff(vars, StmtNames(s).defs, AssignStmt(vars, s, bits), i);
  }

  lemma {:induction false} SetNamesIff(vars: seq<string>, names: seq<string>, bits: Bits, i: nat)
    requires i < |bits|
    ensures SetNames(vars, names, bits)[i] <==>
      bits[i] || exists k :: 0 <= k < |names| && IndexOf(vars, names[k]) == Some(i)
    decreases names
  {
    if names != [] {
      SetNamesIff(vars, names[1..], SetBit(bits, IndexOf(vars, names[0]), true), i);
      assert forall k :: 0 < k < |names| ==> names[k] == names[1..][k - 1];
    }
  }

  /** The state of the scan at a point, by the names that are written before it. */
  lemma {:induction false} PointClearIff(vars: seq<string>, ss: seq<Stmt>, k: nat, bits: Bits, name: string)
    requires k <= |ss| && |bits| == |vars| && name in vars
    ensures var i := IndexOf(vars, name);
      && i.Some?
      && (ClearAt(vars, After(UseScan(vars).step, ss, k, bits), name) <==>
           !bits[i.value] && forall j :: 0 <= j < k ==> !StmtWrites(ss[j], name) && !StmtCallsWrite(ss[j], name))
  {
    hide StmtDefines, NamesWritten, StmtWrites, StmtCallsWrite, UseScan, After;
    var i := IndexOf(vars, name).value;
    UseAfterIff(vars, ss, k, bits, i);
    forall j | 0 <= j < k
      ensures StmtDefines(vars, ss[j], i) <==> StmtWrites(ss[j], name)
      ensures NamesWritten(vars, ss[j], i) <==> StmtCallsWrite(ss[j], name) {
      StmtDefinesIff(vars, ss[j], name, i);
      NamesWrittenIff(vars, ss[j], name, i);
    }
  }

  /**
   W10 sees exactly the bad uses, in the entry and in every block that does
   not itself write the local.
   */
  lemma {:induction false} FlaggedIff(vars: seq<string>, c: seq<Block>, preds: seq<seq<BlockId>>, inn: seq<Bits>,
          out: seq<Bits>, w: Warning)
    requires GraphOk(c, preds) && SolverInv(DefinitelyAssigned(vars, c), BitLattice(|vars|), c, preds, [], inn, out)
    requires Visible(c, w.name, w.block)
    ensures Flagged(UseScan(vars), vars, c, inn, w.name, w.block, w.pos) <==> BadUse(vars, c, w)
  {
    hide SolverInv, GraphOk, NamesAt, PointReads, StmtWrites, StmtCallsWrite, UnwrittenOn, After, UseScan, Visible,
      IndexOf;
    SolverShape(vars, c, preds, inn, out);
    if AtPoint(c, w) && w.name in vars {
      PointReadsIff(vars, c[w.block], w.pos, w.name);
      PointClearIff(vars, c[w.block].stmts, w.pos, inn[w.block], w.name);
      if Flagged(UseScan(vars), vars, c, inn, w.name, w.block, w.pos) {
        UseHasWitness(vars, c, preds, inn, out, w);
      }
      if BadUse(vars, c, w) {
        ClearAtEntry(vars, c, preds, inn, out, w);
      }
    } else {
      Untracked(vars, w.name);
    }
  }

  lemma {:induction false} Untracked(vars: seq<string>, name: string)
    ensures IndexOf(vars, name).Some? <==> name in vars
  {
  }

  lemma {:induction false} SolverShape(vars: seq<string>, c: seq<Block>, preds: seq<seq<BlockId>>, inn: seq<Bits>,
          out: seq<Bits>)
    requires SolverInv(DefinitelyAssigned(vars, c), BitLattice(|vars|), c, preds, [], inn, out)
    ensures |inn| == |out| == |c| && forall b :: 0 <= b < |c| ==> |inn[b]| == |vars| && |out[b]| == |vars|
  {
    forall b | 0 <= b < |c| ensures |inn[b]| == |vars| && |out[b]| == |vars| {
      assert BitLattice(|vars|).dom(inn[b]) && BitLattice(|vars|).dom(out[b]);
    }
  }

  /** A path without writes to a block that has none leaves the bit clear where the scan of the block begins. */
  lemma {:induction false} ClearAtEntry(vars: seq<string>, c: seq<Block>, preds: seq<seq<BlockId>>, inn: seq<Bits>,
          out: seq<Bits>, w: Warning)
    requires GraphOk(c, preds) && SolverInv(DefinitelyAssigned(vars, c), BitLattice(|vars|), c, preds, [], inn, out)
    requires Visible(c, w.name, w.block) && UseWitness(vars, c, w)
    ensures var i := IndexOf(vars, w.name);
      && i.Some? && w.block < |c| == |inn| && |inn[w.block]| == |vars| && !inn[w.block][i.value]
    ensures AtPoint(c, w) && forall j :: 0 <= j < w.pos ==> !StmtWrites(c[w.block].stmts[j], w.name)
  {
    hide BlockDefines, BlockWrites, StmtWrites;
    var a, b, i := DefinitelyAssigned(vars, c), w.block, IndexOf(vars, w.name).value;
    SolverShape(vars, c, preds, inn, out);
    var p :| UnwrittenOn(c, p, w);
    if b > 0 {
      assert !PathWrites(c, p, w.name);
      DefinitelyAssignedExact(vars, c, preds, inn, out, b, w.name);
      assert !out[b][i];
      assert out[b] != a.bottom;
      AssignedIsBitwise(vars, c);
      BlockDefinesIff(vars, c[b], w.name, i);
      assert a.transfer(b, inn[b])[i] == App(AssignEffect(vars, c)(b, i), inn[b][i]);
    }
  }

  lemma {:induction false} UseHasWitness(vars: seq<string>, c: seq<Block>, preds: seq<seq<BlockId>>, inn: seq<Bits>,
          out: seq<Bits>, w: Warning)
    requires GraphOk(c, preds) && SolverInv(DefinitelyAssigned(vars, c), BitLattice(|vars|), c, preds, [], inn, out)
    requires Flagged(UseScan(vars), vars, c, inn, w.name, w.block, w.pos)
    ensures UseWitness(vars, c, w) && AtPoint(c, w) && PointReads(c[w.block], w.pos, w.name)
  {
    hide StmtWrites, StmtCallsWrite, PointReads, NamesAt, After, UseScan, PathDefines, PathWrites, BlockWrites,
      SolverInv, GraphOk, IndexOf, Bitwise, PathBit, Edge;
    var a, eff, b := DefinitelyAssigned(vars, c), AssignEffect(vars, c), w.block;
    assert w.name in vars by { Untracked(vars, w.name); }
    var i := IndexOf(vars, w.name).value;
    AssignedIsBitwise(vars, c);
    SolverShape(vars, c, preds, inn, out);
    PointReadsIff(vars, c[b], w.pos, w.name);
    PointClearIff(vars, c[b].stmts, w.pos, inn[b], w.name);
    var p := ClearHasPath(a, |vars|, eff, c, preds, inn, out, b, i);
    var q := p[..|p| - 1];
    AssignedOnPath(vars, c, q, i);
    PathWritesIff(vars, c, q, w.name, i);
    assert !PathWrites(c, q, w.name);
    NoneOnPath(c, q, w.name);
    assert forall k :: 0 <= k < |p| - 1 ==> q[k] == p[k];
    assert UnwrittenOn(c, p, w);
  }

  lemma {:induction false} NoneOnPath(c: seq<Block>, p: seq<BlockId>, name: string)
    requires !PathWrites(c, p, name)
    ensures forall k :: 0 <= k < |p| && p[k] < |c| ==> !BlockWrites(c[p[k]], name)
  {
    hide BlockWrites;
  }

  // ----- bad dereferences -----

  /** Before the point, coming by this path, the pointer may be NIL. */
  ghost predicate MaybeNilOn(params: seq<string>, c: seq<Block>, p: seq<BlockId>, w: Warning) {
    && PathTo(c, p, w.block) && AtPoint(c, w)
    && MaybeNilAfter(Trail(c, p[..|p| - 1]) + c[w.block].stmts[..w.pos], params, w.name)
  }

  ghost predicate DerefWitness(vars: seq<string>, params: seq<string>, c: seq<Block>, w: Warning) {
    w.name in vars && exists p :: MaybeNilOn(params, c, p, w)
  }

  lemma {:induction false} PointDerefsIff(vars: seq<string>, blk: Block, pos: nat, name: string)
    ensures name in NamesAt(DerefScan(vars), blk, pos) <==> PointDereferences(blk, pos, name)
  {
    hide StmtDereferences, Derefs, Evaluates;
    if pos < |blk.stmts| { StmtDerefsIff(blk.stmts[pos], name); } else { TermDerefsIff(blk.term, name); }
  }

  lemma {:induction false} LastAppend(a: seq<Stmt>, b: seq<Stmt>, name: string)
    ensures LastChange(a + b, name) == if LastChange(b, name) == Unchanged then LastChange(a, name)
                                       else LastChange(b, name)
    decreases |b|
  {
    hide StmtChange;
    if b == [] {
      assert a + b == a;
    } else {
      LastAppend(a, b[..|b| - 1], name);
      assert (a + b)[..|a + b| - 1] == a + b[..|b| - 1];
    }
  }

  lemma {:induction false} NilEffectsIff(vars: seq<string>, ss: seq<Stmt>, k: nat, name: string, i: nat)
    requires k <= |ss| && IndexOf(vars, name) == Some(i)
    ensures NilEffects(vars, ss, k, i) == EffectOf(LastChange(ss[..k], name))
    decreases k
  {
    hide NilEffect, StmtChange, IndexOf;
    if k > 0 {
      NilEffectsIff(vars, ss, k - 1, name, i);
      NilEffectIff(vars, ss[k - 1], name, i);
      assert ss[..k][..k - 1] == ss[..k - 1];
    }
  }

  /** A path's bit is clear exactly when its statements leave the pointer possibly NIL. */
  lemma {:induction false} NilPathIff(vars: seq<string>, params: seq<string>, c: seq<Block>, p: seq<BlockId>,
          name: string, i: nat)
    requires IndexOf(vars, name) == Some(i) && i < |vars|
    ensures var entry := NilSafety(vars, params, c).entry;
      && |entry| == |vars|
      && (!PathBit(entry, NilBlockEffect(vars, c), p, i) <==> MaybeNilAfter(Trail(c, p), params, name))
    decreases |p|
  {
    hide IndexOf, LastChange, NilEffects;
    if p == [] {
      NilEntryIff(vars, params, seq(|vars|, _ => false), name, i);
      NothingChanges(name);
    } else {
      var b, q := p[|p| - 1], p[..|p| - 1];
      NilPathIff(vars, params, c, q, name, i);
      if b < |c| {
        var ss := c[b].stmts;
        NilEffectsIff(vars, ss, |ss|, name, i);
        assert ss[..|ss|] == ss;
        LastAppend(Trail(c, q), ss, name);
      } else {
        assert Trail(c, p) == Trail(c, q) + [];
        assert Trail(c, q) + [] == Trail(c, q);
      }
    }
  }

  lemma {:induction false} NothingChanges(name: string)
    ensures LastChange([], name) == Unchanged
  {
  }

  /** And at a point of its last block. */
  lemma {:induction false} NilPointIff(vars: seq<string>, params: seq<string>, c: seq<Block>, q: seq<BlockId>,
          ss: seq<Stmt>, k: nat, name: string, i: nat)
    requires IndexOf(vars, name) == Some(i) && i < |vars| && k <= |ss|
    ensures var entry := NilSafety(vars, params, c).entry;
      && |entry| == |vars|
      && (!App(NilEffects(vars, ss, k, i), PathBit(entry, NilBlockEffect(vars, c), q, i)) <==>
           MaybeNilAfter(Trail(c, q) + ss[..k], params, name))
  {
    hide IndexOf, LastChange, NilEffects, PathBit, Trail, NilSafety, NilBlockEffect;
    NilPathIff(vars, params, c, q, name, i);
    NilEffectsIff(vars, ss, k, name, i);
    LastAppend(Trail(c, q), ss[..k], name);
  }

  lemma {:induction false} NilShape(vars: seq<string>, params: seq<string>, c: seq<Block>, preds: seq<seq<BlockId>>,
          inn: seq<Bits>, out: seq<Bits>)
    requires SolverInv(NilSafety(vars, params, c), BitLattice(|vars|), c, preds, [], inn, out)
    ensures |inn| == |out| == |c| && forall b :: 0 <= b < |c| ==> |inn[b]| == |vars| && |out[b]| == |vars|
  {
    forall b | 0 <= b < |c| ensures |inn[b]| == |vars| && |out[b]| == |vars| {
      assert BitLattice(|vars|).dom(inn[b]) && BitLattice(|vars|).dom(out[b]);
    }
  }

  /** The state of the scan at a point. */
  lemma {:induction false} DerefClearIff(vars: seq<string>, ss: seq<Stmt>, k: nat, bits: Bits, name: string)
    requires k <= |ss| && |bits| == |vars| && name in vars
    ensures var i := IndexOf(vars, name);
      && i.Some?
      && (ClearAt(vars, After(DerefScan(vars).step, ss, k, bits), name) <==>
           !App(NilEffects(vars, ss, k, i.value), bits[i.value]))
  {
    NilAfter(vars, ss, k, bits);
  }

  /**
   A W11 warning has a witness exactly when its block is reachable: inside an
   unreachable block the lint still follows the block's own statements.
   */
  lemma {:induction false} DerefWitnessIff(vars: seq<string>, params: seq<string>, c: seq<Block>,
          preds: seq<seq<BlockId>>, inn: seq<Bits>, out: seq<Bits>, w: Warning)
    requires GraphOk(c, preds) && SolverInv(NilSafety(vars, params, c), BitLattice(|vars|), c, preds, [], inn, out)
    requires Flagged(DerefScan(vars), vars, c, inn, w.name, w.block, w.pos)
    ensures AtPoint(c, w) && PointDereferences(c[w.block], w.pos, w.name)
    ensures DerefWitness(vars, params, c, w) <==> Reachable(c, w.block)
  {
    hide NilEffects, PointDereferences, NamesAt, After, DerefScan, MaybeNilAfter, Trail, PathBit, NilBlockEffect,
      IndexOf;
    var a, eff, b := NilSafety(vars, params, c), NilBlockEffect(vars, c), w.block;
    assert w.name in vars by { Untracked(vars, w.name); }
    Untracked(vars, w.name);
    var i := IndexOf(vars, w.name).value;
    PointDerefsIff(vars, c[b], w.pos, w.name);
    NilShape(vars, params, c, preds, inn, out);
    DerefClearIff(vars, c[b].stmts, w.pos, inn[b], w.name);
    if Reachable(c, b) {
      NilIsBitwise(vars, params, c);
      var p: seq<BlockId> :| PathTo(c, p, b);
      if !inn[b][i] {
        p := ClearHasPath(a, |vars|, eff, c, preds, inn, out, b, i);
      }
      NilPointIff(vars, params, c, p[..|p| - 1], c[b].stmts, w.pos, w.name, i);
      assert MaybeNilOn(params, c, p, w);
    }
  }

  /** The path wakes the blocks on it: after each some tracked pointer may be NIL. */
  ghost predicate NilWakes(vars: seq<string>, params: seq<string>, c: seq<Block>, p: seq<BlockId>, b: BlockId) {
    Wakes(c, NilSafety(vars, params, c).entry, NilBlockEffect(vars, c), p, b)
  }

  /** The point dereferences a tracked pointer that may be NIL there, coming by a path that wakes its blocks. */
  ghost predicate BadDeref(vars: seq<string>, params: seq<string>, c: seq<Block>, w: Warning) {
    && w.name in vars && AtPoint(c, w) && PointDereferences(c[w.block], w.pos, w.name)
    && exists p :: NilWakes(vars, params, c, p, w.block) && MaybeNilOn(params, c, p, w)
  }

  /** The block is the entry, or does not change the pointer. */
  predicate Steady(c: seq<Block>, name: string, b: BlockId) {
    b == 0 || (b < |c| && LastChange(c[b].stmts, name) == Unchanged)
  }

  /** W11 sees exactly these, in the entry and in every block that does not itself change the pointer. */
  lemma {:induction false} DerefFlaggedIff(vars: seq<string>, params: seq<string>, c: seq<Block>,
          preds: seq<seq<BlockId>>, inn: seq<Bits>, out: seq<Bits>, w: Warning)
    requires GraphOk(c, preds) && SolverInv(NilSafety(vars, params, c), BitLattice(|vars|), c, preds, [], inn, out)
    requires Steady(c, w.name, w.block)
    ensures Flagged(DerefScan(vars), vars, c, inn, w.name, w.block, w.pos) <==> BadDeref(vars, params, c, w)
  {
    hide SolverInv, GraphOk, NamesAt, PointDereferences, After, DerefScan, IndexOf, NilEffects, Wakes, Steady,
      MaybeNilOn;
    Untracked(vars, w.name);
    if AtPoint(c, w) && w.name in vars {
      var i, b := IndexOf(vars, w.name).value, w.block;
      NilShape(vars, params, c, preds, inn, out);
      PointDerefsIff(vars, c[b], w.pos, w.name);
      DerefClearIff(vars, c[b].stmts, w.pos, inn[b], w.name);
      if !App(NilEffects(vars, c[b].stmts, w.pos, i), inn[b][i]) {
        var p := ClearWakes(vars, params, c, preds, inn, out, w, i);
      }
      if p :| NilWakes(vars, params, c, p, b) && MaybeNilOn(params, c, p, w) {
        WakesClear(vars, params, c, preds, inn, out, w, p, i);
      }
    }
  }

  lemma {:induction false} SteadyIn(vars: seq<string>, params: seq<string>, c: seq<Block>, preds: seq<seq<BlockId>>,
          inn: seq<Bits>, out: seq<Bits>, name: string, b: BlockId, pos: nat, i: nat)
    requires GraphOk(c, preds) && SolverInv(NilSafety(vars, params, c), BitLattice(|vars|), c, preds, [], inn, out)
    requires IndexOf(vars, name) == Some(i) && i < |vars| && 0 < b < |c| && pos <= |c[b].stmts| && Steady(c, name, b)
    ensures |inn| == |out| == |c| && |inn[b]| == |out[b]| == |vars| && inn[b][i] == out[b][i]
    ensures NilBlockEffect(vars, c)(b, i) == Keep && NilEffects(vars, c[b].stmts, pos, i) == Keep
  {
    hide NilEffects, LastChange, IndexOf, Reachable;
    var a, ss := NilSafety(vars, params, c), c[b].stmts;
    NilShape(vars, params, c, preds, inn, out);
    NilEffectsIff(vars, ss, |ss|, name, i);
    NilEffectsIff(vars, ss, pos, name, i);
    LastAppend(ss[..pos], ss[pos..], name);
    assert ss[..|ss|] == ss == ss[..pos] + ss[pos..];
    NilIsBitwise(vars, params, c);
    if out[b] != a.bottom {
      assert out[b][i] == App(NilBlockEffect(vars, c)(b, i), inn[b][i]);
    }
  }

  /** A path's last block, if steady, does not matter. */
  lemma {:induction false} SteadyLast(entry: Bits, eff: (BlockId, nat) -> Effect, p: seq<BlockId>, b: BlockId, i: nat)
    requires i < |entry| && p != [] && p[|p| - 1] == b && eff(b, i) == Keep
    ensures PathBit(entry, eff, p, i) == PathBit(entry, eff, p[..|p| - 1], i)
  {
  }

  lemma {:induction false} ClearWakes(vars: seq<string>, params: seq<string>, c: seq<Block>,
          preds: seq<seq<BlockId>>, inn: seq<Bits>, out: seq<Bits>, w: Warning, i: nat)
    returns (p: seq<BlockId>)
    requires GraphOk(c, preds) && SolverInv(NilSafety(vars, params, c), BitLattice(|vars|), c, preds, [], inn, out)
    requires AtPoint(c, w) && IndexOf(vars, w.name) == Some(i) && i < |vars| && Steady(c, w.name, w.block)
    requires |inn| == |c| && |inn[w.block]| == |vars|
    requires !App(NilEffects(vars, c[w.block].stmts, w.pos, i), inn[w.block][i])
    ensures NilWakes(vars, params, c, p, w.block) && MaybeNilOn(params, c, p, w)
  {
    hide NilEffects, IndexOf, PathBit, Trail, Steady, NilBlockEffect, Wakes, MaybeNilAfter, GraphOk;
    var a, eff, b := NilSafety(vars, params, c), NilBlockEffect(vars, c), w.block;
    NilIsBitwise(vars, params, c);
    if b == 0 {
      p := [0];
      EntryWakes(c, a.entry, eff);
      EntryBit(a.entry, eff, i);
    } else {
      SteadyIn(vars, params, c, preds, inn, out, w.name, b, w.pos, i);
      OutIsWakeBit(a, |vars|, eff, c, preds, inn, out, b, i);
      p :| Wakes(c, a.entry, eff, p, b) && !PathBit(a.entry, eff, p, i);
      WakesEnd(c, a.entry, eff, p, b);
      SteadyLast(a.entry, eff, p, b, i);
    }
    WakesPath(c, a.entry, eff, p, b);
    NilPointIff(vars, params, c, p[..|p| - 1], c[b].stmts, w.pos, w.name, i);
  }

  lemma {:induction false} EntryBit(entry: Bits, eff: (BlockId, nat) -> Effect, i: nat)
    requires i < |entry|
    ensures [0][..0] == [] && PathBit(entry, eff, [], i) == entry[i]
  {
  }

  lemma {:induction false} WakesPath(c: seq<Block>, entry: Bits, eff: (BlockId, nat) -> Effect, p: seq<BlockId>,
          b: BlockId)
    requires Wakes(c, entry, eff, p, b)
    ensures PathTo(c, p, b) && p != [] && p[|p| - 1] == b
  {
  }

  lemma {:induction false} WakesClear(vars: seq<string>, params: seq<string>, c: seq<Block>,
          preds: seq<seq<BlockId>>, inn: seq<Bits>, out: seq<Bits>, w: Warning, p: seq<BlockId>, i: nat)
    requires GraphOk(c, preds) && SolverInv(NilSafety(vars, params, c), BitLattice(|vars|), c, preds, [], inn, out)
    requires IndexOf(vars, w.name) == Some(i) && i < |vars| && Steady(c, w.name, w.block) && AtPoint(c, w)
    requires NilWakes(vars, params, c, p, w.block) && MaybeNilOn(params, c, p, w)
    ensures |inn| == |c| && |inn[w.block]| == |vars|
    ensures !App(NilEffects(vars, c[w.block].stmts, w.pos, i), inn[w.block][i])
  {
    hide NilEffects, IndexOf, PathBit, Trail, Steady, NilBlockEffect, Wakes, MaybeNilAfter, GraphOk;
    var a, eff, b := NilSafety(vars, params, c), NilBlockEffect(vars, c), w.block;
    NilIsBitwise(vars, params, c);
    NilShape(vars, params, c, preds, inn, out);
    WakesPath(c, a.entry, eff, p, b);
    NilPointIff(vars, params, c, p[..|p| - 1], c[b].stmts, w.pos, w.name, i);
    if b == 0 {
      EntryPath(c, preds, p);
      EntryBit(a.entry, eff, i);
    } else {
      SteadyIn(vars, params, c, preds, inn, out, w.name, b, w.pos, i);
      SteadyLast(a.entry, eff, p, b, i);
      OutIsWakeBit(a, |vars|, eff, c, preds, inn, out, b, i);
    }
  }

  // ----- the lints as a whole -----

  /** `lint_uninitialized_vars`: one warning per flagged name, each with a witness path. */
  method LintUninitialized(vars: seq<string>, c: seq<Block>, preds: seq<seq<BlockId>>) returns (ws: seq<Warning>)
    requires GraphOk(c, preds)
    ensures forall k :: 0 <= k < |ws| ==>
      UseWitness(vars, c, ws[k]) && AtPoint(c, ws[k]) && PointReads(c[ws[k].block], ws[k].pos, ws[k].name)
    ensures forall j, k :: 0 <= j < k < |ws| ==> ws[j].name != ws[k].name
    ensures forall w: Warning :: Visible(c, w.name, w.block) && BadUse(vars, c, w) ==> Warned(ws, w.name)
  {
    hide BadUse, Visible, UseWitness, PointReads;
    ws := [];
    if vars == [] { NothingTracked(c); return; }
    var a := DefinitelyAssigned(vars, c);
    AssignedIsBitwise(vars, c);
    BitLawful(a, |vars|, AssignEffect(vars, c));
    var blockIn, blockOut := SolveForward(a, BitLattice(|vars|), c, preds);
    ws := ScanGraph(UseScan(vars), vars, c, blockIn);
    forall k | 0 <= k < |ws|
      ensures UseWitness(vars, c, ws[k]) && AtPoint(c, ws[k]) && PointReads(c[ws[k].block], ws[k].pos, ws[k].name) {
      UseHasWitness(vars, c, preds, blockIn, blockOut, ws[k]);
    }
    forall w: Warning | Visible(c, w.name, w.block) && BadUse(vars, c, w) ensures Warned(ws, w.name) {
      FlaggedIff(vars, c, preds, blockIn, blockOut, w);
    }
  }

  lemma {:induction false} NothingTracked(c: seq<Block>)
    ensures forall w: Warning :: !BadUse([], c, w)
    ensures forall params, w: Warning :: !BadDeref([], params, c, w)
  {
  }

  /** `lint_nil_safety`: sound at every reachable block, and complete where the block leaves the pointer alone. */
  method LintNilSafety(vars: seq<string>, params: seq<string>, c: seq<Block>,
          preds: seq<seq<BlockId>>) returns (ws: seq<Warning>)
    requires GraphOk(c, preds)
    ensures forall k :: 0 <= k < |ws| ==>
        && AtPoint(c, ws[k]) && PointDereferences(c[ws[k].block], ws[k].pos, ws[k].name)
        && (DerefWitness(vars, params, c, ws[k]) <==> Reachable(c, ws[k].block))
    ensures forall j, k :: 0 <= j < k < |ws| ==> ws[j].name != ws[k].name
    ensures forall w: Warning :: Steady(c, w.name, w.block) && BadDeref(vars, params, c, w) ==> Warned(ws, w.name)
  {
    hide BadDeref, Steady, DerefWitness, PointDereferences, Reachable;
    ws := [];
    if vars == [] { NothingTracked(c); return; }
    var a := NilSafety(vars, params, c);
    NilIsBitwise(vars, params, c);
    BitLawful(a, |vars|, NilBlockEffect(vars, c));
    var blockIn, blockOut := SolveForward(a, BitLattice(|vars|), c, preds);
    ws := ScanGraph(DerefScan(vars), vars, c, blockIn);
    forall k | 0 <= k < |ws|
      ensures AtPoint(c, ws[k]) && PointDereferences(c[ws[k].block], ws[k].pos, ws[k].name)
      ensures DerefWitness(vars, params, c, ws[k]) <==> Reachable(c, ws[k].block) {
      DerefWitnessIff(vars, params, c, preds, blockIn, blockOut, ws[k]);
    }
    forall w: Warning | Steady(c, w.name, w.block) && BadDeref(vars, params, c, w) ensures Warned(ws, w.name) {
      DerefFlaggedIff(vars, params, c, preds, blockIn, blockOut, w);
    }
  }

  // ----- what the lints do not see -----

  /** Every path through the end of b defines every tracked variable. */
  ghost predicate Complete(vars: seq<string>, c: seq<Block>, b: BlockId) {
    forall i: nat, p :: i < |vars| && PathTo(c, p, b) ==> PathDefines(vars, c, p, i)
  }

  /**
   A block, other than the entry, at whose end every tracked variable is
   assigned on every path draws no W10 warning, whatever it reads: its entry
   state was never recorded.
   */
  lemma {:induction false} CompleteBlocksAreSilent(vars: seq<string>, c: seq<Block>, preds: seq<seq<BlockId>>,
          inn: seq<Bits>, out: seq<Bits>, name: string, b: BlockId, pos: nat)
    requires GraphOk(c, preds) && SolverInv(DefinitelyAssigned(vars, c), BitLattice(|vars|), c, preds, [], inn, out)
    requires 0 < b < |c| && Complete(vars, c, b)
    ensures !Flagged(UseScan(vars), vars, c, inn, name, b, pos)
  {
    hide SolverInv, GraphOk, Complete;
    SolverShape(vars, c, preds, inn, out);
    CompleteIsBottom(vars, c, preds, inn, out, b);
    if pos <= |c[b].stmts| && IndexOf(vars, name).Some? {
      UseAfterIff(vars, c[b].stmts, pos, inn[b], IndexOf(vars, name).value);
    }
  }

  lemma {:induction false} CompleteIsBottom(vars: seq<string>, c: seq<Block>, preds: seq<seq<BlockId>>, inn: seq<Bits>,
          out: seq<Bits>, b: BlockId)
    requires GraphOk(c, preds) && SolverInv(DefinitelyAssigned(vars, c), BitLattice(|vars|), c, preds, [], inn, out)
    requires 0 < b < |c| && Complete(vars, c, b)
    ensures |inn| == |c| && inn[b] == AllTrue(|vars|)
  {
    hide PathDefines;
    SolverShape(vars, c, preds, inn, out);
    forall i: nat | i < |vars| ensures out[b][i] {
      AssignedExactAt(vars, c, preds, inn, out, b, i);
    }
    assert out[b] == AllTrue(|vars|);
  }

  /** y := x; x := 1, after an empty entry block, with x tracked. */
  function MissedBody(): seq<Block> {
    [Block([], Some(Goto(1)), None),
     Block([Assign(LocalPlace("y"), LocalExpr("x")), Assign(LocalPlace("x"), IntLit(1))], Some(ReturnT(None)), None)]
  }

  /** So W10 is not complete: here x is read before it is assigned, and no run of the lint says so. */
  lemma {:induction false} MissedUse(inn: seq<Bits>, out: seq<Bits>)
    requires SolverInv(DefinitelyAssigned(["x"], MissedBody()), BitLattice(1), MissedBody(), [[], [0]], [], inn, out)
    ensures GraphOk(MissedBody(), [[], [0]])
    ensures PointReads(MissedBody()[1], 0, "x") && UseWitness(["x"], MissedBody(), Warning("x", 1, 0))
    ensures !Flagged(UseScan(["x"]), ["x"], MissedBody(), inn, "x", 1, 0)
  {
    var c, preds, vars := MissedBody(), [[], [0]], ["x"];
    MissedGraph();
    MissedNames();
    MissedWitness();
    MissedComplete();
    hide SolverInv, GraphOk, UseWitness, Complete, PointReads;
    CompleteBlocksAreSilent(vars, c, preds, inn, out, "x", 1, 0);
  }

  lemma {:induction false} MissedComplete()
    ensures Complete(["x"], MissedBody(), 1)
  {
    hide BlockDefines, PathDefines, PathTo, MissedBody;
    var c := MissedBody();
    assert |c| == 2 && BlockDefines(["x"], c[1], 0) by { MissedDefines(); }
    forall i: nat, p | i < 1 && PathTo(c, p, 1) ensures PathDefines(["x"], c, p, i) {
      EndDefines(["x"], c, p, 1, i);
    }
  }

  lemma {:induction false} MissedDefines()
    ensures |MissedBody()| == 2 && BlockDefines(["x"], MissedBody()[1], 0)
  {
    assert StmtDefines(["x"], MissedBody()[1].stmts[1], 0);
  }

  lemma {:induction false} EndDefines(vars: seq<string>, c: seq<Block>, p: seq<BlockId>, b: BlockId, i: nat)
    requires PathTo(c, p, b) && b < |c| && BlockDefines(vars, c[b], i)
    ensures PathDefines(vars, c, p, i)
  {
    hide BlockDefines;
    assert p[|p| - 1] == b;
  }

  lemma {:induction false} MissedNames()
    ensures PointReads(MissedBody()[1], 0, "x") && BlockWrites(MissedBody()[1], "x")
  {
    var c := MissedBody();
    ReadsUnfold(Node(LocalExpr("x"), false), "x");
    assert StmtReads(c[1].stmts[0], "x");
    assert StmtWrites(c[1].stmts[1], "x");
  }

  lemma {:induction false} MissedWitness()
    ensures UseWitness(["x"], MissedBody(), Warning("x", 1, 0))
  {
    var c := MissedBody();
    MissedGraph();
    assert IsPath(c, [0, 1]);
    assert !BlockWrites(c[0], "x");
    assert UnwrittenOn(c, [0, 1], Warning("x", 1, 0));
  }

  lemma {:induction false} MissedGraph()
    ensures GraphOk(MissedBody(), [[], [0]]) && Edge(MissedBody(), 0, 1)
  {
    var c := MissedBody();
    assert Successors(c[0].term.value) == [1] && Successors(c[1].term.value) == [];
  }

  /** RETURN, and an unreachable block with p := NIL; y := p^. */
  function UnreachableBody(): seq<Block> {
    [Block([], Some(ReturnT(None)), None),
     Block([Assign(LocalPlace("p"), NilLit), Assign(LocalPlace("y"), Deref(LocalExpr("p")))],
           Some(ReturnT(None)), None)]
  }

  /** Here W11 warns and no path leads to the dereference; handlers, which no edge reaches, are such blocks. */
  lemma {:induction false} UnreachableDeref(inn: seq<Bits>, out: seq<Bits>)
    requires var c := UnreachableBody();
      SolverInv(NilSafety(["p"], [], c), BitLattice(1), c, [[], []], [], inn, out)
    ensures GraphOk(UnreachableBody(), [[], []])
    ensures Flagged(DerefScan(["p"]), ["p"], UnreachableBody(), inn, "p", 1, 1)
    ensures !DerefWitness(["p"], [], UnreachableBody(), Warning("p", 1, 1))
  {
    var c, vars := UnreachableBody(), ["p"];
    UnreachableGraph();
    UnreachableNames();
    assert BitLattice(1).dom(inn[1]);
    assert IndexOf(vars, "p") == Some(0);
    NilAfter(vars, c[1].stmts, 1, inn[1]);
    hide SolverInv, GraphOk;
    DerefWitnessIff(vars, [], c, [[], []], inn, out, Warning("p", 1, 1));
  }

  lemma {:induction false} UnreachableNames()
    ensures var c, vars := UnreachableBody(), ["p"];
      "p" in NamesAt(DerefScan(vars), c[1], 1) && NilEffects(vars, c[1].stmts, 1, 0) == Kill
  {
    var c, vars := UnreachableBody(), ["p"];
    assert IndexOf(vars, "p") == Some(0);
    assert StmtDerefs(c[1].stmts[1]) == [] + (["p"] + CollectDerefs(LocalExpr("p")));
    assert NilEffect(vars, c[1].stmts[0], 0) == Kill;
  }

  lemma {:induction false} UnreachableGraph()
    ensures GraphOk(UnreachableBody(), [[], []]) && !Reachable(UnreachableBody(), 1)
  {
    var c := UnreachableBody();
    assert Successors(c[0].term.value) == [] && Successors(c[1].term.value) == [];
    forall p ensures !PathTo(c, p, 1) {
      if PathTo(c, p, 1) { LastEdge(c, p, 1); }
    }
  }
}
