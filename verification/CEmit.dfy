/**
 Emission of a procedure body as C (src/codegen_c/cfg_emit.rs) for graphs
 without exception handlers: a list of labelled lines with gotos, and what
 running those lines does.
 */
module CEmit {
  import opened Wrappers
  import opened Hir
  import opened Cfg
  import opened Semantics

  datatype Line =
    | Label(id: BlockId)
    | Exec(s: Stmt)
    | GotoLine(id: BlockId)
    | IfElse(cond: Expr, onTrue: BlockId, onFalse: BlockId)
    | IfLabels(sel: Expr, labels: seq<CaseLabel>, target: BlockId)   // one switch arm, its label tests joined by ||
    | ReturnExpr(e: Expr)
    | ReturnConst(v: Option<int>)                                    // `return;`, or `return 0;` in main
    | RaiseExpr(e: Expr)
    | RaiseConst(x: int)                                             // a bare RAISE outside any handler

  /** What `m2_raise(1, NULL, NULL)` raises (cfg_emit.rs:199). */
  const BareRaise: int := 1

  function ArmLines(sel: Expr, arms: seq<Arm>): (ls: seq<Line>)
    ensures |ls| == |arms|
    decreases arms
  {
    if arms == [] then [] else [IfLabels(sel, arms[0].labels, arms[0].target)] + ArmLines(sel, arms[1..])
  }

  /** `emit_c_terminator`. */
  function TermLines(t: Terminator, voidReturn: Option<int>): (ls: seq<Line>)
    ensures ls != []
  {
    match t
    case Goto(b) => [GotoLine(b)]
    case BranchOn(e, x, y) => [IfElse(e, x, y)]
    case Switch(sel, arms, d) => ArmLines(sel, arms) + [GotoLine(d)]
    case ReturnT(e) => [if e.Some? then ReturnExpr(e.value) else ReturnConst(voidReturn)]
    case RaiseT(e) => [if e.Some? then RaiseExpr(e.value) else RaiseConst(BareRaise)]
  }

  function StmtLines(ss: seq<Stmt>): (ls: seq<Line>)
    ensures |ls| == |ss| && forall i :: 0 <= i < |ss| ==> ls[i] == Exec(ss[i])
  {
    seq(|ss|, i requires 0 <= i < |ss| => Exec(ss[i]))
  }

  /** The entry block gets no label: control falls into it from the function header. */
  function LabelLines(b: BlockId): seq<Line> {
    if b > 0 then [Label(b)] else []
  }

  function BlockLines(c: seq<Block>, b: BlockId, voidReturn: Option<int>): seq<Line>
    requires b < |c|
  {
    LabelLines(b) + StmtLines(c[b].stmts) + (if c[b].term.Some? then TermLines(c[b].term.value, voidReturn) else [])
  }

  /** The lines of the first n blocks. */
  function Emitted(c: seq<Block>, n: nat, voidReturn: Option<int>): seq<Line>
    requires n <= |c|
    decreases n
  {
    if n == 0 then [] else Emitted(c, n - 1, voidReturn) + BlockLines(c, n - 1, voidReturn)
  }

  /** `emit_cfg_body_inner`: blocks in order, each with its label, statements and terminator. */
  method EmitBody(c: seq<Block>, voidReturn: Option<int>) returns (lines: seq<Line>)
    ensures lines == Emitted(c, |c|, voidReturn)
  {
    lines := [];
    for b := 0 to |c|
      invariant lines == Emitted(c, b, voidReturn)
    {
      lines := EmitBlock(c, b, voidReturn, lines);
    }
  }

  method EmitBlock(c: seq<Block>, b: BlockId, voidReturn: Option<int>, before: seq<Line>) returns (lines: seq<Line>)
    requires b < |c|
    ensures lines == before + BlockLines(c, b, voidReturn)
  {
    hide TermLines;
    lines := before;
    if b > 0 { lines := lines + [Label(b)]; }
    assert lines == before + LabelLines(b);
    lines := EmitStmts(c[b].stmts, lines);
    assert before + LabelLines(b) + StmtLines(c[b].stmts) == before + (LabelLines(b) + StmtLines(c[b].stmts));
    if c[b].term.Some? { lines := lines + TermLines(c[b].term.value, voidReturn); }
  }

  method EmitStmts(ss: seq<Stmt>, before: seq<Line>) returns (lines: seq<Line>)
    ensures lines == before + StmtLines(ss)
  {
    lines := before;
    for i := 0 to |ss|
      invariant lines == before + StmtLines(ss)[..i]
    {
      lines := lines + [Exec(ss[i])];
    }
  }

  // ----- running the lines -----

  datatype CConfig<S> =
    | Pc(pc: nat, st: State<S>)
    | Ended(value: Option<int>, st: State<S>)
    | Aborted(x: int, st: State<S>)
    | Crashed

  /** Where a label stands; past the end if it is missing. */
  function FindLabel(lines: seq<Line>, id: BlockId): (k: nat)
    ensures k <= |lines|
    decreases lines
  {
    if lines == [] then 0 else if lines[0] == Label(id) then 0 else 1 + FindLabel(lines[1..], id)
  }

  /** One label test.  A range is two comparisons, each with the selector's text (cfg_emit.rs:212-216). */
  function EvalLabel<S>(I: Interp<S>, sel: Expr, l: CaseLabel, st: State<S>): Eval<State<S>> {
    match EvalExpr(I, sel, st)
    case Throw(x, st1) => Throw(x, st1)
    case Val(v, st1) =>
      if !l.RangeLabel? then Val(if I.hit(l, v, st1.store) then 1 else 0, st1)
      else if !I.least(l.lo, v, st1.store) then Val(0, st1)
      else
        match EvalExpr(I, sel, st1)
        case Throw(x, st2) => Throw(x, st2)
        case Val(w, st2) => Val(if I.most(l.hi, w, st2.store) then 1 else 0, st2)
  }

  /** The label tests joined by ||; the selector's text, so its evaluation, is repeated in each. */
  function EvalLabels<S>(I: Interp<S>, sel: Expr, labels: seq<CaseLabel>, st: State<S>): Eval<State<S>>
    decreases labels
  {
    if labels == [] then Val(0, st) else
    match EvalLabel(I, sel, labels[0], st)
    case Throw(x, st1) => Throw(x, st1)
    case Val(v, st1) => if v != 0 then Val(1, st1) else EvalLabels(I, sel, labels[1..], st1)
  }

  function Jump<S>(lines: seq<Line>, id: BlockId, st: State<S>): CConfig<S> {
    Pc(FindLabel(lines, id), st)
  }

  function OfOutcome<S>(o: Outcome<S>): CConfig<S> {
    match o
    case Returned(v, st) => Ended(v, st)
    case Raised(x, st) => Aborted(x, st)
    case _ => Crashed
  }

  function CStepAt<S>(I: Interp<S>, lines: seq<Line>, pc: nat, st: State<S>): CConfig<S> {
    if pc >= |lines| then Crashed else
    match lines[pc]
    case Label(_) => Pc(pc + 1, st)
    case Exec(s) =>
      if !IsPrim(s) then Crashed else
      (match PrimOf(I, s, st) case Normal(st1) => Pc(pc + 1, st1) case o => OfOutcome(o))
    case GotoLine(id) => Jump(lines, id, st)
    case IfElse(e, x, y) =>
      (match EvalExpr(I, e, st)
       case Val(v, st1) => Jump(lines, if v != 0 then x else y, st1)
       case Throw(z, st1) => Aborted(z, st1))
    case IfLabels(sel, labels, t) =>
      (match EvalLabels(I, sel, labels, st)
       case Val(v, st1) => if v != 0 then Jump(lines, t, st1) else Pc(pc + 1, st1)
       case Throw(z, st1) => Aborted(z, st1))
    case ReturnExpr(e) => OfOutcome(ReturnOf(I, Some(e), st))
    case ReturnConst(v) => Ended(v, st)
    case RaiseExpr(e) => OfOutcome(RaiseOf(I, Some(e), st))
    case RaiseConst(x) => Aborted(x, st)
  }

  function CStep<S>(I: Interp<S>, lines: seq<Line>, k: CConfig<S>): CConfig<S> {
    if k.Pc? then CStepAt(I, lines, k.pc, k.st) else k
  }

  function CRun<S>(I: Interp<S>, lines: seq<Line>, k: CConfig<S>, n: nat): CConfig<S>
    decreases n
  {
    if n == 0 then k else CRun(I, lines, CStep(I, lines, k), n - 1)
  }

  ghost predicate CLeads<S>(I: Interp<S>, lines: seq<Line>, k: CConfig<S>, k': CConfig<S>) {
    exists n: nat :: CRun(I, lines, k, n) == k'
  }

  lemma {:induction false} CRunAdd<S>(I: Interp<S>, lines: seq<Line>, k: CConfig<S>, m: nat, n: nat)
    ensures CRun(I, lines, k, m + n) == CRun(I, lines, CRun(I, lines, k, m), n)
    decreases m
  {
    if m > 0 { CRunAdd(I, lines, CStep(I, lines, k), m - 1, n); }
  }

  lemma {:induction false} CRunFinal<S>(I: Interp<S>, lines: seq<Line>, k: CConfig<S>, n: nat)
    requires !k.Pc?
    ensures CRun(I, lines, k, n) == k
    decreases n
  {
    if n > 0 { CRunFinal(I, lines, k, n - 1); }
  }

  // ----- where the lines of a block are -----

  function Start(c: seq<Block>, b: BlockId, voidReturn: Option<int>): nat
    requires b <= |c|
  {
    |Emitted(c, b, voidReturn)|
  }

  lemma {:induction false} EmittedPrefix(c: seq<Block>, m: nat, n: nat, vr: Option<int>)
    requires m <= n <= |c|
    ensures Emitted(c, m, vr) <= Emitted(c, n, vr)
    decreases n
  {
    if m < n { EmittedPrefix(c, m, n - 1, vr); }
  }

  lemma {:induction false} LineAt(c: seq<Block>, b: BlockId, k: nat, vr: Option<int>)
    requires b < |c| && k < |BlockLines(c, b, vr)|
    ensures Start(c, b, vr) + k < |Emitted(c, |c|, vr)|
    ensures Emitted(c, |c|, vr)[Start(c, b, vr) + k] == BlockLines(c, b, vr)[k]
  {
    hide BlockLines;
    EmittedPrefix(c, b + 1, |c|, vr);
    assert Emitted(c, b + 1, vr)[Start(c, b, vr) + k] == BlockLines(c, b, vr)[k];
  }

  /** No other line of a block is a label. */
  lemma {:induction false} BlockLabels(c: seq<Block>, b: BlockId, k: nat, vr: Option<int>)
    requires b < |c| && k < |BlockLines(c, b, vr)| && BlockLines(c, b, vr)[k].Label?
    ensures k == 0 && b > 0 && BlockLines(c, b, vr)[0] == Label(b)
  {
    if c[b].term.Some? && c[b].term.value.Switch? { ArmsNoLabel(c[b].term.value.sel, c[b].term.value.arms); }
  }

  lemma {:induction false} ArmsNoLabel(sel: Expr, arms: seq<Arm>)
    ensures forall i :: 0 <= i < |arms| ==> ArmLines(sel, arms)[i] == IfLabels(sel, arms[i].labels, arms[i].target)
    decreases arms
  {
    if arms != [] { ArmsNoLabel(sel, arms[1..]); }
  }

  lemma {:induction false} LinesOf(c: seq<Block>, n: nat, vr: Option<int>)
    requires n <= |c|
    ensures n == 0 ==> Emitted(c, n, vr) == []
    ensures n > 0 ==> Emitted(c, n, vr) == Emitted(c, n - 1, vr) + BlockLines(c, n - 1, vr)
  {
  }

  /** Labels among the first n blocks' lines: only at block starts. */
  lemma {:induction false} LabelsAt(c: seq<Block>, n: nat, i: nat, id: BlockId, vr: Option<int>)
    requires n <= |c| && i < |Emitted(c, n, vr)| && Emitted(c, n, vr)[i] == Label(id)
    ensures 0 < id < n && i == Start(c, id, vr)
    decreases n
  {
    hide Emitted, BlockLines;
    LinesOf(c, n, vr);
    var m := |Emitted(c, n - 1, vr)|;
    if i < m {
      LabelsAt(c, n - 1, i, id, vr);
    } else {
      BlockLabels(c, n - 1, i - m, vr);
    }
  }

  lemma {:induction false} FindFirst(lines: seq<Line>, id: BlockId, i: nat)
    requires i < |lines| && lines[i] == Label(id) && forall j :: 0 <= j < i ==> lines[j] != Label(id)
    ensures FindLabel(lines, id) == i
    decreases lines
  {
    if i > 0 { FindFirst(lines[1..], id, i - 1); }
  }

  /** Every block but the entry has exactly one label, at its start. */
  lemma {:induction false} LabelIsUnique(c: seq<Block>, id: BlockId, vr: Option<int>)
    requires 0 < id < |c|
    ensures var lines := Emitted(c, |c|, vr);
      && FindLabel(lines, id) == Start(c, id, vr) < |lines| && lines[Start(c, id, vr)] == Label(id)
      && forall i :: 0 <= i < |lines| && lines[i] == Label(id) ==> i == Start(c, id, vr)
  {
    var lines := Emitted(c, |c|, vr);
    assert BlockLines(c, id, vr)[0] == Label(id);
    LineAt(c, id, 0, vr);
    forall i | 0 <= i < |lines| && lines[i] == Label(id) ensures i == Start(c, id, vr) {
      LabelsAt(c, |c|, i, id, vr);
    }
    FindFirst(lines, id, Start(c, id, vr));
  }
}
