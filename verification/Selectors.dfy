/**
 CASE selectors in emitted C: the text of the selector stands in every
 comparison (src/codegen_c/cfg_emit.rs:152-159, 205-234), so a selector with
 a side effect keeps its meaning only if there is a single comparison.
 */
module Selectors {
  import opened Wrappers
  import opened Hir
  import opened Cfg
  import opened Lowering
  import opened Protocol
  import opened Semantics
  import opened Simulation
  import opened SimulationStmts
  import opened Correctness
  import opened Arms
  import opened CEmit
  import opened CSimulation
  import opened EndToEnd

  // ----- asking less of a body -----

  /** What `ok` allows, `wide` allows. */
  ghost predicate Within(ok: Shape, wide: Shape) {
    && (forall e :: ok.pure(e) ==> wide.pure(e))
    && wide.names <= ok.names
    && (ok.bareRaise ==> wide.bareRaise)
  }

  lemma {:induction false} PlainCondWithin(e: Expr, names: set<string>, fewer: set<string>)
    requires PlainCond(e, names) && fewer <= names
    ensures PlainCond(e, fewer)
    decreases e
  {
    if e.BinaryOp? && (e.op.And? || e.op.Or?) {
      PlainCondWithin(e.left, names, fewer);
      PlainCondWithin(e.right, names, fewer);
    } else if e.Not? {
      PlainCondWithin(e.operand, names, fewer);
    }
  }

  lemma {:induction false} TryFreeWithin(ss: seq<Stmt>, ok: Shape, wide: Shape)
    requires TryFree(ss, ok) && Within(ok, wide)
    ensures TryFree(ss, wide)
    decreases ss, 0
  {
    if ss != [] {
      TryFreeStmtWithin(ss[0], ok, wide);
      TryFreeWithin(ss[1..], ok, wide);
    }
  }

  lemma {:induction false} TryFreeStmtWithin(s: Stmt, ok: Shape, wide: Shape)
    requires TryFreeStmt(s, ok) && Within(ok, wide)
    ensures TryFreeStmt(s, wide)
    decreases s, 1
  {
    match s
    case If(cond, thenBody, tail) =>
      PlainCondWithin(cond, ok.names, wide.names);
      TryFreeWithin(thenBody, ok, wide);
      TryFreeTailWithin(tail, ok, wide);
    case While(cond, body) => PlainCondWithin(cond, ok.names, wide.names); TryFreeWithin(body, ok, wide);
    case Loop(body) => TryFreeWithin(body, ok, wide);
    case Repeat(body, cond) => PlainCondWithin(cond, ok.names, wide.names); TryFreeWithin(body, ok, wide);
    case For(_, _, _, _, _, body) => TryFreeWithin(body, ok, wide);
    case Case(_, brs, els) =>
      TryFreeBranchesWithin(brs, ok, wide);
      match els { case Body(ss) => TryFreeWithin(ss, ok, wide); case NoBody => }
    case _ =>
  }

  lemma {:induction false} TryFreeTailWithin(t: ElseTail, ok: Shape, wide: Shape)
    requires TryFreeTail(t, ok) && Within(ok, wide)
    ensures TryFreeTail(t, wide)
    decreases t
  {
    match t
    case NoElse =>
    case Else(body) => TryFreeWithin(body, ok, wide);
    case Elsif(cond, body, rest) =>
      PlainCondWithin(cond, ok.names, wide.names);
      TryFreeWithin(body, ok, wide);
      TryFreeTailWithin(rest, ok, wide);
  }

  lemma {:induction false} TryFreeBranchesWithin(brs: seq<Branch>, ok: Shape, wide: Shape)
    requires TryFreeBranches(brs, ok) && Within(ok, wide)
    ensures TryFreeBranches(brs, wide)
    decreases brs
  {
    if brs != [] {
      TryFreeWithin(brs[0].body, ok, wide);
      TryFreeBranchesWithin(brs[1..], ok, wide);
    }
  }

  // ----- a selector that may be evaluated only once -----

  /** The first evaluation of the selector gives 0 and the second raises; no label matches. */
  function OnceOnly(sel: Expr): Interp<int> {
    Interp((e: Expr, s: int) => if e != sel then Val(0, s) else if s == 0 then Val(0, 1) else Throw(7, 2),
           (_: Stmt, s: int) => Val(0, s),
           (_: CaseLabel, _: int, _: int) => false,
           (_: Expr, _: int, _: int) => true, (_: Expr, _: int, _: int) => false,
           map[])
  }

  /** A body that is one CASE, with an ELSE part that is straight-line or absent and any TRY-free branches. */
  ghost predicate OneCase(sel: Expr, brs: seq<Branch>, els: OptBody) {
    && HaveLabels(brs) && LegalBranches(brs, false) && LabelledBranches(brs) && StraightLine(OptStmts(els))
    && TryFreeBranches(brs, Shape(e => e != sel, {}, false))
  }

  /** Whatever the leaves do, if the selectors and conditions inside the branches are as emission needs them. */
  ghost predicate Kept(sel: Expr, brs: seq<Branch>, els: OptBody) {
    forall I: Interp<int>, st: State<int>, vr: Option<int> :: TryFreeBranches(brs, Emits(I, false)) ==>
      SameEnds(I, [Case(sel, brs, els)], st, vr)
  }

  lemma {:induction false} StraightFree(ss: seq<Stmt>, ok: Shape)
    requires StraightLine(ss)
    ensures TryFree(ss, ok) && LegalStmts(ss, false) && Labelled(ss)
    decreases ss
  {
    if ss != [] {
      assert IsPrim(ss[0]);
      StraightFree(ss[1..], ok);
    }
  }

  lemma {:induction false} CaseAccepted(sel: Expr, brs: seq<Branch>, els: OptBody)
    requires OneCase(sel, brs, els)
    ensures Accepted([Case(sel, brs, els)])
  {
    hide HaveLabels, LegalBranches, LabelledBranches, TryFreeBranches;
    var body := [Case(sel, brs, els)];
    StraightFree(OptStmts(els), Shape(e => true, {}, false));
    assert body[1..] == [];
    assert LegalStmts([], false) && Labelled([]);
    assert LegalStmt(body[0], false) && LabelledStmt(body[0]);
  }

  lemma {:induction false} CaseFree(sel: Expr, brs: seq<Branch>, els: OptBody, ok: Shape)
    requires OneLabel(brs) && TryFreeBranches(brs, ok) && StraightLine(OptStmts(els))
    ensures TryFree([Case(sel, brs, els)], ok)
  {
    hide TryFreeBranches;
    var body := [Case(sel, brs, els)];
    StraightFree(OptStmts(els), ok);
    assert body[1..] == [];
    assert TryFree([], ok);
    assert TryFreeStmt(body[0], ok);
  }

  // ----- what the statements do -----

  lemma {:induction false} NoHit(sel: Expr, brs: seq<Branch>, v: int, st: State<int>)
    ensures FirstHit(OnceOnly(sel), brs, v, st) == |brs|
    decreases brs
  {
    var I := OnceOnly(sel);
    if brs != [] {
      assert forall l :: !Matches(I, l, v, st);
      NoHit(sel, brs[1..], v, st);
    }
  }

  lemma {:induction false} PrimsDoNothing(sel: Expr, ss: seq<Stmt>, st: State<int>, fuel: nat)
    requires StraightLine(ss)
    ensures ExecStmts(OnceOnly(sel), ss, st, fuel) == Normal(st)
    decreases ss
  {
    if ss != [] {
      assert IsPrim(ss[0]);
      PrimsDoNothing(sel, ss[1..], st, fuel);
    }
  }

  /** The ELSE part runs and the statements end normally. */
  lemma {:induction false} EndsNormally(sel: Expr, brs: seq<Branch>, els: OptBody, p: int, fuel: nat)
    requires StraightLine(OptStmts(els))
    ensures ExecStmts(OnceOnly(sel), [Case(sel, brs, els)], State(0, p), fuel) == Normal(State(1, p))
  {
    var body, I, st := [Case(sel, brs, els)], OnceOnly(sel), State(1, p);
    NoHit(sel, brs, 0, st);
    PrimsDoNothing(sel, OptStmts(els), st, fuel);
    assert EvalExpr(I, sel, State(0, p)) == Val(0, st);
    assert ExecStmt(I, body[0], State(0, p), fuel) == Normal(st);
    assert body[1..] == [];
    assert ExecStmts(I, [], st, fuel) == Normal(st);
  }

  // ----- what the lines do -----

  /** The second comparison raises. */
  lemma {:induction false} SecondRaises(lines: seq<Line>, pc: nat, sel: Expr, arms: seq<Arm>, p: int)
    returns (m: nat)
    requires arms != [] && !OneArm(arms) && forall i :: 0 <= i < |arms| ==> arms[i].labels != []
    requires pc + |arms| <= |lines| && lines[pc..pc + |arms|] == ArmLines(sel, arms)
    ensures CRun(OnceOnly(sel), lines, Pc(pc, State(0, p)), m) == Aborted(7, State(2, p))
  {
    hide CRun;
    var I, st, st1, st2 := OnceOnly(sel), State(0, p), State(1, p), State(2, p);
    var labels := arms[0].labels;
    ArmsNoLabel(sel, arms);
    assert lines[pc] == ArmLines(sel, arms)[0];
    assert EvalExpr(I, sel, st) == Val(0, st1) && EvalExpr(I, sel, st1) == Throw(7, st2);
    if labels[0].RangeLabel? {
      assert EvalLabels(I, sel, labels, st) == Throw(7, st2);
      OneStep(I, lines, Pc(pc, st));
      m := 1;
    } else if |labels| > 1 {
      FirstThrows(I, sel, labels[1..], st1);
      assert EvalLabels(I, sel, labels, st) == Throw(7, st2);
      OneStep(I, lines, Pc(pc, st));
      m := 1;
    } else {
      assert labels[1..] == [];
      assert EvalLabels(I, sel, labels[1..], st1) == Val(0, st1);
      assert EvalLabels(I, sel, labels, st) == Val(0, st1);
      assert lines[pc + 1] == lines[pc..pc + |arms|][1];
      FirstThrows(I, sel, arms[1].labels, st1);
      TwoSteps(I, lines, Pc(pc, st), Pc(pc + 1, st1), Aborted(7, st2));
      m := 2;
    }
  }

  /** The switch is the terminator of the entry block, which holds nothing else. */
  lemma {:induction false} EntrySwitch(sel: Expr, brs: seq<Branch>, els: OptBody)
    requires OneCase(sel, brs, els)
    ensures var c := BuildCfg([Case(sel, brs, els)]);
      |c| > 0 && c[0] == Block([], Some(Switch(sel, SwitchArms(brs, 3), 2)), None)
  {
    hide Inv, LowerCase, LegalStmts, LabelledStmt, HaveLabels, LowerStmts, AnyPathReaches;
    var s, b := Case(sel, brs, els), New();
    CaseAccepted(sel, brs, els);
    NewInv();
    OnlyStmt(b, s);
    FinishCompletes(LowerCase(b, s));
    FirstLegal(s);
    var b1, b2, b3 := CaseStages(b, s, {}, BuildCfg([s]));
  }

  lemma {:induction false} FirstLegal(s: Stmt)
    requires LegalStmts([s], false)
    ensures LegalStmt(s, false)
  {
  }

  lemma {:induction false} OnlyStmt(b: Builder, s: Stmt)
    requires s.Case? && b.current.Some?
    ensures LowerStmts(b, [s]) == LowerCase(b, s)
  {
    hide LowerCase;
    assert [s][1..] == [];
    assert LowerStmts(LowerStmt(b, s), []) == LowerStmt(b, s);
  }

  /** With a second comparison the emitted C raises where the statements end normally. */
  lemma {:induction false} SelectorRepeats(sel: Expr, brs: seq<Branch>, els: OptBody, p: int, vr: Option<int>)
    requires OneCase(sel, brs, els) && !OneLabel(brs)
    ensures var I, body := OnceOnly(sel), [Case(sel, brs, els)];
      var c := BuildCfg(body);
      && CLeads(I, Emitted(c, |c|, vr), Pc(0, State(0, p)), Aborted(7, State(2, p)))
      && !StatementsEnd(I, body, State(0, p), Aborted(7, State(2, p)), vr)
      && !SameEnds(I, body, State(0, p), vr)
  {
    hide Emitted, BuildCfg, TermLines, ExecStmts, HaveLabels, LegalBranches, LabelledBranches, TryFreeBranches, Loc,
      CEmit.Start;
    var I, body := OnceOnly(sel), [Case(sel, brs, els)];
    var c, arms := BuildCfg(body), SwitchArms(brs, 3);
    EntrySwitch(sel, brs, els);
    var lines := Emitted(c, |c|, vr);
    EntryLines(c, sel, arms, vr);
    LabelsOfArms(brs, 3);
    var m := SecondRaises(lines, 0, sel, arms, p);
    forall fuel: nat ensures ExecStmts(I, body, State(0, p), fuel) == Normal(State(1, p)) {
      EndsNormally(sel, brs, els, p, fuel);
    }
  }

  lemma {:induction false} LabelsOfArms(brs: seq<Branch>, base: BlockId)
    requires HaveLabels(brs)
    ensures var arms := SwitchArms(brs, base);
      && arms != [] && (forall i :: 0 <= i < |arms| ==> arms[i].labels != []) && (OneArm(arms) <==> OneLabel(brs))
  {
  }

  lemma {:induction false} EntryLines(c: seq<Block>, sel: Expr, arms: seq<Arm>, vr: Option<int>)
    requires |c| > 0 && c[0].stmts == [] && c[0].term.Some? && c[0].term.value.Switch?
    requires c[0].term.value.sel == sel && c[0].term.value.arms == arms
    ensures var lines := Emitted(c, |c|, vr); |arms| <= |lines| && lines[0..0 + |arms|] == ArmLines(sel, arms)
  {
    hide Emitted;
    TermBlock(c, 0, vr);
    var lines, ts := Emitted(c, |c|, vr), TermLines(c[0].term.value, vr);
    assert Loc(c, 0, 0, vr) == 0 by { LinesOf(c, 0, vr); }
    assert lines[0..0 + |ts|] == ts;
    assert lines[0..|arms|] == lines[0..|ts|][..|arms|];
    assert ts[..|arms|] == ArmLines(sel, arms);
  }

  /**
   The emitted CASE ends as the statements do, whatever the leaves do, if and
   only if there is one branch with one label that is not a range.
   */
  lemma {:induction false} SelectorIff(sel: Expr, brs: seq<Branch>, els: OptBody)
    requires OneCase(sel, brs, els)
    ensures Kept(sel, brs, els) <==> OneLabel(brs)
  {
    hide SameEnds, TryFree, TryFreeBranches, HaveLabels, LegalBranches, LabelledBranches, OneLabel, Accepted,
      StatementsEnd, CLeads;
    if OneLabel(brs) {
      forall I: Interp<int>, st: State<int>, vr: Option<int> | TryFreeBranches(brs, Emits(I, false))
        ensures SameEnds(I, [Case(sel, brs, els)], st, vr) {
        OneLabelKept(I, sel, brs, els, st, vr);
      }
    } else {
      var I := OnceOnly(sel);
      OnlyImpure(sel, brs);
      SelectorRepeats(sel, brs, els, 0, None);
      assert !SameEnds(I, [Case(sel, brs, els)], State(0, 0), None);
    }
  }

  lemma {:induction false} OneLabelKept(I: Interp<int>, sel: Expr, brs: seq<Branch>, els: OptBody, st: State<int>,
          vr: Option<int>)
    requires OneCase(sel, brs, els) && OneLabel(brs) && TryFreeBranches(brs, Emits(I, false))
    ensures SameEnds(I, [Case(sel, brs, els)], st, vr)
  {
    hide TryFree, TryFreeBranches, HaveLabels, LegalBranches, LabelledBranches, OneLabel, Accepted, StatementsEnd,
      CLeads, PureExpr, Emitted, BuildCfg;
    var body := [Case(sel, brs, els)];
    CaseAccepted(sel, brs, els);
    CaseFree(sel, brs, els, Emits(I, false));
    TryFreeWithin(body, Emits(I, false), Emits(I, true));
    forall ck: CConfig<int> | !ck.Pc?
      ensures CLeads(I, Emitted(BuildCfg(body), |BuildCfg(body)|, vr), Pc(0, st), ck)
         <==> StatementsEnd(I, body, st, ck, vr) {
      EmittedIsFaithful(I, body, st, ck, vr);
    }
  }

  /** Only `sel` has a side effect. */
  lemma {:induction false} OnlyImpure(sel: Expr, brs: seq<Branch>)
    requires TryFreeBranches(brs, Shape(e => e != sel, {}, false))
    ensures TryFreeBranches(brs, Emits(OnceOnly(sel), false))
  {
    hide TryFreeBranches;
    var ok, wide := Shape(e => e != sel, {}, false), Emits(OnceOnly(sel), false);
    TryFreeBranchesWithin(brs, ok, wide);
  }
}
