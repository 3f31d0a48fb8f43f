/** Emitted C runs step for step with the graph it came from, and so with the source. */
module CSimulation {
  import opened Wrappers
  import opened Hir
  import opened Cfg
  import opened Semantics
  import opened CEmit

  /** Evaluating e may raise but leaves the store alone. */
  ghost predicate PureExpr<S(!new)>(I: Interp<S>, e: Expr) {
    forall s :: I.eval(e, s).s == s
  }

  /**
   A graph that `Cfg::verify` accepts, without handlers, whose conditions name
   no exception: the test emitted for such a name mentions a handler frame, and
   there is none.
   */
  ghost predicate Emittable<S(!new)>(I: Interp<S>, c: seq<Block>) {
    Passes(c) && forall i :: 0 <= i < |c| ==>
      c[i].handler.None? && (c[i].term.Some? ==> EmittableTerm(I, c[i].term.value))
  }

  /** Emission repeats the selector in every comparison, so it has no side effect or there is just one. */
  ghost predicate EmittableTerm<S(!new)>(I: Interp<S>, t: Terminator) {
    && (t.Switch? ==> PureExpr(I, t.sel) || OneArm(t.arms))
    && (t.BranchOn? ==> !NamesException(t.cond, I.exceptions.Keys))
  }

  /** One arm with one label, and that not a range. */
  predicate OneArm(arms: seq<Arm>) {
    |arms| == 1 && |arms[0].labels| == 1 && !arms[0].labels[0].RangeLabel?
  }

  /** The line that runs position i of block b. */
  function Loc(c: seq<Block>, b: BlockId, i: nat, vr: Option<int>): nat
    requires b < |c|
  {
    CEmit.Start(c, b, vr) + |LabelLines(b)| + i
  }

  predicate Valid<S>(c: seq<Block>, k: Config<S>) {
    k.At? ==> k.block < |c| && k.pos <= |c[k.block].stmts|
  }

  function OfConfig<S>(c: seq<Block>, k: Config<S>, vr: Option<int>): CConfig<S>
    requires Valid(c, k)
  {
    match k
    case At(b, i, st) => Pc(Loc(c, b, i, vr), st)
    case Done(v, st) => Ended(if v.None? then vr else v, st)
    case Uncaught(x, st) => Aborted(x, st)
    case Stuck => Crashed
  }

  lemma {:induction false} LocLine(c: seq<Block>, b: BlockId, i: nat, vr: Option<int>)
    requires b < |c| && c[b].term.Some? && i < |c[b].stmts| + |TermLines(c[b].term.value, vr)|
    ensures var lines, ts := Emitted(c, |c|, vr), TermLines(c[b].term.value, vr);
      && Loc(c, b, i, vr) < |lines|
      && lines[Loc(c, b, i, vr)] == if i < |c[b].stmts| then Exec(c[b].stmts[i]) else ts[i - |c[b].stmts|]
  {
    hide Emitted, TermLines;
    var ss, ts := StmtLines(c[b].stmts), TermLines(c[b].term.value, vr);
    var ls := BlockLines(c, b, vr);
    assert ls == LabelLines(b) + ss + ts;
    assert ls[|LabelLines(b)| + i] == if i < |ss| then ss[i] else ts[i - |ss|];
    LineAt(c, b, |LabelLines(b)| + i, vr);
  }

  /** A jump to a block runs its label and arrives at its first position. */
  lemma {:induction false} JumpArrives<S>(I: Interp<S>, c: seq<Block>, t: BlockId, st: State<S>, vr: Option<int>)
    requires 0 < t < |c|
    ensures CStep(I, Emitted(c, |c|, vr), Jump(Emitted(c, |c|, vr), t, st)) == Pc(Loc(c, t, 0, vr), st)
  {
    LabelIsUnique(c, t, vr);
  }

  lemma {:induction false} TwoSteps<S>(I: Interp<S>, lines: seq<Line>, k: CConfig<S>, k1: CConfig<S>, k2: CConfig<S>)
    requires CStep(I, lines, k) == k1 && CStep(I, lines, k1) == k2
    ensures CRun(I, lines, k, 1) == k1 && CRun(I, lines, k, 2) == k2
  {
    assert CRun(I, lines, k, 1) == CRun(I, lines, k1, 0);
    assert CRun(I, lines, k, 2) == CRun(I, lines, k1, 1) == CRun(I, lines, k2, 0);
  }

  /** An edge's target is a labelled block. */
  lemma {:induction false} TargetOk<S(!new)>(I: Interp<S>, c: seq<Block>, b: BlockId, t: BlockId)
    requires Emittable(I, c) && b < |c| && c[b].term.Some? && t in Successors(c[b].term.value)
    ensures 0 < t < |c|
  {
    assert Edge(c, b, t);
    if t == 0 { assert HasPred(c, 0); }
  }

  lemma {:induction false} PureLabels<S(!new)>(I: Interp<S>, sel: Expr, labels: seq<CaseLabel>, st: State<S>)
    requires PureExpr(I, sel)
    ensures match EvalExpr(I, sel, st)
      case Val(v, _) => EvalLabels(I, sel, labels, st) == Val(if LabelHit(I, labels, v, st) then 1 else 0, st)
      case Throw(x, _) => labels != [] ==> EvalLabels(I, sel, labels, st) == Throw(x, st)
    decreases labels
  {
    if labels != [] {
      assert I.eval(sel, st.store).s == st.store;
      PureLabels(I, sel, labels[1..], st);
      match EvalExpr(I, sel, st) {
      case Val(v, _) =>
        assert forall i :: 0 <= i < |labels[1..]| ==> labels[1..][i] == labels[i + 1];
        if LabelHit(I, labels, v, st) && !Matches(I, labels[0], v, st) {
          var i :| 0 <= i < |labels| && Matches(I, labels[i], v, st);
          assert Matches(I, labels[1..][i - 1], v, st);
        }
      case _ =>
      }
    }
  }

  /** The chain of arm tests takes the first arm with a matching label, or the default. */
  lemma {:induction false} ArmsRun<S(!new)>(I: Interp<S>, c: seq<Block>, lines: seq<Line>, pc: nat, sel: Expr,
          arms: seq<Arm>, d: BlockId, v: int, st: State<S>)
    returns (m: nat)
    requires PureExpr(I, sel) && EvalExpr(I, sel, st) == Val(v, st)
    requires pc + |arms| < |lines| && lines[pc..pc + |arms|] == ArmLines(sel, arms) && lines[pc + |arms|] == GotoLine(d)
    ensures m > 0 && CRun(I, lines, Pc(pc, st), m) == Jump(lines, SwitchTarget(I, arms, d, v, st), st)
    decreases arms
  {
    m := 1;
    if arms == [] {
      assert CRun(I, lines, Pc(pc, st), 1) == CRun(I, lines, Jump(lines, d, st), 0);
    } else {
      assert lines[pc] == ArmLines(sel, arms)[0];
      PureLabels(I, sel, arms[0].labels, st);
      if LabelHit(I, arms[0].labels, v, st) {
        assert CRun(I, lines, Pc(pc, st), 1) == CRun(I, lines, Jump(lines, arms[0].target, st), 0);
      } else {
        assert ArmLines(sel, arms)[1..] == ArmLines(sel, arms[1..]);
        assert lines[pc + 1..pc + 1 + |arms[1..]|] == lines[pc..pc + |arms|][1..];
        var m1 := ArmsRun(I, c, lines, pc + 1, sel, arms[1..], d, v, st);
        m := 1 + m1;
      }
    }
  }

  lemma {:induction false} SwitchTargetIn<S>(I: Interp<S>, arms: seq<Arm>, d: BlockId, v: int, st: State<S>)
    ensures SwitchTarget(I, arms, d, v, st) in ArmTargets(arms) + [d]
    decreases arms
  {
    if arms != [] {
      SwitchTargetIn(I, arms[1..], d, v, st);
      assert ArmTargets(arms) == [arms[0].target] + ArmTargets(arms[1..]);
    }
  }

  /** One step of the graph is one or more steps of the lines. */
  lemma {:induction false} StepMatches<S(!new)>(I: Interp<S>, c: seq<Block>, k: Config<S>,
          vr: Option<int>) returns (m: nat)
    requires Emittable(I, c) && k.At? && Valid(c, k) && k.st.pending == BareRaise
    ensures Valid(c, Step(I, c, k)) && (Step(I, c, k).At? ==> Step(I, c, k).st.pending == BareRaise)
    ensures m > 0 && CRun(I, Emitted(c, |c|, vr), OfConfig(c, k, vr), m) == OfConfig(c, Step(I, c, k), vr)
  {
    hide Emitted, FindLabel, Passes, EvalLabels, Emittable, SwitchTarget, CRun;
    var lines, b, i, st := Emitted(c, |c|, vr), k.block, k.pos, k.st;
    var pc := Loc(c, b, i, vr);
    VerifiedSealed(I, c, b);
    var t := c[b].term.value;
    LocLine(c, b, i, vr);
    m := 1;
    if i < |c[b].stmts| {
      OneStep(I, lines, Pc(pc, st));
    } else {
      match t {
      case Goto(x) => m := TakeJump(I, c, b, pc, st, x, st, vr);
      case BranchOn(e, x, y) =>
        match EvalExpr(I, e, st) {
        case Val(v, st1) => m := TakeJump(I, c, b, pc, st, if v != 0 then x else y, st1, vr);
        case Throw(_, _) => OneStep(I, lines, Pc(pc, st));
        }
      case Switch(_, _, _) => m := SwitchMatches(I, c, b, st, vr);
      case ReturnT(_) => OneStep(I, lines, Pc(pc, st));
      case RaiseT(_) => OneStep(I, lines, Pc(pc, st));
      }
    }
  }

  lemma {:induction false} VerifiedSealed<S(!new)>(I: Interp<S>, c: seq<Block>, b: BlockId)
    requires Emittable(I, c) && b < |c|
    ensures c[b].term.Some? && c[b].handler.None? && EmittableTerm(I, c[b].term.value)
  {
  }

  lemma {:induction false} OneStep<S>(I: Interp<S>, lines: seq<Line>, k: CConfig<S>)
    ensures CRun(I, lines, k, 1) == CStep(I, lines, k)
  {
    assert CRun(I, lines, k, 1) == CRun(I, lines, CStep(I, lines, k), 0);
  }

  lemma {:induction false} TakeJump<S(!new)>(I: Interp<S>, c: seq<Block>, b: BlockId, pc: nat, st: State<S>,
          t: BlockId, st1: State<S>, vr: Option<int>)
    returns (m: nat)
    requires Emittable(I, c) && b < |c| && c[b].term.Some? && t in Successors(c[b].term.value)
    requires CStep(I, Emitted(c, |c|, vr), Pc(pc, st)) == Jump(Emitted(c, |c|, vr), t, st1)
    ensures 0 < t < |c|
    ensures m > 0 && CRun(I, Emitted(c, |c|, vr), Pc(pc, st), m) == Pc(Loc(c, t, 0, vr), st1)
  {
    TargetOk(I, c, b, t);
    JumpArrives(I, c, t, st1, vr);
    TwoSteps(I, Emitted(c, |c|, vr), Pc(pc, st), Jump(Emitted(c, |c|, vr), t, st1), Pc(Loc(c, t, 0, vr), st1));
    m := 2;
  }

  lemma {:induction false} ArmsNotEmpty<S(!new)>(I: Interp<S>, c: seq<Block>, b: BlockId)
    requires Emittable(I, c) && b < |c| && c[b].term.Some? && c[b].term.value.Switch?
    ensures c[b].term.value.arms != [] && c[b].term.value.arms[0].labels != []
  {
  }

  /** The terminator's lines stand together after the statements. */
  lemma {:induction false} TermBlock(c: seq<Block>, b: BlockId, vr: Option<int>)
    requires b < |c| && c[b].term.Some?
    ensures var lines, ts, pc := Emitted(c, |c|, vr), TermLines(c[b].term.value, vr), Loc(c, b, |c[b].stmts|, vr);
      pc + |ts| <= |lines| && lines[pc..pc + |ts|] == ts
  {
    hide Emitted, TermLines;
    var lines, ts, pc := Emitted(c, |c|, vr), TermLines(c[b].term.value, vr), Loc(c, b, |c[b].stmts|, vr);
    forall j | 0 <= j < |ts| ensures pc + j < |lines| && lines[pc + j] == ts[j] {
      LocLine(c, b, |c[b].stmts| + j, vr);
    }
    LocLine(c, b, |c[b].stmts| + |ts| - 1, vr);
  }

  lemma {:induction false} SwitchMatches<S(!new)>(I: Interp<S>, c: seq<Block>, b: BlockId, st: State<S>,
          vr: Option<int>) returns (m: nat)
    requires Emittable(I, c) && b < |c| && c[b].term.Some? && c[b].term.value.Switch?
    ensures var k := At(b, |c[b].stmts|, st);
      && Valid(c, Step(I, c, k))
      && m > 0 && CRun(I, Emitted(c, |c|, vr), OfConfig(c, k, vr), m) == OfConfig(c, Step(I, c, k), vr)
  {
    hide Emitted, FindLabel, Loc, Passes, PureExpr, SwitchTarget;
    var lines, i := Emitted(c, |c|, vr), |c[b].stmts|;
    assert c[b].term.value.arms != [] && c[b].term.value.arms[0].labels != [] by { ArmsNotEmpty(I, c, b); }
    var Switch(sel, arms, d) := c[b].term.value;
    var pc := Loc(c, b, i, vr);
    var ts := TermLines(c[b].term.value, vr);
    TermBlock(c, b, vr);
    assert lines[pc..pc + |arms|] == lines[pc..pc + |ts|][..|arms|];
    assert ts[..|arms|] == ArmLines(sel, arms);
    assert lines[pc + |arms|] == lines[pc..pc + |ts|][|arms|];
    match EvalExpr(I, sel, st) {
    case Throw(x, st1) =>
      assert lines[pc] == ArmLines(sel, arms)[0];
      FirstThrows(I, sel, arms[0].labels, st);
      OneStep(I, lines, Pc(pc, st));
      m := 1;
    case Val(v, st1) =>
      var t := SwitchTarget(I, arms, d, v, st1);
      SwitchTargetIn(I, arms, d, v, st1);
      TargetOk(I, c, b, t);
      var m1;
      if PureExpr(I, sel) {
        PureStays(I, sel, st);
        m1 := ArmsRun(I, c, lines, pc, sel, arms, d, v, st);
      } else {
        m1 := OneArmRuns(I, lines, pc, sel, arms, d, v, st, st1);
      }
      JumpArrives(I, c, t, st1, vr);
      OneStep(I, lines, Jump(lines, t, st1));
      CRunAdd(I, lines, Pc(pc, st), m1, 1);
      m := m1 + 1;
    }
  }

  lemma {:induction false} FirstThrows<S>(I: Interp<S>, sel: Expr, labels: seq<CaseLabel>, st: State<S>)
    requires labels != [] && EvalExpr(I, sel, st).Throw?
    ensures EvalLabels(I, sel, labels, st) == EvalExpr(I, sel, st)
  {
  }

  lemma {:induction false} PureStays<S(!new)>(I: Interp<S>, sel: Expr, st: State<S>)
    requires PureExpr(I, sel)
    ensures match EvalExpr(I, sel, st) case Val(_, st1) => st1 == st case Throw(_, st1) => st1 == st
  {
    assert I.eval(sel, st.store).s == st.store;
  }

  /** With one comparison the selector is evaluated once, whatever it does to the store. */
  lemma {:induction false} OneArmRuns<S>(I: Interp<S>, lines: seq<Line>, pc: nat, sel: Expr, arms: seq<Arm>, d: BlockId,
          v: int, st: State<S>, st1: State<S>)
    returns (m: nat)
    requires OneArm(arms) && EvalExpr(I, sel, st) == Val(v, st1)
    requires pc + 1 < |lines| && lines[pc..pc + 1] == ArmLines(sel, arms) && lines[pc + 1] == GotoLine(d)
    ensures m > 0 && CRun(I, lines, Pc(pc, st), m) == Jump(lines, SwitchTarget(I, arms, d, v, st1), st1)
  {
    hide FindLabel;
    var labels := arms[0].labels;
    assert lines[pc] == ArmLines(sel, arms)[0];
    assert labels[1..] == [] && arms[1..] == [];
    assert LabelHit(I, labels, v, st1) == Matches(I, labels[0], v, st1);
    assert EvalLabels(I, sel, labels[1..], st1) == Val(0, st1) && SwitchTarget(I, arms[1..], d, v, st1) == d;
    assert EvalLabels(I, sel, labels, st) == Val(if LabelHit(I, labels, v, st1) then 1 else 0, st1);
    if Matches(I, labels[0], v, st1) {
      OneStep(I, lines, Pc(pc, st));
      m := 1;
    } else {
      TwoSteps(I, lines, Pc(pc, st), Pc(pc + 1, st1), Jump(lines, d, st1));
      m := 2;
    }
  }

  /** n steps of the graph are n or more steps of the lines. */
  lemma {:induction false} RunMatches<S(!new)>(I: Interp<S>, c: seq<Block>, k: Config<S>, n: nat,
          vr: Option<int>) returns (m: nat)
    requires Emittable(I, c) && Valid(c, k) && (k.At? ==> k.st.pending == BareRaise)
    ensures Valid(c, Run(I, c, k, n))
    ensures CRun(I, Emitted(c, |c|, vr), OfConfig(c, k, vr), m) == OfConfig(c, Run(I, c, k, n), vr)
    ensures Run(I, c, k, n).At? ==> m >= n
    decreases n
  {
    hide Emittable, Emitted, Step, CStep, Loc;
    m := 0;
    if n > 0 {
      if k.At? {
        var m1 := StepMatches(I, c, k, vr);
        var m2 := RunMatches(I, c, Step(I, c, k), n - 1, vr);
        CRunAdd(I, Emitted(c, |c|, vr), OfConfig(c, k, vr), m1, m2);
        m := m1 + m2;
      } else {
        RunFinal(I, c, k, n);
      }
    }
  }

  /** Started with exception 1 pending, the lines and the graph end in exactly the same ways. */
  lemma {:induction false} EmissionAtOne<S(!new)>(I: Interp<S>, c: seq<Block>, st: State<S>, ck: CConfig<S>,
          vr: Option<int>)
    requires Emittable(I, c) && !ck.Pc? && st.pending == BareRaise
    ensures CLeads(I, Emitted(c, |c|, vr), Pc(0, st), ck) <==> GraphEnds(I, c, st, ck, vr)
  {
    var lines, k0 := Emitted(c, |c|, vr), At(0, 0, st);
    assert OfConfig(c, k0, vr) == Pc(0, st);
    forall k: Config<S> | !k.At? && Leads(I, c, k0, k) ensures CLeads(I, lines, Pc(0, st), OfConfig(c, k, vr)) {
      var n: nat :| Run(I, c, k0, n) == k;
      var m := RunMatches(I, c, k0, n, vr);
    }
    if CLeads(I, lines, Pc(0, st), ck) {
      var m: nat :| CRun(I, lines, Pc(0, st), m) == ck;
      var m' := RunMatches(I, c, k0, m + 1, vr);
      var k := Run(I, c, k0, m + 1);
      SameEnd(I, lines, Pc(0, st), ck, OfConfig(c, k, vr), m, m');
      assert Leads(I, c, k0, k);
    }
  }

  /** The graph, from `st`, ends as the lines' `ck`. */
  ghost predicate GraphEnds<S(!new)>(I: Interp<S>, c: seq<Block>, st: State<S>, ck: CConfig<S>, vr: Option<int>) {
    exists k: Config<S> :: !k.At? && Leads(I, c, At(0, 0, st), k) && OfConfig(c, k, vr) == ck
  }

  // ----- the pending exception -----

  function CPending<S>(k: CConfig<S>, p: int): CConfig<S> {
    match k
    case Pc(pc, st) => Pc(pc, st.(pending := p))
    case Ended(v, st) => Ended(v, st.(pending := p))
    case Aborted(x, st) => Aborted(x, st.(pending := p))
    case Crashed => Crashed
  }

  lemma {:induction false} LabelIgnoresPending<S>(I: Interp<S>, sel: Expr, l: CaseLabel, st: State<S>, p: int)
    ensures EvalLabel(I, sel, l, st.(pending := p)) == match EvalLabel(I, sel, l, st)
      case Val(v, st1) => Val(v, st1.(pending := p))
      case Throw(x, st1) => Throw(x, st1.(pending := p))
  {
  }

  lemma {:induction false} LabelsIgnorePending<S>(I: Interp<S>, sel: Expr, labels: seq<CaseLabel>, st: State<S>, p: int)
    ensures EvalLabels(I, sel, labels, st.(pending := p)) == match EvalLabels(I, sel, labels, st)
      case Val(v, st1) => Val(v, st1.(pending := p))
      case Throw(x, st1) => Throw(x, st1.(pending := p))
    decreases labels
  {
    hide EvalLabel;
    if labels != [] {
      LabelIgnoresPending(I, sel, labels[0], st, p);
      match EvalLabel(I, sel, labels[0], st)
      case Val(_, st1) => LabelsIgnorePending(I, sel, labels[1..], st1, p);
      case Throw(_, _) =>
    }
  }

  /** The lines never look at the pending exception. */
  lemma {:induction false} LinesIgnorePending<S>(I: Interp<S>, lines: seq<Line>, k: CConfig<S>, p: int, n: nat)
    ensures CRun(I, lines, CPending(k, p), n) == CPending(CRun(I, lines, k, n), p)
    ensures k.Pc? ==> CPending(CRun(I, lines, k, n), k.st.pending) == CRun(I, lines, k, n)
    decreases n
  {
    if n > 0 {
      StepIgnoresPending(I, lines, k, p);
      LinesIgnorePending(I, lines, CStep(I, lines, k), p, n - 1);
      if k.Pc? && !CStep(I, lines, k).Pc? { CRunFinal(I, lines, CStep(I, lines, k), n - 1); }
    }
  }

  lemma {:induction false} StepIgnoresPending<S>(I: Interp<S>, lines: seq<Line>, k: CConfig<S>, p: int)
    ensures CStep(I, lines, CPending(k, p)) == CPending(CStep(I, lines, k), p)
    ensures k.Pc? ==> CPending(CStep(I, lines, k), k.st.pending) == CStep(I, lines, k)
  {
    hide FindLabel;
    if k.Pc? && k.pc < |lines| && lines[k.pc].IfLabels? {
      LabelsIgnorePending(I, lines[k.pc].sel, lines[k.pc].labels, k.st, p);
      LabelsIgnorePending(I, lines[k.pc].sel, lines[k.pc].labels, k.st, k.st.pending);
    }
  }

  /**
   Emission, for every start: the lines end exactly as the graph does when
   exception 1 is pending.  No goto is lost, no block falls through, and each
   switch takes its first matching arm.
   */
  lemma {:induction false} EmissionIsExact<S(!new)>(I: Interp<S>, c: seq<Block>, st: State<S>, ck: CConfig<S>,
          vr: Option<int>)
    requires Emittable(I, c) && !ck.Pc?
    ensures CLeads(I, Emitted(c, |c|, vr), Pc(0, st), ck)
       <==> CPending(ck, st.pending) == ck && GraphEnds(I, c, st.(pending := BareRaise), CPending(ck, BareRaise), vr)
  {
    hide Emittable, GraphEnds;
    var lines, st1, ck1 := Emitted(c, |c|, vr), st.(pending := BareRaise), CPending(ck, BareRaise);
    EmissionAtOne(I, c, st1, ck1, vr);
    if CLeads(I, lines, Pc(0, st), ck) {
      var n: nat :| CRun(I, lines, Pc(0, st), n) == ck;
      LinesIgnorePending(I, lines, Pc(0, st), BareRaise, n);
    }
    if CPending(ck, st.pending) == ck && CLeads(I, lines, Pc(0, st1), ck1) {
      var n: nat :| CRun(I, lines, Pc(0, st1), n) == ck1;
      LinesIgnorePending(I, lines, Pc(0, st1), st.pending, n);
      assert CRun(I, lines, Pc(0, st), n) == ck;
    }
  }

  /** About to run a bare RAISE. */
  predicate AtBareRaise<S>(c: seq<Block>, k: Config<S>) {
    k.At? && k.block < |c| && k.pos == |c[k.block].stmts| && c[k.block].term == Some(RaiseT(None))
  }

  /** The run from the entry executes a bare RAISE. */
  ghost predicate RaisesBare<S>(I: Interp<S>, c: seq<Block>, st: State<S>) {
    exists n: nat :: AtBareRaise(c, Run(I, c, At(0, 0, st), n))
  }

  function GPending<S>(k: Config<S>, p: int): Config<S> {
    match k
    case At(b, i, st) => At(b, i, st.(pending := p))
    case Done(v, st) => Done(v, st.(pending := p))
    case Uncaught(x, st) => Uncaught(x, st.(pending := p))
    case Stuck => Stuck
  }

  lemma {:induction false} StepPending<S(!new)>(I: Interp<S>, c: seq<Block>, k: Config<S>, p: int)
    requires Emittable(I, c)
    ensures k.At? ==> GPending(Step(I, c, k), k.st.pending) == Step(I, c, k)
    ensures !AtBareRaise(c, k) ==> Step(I, c, GPending(k, p)) == GPending(Step(I, c, k), p)
    ensures AtBareRaise(c, k) ==> Step(I, c, k) == Uncaught(k.st.pending, k.st)
  {
    hide Verified;
    if k.At? && k.block < |c| {
      VerifiedSealed(I, c, k.block);
      var t := c[k.block].term.value;
      if t.Switch? {
        match EvalExpr(I, t.sel, k.st)
        case Val(v, st1) => TargetIgnoresPending(I, t.arms, t.default, v, st1, p);
        case Throw(_, _) =>
      }
    }
  }

  lemma {:induction false} TargetIgnoresPending<S>(I: Interp<S>, arms: seq<Arm>, d: BlockId, v: int, st: State<S>,
          p: int)
    ensures SwitchTarget(I, arms, d, v, st.(pending := p)) == SwitchTarget(I, arms, d, v, st)
    decreases arms
  {
    if arms != [] {
      assert LabelHit(I, arms[0].labels, v, st.(pending := p)) == LabelHit(I, arms[0].labels, v, st);
      TargetIgnoresPending(I, arms[1..], d, v, st, p);
    }
  }

  /** Up to a bare RAISE the graph does not look at the pending exception either. */
  lemma {:induction false} RunPending<S(!new)>(I: Interp<S>, c: seq<Block>, k: Config<S>, p: int, n: nat)
    requires Emittable(I, c) && forall j: nat :: j < n ==> !AtBareRaise(c, Run(I, c, k, j))
    ensures Run(I, c, GPending(k, p), n) == GPending(Run(I, c, k, n), p)
    ensures k.At? ==> GPending(Run(I, c, k, n), k.st.pending) == Run(I, c, k, n)
    decreases n
  {
    hide Emittable, AtBareRaise;
    if n > 0 {
      var k1 := Step(I, c, k);
      assert !AtBareRaise(c, Run(I, c, k, 0));
      StepPending(I, c, k, p);
      forall j: nat | j < n - 1 ensures !AtBareRaise(c, Run(I, c, k1, j)) {
        assert Run(I, c, k, j + 1) == Run(I, c, k1, j);
      }
      RunPending(I, c, k1, p, n - 1);
      if k.At? && !k1.At? { RunFinal(I, c, k1, n - 1); }
    }
  }

  /** A bare RAISE is the last thing a run does. */
  lemma {:induction false} BareRaiseIsLast<S(!new)>(I: Interp<S>, c: seq<Block>, k: Config<S>, j: nat, n: nat)
    requires Emittable(I, c) && AtBareRaise(c, Run(I, c, k, j)) && AtBareRaise(c, Run(I, c, k, n)) && j <= n
    ensures j == n
  {
    hide Emittable;
    if j < n {
      RunAdd(I, c, k, j, n - j);
      var k1 := Run(I, c, k, j);
      StepPending(I, c, k1, 0);
      assert Run(I, c, k1, n - j) == Run(I, c, Step(I, c, k1), n - j - 1);
      RunFinal(I, c, Step(I, c, k1), n - j - 1);
    }
  }

  ghost predicate Agrees<S(!new)>(I: Interp<S>, c: seq<Block>, st: State<S>, vr: Option<int>) {
    forall ck: CConfig<S> :: !ck.Pc? ==>
      (CLeads(I, Emitted(c, |c|, vr), Pc(0, st), ck) <==> GraphEnds(I, c, st, ck, vr))
  }

  /**
     The lines end exactly as the graph does if and only if exception 1 is pending or the run
     executes no bare RAISE.
   */
  lemma {:induction false} EmissionAgreesIff<S(!new)>(I: Interp<S>, c: seq<Block>, st: State<S>, vr: Option<int>)
    requires Emittable(I, c)
    ensures Agrees(I, c, st, vr) <==> st.pending == BareRaise || !RaisesBare(I, c, st)
  {
    hide Emittable, Emitted, CLeads, GraphEnds, RaisesBare;
    if st.pending == BareRaise {
      forall ck: CConfig<S> | !ck.Pc?
        ensures CLeads(I, Emitted(c, |c|, vr), Pc(0, st), ck) <==> GraphEnds(I, c, st, ck, vr) {
        EmissionAtOne(I, c, st, ck, vr);
      }
    } else if !RaisesBare(I, c, st) {
      forall ck: CConfig<S> | !ck.Pc?
        ensures CLeads(I, Emitted(c, |c|, vr), Pc(0, st), ck) <==> GraphEnds(I, c, st, ck, vr) {
        EmissionIsExact(I, c, st, ck, vr);
        NoBareRaiseSame(I, c, st, ck, vr);
      }
    } else {
      BareRaiseDiffers(I, c, st, vr);
    }
  }

  lemma {:induction false} NoBareRaiseSame<S(!new)>(I: Interp<S>, c: seq<Block>, st: State<S>, ck: CConfig<S>,
          vr: Option<int>)
    requires Emittable(I, c) && !RaisesBare(I, c, st) && !ck.Pc?
    ensures GraphEnds(I, c, st, ck, vr)
       <==> CPending(ck, st.pending) == ck && GraphEnds(I, c, st.(pending := BareRaise), CPending(ck, BareRaise), vr)
  {
    hide Emittable, AtBareRaise, Step, Loc;
    var k0, k1 := At(0, 0, st), At(0, 0, st.(pending := BareRaise));
    if GraphEnds(I, c, st, ck, vr) {
      var k: Config<S> :| !k.At? && Leads(I, c, k0, k) && OfConfig(c, k, vr) == ck;
      var n: nat :| Run(I, c, k0, n) == k;
      RunPending(I, c, k0, BareRaise, n);
      assert Leads(I, c, k1, GPending(k, BareRaise));
      assert OfConfig(c, GPending(k, BareRaise), vr) == CPending(ck, BareRaise);
    }
    if CPending(ck, st.pending) == ck && GraphEnds(I, c, st.(pending := BareRaise), CPending(ck, BareRaise), vr) {
      var k: Config<S> :| !k.At? && Leads(I, c, k1, k) && OfConfig(c, k, vr) == CPending(ck, BareRaise);
      var n: nat :| Run(I, c, k1, n) == k;
      RunPending(I, c, k0, BareRaise, n);
      var k' := Run(I, c, k0, n);
      assert Leads(I, c, k0, k') && GPending(k', BareRaise) == k;
      assert OfConfig(c, k', vr) == ck;
    }
  }

  lemma {:induction false} BareRaiseDiffers<S(!new)>(I: Interp<S>, c: seq<Block>, st: State<S>, vr: Option<int>)
    requires Emittable(I, c) && RaisesBare(I, c, st) && st.pending != BareRaise
    ensures !Agrees(I, c, st, vr)
  {
    hide Emittable, Emitted, CLeads;
    var k0, k1 := At(0, 0, st), At(0, 0, st.(pending := BareRaise));
    var n: nat :| AtBareRaise(c, Run(I, c, k0, n));
    forall j: nat | j < n ensures !AtBareRaise(c, Run(I, c, k0, j)) {
      if AtBareRaise(c, Run(I, c, k0, j)) { BareRaiseIsLast(I, c, k0, j, n); }
    }
    var k := Run(I, c, k0, n);
    RunPending(I, c, k0, BareRaise, n);
    StepPending(I, c, k, 0);
    StepPending(I, c, GPending(k, BareRaise), 0);
    EndsAfter(I, c, k0, k, n);
    EndsAfter(I, c, k1, GPending(k, BareRaise), n);
    var end, ck := Uncaught(BareRaise, GPending(k, BareRaise).st), Aborted(BareRaise, k.st);
    assert OfConfig(c, end, vr) == CPending(ck, BareRaise);
    assert GraphEnds(I, c, st.(pending := BareRaise), CPending(ck, BareRaise), vr);
    EmissionIsExact(I, c, st, ck, vr);
    if GraphEnds(I, c, st, ck, vr) {
      var k': Config<S> :| !k'.At? && Leads(I, c, k0, k') && OfConfig(c, k', vr) == ck;
      LeadsUnique(I, c, k0, k', Uncaught(st.pending, k.st));
      assert false;
    }
  }

  lemma {:induction false} EndsAfter<S>(I: Interp<S>, c: seq<Block>, k0: Config<S>, k: Config<S>, n: nat)
    requires Run(I, c, k0, n) == k
    ensures Leads(I, c, k0, Step(I, c, k))
  {
    LeadsStep(I, c, k);
    assert Leads(I, c, k0, k);
    LeadsTrans(I, c, k0, k, Step(I, c, k));
  }

  ghost predicate RunsForEver<S>(I: Interp<S>, c: seq<Block>, k: Config<S>) {
    forall n: nat :: Lives(I, c, k, n)
  }

  ghost predicate CRunsForEver<S>(I: Interp<S>, lines: seq<Line>, k: CConfig<S>) {
    forall n: nat :: CRun(I, lines, k, n).Pc?
  }

  lemma {:induction false} EndlessPending<S(!new)>(I: Interp<S>, c: seq<Block>, k: Config<S>, p: int)
    requires Emittable(I, c) && k.At? && RunsForEver(I, c, k)
    ensures RunsForEver(I, c, GPending(k, p))
  {
    hide Emittable;
    forall n: nat ensures Lives(I, c, GPending(k, p), n) {
      forall j: nat ensures !AtBareRaise(c, Run(I, c, k, j)) {
        assert Lives(I, c, k, j + 1);
        RunAdd(I, c, k, j, 1);
        assert Run(I, c, Run(I, c, k, j), 1) == Run(I, c, Step(I, c, Run(I, c, k, j)), 0);
        StepPending(I, c, Run(I, c, k, j), p);
      }
      RunPending(I, c, k, p, n);
      assert Lives(I, c, k, n);
    }
  }

  /** The lines run for ever exactly when the graph does, whatever is pending. */
  lemma {:induction false} EmissionDiverges<S(!new)>(I: Interp<S>, c: seq<Block>, st: State<S>, vr: Option<int>)
    requires Emittable(I, c)
    ensures CRunsForEver(I, Emitted(c, |c|, vr), Pc(0, st)) <==> RunsForEver(I, c, At(0, 0, st))
  {
    hide Emittable, Emitted;
    var lines, st1 := Emitted(c, |c|, vr), st.(pending := BareRaise);
    var k0, k1 := At(0, 0, st), At(0, 0, st1);
    if RunsForEver(I, c, k0) {
      EndlessPending(I, c, k0, BareRaise);
      forall n: nat ensures CRun(I, lines, Pc(0, st), n).Pc? {
        assert Lives(I, c, k1, n);
        StaysIn(I, c, st1, n, vr);
        LinesIgnorePending(I, lines, Pc(0, st), BareRaise, n);
      }
    }
    if CRunsForEver(I, lines, Pc(0, st)) {
      forall n: nat ensures Lives(I, c, k1, n) {
        var m := FirstLine(I, c, st1, n, vr);
        assert CRun(I, lines, Pc(0, st), m).Pc?;
        LinesIgnorePending(I, lines, Pc(0, st), BareRaise, m);
      }
      EndlessPending(I, c, k1, st.pending);
    }
  }

  lemma {:induction false} FirstLine<S(!new)>(I: Interp<S>, c: seq<Block>, st: State<S>, n: nat,
          vr: Option<int>) returns (m: nat)
    requires Emittable(I, c) && st.pending == BareRaise
    ensures CRun(I, Emitted(c, |c|, vr), Pc(0, st), m).Pc? <==> Lives(I, c, At(0, 0, st), n)
    ensures Lives(I, c, At(0, 0, st), n) ==> m >= n
  {
    assert OfConfig(c, At(0, 0, st), vr) == Pc(0, st);
    m := RunMatches(I, c, At(0, 0, st), n, vr);
  }

  lemma {:induction false} StaysIn<S(!new)>(I: Interp<S>, c: seq<Block>, st: State<S>, n: nat, vr: Option<int>)
    requires Emittable(I, c) && st.pending == BareRaise && Lives(I, c, At(0, 0, st), n)
    ensures CRun(I, Emitted(c, |c|, vr), Pc(0, st), n).Pc?
  {
    hide Emittable, Emitted;
    var lines := Emitted(c, |c|, vr);
    var m := FirstLine(I, c, st, n, vr);
    CRunAdd(I, lines, Pc(0, st), n, m - n);
    if !CRun(I, lines, Pc(0, st), n).Pc? { CRunFinal(I, lines, CRun(I, lines, Pc(0, st), n), m - n); }
  }

  /** A run that has ended stays where it is. */
  lemma {:induction false} SameEnd<S>(I: Interp<S>, lines: seq<Line>, k0: CConfig<S>, k: CConfig<S>, k': CConfig<S>,
          m: nat, m': nat)
    requires CRun(I, lines, k0, m) == k && !k.Pc? && CRun(I, lines, k0, m') == k' && (k'.Pc? ==> m < m')
    ensures k' == k
  {
    if m <= m' {
      CRunAdd(I, lines, k0, m, m' - m);
      CRunFinal(I, lines, k, m' - m);
    } else {
      CRunAdd(I, lines, k0, m', m - m');
      CRunFinal(I, lines, k', m - m');
    }
  }
}
