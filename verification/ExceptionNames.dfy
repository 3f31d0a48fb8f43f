/**
 Why conditions must not share their name with an exception: the graph cannot
 tell such a condition from the dispatch tests that a TRY lowers to
 (src/cfg/build.rs:626-648, src/codegen_c/cfg_emit.rs:238-263).
 */
module ExceptionNames {
  import opened Wrappers
  import opened Hir
  import opened Cfg
  import opened Lowering
  import opened Protocol
  import opened Semantics
  import opened Simulation
  import opened SimulationStmts
  import opened Correctness

  /** IF e THEN RETURN 1 END. */
  function Body(e: Expr): seq<Stmt> {
    [If(e, [Return(Some(IntLit(1)))], NoElse)]
  }

  // ----- leaves that follow a list of decisions -----

  function Decision(d: seq<int>, n: int): int {
    if 0 <= n < |d| then d[n] else 0
  }

  /** The store counts evaluations; the n-th gives `d[n]`, or 0 past the end.  The exceptions are numbered 5. */
  function Deciding(d: seq<int>, names: set<string>): Interp<int> {
    Interp((_: Expr, n: int) => Val(Decision(d, n), n + 1), (_: Stmt, n: int) => Val(0, n),
           (_: CaseLabel, _: int, _: int) => false,
           (_: Expr, _: int, _: int) => false, (_: Expr, _: int, _: int) => false,
           map n | n in names :: 5)
  }

  lemma {:induction false} DecidingNames(d: seq<int>, names: set<string>)
    ensures Deciding(d, names).exceptions.Keys == names
  {
  }

  /** Decisions for the leaves of e that make it come out as wanted. */
  function Choices(e: Expr, want: bool): seq<int> {
    if e.BinaryOp? && e.op.And? then
      if want then Choices(e.left, true) + Choices(e.right, true) else Choices(e.left, false)
    else if e.BinaryOp? && e.op.Or? then
      if want then Choices(e.left, true) else Choices(e.left, false) + Choices(e.right, false)
    else if e.Not? then Choices(e.operand, !want)
    else [if want then 1 else 0]
  }

  /** Decisions that take the evaluation of e to its first leaf that names an exception. */
  function Detour(e: Expr, names: set<string>): seq<int> {
    if e.BinaryOp? && (e.op.And? || e.op.Or?) then
      if PlainCond(e.left, names) then Choices(e.left, e.op.And?) + Detour(e.right, names) else Detour(e.left, names)
    else if e.Not? then Detour(e.operand, names)
    else []
  }

  lemma {:induction false} Slices(d: seq<int>, n: nat, k: nat, m: nat)
    requires k <= m && n + m <= |d|
    ensures d[n..n + k] == d[n..n + m][..k] && d[n + k..n + m] == d[n..n + m][k..]
  {
  }

  lemma {:induction false} ChoicesLeft(e: Expr, want: bool)
    requires e.BinaryOp? && (e.op.And? || e.op.Or?)
    ensures want == e.op.And? ==> Choices(e, want) == Choices(e.left, want) + Choices(e.right, want)
    ensures want != e.op.And? ==> Choices(e, want) == Choices(e.left, want)
  {
  }

  lemma {:induction false} Chosen(d: seq<int>, names: set<string>, e: Expr, want: bool, n: nat, p: int)
    requires n + |Choices(e, want)| <= |d| && d[n..n + |Choices(e, want)|] == Choices(e, want)
    ensures EvalCond(Deciding(d, names), e, State(n, p))
      == Val(if want then 1 else 0, State(n + |Choices(e, want)|, p))
    decreases e
  {
    if e.BinaryOp? && (e.op.And? || e.op.Or?) {
      var k := |Choices(e.left, want)|;
      ChoicesLeft(e, want);
      Slices(d, n, k, |Choices(e, want)|);
      Chosen(d, names, e.left, want, n, p);
      if want == e.op.And? {
        Chosen(d, names, e.right, want, n + k, p);
      }
    } else if e.Not? {
      Chosen(d, names, e.operand, !want, n, p);
    } else {
      assert d[n] == d[n..n + 1][0];
    }
  }

  /** Once the decisions are used up every leaf is false, in the graph as in the statements. */
  lemma {:induction false} Exhausted(d: seq<int>, names: set<string>, e: Expr, n: nat, m: nat)
    returns (v: int, n': nat, m': nat)
    requires |d| <= m <= n
    ensures EvalCond(Deciding(d, names), e, State(n, 0)) == Val(v, State(n', 0))
    ensures EvalGraphCond(Deciding(d, names), e, State(m, 0)) == Val(v, State(m', 0))
    ensures |d| <= m' && n - m <= n' - m'
    decreases e
  {
    if e.BinaryOp? && (e.op.And? || e.op.Or?) {
      v, n', m' := Exhausted(d, names, e.left, n, m);
      if (v != 0) == e.op.And? {
        v, n', m' := Exhausted(d, names, e.right, n', m');
      } else {
        v := if e.op.And? then 0 else 1;
      }
    } else if e.Not? {
      v, n', m' := Exhausted(d, names, e.operand, n, m);
      v := if v == 0 then 1 else 0;
    } else {
      v, n', m' := 0, n + 1, if NamesException(e, names) then m else m + 1;
    }
  }

  /** With these decisions both give one value, but the graph skips the evaluation of a leaf that names an exception. */
  lemma {:induction false} Skips(d: seq<int>, names: set<string>, e: Expr, n: nat)
    returns (v: int, n': nat, m': nat)
    requires !PlainCond(e, names) && n <= |d| && d[n..] == Detour(e, names)
    ensures EvalCond(Deciding(d, names), e, State(n, 0)) == Val(v, State(n', 0))
    ensures EvalGraphCond(Deciding(d, names), e, State(n, 0)) == Val(v, State(m', 0))
    ensures |d| <= m' < n'
    decreases e
  {
    if e.BinaryOp? && (e.op.And? || e.op.Or?) {
      if PlainCond(e.left, names) {
        var first := Choices(e.left, e.op.And?);
        assert d[n..n + |first|] == d[n..][..|first|];
        assert d[n + |first|..] == d[n..][|first|..];
        Chosen(d, names, e.left, e.op.And?, n, 0);
        assert Deciding(d, names).exceptions.Keys == names;
        PlainSame(Deciding(d, names), e.left, State(n, 0));
        v, n', m' := Skips(d, names, e.right, n + |first|);
      } else {
        v, n', m' := Skips(d, names, e.left, n);
        if (v != 0) == e.op.And? {
          v, n', m' := Exhausted(d, names, e.right, n', m');
        } else {
          v := if e.op.And? then 0 else 1;
        }
      }
    } else if e.Not? {
      v, n', m' := Skips(d, names, e.operand, n);
      v := if v == 0 then 1 else 0;
    } else {
      v, n', m' := 0, n + 1, n;
    }
  }

  // ----- the statements and the graph -----

  lemma {:induction false} BodyLegal(e: Expr, names: set<string>)
    ensures LegalStmts(Body(e), false)
    ensures PlainCond(e, names) ==> PlainStmts(Body(e), names, false)
  {
    var ret := [Return(Some(IntLit(1)))];
    assert ret[1..] == [] && Body(e)[1..] == [];
    assert LegalStmts(ret, false) && PlainStmts(ret, names, false);
    assert LegalStmts([], false) && PlainStmts([], names, false);
  }

  /** Where a run of the body ends once its condition has come out as v in store n. */
  function EndOf(v: int, n: int): Config<int> {
    if v != 0 then Done(Some(0), State(n + 1, 0)) else Done(None, State(n, 0))
  }

  lemma {:induction false} Returns(d: seq<int>, names: set<string>, n: nat, fuel: nat)
    requires |d| <= n
    ensures ExecStmts(Deciding(d, names), [Return(Some(IntLit(1)))], State(n, 0), fuel)
      == Returned(Some(0), State(n + 1, 0))
  {
    var I, ret := Deciding(d, names), [Return(Some(IntLit(1)))];
    assert ExecStmt(I, ret[0], State(n, 0), fuel) == Returned(Some(0), State(n + 1, 0));
  }

  lemma {:induction false} StatementsFinish(d: seq<int>, names: set<string>, e: Expr, v: int, n: nat)
    requires EvalCond(Deciding(d, names), e, State(0, 0)) == Val(v, State(n, 0)) && |d| <= n
    ensures Finishes(Deciding(d, names), Body(e), State(0, 0), EndOf(v, n))
  {
    var I, st := Deciding(d, names), State(0, 0);
    Returns(d, names, n, 0);
    var o := if v != 0 then Returned(Some(0), State(n + 1, 0)) else Normal(State(n, 0));
    assert ExecStmt(I, Body(e)[0], st, 0) == o;
    assert Body(e)[1..] == [];
    assert ExecStmts(I, [], State(n, 0), 0) == Normal(State(n, 0));
    assert ExecStmts(I, Body(e), st, 0) == o && Final(o) == EndOf(v, n);
  }

  lemma {:induction false} GraphFinishes(d: seq<int>, names: set<string>, e: Expr, v: int, n: nat)
    requires EvalGraphCond(Deciding(d, names), e, State(0, 0)) == Val(v, State(n, 0)) && |d| <= n
    ensures Leads(Deciding(d, names), BuildCfg(Body(e)), At(0, 0, State(0, 0)), EndOf(v, n))
  {
    hide Leads, Leads1, LowerIf, LowerTail, LowerBody, LowerCond, Inv, AnyPathReaches, StartIfReached, ExecStmts,
      LegalStmts, PlainStmts, Completes, Finish, EvalGraphCond, Deciding, Start;
    var I, s, b, c := Deciding(d, names), Body(e)[0], New(), BuildCfg(Body(e));
    var k, st1 := At(0, 0, State(0, 0)), State(n, 0);
    NewInv();
    BodyLegal(e, names);
    OneIf(b, s);
    FinishCompletes(LowerIf(b, s));
    var b1, b3, b4, b5 := IfStages(b, s, {}, c);
    var Q1: set<BlockId> := {} + {|b.blocks|};
    assert I.exceptions.Keys == names by { DecidingNames(d, names); }
    TestGoes(I, c, b1, e, Q1);
    Leads1Leads(I, c, k, At(if v != 0 then 2 else 1, 0, st1));
    if v != 0 {
      RetPlain(names);
      Returns(d, names, n, 0);
      SimBody(I, c, b3, 2, [], s.thenBody, 1, st1, 0, Q1 + {|b1.blocks|, FalseBlock(b1, s.tail, |b.blocks|)});
      LeadsTrans(I, c, k, At(2, 0, st1), EndOf(v, n));
    } else {
      MergeReturns(b5);
      LeadsStep(I, c, At(1, 0, st1));
      LeadsTrans(I, c, k, At(1, 0, st1), EndOf(v, n));
    }
  }

  lemma {:induction false} OneIf(b: Builder, s: Stmt)
    requires s.If? && b.current.Some?
    ensures LowerStmts(b, [s]) == LowerIf(b, s)
  {
    hide LowerIf;
    assert [s][1..] == [];
    assert LowerStmts(LowerStmt(b, s), []) == LowerStmt(b, s);
  }

  lemma {:induction false} MergeReturns(b: Builder)
    requires 1 < |b.blocks| && b.blocks[1].stmts == [] && Open(b.blocks[1])
    ensures var c := Finish(StartIfReached(b, 1)); 1 < |c| && c[1].stmts == [] && c[1].term == Some(ReturnT(None))
  {
  }

  /** The lowered test, from the entry block. */
  lemma {:induction false} TestGoes<S>(I: Interp<S>, c: seq<Block>, b: Builder, e: Expr, P: set<BlockId>)
    requires Ready(b, P) && 1 in P && 1 < |b.blocks| && Completes(OpenArm(b, e, NoElse, 1), c)
    ensures forall st :: CondGoes(I, c, Here(b, st), EvalGraphCond(I, e, st), |b.blocks|, 1, Last(b.handlers))
  {
    hide Inv, AnyPathReaches, CondGoes, LowerCond, EvalGraphCond;
    InvFacts(b, P);
    var b1, Q := NewBlock(b), P + {|b.blocks|, 1};
    NewBlockInv(b, P);
    InvPromise(b1, P, Q);
    forall st ensures CondGoes(I, c, Here(b, st), EvalGraphCond(I, e, st), |b.blocks|, 1, Last(b.handlers)) {
      SimGraphCond(I, c, b1, e, |b.blocks|, 1, st, Q);
      assert Here(b1, st) == Here(b, st);
    }
  }

  lemma {:induction false} RetPlain(names: set<string>)
    ensures var ret := [Return(Some(IntLit(1)))];
      LegalStmts(ret, false) && PlainStmts(ret, names, false)
  {
    var ret := [Return(Some(IntLit(1)))];
    assert ret[1..] == [];
    assert LegalStmts([], false) && PlainStmts([], names, false);
  }

  /** Whatever the leaves do, the graph ends as the statements do. */
  ghost predicate Preserved(e: Expr, names: set<string>) {
    forall I: Interp<int>, st: State<int>, k: Config<int> :: I.exceptions.Keys == names && !k.At? ==>
      (Leads(I, BuildCfg(Body(e)), At(0, 0, st), k) <==> Finishes(I, Body(e), st, k))
  }

  /** A tree of AND, OR and NOT with a leaf that names an exception: one run in which the two part. */
  lemma {:induction false} TreeParts(e: Expr, names: set<string>)
    requires !PlainCond(e, names)
    ensures !Preserved(e, names)
  {
    hide Leads, Finishes, BuildCfg, EvalCond, EvalGraphCond, PlainCond;
    var d, st := Detour(e, names), State(0, 0);
    var I, c := Deciding(d, names), BuildCfg(Body(e));
    assert d[0..] == d;
    var v, n, m := Skips(d, names, e, 0);
    StatementsFinish(d, names, e, v, n);
    GraphFinishes(d, names, e, v, m);
    assert I.exceptions.Keys == names;
    if Preserved(e, names) {
      assert Leads(I, c, At(0, 0, st), EndOf(v, n));
      LeadsUnique(I, c, At(0, 0, st), EndOf(v, n), EndOf(v, m));
      assert false;
    }
  }

  /**
   A condition, however built with AND, OR and NOT, keeps its meaning if and
   only if none of its leaves names an exception.
   */
  lemma {:induction false} ConditionIff(e: Expr, names: set<string>)
    ensures Preserved(e, names) <==> PlainCond(e, names)
  {
    hide Leads, Finishes, BuildCfg, LegalStmts, PlainStmts, PlainCond;
    if PlainCond(e, names) {
      BodyLegal(e, names);
      forall I: Interp<int>, st: State<int>, k: Config<int> | I.exceptions.Keys == names && !k.At?
        ensures Leads(I, BuildCfg(Body(e)), At(0, 0, st), k) <==> Finishes(I, Body(e), st, k) {
        LoweringIsExact(I, Body(e), st, k);
      }
    } else {
      TreeParts(e, names);
    }
  }
}
