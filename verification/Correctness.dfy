/** The results about `build_cfg` (src/cfg/build.rs:739-745) as a whole. */
module Correctness {
  import opened Wrappers
  import opened Hir
  import opened Cfg
  import opened Lowering
  import opened Protocol
  import opened ProtocolStmts
  import opened Semantics
  import opened Simulation
  import opened SimulationStmts

  lemma {:induction false} NewInv()
    ensures Inv(New(), {})
  {
  }

  /**
   Building never panics, leaves both stacks empty, passes the verifier, and
   the blocks that only the closing pass seals are ones no edge reaches.
   */
  lemma {:induction false} BuildIsSafe(body: seq<Stmt>)
    requires LegalStmts(body, false)
    ensures var b, c := LowerStmts(New(), body), BuildCfg(body);
      && !b.panicked && b.exits == [] && b.handlers == []
      && Verified(c)
      && forall i :: 0 <= i < |b.blocks| && Open(b.blocks[i]) && b.current != Some(i) ==> !HasPred(c, i)
  {
    hide Inv, LowerStmts, LegalStmts, Verified, HasPred;
    NewInv();
    StmtsInv(New(), body, {});
    InvFacts(LowerStmts(New(), body), {});
    FinishVerified(LowerStmts(New(), body));
  }

  lemma {:induction false} FinishEdge(b: Builder, i: BlockId, x: BlockId)
    requires Inv(b, {}) && i < |b.blocks| && x in Successors(SealBlock(b.blocks[i]).term.value)
    ensures 0 < x < |b.blocks| && (!Open(b.blocks[x]) || b.current == Some(x))
  {
    assert BlockOk(b, i, {});
    assert Landed(b, x, {});
  }

  lemma {:induction false} FinishVerified(b: Builder)
    requires Inv(b, {})
    ensures Verified(Finish(b))
    ensures forall i :: 0 <= i < |b.blocks| && Open(b.blocks[i]) && b.current != Some(i) ==> !HasPred(Finish(b), i)
  {
    var c := Finish(b);
    forall i: BlockId, x: BlockId | Edge(c, i, x)
      ensures 0 < x < |c| && (!Open(b.blocks[x]) || b.current == Some(x))
    {
      FinishEdge(b, i, x);
    }
    forall i | 0 <= i < |c|
      ensures c[i].term.Some?
      ensures c[i].handler.Some? ==>
        c[i].handler.value < |c| && c[i].handler.value != i && c[c[i].handler.value].handler.None?
    {
      assert BlockOk(b, i, {});
    }
  }

  lemma {:induction false} FinishCompletes(b: Builder)
    ensures Completes(b, Finish(b))
  {
  }

  /** How a body's outcome ends the run of its graph. */
  function Final<S>(o: Outcome<S>): Config<S> {
    match o
    case Normal(st) => Done(None, st)
    case Returned(v, st) => Done(v, st)
    case Raised(x, st) => Uncaught(x, st)
    case _ => Stuck
  }

  lemma {:induction false} BuildGoes<S>(I: Interp<S>, body: seq<Stmt>, st: State<S>, fuel: nat)
    requires LegalStmts(body, false) && PlainStmts(body, I.exceptions.Keys, false)
    ensures var o, c := ExecStmts(I, body, st, fuel), BuildCfg(body);
      if o.OutOfFuel? then Lives(I, c, At(0, 0, st), fuel + 1)
      else !o.Exited? && Leads(I, c, At(0, 0, st), Final(o))
  {
    hide Inv, Leads, Lives, LowerStmts, ExecStmts, LegalStmts, PlainStmts;
    var b0, b := New(), LowerStmts(New(), body);
    var c := BuildCfg(body);
    NewInv();
    StmtsInv(b0, body, {});
    InvFacts(b, {});
    FinishCompletes(b);
    SimStmts(I, c, b0, body, st, fuel, {});
    var o := ExecStmts(I, body, st, fuel);
    if o.Normal? {
      LeadsStep(I, c, Here(b, o.st));
      LeadsTrans(I, c, At(0, 0, st), Here(b, o.st), Done(None, o.st));
    }
  }

  /**
   Lowering preserves meaning: if the statements finish - by falling off the
   end, by RETURN or by an exception nothing catches - then the graph, from
   block 0, finishes in the same way with the same value and store.
   */
  lemma {:induction false} LoweringPreserves<S>(I: Interp<S>, body: seq<Stmt>, st: State<S>, fuel: nat)
    requires LegalStmts(body, false) && PlainStmts(body, I.exceptions.Keys, false)
    requires !ExecStmts(I, body, st, fuel).OutOfFuel?
    ensures !ExecStmts(I, body, st, fuel).Exited?
    ensures Leads(I, BuildCfg(body), At(0, 0, st), Final(ExecStmts(I, body, st, fuel)))
  {
    BuildGoes(I, body, st, fuel);
  }

  /** With some amount of fuel the statements finish as k. */
  ghost predicate Finishes<S>(I: Interp<S>, body: seq<Stmt>, st: State<S>, k: Config<S>) {
    exists fuel: nat :: !ExecStmts(I, body, st, fuel).OutOfFuel? && Final(ExecStmts(I, body, st, fuel)) == k
  }

  /**
   And reflects it: the runs of the graph that end are exactly those of the
   statements, so lowering neither adds nor removes an ending, and no run of
   the graph gets stuck.
   */
  lemma {:induction false} LoweringIsExact<S>(I: Interp<S>, body: seq<Stmt>, st: State<S>, k: Config<S>)
    requires LegalStmts(body, false) && PlainStmts(body, I.exceptions.Keys, false) && !k.At?
    ensures Leads(I, BuildCfg(body), At(0, 0, st), k) <==> Finishes(I, body, st, k)
    ensures k.Stuck? ==> !Leads(I, BuildCfg(body), At(0, 0, st), k)
  {
    var c, k0 := BuildCfg(body), At(0, 0, st);
    if Leads(I, c, k0, k) {
      var n: nat :| Run(I, c, k0, n) == k;
      BuildGoes(I, body, st, n);
      var o := ExecStmts(I, body, st, n);
      if o.OutOfFuel? {
        LivesLess(I, c, k0, n, n + 1);
        assert false;
      }
      LeadsUnique(I, c, k0, k, Final(o));
    }
    if Finishes(I, body, st, k) {
      var fuel: nat :| !ExecStmts(I, body, st, fuel).OutOfFuel? && Final(ExecStmts(I, body, st, fuel)) == k;
      BuildGoes(I, body, st, fuel);
    }
  }

  /** The statements run for ever exactly when the graph does. */
  lemma {:induction false} DivergenceIsExact<S>(I: Interp<S>, body: seq<Stmt>, st: State<S>)
    requires LegalStmts(body, false) && PlainStmts(body, I.exceptions.Keys, false)
    ensures (forall fuel: nat :: ExecStmts(I, body, st, fuel).OutOfFuel?) <==>
      (forall n: nat :: Lives(I, BuildCfg(body), At(0, 0, st), n))
  {
    var c, k0 := BuildCfg(body), At(0, 0, st);
    if forall fuel: nat :: ExecStmts(I, body, st, fuel).OutOfFuel? {
      forall n: nat ensures Lives(I, c, k0, n) {
        BuildGoes(I, body, st, n);
        LivesLess(I, c, k0, n, n + 1);
      }
    } else {
      var fuel: nat :| !ExecStmts(I, body, st, fuel).OutOfFuel?;
      BuildGoes(I, body, st, fuel);
      var n: nat :| Run(I, c, k0, n) == Final(ExecStmts(I, body, st, fuel));
      assert !Lives(I, c, k0, n);
    }
  }
}
