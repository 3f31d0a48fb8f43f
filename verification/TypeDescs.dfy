/**
 Type descriptors and the subtype test: the table built and emptied, module by
 module, in src/codegen_c/m2plus.rs:13-55, and the walk of `M2_ISA`
 (src/stdlib.rs:892-903).  A descriptor's address is its place among all that
 were ever registered.
 */
module TypeDescs {
  import opened Wrappers

  datatype Desc = Desc(symbol: string, display: string, parent: Option<string>, depth: nat)

  /** Descriptors already emitted with earlier modules, and those of the module at hand. */
  datatype Table = Table(emitted: seq<Desc>, pending: seq<Desc>) {
    function All(): seq<Desc> {
      emitted + pending
    }
  }

  /** The first descriptor with the symbol. */
  function Lookup(descs: seq<Desc>, symbol: string): (r: Option<nat>)
    ensures r.Some? ==> r.value < |descs| && descs[r.value].symbol == symbol
    ensures r.Some? ==> forall j :: 0 <= j < r.value ==> descs[j].symbol != symbol
    ensures r.None? ==> forall j :: 0 <= j < |descs| ==> descs[j].symbol != symbol
  {
    if descs == [] then None
    else if descs[0].symbol == symbol then Some(0)
    else match Lookup(descs[1..], symbol)
         case None => None
         case Some(j) => Some(j + 1)
  }

  // ----- registering and emitting -----

  datatype Op = Register(typeName: string, display: string, parent: Option<string>) | Emit

  function Symbol(typeName: string): string {
    "M2_TD_" + typeName
  }

  /** One more than the parent's, if the parent is still pending; otherwise a parent counts as a root. */
  function DepthOf(t: Table, parent: Option<string>): nat {
    if parent.None? then 0 else
    match Lookup(t.pending, parent.value)
    case Some(j) => t.pending[j].depth + 1
    case None => 1
  }

  function Apply(t: Table, op: Op): Table {
    match op
    case Register(name, display, parent) =>
      t.(pending := t.pending + [Desc(Symbol(name), display, parent, DepthOf(t, parent))])
    case Emit => Table(t.emitted + t.pending, [])
  }

  function ApplyAll(ops: seq<Op>): Table
    decreases |ops|
  {
    if ops == [] then Table([], []) else Apply(ApplyAll(ops[..|ops| - 1]), ops[|ops| - 1])
  }

  class Registry {
    var table: Table

    constructor ()
      ensures table == Table([], [])
    {
      table := Table([], []);
    }

    method RegisterTypeDesc(typeName: string, display: string, parent: Option<string>) returns (symbol: string)
      modifies this
      ensures symbol == Symbol(typeName) && table == Apply(old(table), Register(typeName, display, parent))
    {
      var at := if parent.Some? then Lookup(table.pending, parent.value) else None;
      var depth := if parent.None? then 0 else if at.Some? then table.pending[at.value].depth + 1 else 1;
      symbol := "M2_TD_" + typeName;
      table := table.(pending := table.pending + [Desc(symbol, display, parent, depth)]);
    }

    /** Takes the pending descriptors, so that later modules do not find them. */
    method EmitTypeDescs() returns (descs: seq<Desc>)
      modifies this
      ensures descs == old(table).pending && table == Apply(old(table), Emit)
    {
      descs := table.pending;
      table := Table(table.emitted + descs, []);
    }
  }

  // ----- parents first -----

  predicate Distinct(descs: seq<Desc>) {
    forall i, j :: 0 <= i < j < |descs| ==> descs[i].symbol != descs[j].symbol
  }

  /** Symbols are distinct, and every named parent was registered before its child. */
  predicate Linked(descs: seq<Desc>) {
    && Distinct(descs)
    && forall i :: 0 <= i < |descs| && descs[i].parent.Some? ==>
      exists j :: 0 <= j < i && descs[j].symbol == descs[i].parent.value
  }

  /** What the callers ensure: a new symbol, and a parent that is registered, in whatever module. */
  predicate Allowed(t: Table, op: Op) {
    op.Register? ==>
      && Lookup(t.All(), Symbol(op.typeName)).None?
      && (op.parent.Some? ==> Lookup(t.All(), op.parent.value).Some?)
  }

  ghost predicate AllowedRun(ops: seq<Op>) {
    forall k :: 0 <= k < |ops| ==> Allowed(ApplyAll(ops[..k]), ops[k])
  }

  lemma {:induction false} ApplyLinked(t: Table, op: Op)
    requires Linked(t.All()) && Allowed(t, op)
    ensures Linked(Apply(t, op).All())
  {
    var descs, more := t.All(), Apply(t, op).All();
    if op.Emit? {
      assert more == descs;
    } else {
      var d := Desc(Symbol(op.typeName), op.display, op.parent, DepthOf(t, op.parent));
      assert more == descs + [d];
      forall i | 0 <= i < |more| && more[i].parent.Some?
        ensures exists j :: 0 <= j < i && more[j].symbol == more[i].parent.value {
        if i < |descs| {
          var j :| 0 <= j < i && descs[j].symbol == descs[i].parent.value;
          assert more[j] == descs[j];
        } else {
          var j := Lookup(descs, op.parent.value).value;
          assert more[j] == descs[j];
        }
      }
    }
  }

  lemma {:induction false} RunLinked(ops: seq<Op>)
    requires AllowedRun(ops)
    ensures Linked(ApplyAll(ops).All())
    decreases |ops|
  {
    if ops != [] {
      var front := ops[..|ops| - 1];
      AllowedFront(ops);
      RunLinked(front);
      ApplyLinked(ApplyAll(front), ops[|ops| - 1]);
    }
  }

  lemma {:induction false} AllowedFront(ops: seq<Op>)
    requires AllowedRun(ops) && ops != []
    ensures AllowedRun(ops[..|ops| - 1]) && Allowed(ApplyAll(ops[..|ops| - 1]), ops[|ops| - 1])
  {
    var front := ops[..|ops| - 1];
    forall k | 0 <= k < |front| ensures Allowed(ApplyAll(front[..k]), front[k]) {
      assert front[..k] == ops[..k];
    }
  }

  // ----- the chain of parents -----

  /** The `parent` pointer of the emitted descriptor. */
  function Parent(descs: seq<Desc>, i: nat): (r: Option<nat>)
    requires i < |descs|
    ensures r.Some? ==> r.value < |descs|
  {
    if descs[i].parent.None? then None else Lookup(descs, descs[i].parent.value)
  }

  /** Each element of the chain is the parent of the one before it. */
  ghost predicate IsChain(descs: seq<Desc>, p: seq<nat>) {
    && p != [] && (forall i :: 0 <= i < |p| ==> p[i] < |descs|)
    && forall i :: 0 <= i < |p| - 1 ==> Parent(descs, p[i]) == Some(p[i + 1])
  }

  /** `target` is `td` or one of its ancestors. */
  ghost predicate Derives(descs: seq<Desc>, td: nat, target: nat) {
    exists p :: IsChain(descs, p) && p[0] == td && p[|p| - 1] == target
  }

  lemma {:induction false} ParentIsEarlier(descs: seq<Desc>, i: nat)
    requires Linked(descs) && i < |descs|
    ensures descs[i].parent.Some? ==> Parent(descs, i).Some? && Parent(descs, i).value < i
  {
  }

  lemma {:induction false} DerivesStep(descs: seq<Desc>, td: nat, target: nat)
    requires td < |descs|
    ensures Derives(descs, td, target)
       <==> td == target || (Parent(descs, td).Some? && Derives(descs, Parent(descs, td).value, target))
  {
    hide Parent;
    if td == target {
      assert IsChain(descs, [td]);
    } else {
      StepUp(descs, td, target);
      if Parent(descs, td).Some? && Derives(descs, Parent(descs, td).value, target) {
        StepDown(descs, td, target);
      }
    }
  }

  lemma {:induction false} StepUp(descs: seq<Desc>, td: nat, target: nat)
    requires td < |descs| && td != target
    ensures Derives(descs, td, target) ==> Parent(descs, td).Some? && Derives(descs, Parent(descs, td).value, target)
  {
    hide Parent;
    if Derives(descs, td, target) {
      var p :| IsChain(descs, p) && p[0] == td && p[|p| - 1] == target;
      assert Parent(descs, p[0]) == Some(p[1]);
      assert IsChain(descs, p[1..]);
    }
  }

  lemma {:induction false} StepDown(descs: seq<Desc>, td: nat, target: nat)
    requires td < |descs| && Parent(descs, td).Some? && Derives(descs, Parent(descs, td).value, target)
    ensures Derives(descs, td, target)
  {
    hide Parent;
    var p :| IsChain(descs, p) && p[0] == Parent(descs, td).value && p[|p| - 1] == target;
    var q := [td] + p;
    assert forall i :: 0 < i < |q| ==> q[i] == p[i - 1];
    assert IsChain(descs, q);
  }

  // ----- the test -----

  /** `M2_ISA` on the payload's descriptor; null pointers are `None`. */
  method IsA(descs: seq<Desc>, payload: Option<nat>, target: Option<nat>) returns (r: bool)
    requires Linked(descs)
    requires payload.Some? ==> payload.value < |descs|
    requires target.Some? ==> target.value < |descs|
    ensures r <==> (
        && payload.Some? && target.Some? && Derives(descs, payload.value, target.value)
        && descs[target.value].depth <= descs[payload.value].depth)
  {
    hide Linked, Parent, Derives;
    if payload.None? || target.None? { return false; }
    if descs[payload.value].depth < descs[target.value].depth { return false; }
    var td: Option<nat> := payload;
    while td.Some?
      invariant td.Some? ==> td.value < |descs|
      invariant Derives(descs, payload.value, target.value) <==> td.Some? && Derives(descs, td.value, target.value)
      decreases if td.Some? then td.value + 1 else 0
    {
      DerivesStep(descs, td.value, target.value);
      if td.value == target.value { return true; }
      ParentLookup(descs, td.value);
      td := Parent(descs, td.value);
    }
    return false;
  }

  lemma {:induction false} ParentLookup(descs: seq<Desc>, i: nat)
    requires Linked(descs) && i < |descs|
    ensures Parent(descs, i).Some? ==> Parent(descs, i).value < i
  {
    if descs[i].parent.Some? { ParentIsEarlier(descs, i); }
  }

  /** The early exit never hides an ancestor. */
  ghost predicate ExitIsSafe(descs: seq<Desc>) {
    forall i: nat, j: nat :: i < |descs| && j < |descs| && Derives(descs, i, j) ==> descs[j].depth <= descs[i].depth
  }

  /** No parent is deeper than its child. */
  predicate NoDeeperParent(descs: seq<Desc>) {
    forall i: nat :: i < |descs| && Parent(descs, i).Some? ==> descs[Parent(descs, i).value].depth <= descs[i].depth
  }

  /** The answers are right for all pairs if and only if no parent is deeper than its child. */
  lemma {:induction false} ExitIsSafeIff(descs: seq<Desc>)
    requires Linked(descs)
    ensures ExitIsSafe(descs) <==> NoDeeperParent(descs)
  {
    hide Linked, Parent, Derives;
    if NoDeeperParent(descs) {
      forall i: nat, j: nat | i < |descs| && j < |descs| && Derives(descs, i, j)
        ensures descs[j].depth <= descs[i].depth {
        AncestorIsShallower(descs, i, j);
      }
    } else {
      var i: nat :| i < |descs| && Parent(descs, i).Some? && descs[Parent(descs, i).value].depth > descs[i].depth;
      var j := Parent(descs, i).value;
      ParentLookup(descs, i);
      DerivesStep(descs, j, j);
      DerivesStep(descs, i, j);
    }
  }

  lemma {:induction false} AncestorIsShallower(descs: seq<Desc>, td: nat, target: nat)
    requires Linked(descs) && NoDeeperParent(descs) && td < |descs| && target < |descs| && Derives(descs, td, target)
    ensures descs[target].depth <= descs[td].depth
    decreases td
  {
    hide Linked, Parent, Derives;
    DerivesStep(descs, td, target);
    if td != target {
      ParentLookup(descs, td);
      AncestorIsShallower(descs, Parent(descs, td).value, target);
    }
  }

  // ----- which runs are safe -----

  /** The parent is pending, or it was emitted with an earlier module and is itself at depth 0 or 1. */
  predicate Shallow(t: Table, op: Op) {
    op.Register? && op.parent.Some? && Lookup(t.pending, op.parent.value).None? ==>
      match Lookup(t.emitted, op.parent.value)
      case Some(j) => t.emitted[j].depth <= 1
      case None => true
  }

  ghost predicate ShallowRun(ops: seq<Op>) {
    forall k :: 0 <= k < |ops| ==> Shallow(ApplyAll(ops[..k]), ops[k])
  }

  lemma {:induction false} LookupAt(descs: seq<Desc>, i: nat)
    requires Distinct(descs) && i < |descs|
    ensures Lookup(descs, descs[i].symbol) == Some(i)
  {
  }

  /** Descriptors added later change no pointer. */
  lemma {:induction false} ParentKept(descs: seq<Desc>, d: Desc, i: nat)
    requires Linked(descs) && Distinct(descs + [d]) && i < |descs|
    ensures Parent(descs + [d], i) == Parent(descs, i)
  {
    var more := descs + [d];
    if descs[i].parent.Some? {
      ParentIsEarlier(descs, i);
      var j := Parent(descs, i).value;
      assert more[j] == descs[j];
      LookupAt(more, j);
    }
  }

  /** Registration keeps the early exit safe exactly when the parent is shallow. */
  lemma {:induction false} RegisterIff(t: Table, op: Op)
    requires Linked(t.All()) && Allowed(t, op)
    ensures NoDeeperParent(Apply(t, op).All()) <==> NoDeeperParent(t.All()) && Shallow(t, op)
  {
    hide Parent, NoDeeperParent, Linked;
    var descs, more := t.All(), Apply(t, op).All();
    if op.Emit? {
      assert more == descs;
    } else {
      var d := Desc(Symbol(op.typeName), op.display, op.parent, DepthOf(t, op.parent));
      assert more == descs + [d];
      ApplyLinked(t, op);
      LastEdge(t, op);
      OneMore(descs, d);
    }
  }

  lemma {:induction false} OneMore(descs: seq<Desc>, d: Desc)
    requires Linked(descs) && Linked(descs + [d])
    ensures var more, n := descs + [d], |descs|;
      NoDeeperParent(more)
      <==> NoDeeperParent(descs) && (Parent(more, n).Some? ==> more[Parent(more, n).value].depth <= d.depth)
  {
    hide Parent;
    var more, n := descs + [d], |descs|;
    forall i: nat | i < n
      ensures Parent(more, i) == Parent(descs, i) && (Parent(descs, i).Some? ==> Parent(descs, i).value < i) {
      ParentKept(descs, d, i);
      ParentLookup(descs, i);
    }
    ParentLookup(more, n);
    if NoDeeperParent(more) {
      forall i: nat | i < n && Parent(descs, i).Some? ensures descs[Parent(descs, i).value].depth <= descs[i].depth {
        assert more[i] == descs[i];
      }
    }
  }

  /** The new descriptor against its parent. */
  lemma {:induction false} LastEdge(t: Table, op: Op)
    requires op.Register? && Linked(t.All()) && Allowed(t, op) && Linked(Apply(t, op).All())
    ensures var more, n := Apply(t, op).All(), |t.All()|;
      && n < |more|
      && (Parent(more, n).Some? ==> Parent(more, n).value < |more|)
      && ((Parent(more, n).Some? ==> more[Parent(more, n).value].depth <= more[n].depth) <==> Shallow(t, op))
  {
    var more, n := Apply(t, op).All(), |t.All()|;
    if op.parent.Some? {
      var sym := op.parent.value;
      match Lookup(t.pending, sym) {
        case Some(j) =>
          assert more[|t.emitted| + j] == t.pending[j];
          LookupAt(more, |t.emitted| + j);
        case None =>
          var j := Lookup(t.All(), sym).value;
          assert forall i :: 0 <= i < |t.pending| ==> t.pending[i] == t.All()[|t.emitted| + i];
          assert more[j] == t.emitted[j];
          LookupAt(more, j);
          assert forall i :: 0 <= i < |t.emitted| ==> t.emitted[i] == t.All()[i];
          LookupAt(t.emitted, j);
      }
    }
  }

  /**
     Over a whole run: the early exit is safe if and only if no type extends one from an earlier
     module that is deeper than 1.
   */
  lemma {:induction false} RunIsSafeIff(ops: seq<Op>)
    requires AllowedRun(ops)
    ensures ExitIsSafe(ApplyAll(ops).All()) <==> ShallowRun(ops)
  {
    hide ExitIsSafe, NoDeeperParent, ShallowRun;
    RunLinked(ops);
    ExitIsSafeIff(ApplyAll(ops).All());
    RunIff(ops);
  }

  lemma {:induction false} RunIff(ops: seq<Op>)
    requires AllowedRun(ops)
    ensures NoDeeperParent(ApplyAll(ops).All()) <==> ShallowRun(ops)
    decreases |ops|
  {
    if ops != [] {
      hide NoDeeperParent, Shallow, AllowedRun, ShallowRun, Linked;
      var n := |ops| - 1;
      var front := ops[..n];
      AllowedFront(ops);
      RunLinked(front);
      RunIff(front);
      RegisterIff(ApplyAll(front), ops[n]);
      ShallowFront(ops);
    }
  }

  lemma {:induction false} ShallowFront(ops: seq<Op>)
    requires ops != []
    ensures ShallowRun(ops) <==> ShallowRun(ops[..|ops| - 1]) && Shallow(ApplyAll(ops[..|ops| - 1]), ops[|ops| - 1])
  {
    hide Shallow, ApplyAll;
    var front := ops[..|ops| - 1];
    forall k | 0 <= k < |front| ensures front[..k] == ops[..k] && front[k] == ops[k] {
    }
    if ShallowRun(front) && Shallow(ApplyAll(front), ops[|ops| - 1]) {
      forall k | 0 <= k < |ops| ensures Shallow(ApplyAll(ops[..k]), ops[k]) {
        if k < |front| { assert Shallow(ApplyAll(front[..k]), front[k]); }
      }
    }
    if ShallowRun(ops) {
      forall k | 0 <= k < |front| ensures Shallow(ApplyAll(front[..k]), front[k]) {
        assert Shallow(ApplyAll(ops[..k]), ops[k]);
      }
    }
  }

  // ----- a run that is not -----

  /** R, Q(R) and P(Q) in one module; then C(P) in the next. */
  function TwoModules(): seq<Op> {
    [Register("R", "R", None), Register("Q", "Q", Some("M2_TD_R")), Register("P", "P", Some("M2_TD_Q")), Emit,
     Register("C", "C", Some("M2_TD_P"))]
  }

  function TwoModulesDescs(): seq<Desc> {
    [Desc("M2_TD_R", "R", None, 0), Desc("M2_TD_Q", "Q", Some("M2_TD_R"), 1), Desc("M2_TD_P", "P", Some("M2_TD_Q"), 2),
     Desc("M2_TD_C", "C", Some("M2_TD_P"), 1)]
  }

  /** The table after the first k operations. */
  function TwoModulesTable(k: nat): Table
    requires k <= 5
  {
    var d := TwoModulesDescs();
    if k <= 3 then Table([], d[..k]) else if k == 4 then Table(d[..3], []) else Table(d[..3], [d[3]])
  }

  lemma {:induction false} TwoModulesStep(k: nat)
    requires k < 5
    ensures Allowed(TwoModulesTable(k), TwoModules()[k])
    ensures Apply(TwoModulesTable(k), TwoModules()[k]) == TwoModulesTable(k + 1)
  {
    hide Lookup, Distinct;
    var ops, d, t := TwoModules(), TwoModulesDescs(), TwoModulesTable(k);
    if k == 3 {
      assert d[..3] == [] + d[..3];
    } else {
      var i := if k == 4 then 3 else k;
      assert t.All() == d[..i];
      TwoModulesNames(i);
      if k == 4 { NotThere([], "M2_TD_P"); }
      assert k < 3 ==> d[..k] + [d[k]] == d[..k + 1];
    }
  }

  /** The i-th type: its symbol is new, and its parent is the one before it. */
  lemma {:induction false} TwoModulesNames(i: nat)
    requires i < 4
    ensures var d := TwoModulesDescs();
      && Lookup(d[..i], d[i].symbol) == None && d[i].symbol == Symbol(d[i].display)
      && (i > 0 ==> d[i].parent == Some(d[i - 1].symbol) && Lookup(d[..i], d[i - 1].symbol) == Some(i - 1))
  {
    hide Lookup;
    var d := TwoModulesDescs();
    DescsDistinct();
    NotThere(d[..i], d[i].symbol);
    if i > 0 { LookupAt(d[..i], i - 1); }
    assert "M2_TD_" + "R" == "M2_TD_R" && "M2_TD_" + "Q" == "M2_TD_Q";
    assert "M2_TD_" + "P" == "M2_TD_P" && "M2_TD_" + "C" == "M2_TD_C";
  }

  lemma {:induction false} NotThere(descs: seq<Desc>, symbol: string)
    requires forall i :: 0 <= i < |descs| ==> descs[i].symbol != symbol
    ensures Lookup(descs, symbol) == None
  {
  }

  lemma {:induction false} DescsDistinct()
    ensures Distinct(TwoModulesDescs())
  {
    var d := TwoModulesDescs();
    assert d[0].symbol[6] == 'R' && d[1].symbol[6] == 'Q' && d[2].symbol[6] == 'P' && d[3].symbol[6] == 'C';
  }

  lemma {:induction false} TwoModulesPrefix(k: nat)
    requires k <= 5
    ensures ApplyAll(TwoModules()[..k]) == TwoModulesTable(k)
    decreases k
  {
    hide Apply, TwoModulesTable;
    if k == 0 {
      StartsEmpty();
    } else {
      TwoModulesPrefix(k - 1);
      TwoModulesStep(k - 1);
      RunStep(TwoModules(), k - 1, TwoModulesTable(k - 1));
    }
  }

  lemma {:induction false} StartsEmpty()
    ensures ApplyAll(TwoModules()[..0]) == TwoModulesTable(0)
  {
    assert TwoModules()[..0] == [];
  }

  lemma {:induction false} TwoModulesRun()
    ensures AllowedRun(TwoModules()) && ApplyAll(TwoModules()).All() == TwoModulesDescs()
  {
    hide Apply, Allowed;
    var ops := TwoModules();
    forall k | 0 <= k < 5 ensures Allowed(ApplyAll(ops[..k]), ops[k]) {
      TwoModulesPrefix(k);
      TwoModulesStep(k);
    }
    TwoModulesPrefix(5);
    assert ops[..5] == ops;
  }

  lemma {:induction false} RunStep(ops: seq<Op>, k: nat, t: Table)
    requires k < |ops| && ApplyAll(ops[..k]) == t
    ensures ApplyAll(ops[..k + 1]) == Apply(t, ops[k])
  {
    assert ops[..k + 1][..k] == ops[..k];
  }

  /** The parent was registered first, C derives from P, and the test says no. */
  lemma {:induction false} EarlierModuleMisleads()
    ensures AllowedRun(TwoModules()) && !ExitIsSafe(ApplyAll(TwoModules()).All())
    ensures var d := ApplyAll(TwoModules()).All(); |d| == 4 && Derives(d, 3, 2) && d[3].depth < d[2].depth
  {
    TwoModulesRun();
    var d := TwoModulesDescs();
    RunLinked(TwoModules());
    LookupAt(d, 2);
    assert Parent(d, 3) == Some(2);
    DerivesStep(d, 2, 2);
    DerivesStep(d, 3, 2);
  }
}
