/**
 What the lints of src/cfg/lint.rs collect from expressions and statements -
 variables written, names read, pointers dereferenced - and that this is
 what occurs in them.
 */
module LintScans {
  import opened Wrappers
  import opened Hir
  import opened Cfg
  import opened Paths
  import opened Occurrences

  // ----- tracked variables and bits -----

  /** The first position of `name`, if it is tracked. */
  function IndexOf(vars: seq<string>, name: string): (r: Option<nat>)
    ensures r.Some? ==> r.value < |vars| && vars[r.value] == name
    ensures r.None? ==> name !in vars
    decreases vars
  {
    if vars == [] then None
    else if vars[0] == name then Some(0)
    else match IndexOf(vars[1..], name) case Some(i) => Some(i + 1) case None => None
  }

  function PlaceVar(vars: seq<string>, pl: Place): (r: Option<nat>)
    ensures r.Some? ==> r.value < |vars|
  {
    if pl.base.Local? then IndexOf(vars, pl.base.name) else None
  }

  function SetBit(bits: Bits, i: Option<nat>, v: bool): (r: Bits)
    ensures |r| == |bits|
    ensures forall j: nat :: j < |bits| ==> r[j] == if i == Some(j) then v else bits[j]
  {
    if i.Some? && i.value < |bits| then bits[i.value := v] else bits
  }

  // ----- W10: what counts as a definition -----

  predicate DefiningBuiltin(name: string) {
    name in {"NEW", "INC", "DEC", "INCL", "EXCL"}
  }

  /** A VAR argument: its variable is written by the callee. */
  function ArgVar(vars: seq<string>, arg: Expr): (r: Option<nat>)
    ensures r.Some? ==> r.value < |vars|
  {
    if arg.AddrOf? then PlaceVar(vars, arg.place) else None
  }

  /** The variable a defining builtin writes: its first argument, passed as a bare place. */
  function BuiltinVar(vars: seq<string>, name: string, args: seq<Expr>): (r: Option<nat>)
    ensures r.Some? ==> r.value < |vars|
  {
    if DefiningBuiltin(name) && args != [] && args[0].PlaceExpr? then PlaceVar(vars, args[0].place) else None
  }

  /** `scan_expr_defs`: mark every variable that a call inside e writes. */
  function ScanExpr(vars: seq<string>, e: Expr, bits: Bits): Bits
    decreases e
  {
    match e
    case DirectCall(target, args) => SetBit(ScanArgs(vars, args, bits), BuiltinVar(vars, target, args), true)
    case IndirectCall(_, args) => ScanArgs(vars, args, bits)
    case BinaryOp(_, l, r) => ScanExpr(vars, r, ScanExpr(vars, l, bits))
    case UnaryOp(_, x) => ScanExpr(vars, x, bits)
    case Not(x) => ScanExpr(vars, x, bits)
    case Deref(x) => ScanExpr(vars, x, bits)
    case TypeTransfer(x) => ScanExpr(vars, x, bits)
    case _ => bits
  }

  function ScanArgs(vars: seq<string>, args: seq<Expr>, bits: Bits): Bits
    decreases args
  {
    if args == [] then bits
    else ScanArgs(vars, args[1..], ScanExpr(vars, args[0], SetBit(bits, ArgVar(vars, args[0]), true)))
  }

  /** Some call inside e is handed variable i to write. */
  predicate Defines(vars: seq<string>, e: Expr, i: nat)
    decreases e
  {
    match e
    case DirectCall(target, args) => DefinesArgs(vars, args, i) || BuiltinVar(vars, target, args) == Some(i)
    case IndirectCall(_, args) => DefinesArgs(vars, args, i)
    case BinaryOp(_, l, r) => Defines(vars, l, i) || Defines(vars, r, i)
    case UnaryOp(_, x) => Defines(vars, x, i)
    case Not(x) => Defines(vars, x, i)
    case Deref(x) => Defines(vars, x, i)
    case TypeTransfer(x) => Defines(vars, x, i)
    case _ => false
  }

  predicate DefinesArgs(vars: seq<string>, args: seq<Expr>, i: nat)
    decreases args
  {
    args != [] && (ArgVar(vars, args[0]) == Some(i) || Defines(vars, args[0], i) || DefinesArgs(vars, args[1..], i))
  }

  lemma {:induction false} ScanMeaning(vars: seq<string>, e: Expr, bits: Bits)
    ensures |ScanExpr(vars, e, bits)| == |bits|
    ensures forall i: nat :: i < |bits| ==> (ScanExpr(vars, e, bits)[i] <==> bits[i] || Defines(vars, e, i))
    decreases e
  {
    match e
    case DirectCall(_, args) => ScanArgsMeaning(vars, args, bits);
    case IndirectCall(_, args) => ScanArgsMeaning(vars, args, bits);
    case BinaryOp(_, l, r) =>
      ScanMeaning(vars, l, bits);
      ScanMeaning(vars, r, ScanExpr(vars, l, bits));
    case UnaryOp(_, x) => ScanMeaning(vars, x, bits);
    case Not(x) => ScanMeaning(vars, x, bits);
    case Deref(x) => ScanMeaning(vars, x, bits);
    case TypeTransfer(x) => ScanMeaning(vars, x, bits);
    case _ =>
  }

  lemma {:induction false} ScanArgsMeaning(vars: seq<string>, args: seq<Expr>, bits: Bits)
    ensures |ScanArgs(vars, args, bits)| == |bits|
    ensures forall i: nat :: i < |bits| ==> (ScanArgs(vars, args, bits)[i] <==> bits[i] || DefinesArgs(vars, args, i))
    decreases args
  {
    if args != [] {
      var b1 := SetBit(bits, ArgVar(vars, args[0]), true);
      ScanMeaning(vars, args[0], b1);
      ScanArgsMeaning(vars, args[1..], ScanExpr(vars, args[0], b1));
    }
  }

  /** VAR arguments of a call statement; unlike in an expression, nested calls are not scanned. */
  function SetArgs(vars: seq<string>, args: seq<Expr>, bits: Bits): (r: Bits)
    ensures |r| == |bits|
    ensures forall i: nat :: i < |bits| ==>
      (r[i] <==> bits[i] || exists k :: 0 <= k < |args| && ArgVar(vars, args[k]) == Some(i))
    decreases args
  {
    if args == [] then bits else
    var r := SetArgs(vars, args[1..], SetBit(bits, ArgVar(vars, args[0]), true));
    assert forall k :: 0 <= k < |args[1..]| ==> args[1..][k] == args[k + 1];
    r
  }

  function CalleeName(t: CallTarget): string {
    if t.Direct? then t.name else ""
  }

  /** `DefinitelyAssigned::transfer_stmt`. */
  function AssignStmt(vars: seq<string>, s: Stmt, bits: Bits): Bits {
    match s
    case Assign(target, value) => SetBit(ScanExpr(vars, value, bits), PlaceVar(vars, target), true)
    case ProcCall(callee, args) => SetBit(SetArgs(vars, args, bits), BuiltinVar(vars, CalleeName(callee), args), true)
    case _ => bits
  }

  predicate StmtDefines(vars: seq<string>, s: Stmt, i: nat) {
    match s
    case Assign(target, value) => Defines(vars, value, i) || PlaceVar(vars, target) == Some(i)
    case ProcCall(callee, args) =>
      || (exists k :: 0 <= k < |args| && ArgVar(vars, args[k]) == Some(i))
      || BuiltinVar(vars, CalleeName(callee), args) == Some(i)
    case _ => false
  }

  lemma {:induction false} AssignMeaning(vars: seq<string>, s: Stmt, bits: Bits)
    ensures |AssignStmt(vars, s, bits)| == |bits|
    ensures forall i: nat :: i < |bits| ==> (AssignStmt(vars, s, bits)[i] <==> bits[i] || StmtDefines(vars, s, i))
  {
    if s.Assign? { ScanMeaning(vars, s.value, bits); }
  }

  /** The expression a terminator evaluates. */
  function TermExpr(t: Option<Terminator>): Option<Expr> {
    match t
    case Some(BranchOn(e, _, _)) => Some(e)
    case Some(Switch(e, _, _)) => Some(e)
    case Some(ReturnT(e)) => e
    case Some(RaiseT(e)) => e
    case _ => None
  }

  /** Some statement, or the terminator, defines variable i. */
  predicate BlockDefines(vars: seq<string>, blk: Block, i: nat) {
    || (exists k :: 0 <= k < |blk.stmts| && StmtDefines(vars, blk.stmts[k], i))
    || (TermExpr(blk.term).Some? && Defines(vars, TermExpr(blk.term).value, i))
  }

  // ----- W11: what changes a pointer's state -----

  /** A whole local pointer, with no projections. */
  function BareVar(vars: seq<string>, pl: Place): (r: Option<nat>)
    ensures r.Some? ==> r.value < |vars|
  {
    if pl.projections == [] then PlaceVar(vars, pl) else None
  }

  /** The pointer that NEW or DISPOSE is applied to. */
  function FirstArgVar(vars: seq<string>, args: seq<Expr>): (r: Option<nat>)
    ensures r.Some? ==> r.value < |vars|
  {
    if args == [] then None
    else if args[0].AddrOf? then BareVar(vars, args[0].place)
    else if args[0].PlaceExpr? then BareVar(vars, args[0].place)
    else None
  }

  /** `NilSafety::transfer_stmt`; a set bit means non-NIL. */
  function NilStmt(vars: seq<string>, s: Stmt, bits: Bits): Bits {
    match s
    case Assign(target, value) => SetBit(bits, BareVar(vars, target), !value.NilLit?)
    case ProcCall(Direct(name), args) =>
      var b1 := if name == "NEW" then SetBit(bits, FirstArgVar(vars, args), true) else bits;
      if name == "DISPOSE" then SetBit(b1, FirstArgVar(vars, args), false) else b1
    case _ => bits
  }

  /** Assigning a value other than NIL, or NEW, makes it non-NIL; assigning NIL, or DISPOSE, maybe NIL. */
  function NilEffect(vars: seq<string>, s: Stmt, i: nat): Effect {
    match s
    case Assign(target, value) => if BareVar(vars, target) != Some(i) then Keep else if value.NilLit? then Kill else Gen
    case ProcCall(Direct(name), args) =>
      if FirstArgVar(vars, args) != Some(i) then Keep
      else if name == "NEW" then Gen
      else if name == "DISPOSE" then Kill
      else Keep
    case _ => Keep
  }

  /** Parameters that happen to be tracked start out non-NIL, everything else maybe NIL. */
  function NilEntry(vars: seq<string>, params: seq<string>, bits: Bits): (r: Bits)
    ensures |r| == |bits|
    decreases params
  {
    if params == [] then bits else NilEntry(vars, params[1..], SetBit(bits, IndexOf(vars, params[0]), true))
  }

  // ----- uses and dereferences -----

  /** Names read, and names written by calls, in evaluation order. */
  datatype Names = Names(uses: seq<string>, defs: seq<string>) {
    function Plus(n: Names): Names {
      Names(uses + n.uses, defs + n.defs)
    }
  }

  const NO_NAMES := Names([], [])

  function LocalUse(pl: Place): seq<string> {
    if pl.base.Local? then [pl.base.name] else []
  }

  /** `collect_uses`. */
  function CollectUses(e: Expr): Names
    decreases e, 0
  {
    match e
    case PlaceExpr(pl) => Names(LocalUse(pl), []).Plus(CollectPlace(pl))
    case BinaryOp(_, l, r) => CollectUses(l).Plus(CollectUses(r))
    case UnaryOp(_, x) => CollectUses(x)
    case Not(x) => CollectUses(x)
    case Deref(x) => CollectUses(x)
    case TypeTransfer(x) => CollectUses(x)
    case DirectCall(target, args) => CollectArgs(args, DefiningBuiltin(target))
    case IndirectCall(_, args) => CollectArgs(args, false)
    case AddrOf(pl) => Names(LocalUse(pl), [])
    case SetConstructor(elems) => CollectElements(elems)
    case _ => NO_NAMES
  }

  /** Index expressions of a designator. */
  function CollectPlace(pl: Place): Names
    decreases pl
  {
    CollectIndices(pl.projections)
  }

  function CollectIndices(projs: seq<Projection>): Names
    decreases projs
  {
    if projs == [] then NO_NAMES
    else CollectIndex(projs[0]).Plus(CollectIndices(projs[1..]))
  }

  function CollectIndex(pr: Projection): Names
    decreases pr
  {
    match pr
    case Index(e) => CollectUses(e)
    case _ => NO_NAMES
  }

  /** A VAR argument, or a defining builtin's first argument, is a definition and not a use. */
  function CollectArgs(args: seq<Expr>, builtin: bool): Names
    decreases args
  {
    if args == [] then NO_NAMES else CollectArg(args[0], builtin).Plus(CollectArgs(args[1..], false))
  }

  function CollectArg(arg: Expr, builtin: bool): Names
    decreases arg, 1
  {
    match arg
    case AddrOf(pl) => Names([], LocalUse(pl)).Plus(CollectPlace(pl))
    case PlaceExpr(pl) => if builtin then Names([], LocalUse(pl)) else CollectUses(arg)
    case _ => if builtin then NO_NAMES else CollectUses(arg)
  }

  function CollectElements(elems: seq<SetElement>): Names
    decreases elems
  {
    if elems == [] then NO_NAMES else CollectElement(elems[0]).Plus(CollectElements(elems[1..]))
  }

  function CollectElement(el: SetElement): Names
    decreases el
  {
    match el
    case Single(e) => CollectUses(e)
    case Range(lo, hi) => CollectUses(lo).Plus(CollectUses(hi))
  }

  function StmtNames(s: Stmt): Names {
    match s
    case Assign(target, value) => CollectUses(value).Plus(CollectIndices(target.projections))
    case ProcCall(callee, args) => CollectArgs(args, DefiningBuiltin(CalleeName(callee)))
    case _ => NO_NAMES
  }

  function TermUses(t: Option<Terminator>): seq<string> {
    if TermExpr(t).Some? then CollectUses(TermExpr(t).value).uses else []
  }

  function SetNames(vars: seq<string>, names: seq<string>, bits: Bits): (r: Bits)
    ensures |r| == |bits| && forall i: nat :: i < |bits| && bits[i] ==> r[i]
    decreases names
  {
    if names == [] then bits else SetNames(vars, names[1..], SetBit(bits, IndexOf(vars, names[0]), true))
  }

  /** While looking for uses, the names that calls write count as defined too. */
  function UseStmt(vars: seq<string>, s: Stmt, bits: Bits): Bits {
    SetNames(vars, StmtNames(s).defs, AssignStmt(vars, s, bits))
  }

  predicate HasDeref(projs: seq<Projection>) {
    exists k :: 0 <= k < |projs| && projs[k].DerefProj?
  }

  function DerefBase(pl: Place): seq<string> {
    if HasDeref(pl.projections) then LocalUse(pl) else []
  }

  /** `collect_derefs`. */
  function CollectDerefs(e: Expr): seq<string>
    decreases e
  {
    match e
    case PlaceExpr(pl) => DerefBase(pl) + DerefIndices(pl.projections)
    case Deref(x) => (if x.PlaceExpr? then LocalUse(x.place) else []) + CollectDerefs(x)
    case BinaryOp(_, l, r) => CollectDerefs(l) + CollectDerefs(r)
    case UnaryOp(_, x) => CollectDerefs(x)
    case Not(x) => CollectDerefs(x)
    case TypeTransfer(x) => CollectDerefs(x)
    case DirectCall(_, args) => DerefArgs(args)
    case IndirectCall(_, args) => DerefArgs(args)
    case AddrOf(pl) => DerefBase(pl)
    case _ => []
  }

  function DerefIndices(projs: seq<Projection>): seq<string>
    decreases projs
  {
    if projs == [] then []
    else DerefIndex(projs[0]) + DerefIndices(projs[1..])
  }

  function DerefIndex(pr: Projection): seq<string>
    decreases pr
  {
    match pr
    case Index(e) => CollectDerefs(e)
    case _ => []
  }

  function DerefArgs(args: seq<Expr>): seq<string>
    decreases args
  {
    if args == [] then [] else CollectDerefs(args[0]) + DerefArgs(args[1..])
  }

  function StmtDerefs(s: Stmt): seq<string> {
    match s
    case Assign(target, value) => DerefBase(target) + CollectDerefs(value)
    case ProcCall(_, args) => DerefArgs(args)
    case _ => []
  }

  function TermDerefs(t: Option<Terminator>): seq<string> {
    if TermExpr(t).Some? then CollectDerefs(TermExpr(t).value) else []
  }

  // ----- what is collected is what occurs: reading -----

  lemma {:induction false} IndexCons(projs: seq<Projection>, x: Expr)
    requires projs != []
    ensures IndexIn(projs, x) <==> projs[0] == Index(x) || IndexIn(projs[1..], x)
  {
    if IndexIn(projs[1..], x) {
      var k :| 0 <= k < |projs[1..]| && projs[1..][k] == Index(x);
      assert projs[k + 1] == Index(x);
    }
    if IndexIn(projs, x) && projs[0] != Index(x) {
      var k :| 0 <= k < |projs| && projs[k] == Index(x);
      assert projs[1..][k - 1] == Index(x);
    }
  }

  lemma {:induction false} ElementCons(elems: seq<SetElement>, x: Expr)
    requires elems != []
    ensures ElementIn(elems, x) <==> ElementIn([elems[0]], x) || ElementIn(elems[1..], x)
  {
    if ElementIn(elems[1..], x) {
      var k :| 0 <= k < |elems[1..]| && (elems[1..][k] == Single(x) ||
        (elems[1..][k].Range? && (elems[1..][k].lo == x || elems[1..][k].hi == x)));
      assert elems[k + 1] == elems[1..][k];
    }
    if ElementIn(elems, x) && !ElementIn([elems[0]], x) {
      var k :| 0 <= k < |elems| && (elems[k] == Single(x) ||
        (elems[k].Range? && (elems[k].lo == x || elems[k].hi == x)));
      assert elems[0] == [elems[0]][0];
      assert elems[1..][k - 1] == elems[k];
    }
  }

  /** Only an address is read differently as an argument. */
  lemma {:induction false} ArgSame(x: Expr, name: string)
    requires !x.AddrOf?
    ensures ReadsArg(x, name) <==> Reads(x, name)
    ensures WayArg(x, name) <==> WritesOnTheWay(x, name)
  {
    hide ReadsAt, WayAt, CallWrites;
    ReadsUnfold(Node(x, true), name);
    ReadsUnfold(Node(x, false), name);
    WayUnfold(Node(x, true), name);
    WayUnfold(Node(x, false), name);
    assert forall y :: OperandOf(Node(x, true), y) <==> OperandOf(Node(x, false), y);
  }

  /** The names collected as read and as written are those that occur so. */
  lemma {:induction false} UsesIff(e: Expr, name: string)
    ensures name in CollectUses(e).uses <==> Reads(e, name)
    ensures name in CollectUses(e).defs <==> WritesOnTheWay(e, name)
    decreases e, 0
  {
    hide ReadsAt, WayAt, CollectArgs, CollectIndices, CollectElements, IndexIn, ElementIn, ReadArg, DefiningBuiltin,
      Reads, ReadsArg, WritesOnTheWay, WayArg;
    Outer(e, name);
    match e {
      case PlaceExpr(pl) => IndicesIff(pl.projections, name);
      case BinaryOp(_, l, r) =>
        UsesIff(l, name);
        UsesIff(r, name);
      case UnaryOp(_, x) => UsesIff(x, name);
      case Not(x) => UsesIff(x, name);
      case Deref(x) => UsesIff(x, name);
      case TypeTransfer(x) => UsesIff(x, name);
      case DirectCall(f, args) => DirectIff(f, args, name);
      case IndirectCall(_, args) => ArgsIff(args, false, name);
      case AddrOf(_) =>
      case SetConstructor(elems) => ElementsIff(elems, name);
      case _ =>
    }
  }

  /** At the outermost expression. */
  lemma {:induction false} Outer(e: Expr, name: string)
    ensures Reads(e, name) <==>
      || ReadsLocal(Node(e, false), name)
      || (exists x :: OperandOf(Node(e, false), x) && Reads(x, name))
      || (exists x :: ArgOf(e, x) && ReadsArg(x, name))
    ensures WritesOnTheWay(e, name) <==>
      || CallWrites(e, name)
      || (exists x :: OperandOf(Node(e, false), x) && WritesOnTheWay(x, name))
      || (exists x :: ArgOf(e, x) && WayArg(x, name))
  {
    hide ReadsAt, WayAt, CallWrites, OperandOf, ArgOf, ReadsLocal;
    ReadsUnfold(Node(e, false), name);
    WayUnfold(Node(e, false), name);
  }

  lemma {:induction false} IndicesIff(projs: seq<Projection>, name: string)
    ensures name in CollectIndices(projs).uses <==> exists x :: IndexIn(projs, x) && Reads(x, name)
    ensures name in CollectIndices(projs).defs <==> exists x :: IndexIn(projs, x) && WritesOnTheWay(x, name)
    decreases projs, 0
  {
    hide IndexIn, Reads, WritesOnTheWay, CollectIndex;
    if projs == [] {
      NoIndex();
    } else {
      forall x ensures IndexIn(projs, x) <==> projs[0] == Index(x) || IndexIn(projs[1..], x) {
        IndexCons(projs, x);
      }
      IndicesIff(projs[1..], name);
      IndexIff(projs[0], name);
    }
  }

  lemma {:induction false} NoIndex()
    ensures forall x :: !IndexIn([], x) && !ElementIn([], x)
  {
  }

  lemma {:induction false} IndexIff(pr: Projection, name: string)
    ensures name in CollectIndex(pr).uses <==> exists x :: pr == Index(x) && Reads(x, name)
    ensures name in CollectIndex(pr).defs <==> exists x :: pr == Index(x) && WritesOnTheWay(x, name)
    decreases pr, 0
  {
    hide Reads, WritesOnTheWay;
    match pr {
      case Index(e) => UsesIff(e, name);
      case _ =>
    }
  }

  lemma {:induction false} ElementsIff(elems: seq<SetElement>, name: string)
    ensures name in CollectElements(elems).uses <==> exists x :: ElementIn(elems, x) && Reads(x, name)
    ensures name in CollectElements(elems).defs <==> exists x :: ElementIn(elems, x) && WritesOnTheWay(x, name)
    decreases elems, 0
  {
    hide ElementIn, Reads, WritesOnTheWay, CollectElement;
    if elems == [] {
      NoIndex();
    } else {
      forall x ensures ElementIn(elems, x) <==> ElementIn([elems[0]], x) || ElementIn(elems[1..], x) {
        ElementCons(elems, x);
      }
      ElementsIff(elems[1..], name);
      ElementIff(elems[0], name);
    }
  }

  lemma {:induction false} ElementIff(el: SetElement, name: string)
    ensures name in CollectElement(el).uses <==> exists x :: ElementIn([el], x) && Reads(x, name)
    ensures name in CollectElement(el).defs <==> exists x :: ElementIn([el], x) && WritesOnTheWay(x, name)
    decreases el, 0
  {
    hide Reads, WritesOnTheWay;
    assert [el][0] == el;
    match el {
      case Single(e) =>
        UsesIff(e, name);
        assert ElementIn([el], e);
      case Range(lo, hi) =>
        UsesIff(lo, name);
        UsesIff(hi, name);
        assert ElementIn([el], lo) && ElementIn([el], hi);
    }
  }

  /** A first argument that a builtin writes is left out. */
  predicate Kept(args: seq<Expr>, builtin: bool, k: nat)
    requires k < |args|
  {
    k == 0 && builtin ==> args[0].AddrOf?
  }

  lemma {:induction false} ArgsIff(args: seq<Expr>, builtin: bool, name: string)
    ensures name in CollectArgs(args, builtin).uses <==>
      exists k :: 0 <= k < |args| && Kept(args, builtin, k) && ReadsArg(args[k], name)
    ensures name in CollectArgs(args, builtin).defs <==>
      || (exists k :: 0 <= k < |args| && VarArg(args[k], name))
      || (builtin && args != [] && args[0].PlaceExpr? && IsLocal(args[0].place, name))
      || (exists k :: 0 <= k < |args| && Kept(args, builtin, k) && WayArg(args[k], name))
    decreases args, 0
  {
    hide ReadsArg, WayArg, CollectArg, VarArg, IsLocal;
    if args != [] {
      var xs := args[1..];
      ArgsIff(xs, false, name);
      ArgIff(args[0], builtin, name);
      assert forall k :: 0 <= k < |xs| ==> xs[k] == args[k + 1];
      assert forall k :: 0 < k < |args| ==> args[k] == xs[k - 1];
      assert forall k :: 0 < k < |args| ==> Kept(args, builtin, k) && Kept(xs, false, k - 1);
    }
  }

  lemma {:induction false} ArgIff(x: Expr, builtin: bool, name: string)
    ensures name in CollectArg(x, builtin).uses <==> (builtin ==> x.AddrOf?) && ReadsArg(x, name)
    ensures name in CollectArg(x, builtin).defs <==>
      || VarArg(x, name) || (builtin && x.PlaceExpr? && IsLocal(x.place, name))
      || ((builtin ==> x.AddrOf?) && WayArg(x, name))
    decreases x, 1
  {
    hide Reads, WritesOnTheWay, ReadsAt, WayAt, CollectIndices, IndexIn;
    if x.AddrOf? {
      IndicesIff(x.place.projections, name);
      ReadsUnfold(Node(x, true), name);
      WayUnfold(Node(x, true), name);
    } else {
      UsesIff(x, name);
      ArgSame(x, name);
    }
  }

  lemma {:induction false} DirectIff(f: string, args: seq<Expr>, name: string)
    ensures var b := DefiningBuiltin(f);
      && (name in CollectArgs(args, b).uses <==> exists x :: ReadArg(f, args, x) && ReadsArg(x, name))
      && (name in CollectArgs(args, b).defs <==>
           CallWrites(DirectCall(f, args), name) || exists x :: ReadArg(f, args, x) && WayArg(x, name))
    decreases args, 1
  {
    hide ReadsArg, WayArg, VarArg, IsLocal, CollectArgs;
    var b := DefiningBuiltin(f);
    ArgsIff(args, b, name);
    assert b <==> f == "NEW" || f == "INC" || f == "DEC" || f == "INCL" || f == "EXCL";
    forall k | 0 <= k < |args| && Kept(args, b, k) ensures ReadArg(f, args, args[k]) {
    }
    forall x | ReadArg(f, args, x) ensures exists k :: 0 <= k < |args| && Kept(args, b, k) && args[k] == x {
    }
  }

  lemma {:induction false} StmtReadsIff(s: Stmt, name: string)
    ensures name in StmtNames(s).uses <==> StmtReads(s, name)
    ensures name in StmtNames(s).defs <==> StmtCallsWrite(s, name)
  {
    hide Reads, WritesOnTheWay, CollectIndices, IndexIn;
    match s {
      case Assign(target, value) =>
        UsesIff(value, name);
        IndicesIff(target.projections, name);
      case ProcCall(t, args) =>
        UsesIff(CallExpr(t, args), name);
        assert !DefiningBuiltin("");
      case _ =>
    }
  }

  lemma {:induction false} TermExprIff(t: Option<Terminator>, e: Expr)
    ensures TermExpr(t) == Some(e) <==> Evaluates(t, e)
  {
  }

  lemma {:induction false} TermReadsIff(t: Option<Terminator>, name: string)
    ensures name in TermUses(t) <==> exists e :: Evaluates(t, e) && Reads(e, name)
  {
    hide Reads, Evaluates;
    forall e ensures TermExpr(t) == Some(e) <==> Evaluates(t, e) {
      TermExprIff(t, e);
    }
    if TermExpr(t).Some? { UsesIff(TermExpr(t).value, name); }
  }

  // ----- writing -----

  /** The place is rooted at the local of this name exactly if it is at the variable of this index. */
  lemma {:induction false} PlaceVarIff(vars: seq<string>, pl: Place, name: string, i: nat)
    requires IndexOf(vars, name) == Some(i)
    ensures PlaceVar(vars, pl) == Some(i) <==> IsLocal(pl, name)
  {
  }

  lemma {:induction false} CallVarsIff(vars: seq<string>, f: string, args: seq<Expr>, name: string, i: nat)
    requires IndexOf(vars, name) == Some(i)
    ensures forall k :: 0 <= k < |args| ==> (ArgVar(vars, args[k]) == Some(i) <==> VarArg(args[k], name))
    ensures CallWrites(DirectCall(f, args), name) <==>
      (exists k :: 0 <= k < |args| && ArgVar(vars, args[k]) == Some(i)) || BuiltinVar(vars, f, args) == Some(i)
    ensures forall callee :: CallWrites(IndirectCall(callee, args), name) <==>
      exists k :: 0 <= k < |args| && ArgVar(vars, args[k]) == Some(i)
  {
    hide IndexOf, PlaceVar, IsLocal;
    forall k | 0 <= k < |args| && args[k].AddrOf? ensures PlaceVar(vars, args[k].place) == Some(i)
      <==> IsLocal(args[k].place, name) {
      PlaceVarIff(vars, args[k].place, name, i);
    }
    if args != [] && args[0].PlaceExpr? { PlaceVarIff(vars, args[0].place, name, i); }
  }

  /** The variables that scanning an expression marks are those that a call in it writes. */
  lemma {:induction false} DefinesIff(vars: seq<string>, e: Expr, name: string, i: nat)
    requires IndexOf(vars, name) == Some(i)
    ensures Defines(vars, e, i) <==> Writes(e, name)
    decreases e, 0
  {
    hide IndexOf, Writes, CallWrites, BuiltinVar, ArgVar;
    WritesUnfold(e, name);
    match e {
      case DirectCall(f, args) =>
        DefinesArgsIff(vars, args, name, i);
        CallVarsIff(vars, f, args, name, i);
      case IndirectCall(callee, args) =>
        DefinesArgsIff(vars, args, name, i);
        CallVarsIff(vars, "", args, name, i);
      case BinaryOp(_, l, r) =>
        DefinesIff(vars, l, name, i);
        DefinesIff(vars, r, name, i);
        NoCall(e, name);
      case UnaryOp(_, x) => DefinesIff(vars, x, name, i); NoCall(e, name);
      case Not(x) => DefinesIff(vars, x, name, i); NoCall(e, name);
      case Deref(x) => DefinesIff(vars, x, name, i); NoCall(e, name);
      case TypeTransfer(x) => DefinesIff(vars, x, name, i); NoCall(e, name);
      case _ => NoCall(e, name);
    }
  }

  lemma {:induction false} NoCall(e: Expr, name: string)
    requires !e.DirectCall? && !e.IndirectCall?
    ensures !CallWrites(e, name)
  {
  }

  lemma {:induction false} DefinesArgsIff(vars: seq<string>, args: seq<Expr>, name: string, i: nat)
    requires IndexOf(vars, name) == Some(i)
    ensures DefinesArgs(vars, args, i) <==>
      (exists k :: 0 <= k < |args| && ArgVar(vars, args[k]) == Some(i)) || exists x :: x in args && Writes(x, name)
    decreases args, 0
  {
    hide IndexOf, Writes, ArgVar, Defines;
    if args != [] {
      var xs := args[1..];
      DefinesIff(vars, args[0], name, i);
      DefinesArgsIff(vars, xs, name, i);
      assert forall k :: 0 <= k < |xs| ==> xs[k] == args[k + 1];
      assert forall k :: 0 < k < |args| ==> args[k] == xs[k - 1];
      assert forall x :: x in args <==> x == args[0] || x in xs;
    }
  }

  lemma {:induction false} StmtDefinesIff(vars: seq<string>, s: Stmt, name: string, i: nat)
    requires IndexOf(vars, name) == Some(i)
    ensures StmtDefines(vars, s, i) <==> StmtWrites(s, name)
  {
    hide IndexOf, Writes, CallWrites, BuiltinVar, ArgVar, Defines;
    match s {
      case Assign(target, value) =>
        DefinesIff(vars, value, name, i);
        PlaceVarIff(vars, target, name, i);
      case ProcCall(t, args) =>
        CallVarsIff(vars, CalleeName(t), args, name, i);
        NoBuiltin(vars, args);
      case _ =>
    }
  }

  lemma {:induction false} NoBuiltin(vars: seq<string>, args: seq<Expr>)
    ensures BuiltinVar(vars, "", args) == None
  {
  }

  lemma {:induction false} BlockDefinesIff(vars: seq<string>, blk: Block, name: string, i: nat)
    requires IndexOf(vars, name) == Some(i)
    ensures BlockDefines(vars, blk, i) <==> BlockWrites(blk, name)
  {
    hide IndexOf, Writes, StmtDefines, StmtWrites, Defines, Evaluates;
    forall k | 0 <= k < |blk.stmts|
      ensures StmtDefines(vars, blk.stmts[k], i) <==> StmtWrites(blk.stmts[k], name) {
      StmtDefinesIff(vars, blk.stmts[k], name, i);
    }
    forall e ensures TermExpr(blk.term) == Some(e) <==> Evaluates(blk.term, e) {
      TermExprIff(blk.term, e);
    }
    if TermExpr(blk.term).Some? { DefinesIff(vars, TermExpr(blk.term).value, name, i); }
  }

  // ----- dereferencing -----

  lemma {:induction false} DerefBaseIff(pl: Place, name: string)
    ensures name in DerefBase(pl) <==> IsLocal(pl, name) && DerefProj in pl.projections
  {
    if HasDeref(pl.projections) {
      var k :| 0 <= k < |pl.projections| && pl.projections[k].DerefProj?;
      assert pl.projections[k] == DerefProj;
    }
  }

  /** The names collected as dereferenced are those that are. */
  lemma {:induction false} DerefsIff(e: Expr, name: string)
    ensures name in CollectDerefs(e) <==> Derefs(e, name)
    decreases e, 0
  {
    hide Derefs, DerefsLocal, DerefIndices, DerefArgs, IndexIn, DerefBase;
    DerefsUnfold(e, name);
    match e {
      case PlaceExpr(pl) =>
        DerefIndicesIff(pl.projections, name);
        DerefBaseIff(pl, name);
        LocalDerefs(e, name);
      case Deref(x) => DerefsIff(x, name); LocalDerefs(e, name);
      case BinaryOp(_, l, r) =>
        DerefsIff(l, name);
        DerefsIff(r, name);
        LocalDerefs(e, name);
      case UnaryOp(_, x) => DerefsIff(x, name); LocalDerefs(e, name);
      case Not(x) => DerefsIff(x, name); LocalDerefs(e, name);
      case TypeTransfer(x) => DerefsIff(x, name); LocalDerefs(e, name);
      case DirectCall(_, args) => DerefArgsIff(args, name); LocalDerefs(e, name);
      case IndirectCall(_, args) => DerefArgsIff(args, name); LocalDerefs(e, name);
      case AddrOf(pl) => DerefBaseIff(pl, name); LocalDerefs(e, name);
      case _ => LocalDerefs(e, name);
    }
  }

  lemma {:induction false} LocalDerefs(e: Expr, name: string)
    ensures DerefsLocal(e, name) <==> (
      || ((e.PlaceExpr? || e.AddrOf?) && IsLocal(e.place, name) && DerefProj in e.place.projections)
      || (e.Deref? && e.operand.PlaceExpr? && IsLocal(e.operand.place, name)))
  {
  }

  lemma {:induction false} DerefIndicesIff(projs: seq<Projection>, name: string)
    ensures name in DerefIndices(projs) <==> exists x :: IndexIn(projs, x) && Derefs(x, name)
    decreases projs, 0
  {
    hide IndexIn, Derefs, DerefIndex;
    if projs == [] {
      NoIndex();
    } else {
      forall x ensures IndexIn(projs, x) <==> projs[0] == Index(x) || IndexIn(projs[1..], x) {
        IndexCons(projs, x);
      }
      DerefIndicesIff(projs[1..], name);
      DerefIndexIff(projs[0], name);
    }
  }

  lemma {:induction false} DerefIndexIff(pr: Projection, name: string)
    ensures name in DerefIndex(pr) <==> exists x :: pr == Index(x) && Derefs(x, name)
    decreases pr, 0
  {
    hide Derefs;
    match pr {
      case Index(e) => DerefsIff(e, name);
      case _ =>
    }
  }

  lemma {:induction false} DerefArgsIff(args: seq<Expr>, name: string)
    ensures name in DerefArgs(args) <==> exists x :: x in args && Derefs(x, name)
    decreases args, 0
  {
    hide Derefs, CollectDerefs;
    if args != [] {
      DerefsIff(args[0], name);
      DerefArgsIff(args[1..], name);
      assert forall x :: x in args <==> x == args[0] || x in args[1..];
    }
  }

  lemma {:induction false} StmtDerefsIff(s: Stmt, name: string)
    ensures name in StmtDerefs(s) <==> StmtDereferences(s, name)
  {
    hide Derefs, DerefBase, DerefArgs, CollectDerefs;
    match s {
      case Assign(target, value) =>
        DerefBaseIff(target, name);
        DerefsIff(value, name);
      case ProcCall(_, args) =>
        DerefArgsIff(args, name);
        assert forall k :: 0 <= k < |args| ==> args[k] in args;
      case _ =>
    }
  }

  lemma {:induction false} TermDerefsIff(t: Option<Terminator>, name: string)
    ensures name in TermDerefs(t) <==> exists e :: Evaluates(t, e) && Derefs(e, name)
  {
    hide Derefs, Evaluates;
    forall e ensures TermExpr(t) == Some(e) <==> Evaluates(t, e) {
      TermExprIff(t, e);
    }
    if TermExpr(t).Some? { DerefsIff(TermExpr(t).value, name); }
  }

  // ----- NIL or not -----

  function EffectOf(ch: Change): Effect {
    match ch
    case BecomesNil => Kill
    case BecomesNonNil => Gen
    case Unchanged => Keep
  }

  lemma {:induction false} NilEffectIff(vars: seq<string>, s: Stmt, name: string, i: nat)
    requires IndexOf(vars, name) == Some(i)
    ensures NilEffect(vars, s, i) == EffectOf(StmtChange(s, name))
  {
    hide IndexOf, FirstArgVar, FirstIs;
    match s {
      case Assign(target, _) => BareVarIff(vars, target, name, i);
      case ProcCall(Direct(_), args) => FirstArgIff(vars, args, name, i);
      case _ =>
    }
  }

  lemma {:induction false} BareVarIff(vars: seq<string>, pl: Place, name: string, i: nat)
    requires IndexOf(vars, name) == Some(i)
    ensures BareVar(vars, pl) == Some(i) <==> pl == Place(Local(name), [])
  {
    PlaceVarIff(vars, pl, name, i);
  }

  lemma {:induction false} FirstArgIff(vars: seq<string>, args: seq<Expr>, name: string, i: nat)
    requires IndexOf(vars, name) == Some(i)
    ensures FirstArgVar(vars, args) == Some(i) <==> FirstIs(args, name)
  {
    hide IndexOf, BareVar;
    if args != [] && (args[0].AddrOf? || args[0].PlaceExpr?) { BareVarIff(vars, args[0].place, name, i); }
  }

  /** At the start exactly the parameters among the tracked pointers count as non-NIL. */
  lemma {:induction false} NilEntryIff(vars: seq<string>, params: seq<string>, bits: Bits, name: string, i: nat)
    requires IndexOf(vars, name) == Some(i) && i < |bits|
    ensures NilEntry(vars, params, bits)[i] <==> bits[i] || name in params
    decreases params
  {
    if params != [] {
      var more := SetBit(bits, IndexOf(vars, params[0]), true);
      NilEntryIff(vars, params[1..], more, name, i);
      assert name in params <==> params[0] == name || name in params[1..];
    }
  }
}
