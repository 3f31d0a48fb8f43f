/**
 Where names occur in expressions and statements, for the lints of
 src/cfg/lint.rs: which occurrences read a local, which pass it on to be
 written, and which dereference it.  Everything is said of the syntax, with a
 chain of subexpressions down to the occurrence.
 */
module Occurrences {
  import opened Wrappers
  import opened Hir
  import opened Cfg

  /** An expression, and whether it stands as an argument of a call. */
  datatype Node = Node(e: Expr, arg: bool)

  /** A chain of steps leads from `a` to a node of the kind sought. */
  ghost predicate Occurs(step: (Node, Node) -> bool, hit: Node -> bool, a: Node) {
    exists p: seq<Node> :: IsChain(step, p) && p[0] == a && hit(p[|p| - 1])
  }

  ghost predicate IsChain(step: (Node, Node) -> bool, p: seq<Node>) {
    p != [] && forall i :: 0 <= i < |p| - 1 ==> step(p[i], p[i + 1])
  }

  /** At once, or after one step. */
  lemma {:induction false} OccursStep(step: (Node, Node) -> bool, hit: Node -> bool, a: Node)
    ensures Occurs(step, hit, a) <==> hit(a) || exists b :: step(a, b) && Occurs(step, hit, b)
  {
    if hit(a) { assert IsChain(step, [a]); }
    if b :| step(a, b) && Occurs(step, hit, b) {
      var p :| IsChain(step, p) && p[0] == b && hit(p[|p| - 1]);
      var q := [a] + p;
      assert forall i :: 0 < i < |q| ==> q[i] == p[i - 1];
      assert IsChain(step, q);
    }
    if Occurs(step, hit, a) && !hit(a) {
      var p :| IsChain(step, p) && p[0] == a && hit(p[|p| - 1]);
      assert step(p[0], p[1]);
      assert IsChain(step, p[1..]);
    }
  }

  // ----- places -----

  predicate IsLocal(pl: Place, name: string) {
    pl.base == Local(name)
  }

  /** x is an index of the designator. */
  predicate IndexIn(projs: seq<Projection>, x: Expr) {
    exists k :: 0 <= k < |projs| && projs[k] == Index(x)
  }

  predicate ElementIn(elems: seq<SetElement>, x: Expr) {
    exists k :: 0 <= k < |elems| &&
      (elems[k] == Single(x) || (elems[k].Range? && (elems[k].lo == x || elems[k].hi == x)))
  }

  /** The argument is a VAR argument, handed over by address, rooted at the local. */
  predicate VarArg(x: Expr, name: string) {
    x.AddrOf? && IsLocal(x.place, name)
  }

  // ----- reading, lint.rs:268-347 -----

  /** The first argument of a builtin that defines it is not read, unless handed over by address. */
  predicate ReadArg(f: string, args: seq<Expr>, x: Expr) {
    exists k :: 0 <= k < |args| && args[k] == x &&
      (k == 0 && (f == "NEW" || f == "INC" || f == "DEC" || f == "INCL" || f == "EXCL") ==> x.AddrOf?)
  }

  /** Operands that the evaluation reads.  An address by itself is not followed; a VAR argument's indices are. */
  predicate OperandOf(a: Node, x: Expr) {
    match a.e
    case PlaceExpr(pl) => IndexIn(pl.projections, x)
    case AddrOf(pl) => a.arg && IndexIn(pl.projections, x)
    case BinaryOp(_, l, r) => x == l || x == r
    case UnaryOp(_, y) => x == y
    case Not(y) => x == y
    case Deref(y) => x == y
    case TypeTransfer(y) => x == y
    case SetConstructor(elems) => ElementIn(elems, x)
    case _ => false
  }

  predicate ArgOf(e: Expr, x: Expr) {
    match e
    case DirectCall(f, args) => ReadArg(f, args, x)
    case IndirectCall(_, args) => x in args
    case _ => false
  }

  predicate ReadStep(a: Node, b: Node) {
    if b.arg then ArgOf(a.e, b.e) else OperandOf(a, b.e)
  }

  /** A place rooted at the local, or its address other than as a VAR argument. */
  predicate ReadsLocal(n: Node, name: string) {
    (n.e.PlaceExpr? && IsLocal(n.e.place, name)) || (n.e.AddrOf? && !n.arg && IsLocal(n.e.place, name))
  }

  ghost predicate ReadsAt(a: Node, name: string) {
    Occurs(ReadStep, (n: Node) => ReadsLocal(n, name), a)
  }

  ghost predicate Reads(e: Expr, name: string) {
    ReadsAt(Node(e, false), name)
  }

  ghost predicate ReadsArg(x: Expr, name: string) {
    ReadsAt(Node(x, true), name)
  }

  lemma {:induction false} ReadsUnfold(a: Node, name: string)
    ensures ReadsAt(a, name) <==>
      || ReadsLocal(a, name)
      || (exists x :: OperandOf(a, x) && Reads(x, name))
      || (exists x :: ArgOf(a.e, x) && ReadsArg(x, name))
  {
    hide Occurs, OperandOf, ArgOf, ReadsLocal;
    OccursStep(ReadStep, (n: Node) => ReadsLocal(n, name), a);
    if x :| OperandOf(a, x) && Reads(x, name) { assert ReadStep(a, Node(x, false)); }
    if x :| ArgOf(a.e, x) && ReadsArg(x, name) { assert ReadStep(a, Node(x, true)); }
    if b :| ReadStep(a, b) && ReadsAt(b, name) { assert b == Node(b.e, b.arg); }
  }

  /** The call a call statement makes, as an expression. */
  function CallExpr(t: CallTarget, args: seq<Expr>): Expr {
    match t
    case Direct(f) => DirectCall(f, args)
    case Indirect(callee) => IndirectCall(callee, args)
  }

  ghost predicate StmtReads(s: Stmt, name: string) {
    match s
    case Assign(target, value) => Reads(value, name) || exists x :: IndexIn(target.projections, x) && Reads(x, name)
    case ProcCall(t, args) => Reads(CallExpr(t, args), name)
    case _ => false
  }

  /** The terminator evaluates e. */
  predicate Evaluates(t: Option<Terminator>, e: Expr) {
    t.Some? && (
      || (t.value.BranchOn? && t.value.cond == e)
      || (t.value.Switch? && t.value.sel == e)
      || t.value == ReturnT(Some(e))
      || t.value == RaiseT(Some(e)))
  }

  ghost predicate PointReads(blk: Block, pos: nat, name: string) {
    if pos < |blk.stmts| then StmtReads(blk.stmts[pos], name)
    else exists e :: Evaluates(blk.term, e) && Reads(e, name)
  }

  // ----- writing, lint.rs:164-247 -----

  /** The call hands the local to its callee to be written. */
  predicate CallWrites(e: Expr, name: string) {
    match e
    case DirectCall(f, args) =>
      || (exists k :: 0 <= k < |args| && VarArg(args[k], name))
      || (args != [] && (f == "NEW" || f == "INC" || f == "DEC" || f == "INCL" || f == "EXCL") &&
          args[0].PlaceExpr? && IsLocal(args[0].place, name))
    case IndirectCall(_, args) => exists k :: 0 <= k < |args| && VarArg(args[k], name)
    case _ => false
  }

  /** Subexpressions searched for such calls: operands and arguments. */
  predicate CallStep(a: Node, b: Node) {
    match a.e
    case BinaryOp(_, l, r) => b == Node(l, false) || b == Node(r, false)
    case UnaryOp(_, x) => b == Node(x, false)
    case Not(x) => b == Node(x, false)
    case Deref(x) => b == Node(x, false)
    case TypeTransfer(x) => b == Node(x, false)
    case DirectCall(_, args) => !b.arg && b.e in args
    case IndirectCall(_, args) => !b.arg && b.e in args
    case _ => false
  }

  ghost predicate Writes(e: Expr, name: string) {
    Occurs(CallStep, (n: Node) => CallWrites(n.e, name), Node(e, false))
  }

  lemma {:induction false} WritesUnfold(e: Expr, name: string)
    ensures Writes(e, name) <==>
      CallWrites(e, name) || exists x :: CallStep(Node(e, false), Node(x, false)) && Writes(x, name)
  {
    hide Occurs, CallWrites;
    OccursStep(CallStep, (n: Node) => CallWrites(n.e, name), Node(e, false));
    forall b | CallStep(Node(e, false), b) ensures b == Node(b.e, false) {
    }
  }

  ghost predicate StmtWrites(s: Stmt, name: string) {
    match s
    case Assign(target, value) => IsLocal(target, name) || Writes(value, name)
    case ProcCall(t, args) => CallWrites(CallExpr(t, args), name)
    case _ => false
  }

  ghost predicate BlockWrites(blk: Block, name: string) {
    || (exists k :: 0 <= k < |blk.stmts| && StmtWrites(blk.stmts[k], name))
    || (exists e :: Evaluates(blk.term, e) && Writes(e, name))
  }

  /** Some call that the statement's reading comes across writes the local. */
  ghost predicate StmtCallsWrite(s: Stmt, name: string) {
    match s
    case Assign(target, value) =>
      WritesOnTheWay(value, name) || exists x :: IndexIn(target.projections, x) && WritesOnTheWay(x, name)
    case ProcCall(t, args) => WritesOnTheWay(CallExpr(t, args), name)
    case _ => false
  }

  ghost predicate WritesOnTheWay(e: Expr, name: string) {
    WayAt(Node(e, false), name)
  }

  ghost predicate WayAt(a: Node, name: string) {
    Occurs(ReadStep, (n: Node) => CallWrites(n.e, name), a)
  }

  ghost predicate WayArg(x: Expr, name: string) {
    WayAt(Node(x, true), name)
  }

  lemma {:induction false} WayUnfold(a: Node, name: string)
    ensures WayAt(a, name) <==>
      || CallWrites(a.e, name)
      || (exists x :: OperandOf(a, x) && WritesOnTheWay(x, name))
      || (exists x :: ArgOf(a.e, x) && WayArg(x, name))
  {
    hide Occurs, OperandOf, ArgOf, CallWrites;
    OccursStep(ReadStep, (n: Node) => CallWrites(n.e, name), a);
    if x :| OperandOf(a, x) && WritesOnTheWay(x, name) { assert ReadStep(a, Node(x, false)); }
    if x :| ArgOf(a.e, x) && WayArg(x, name) { assert ReadStep(a, Node(x, true)); }
    if b :| ReadStep(a, b) && WayAt(b, name) { assert b == Node(b.e, b.arg); }
  }

  // ----- dereferencing, lint.rs:690-766 -----

  predicate DerefStep(a: Node, b: Node) {
    match a.e
    case PlaceExpr(pl) => !b.arg && IndexIn(pl.projections, b.e)
    case _ => CallStep(a, b)
  }

  /** A place with ^ in it, its address, or p^ as an expression. */
  predicate DerefsLocal(e: Expr, name: string) {
    || (e.PlaceExpr? && IsLocal(e.place, name) && DerefProj in e.place.projections)
    || (e.AddrOf? && IsLocal(e.place, name) && DerefProj in e.place.projections)
    || (e.Deref? && e.operand.PlaceExpr? && IsLocal(e.operand.place, name))
  }

  ghost predicate Derefs(e: Expr, name: string) {
    Occurs(DerefStep, (n: Node) => DerefsLocal(n.e, name), Node(e, false))
  }

  lemma {:induction false} DerefsUnfold(e: Expr, name: string)
    ensures Derefs(e, name) <==>
      DerefsLocal(e, name) || exists x :: DerefStep(Node(e, false), Node(x, false)) && Derefs(x, name)
  {
    hide Occurs, DerefsLocal;
    OccursStep(DerefStep, (n: Node) => DerefsLocal(n.e, name), Node(e, false));
    forall b | DerefStep(Node(e, false), b) ensures b == Node(b.e, false) {
    }
  }

  ghost predicate StmtDereferences(s: Stmt, name: string) {
    match s
    case Assign(target, value) => (IsLocal(target, name) && DerefProj in target.projections) || Derefs(value, name)
    case ProcCall(_, args) => exists k :: 0 <= k < |args| && Derefs(args[k], name)
    case _ => false
  }

  ghost predicate PointDereferences(blk: Block, pos: nat, name: string) {
    if pos < |blk.stmts| then StmtDereferences(blk.stmts[pos], name)
    else exists e :: Evaluates(blk.term, e) && Derefs(e, name)
  }

  // ----- what makes a pointer NIL or not, lint.rs:623-681 -----

  datatype Change = BecomesNil | BecomesNonNil | Unchanged

  predicate FirstIs(args: seq<Expr>, name: string) {
    args != [] && (args[0] == PlaceExpr(Place(Local(name), [])) || args[0] == AddrOf(Place(Local(name), [])))
  }

  function StmtChange(s: Stmt, name: string): Change {
    if s.Assign? && s.target == Place(Local(name), []) then (if s.value == NilLit then BecomesNil else BecomesNonNil)
    else if s.ProcCall? && s.callee == Direct("NEW") && FirstIs(s.args, name) then BecomesNonNil
    else if s.ProcCall? && s.callee == Direct("DISPOSE") && FirstIs(s.args, name) then BecomesNil
    else Unchanged
  }

  /** The last statement that changes the pointer decides. */
  function LastChange(ss: seq<Stmt>, name: string): Change
    decreases |ss|
  {
    if ss == [] then Unchanged
    else if StmtChange(ss[|ss| - 1], name) != Unchanged then StmtChange(ss[|ss| - 1], name)
    else LastChange(ss[..|ss| - 1], name)
  }

  /** The statements of the blocks of a path. */
  function Trail(c: seq<Block>, p: seq<BlockId>): seq<Stmt>
    decreases |p|
  {
    if p == [] then [] else
    var b := p[|p| - 1];
    Trail(c, p[..|p| - 1]) + (if b < |c| then c[b].stmts else [])
  }

  /** After these statements the pointer may be NIL; parameters start out otherwise. */
  predicate MaybeNilAfter(ss: seq<Stmt>, params: seq<string>, name: string) {
    LastChange(ss, name) == BecomesNil || (LastChange(ss, name) == Unchanged && name !in params)
  }
}
