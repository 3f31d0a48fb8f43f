/**
 How often a FOR loop runs (src/cfg/build.rs:332-389), for leaves that compute
 with integers, and that its graph runs it as often.
 */
module ForLoops {
  import opened Wrappers
  import opened Hir
  import opened Lowering
  import opened Protocol
  import opened Semantics
  import opened Simulation
  import opened Correctness
  import opened Fuel

  /** The integer reading of a FOR loop: where its control variable lives, its bounds, and what one body run does. */
  datatype Reading<!S> = Reading(
    value: S -> int,                     // the control variable
    keep: S -> bool,                     // holds throughout the loop
    start: int,
    limit: int,
    step: int,
    run: State<S> -> State<S>            // the body
  )

  predicate Compare(d: Direction, x: int, y: int) {
    if d.Up? then x <= y else x >= y
  }

  // ----- what integer expressions and assignments do -----

  /**
   While `keep` holds: a literal is its number, variable v has the value
   `value`, <=, >= and + compare and add what their operands give, and
   assigning an expression to v stores what it gives.
   */
  ghost predicate Computes<S(!new)>(I: Interp<S>, v: string, value: S -> int, keep: S -> bool) {
    && (forall n: int, x :: keep(x) ==> I.eval(IntLit(n), x) == Val(n, x))
    && (forall x :: keep(x) ==> I.eval(PlaceExpr(Place(Local(v), [])), x) == Val(value(x), x))
    && (forall a, b, x {:trigger Arithmetic(I, a, b, x)} :: keep(x) ==> Arithmetic(I, a, b, x))
    && (forall e, x {:trigger Stores(I, v, value, keep, e, x)} :: keep(x) ==> Stores(I, v, value, keep, e, x))
  }

  /** The expression has a value and leaves the store alone. */
  ghost predicate Gives<S>(I: Interp<S>, e: Expr, x: S) {
    I.eval(e, x).Val? && I.eval(e, x).s == x
  }

  ghost predicate Arithmetic<S>(I: Interp<S>, a: Expr, b: Expr, x: S) {
    Gives(I, a, x) && Gives(I, b, x) ==>
      var m, n := I.eval(a, x).v, I.eval(b, x).v;
      && I.eval(BinaryOp(Le, a, b), x) == Val(if m <= n then 1 else 0, x)
      && I.eval(BinaryOp(Ge, a, b), x) == Val(if m >= n then 1 else 0, x)
      && I.eval(BinaryOp(Add, a, b), x) == Val(m + n, x)
  }

  ghost predicate Stores<S>(I: Interp<S>, v: string, value: S -> int, keep: S -> bool, e: Expr, x: S) {
    Gives(I, e, x) ==>
      var y := I.prim(Assign(Place(Local(v), []), e), x);
      y.Val? && keep(y.s) && value(y.s) == I.eval(e, x).v
  }

  /** The limit and the step are constant; without BY the step is 1 up and -1 down; the body leaves the variable. */
  ghost predicate Bounds<S(!new)>(I: Interp<S>, s: Stmt, r: Reading<S>)
    requires s.For?
  {
    && (forall x :: r.keep(x) ==> I.eval(s.limit, x) == Val(r.limit, x))
    && (s.step.Some? ==> forall x :: r.keep(x) ==> I.eval(s.step.value, x) == Val(r.step, x))
    && (s.step.None? ==> r.step == match s.dir case Up => 1 case Down => -1)
    && (forall st: State<S> :: r.keep(st.store) ==> FallsThrough(I, s.body, st, r.run(st)))
    && (forall st: State<S> :: r.keep(st.store) ==>
      r.keep(r.run(st).store) && r.value(r.run(st).store) == r.value(st.store))
  }

  ghost predicate Counted<S(!new)>(I: Interp<S>, s: Stmt, r: Reading<S>) {
    s.For? && Computes(I, s.control, r.value, r.keep) && Bounds(I, s, r)
  }

  lemma {:induction false} CountedReads<S(!new)>(I: Interp<S>, s: Stmt, r: Reading<S>)
    requires Counted(I, s, r)
    ensures Reads(I, s, r)
  {
    hide FallsThrough;
    var v := PlaceExpr(Place(Local(s.control), []));
    forall x | r.keep(x)
      ensures I.eval(ForTest(s), x) == Val(if Compare(s.dir, r.value(x), r.limit) then 1 else 0, x) {
      assert Gives(I, v, x) && Gives(I, s.limit, x);
      assert Arithmetic(I, v, s.limit, x);
    }
    var step := match s.step case Some(e) => e case None => (match s.dir case Up => IntLit(1) case Down => IntLit(-1));
    forall x | r.keep(x)
      ensures var e := I.prim(ForNext(s), x); e.Val? && r.keep(e.s) && r.value(e.s) == r.value(x) + r.step {
      assert Gives(I, v, x) && Gives(I, step, x);
      assert Arithmetic(I, v, step, x);
      assert Stores(I, s.control, r.value, r.keep, BinaryOp(Add, v, step), x);
    }
  }

  // ----- turns -----

  /**
   While `keep` holds: the test compares the control variable with the limit,
   the increment adds the step, and the body falls through leaving the control
   variable as it was.
   */
  ghost predicate Reads<S(!new)>(I: Interp<S>, s: Stmt, r: Reading<S>)
    requires s.For?
  {
    && (forall x :: r.keep(x) ==> I.eval(ForTest(s), x) == Val(if Compare(s.dir, r.value(x), r.limit) then 1 else 0, x))
    && (forall x :: r.keep(x) ==>
      var e := I.prim(ForNext(s), x); e.Val? && r.keep(e.s) && r.value(e.s) == r.value(x) + r.step)
    && (forall st: State<S> :: r.keep(st.store) ==> FallsThrough(I, s.body, st, r.run(st)))
    && (forall st: State<S> :: r.keep(st.store) ==>
      r.keep(r.run(st).store) && r.value(r.run(st).store) == r.value(st.store))
  }

  /** With some fuel the statements end normally in `st'`. */
  ghost predicate FallsThrough<S>(I: Interp<S>, ss: seq<Stmt>, st: State<S>, st': State<S>) {
    exists f: nat :: ExecStmts(I, ss, st, f) == Normal(st')
  }

  /** One pass: the body, then the advance. */
  function Pass<S>(I: Interp<S>, s: Stmt, r: Reading<S>, st: State<S>): State<S>
    requires s.For?
  {
    var st1 := r.run(st);
    st1.(store := I.prim(ForNext(s), st1.store).s)
  }

  function Passes<S>(I: Interp<S>, s: Stmt, r: Reading<S>, st: State<S>, k: nat): State<S>
    requires s.For?
    decreases k
  {
    if k == 0 then st else Passes(I, s, r, Pass(I, s, r, st), k - 1)
  }

  /** How far the limit is ahead, and how much of it a pass covers. */
  function Ahead(d: Direction, x: int, limit: int): int {
    if d.Up? then limit - x else x - limit
  }

  function Stride(d: Direction, step: int): int {
    if d.Up? then step else -step
  }

  function Trips(d: Direction, x: int, limit: int, step: int): nat
    requires Stride(d, step) > 0
  {
    if Ahead(d, x, limit) < 0 then 0 else Ahead(d, x, limit) / Stride(d, step) + 1
  }

  lemma {:induction false} TripsStep(d: Direction, x: int, limit: int, step: int)
    requires Stride(d, step) > 0 && Ahead(d, x, limit) >= 0
    ensures Trips(d, x, limit, step) == 1 + Trips(d, x + step, limit, step)
  {
    var a, m := Ahead(d, x, limit), Stride(d, step);
    assert Ahead(d, x + step, limit) == a - m;
    if a < m { DivUnique(a, m, 0); } else { DivUnique(a - m, m, a / m - 1); }
  }

  /** q is the quotient as soon as q * m <= a < (q + 1) * m. */
  lemma {:induction false} DivUnique(a: int, m: int, q: int)
    requires m > 0 && q * m <= a < q * m + m
    ensures a / m == q
  {
    var p := a / m;
    assert p * m <= a < p * m + m;
    if p < q { MulLe(p + 1, q, m); } else if q < p { MulLe(q + 1, p, m); }
  }

  lemma {:induction false} MulLe(x: int, y: int, m: int)
    requires x <= y && m > 0
    ensures x * m <= y * m
  {
  }

  lemma {:induction false} TripsSign(d: Direction, x: int, limit: int, step: int)
    requires Stride(d, step) > 0
    ensures Trips(d, x, limit, step) > 0 <==> Ahead(d, x, limit) >= 0
    ensures Compare(d, x, limit) <==> Ahead(d, x, limit) >= 0
  {
    if Ahead(d, x, limit) >= 0 { TripsStep(d, x, limit, step); }
  }

  lemma {:induction false} NextValue(x: int, step: int, k: int)
    ensures x + step + (k - 1) * step == x + k * step
  {
  }

  /** With whatever fuel the body finishes, it does the same. */
  lemma {:induction false} BodySame<S(!new)>(I: Interp<S>, s: Stmt, r: Reading<S>, st: State<S>, fuel: nat)
    requires s.For? && Reads(I, s, r) && r.keep(st.store)
    ensures ExecStmts(I, s.body, st, fuel).OutOfFuel? || ExecStmts(I, s.body, st, fuel) == Normal(r.run(st))
  {
    hide ExecStmts, Reads;
    var f := BodyFuel(I, s, r, st);
    if !ExecStmts(I, s.body, st, fuel).OutOfFuel? {
      if f <= fuel { MoreFuel(I, s.body, st, f, fuel); } else { MoreFuel(I, s.body, st, fuel, f); }
    }
  }

  /** A turn with any fuel: it runs out inside the body, or the loop goes on after one pass. */
  lemma {:induction false} TurnOnce<S(!new)>(I: Interp<S>, s: Stmt, r: Reading<S>, st: State<S>, fuel: nat)
    requires s.For? && Reads(I, s, r) && r.keep(st.store) && fuel > 0
    ensures !Compare(s.dir, r.value(st.store), r.limit) ==> ExecFor(I, s, st, fuel) == Normal(st)
    ensures Compare(s.dir, r.value(st.store), r.limit) ==>
        && r.keep(Pass(I, s, r, st).store) && r.value(Pass(I, s, r, st).store) == r.value(st.store) + r.step
        && (if ExecStmts(I, s.body, st, fuel - 1).OutOfFuel? then ExecFor(I, s, st, fuel) == OutOfFuel
            else ExecFor(I, s, st, fuel) == ExecFor(I, s, Pass(I, s, r, st), fuel - 1))
  {
    hide ExecStmts, FallsThrough;
    assert EvalExpr(I, ForTest(s), st) == Val(if Compare(s.dir, r.value(st.store), r.limit) then 1 else 0, st);
    BodySame(I, s, r, st, fuel - 1);
    var st1 := r.run(st);
    assert r.keep(st1.store) && r.value(st1.store) == r.value(st.store);
    var e := I.prim(ForNext(s), st1.store);
    assert PrimOf(I, ForNext(s), st1) == Normal(st1.(store := e.s));
  }

  /** Pass k starts with the control variable at x + k * step, and there are n passes. */
  ghost predicate Counts<S>(I: Interp<S>, s: Stmt, r: Reading<S>, st: State<S>, x: int, n: nat)
    requires s.For?
  {
    forall k: nat :: k <= n ==>
      r.value(Passes(I, s, r, st, k).store) == x + k * r.step && (Compare(s.dir, x + k * r.step, r.limit) <==> k < n)
  }

  /**
   The loop runs its body exactly `Trips` times, pass k starting with the
   control variable at x + k * step, and ends where the last pass leaves it.
   */
  lemma {:induction false} ReadsCount<S(!new)>(I: Interp<S>, s: Stmt, r: Reading<S>, st: State<S>,
          x: int) returns (enough: nat)
    requires s.For? && Reads(I, s, r) && r.keep(st.store) && r.value(st.store) == x && Stride(s.dir, r.step) > 0
    ensures var n := Trips(s.dir, x, r.limit, r.step);
      && Counts(I, s, r, st, x, n)
      && forall fuel: nat :: fuel >= enough ==> ExecFor(I, s, st, fuel) == Normal(Passes(I, s, r, st, n))
    decreases Trips(s.dir, x, r.limit, r.step)
  {
    hide Reads, ExecFor, Pass, Stride, Trips, Counts, Passes, ExecStmts;
    TripsSign(s.dir, x, r.limit, r.step);
    var n := Trips(s.dir, x, r.limit, r.step);
    CountsStep(I, s, r, st, x, n);
    enough := 1;
    if Ahead(s.dir, x, r.limit) < 0 {
      forall fuel: nat | fuel >= enough ensures ExecFor(I, s, st, fuel) == Normal(Passes(I, s, r, st, n)) {
        TurnOnce(I, s, r, st, fuel);
      }
    } else {
      var st1 := Pass(I, s, r, st);
      TurnOnce(I, s, r, st, 1);
      TripsStep(s.dir, x, r.limit, r.step);
      var more := ReadsCount(I, s, r, st1, x + r.step);
      var f := BodyFuel(I, s, r, st);
      enough := f + more + 1;
      forall fuel: nat | fuel >= enough ensures ExecFor(I, s, st, fuel) == Normal(Passes(I, s, r, st, n)) {
        TurnOnce(I, s, r, st, fuel);
        MoreFuel(I, s.body, st, f, fuel - 1);
      }
    }
  }

  lemma {:induction false} BodyFuel<S(!new)>(I: Interp<S>, s: Stmt, r: Reading<S>, st: State<S>) returns (f: nat)
    requires s.For? && Reads(I, s, r) && r.keep(st.store)
    ensures ExecStmts(I, s.body, st, f) == Normal(r.run(st))
  {
    hide ExecStmts;
    f :| ExecStmts(I, s.body, st, f) == Normal(r.run(st));
  }

  lemma {:induction false} CountsStep<S>(I: Interp<S>, s: Stmt, r: Reading<S>, st: State<S>, x: int, n: nat)
    requires s.For? && r.value(st.store) == x
    ensures n == 0 && !Compare(s.dir, x, r.limit) ==> Counts(I, s, r, st, x, n) && Passes(I, s, r, st, 0) == st
    ensures n > 0 && Compare(s.dir, x, r.limit) && Counts(I, s, r, Pass(I, s, r, st), x + r.step, n - 1) ==>
      Counts(I, s, r, st, x, n)
    ensures n > 0 ==> Passes(I, s, r, st, n) == Passes(I, s, r, Pass(I, s, r, st), n - 1)
  {
    hide Pass, Compare;
    var st1 := Pass(I, s, r, st);
    if n > 0 && Compare(s.dir, x, r.limit) && Counts(I, s, r, st1, x + r.step, n - 1) {
      forall k: nat | k <= n
        ensures r.value(Passes(I, s, r, st, k).store) == x + k * r.step
        ensures (Compare(s.dir, x + k * r.step, r.limit) <==> k < n)
      {
        if k > 0 {
          assert Passes(I, s, r, st, k) == Passes(I, s, r, st1, k - 1);
          NextValue(x, r.step, k);
        }
      }
    }
  }

  lemma {:induction false} NoFuel<S>(I: Interp<S>, s: Stmt, st: State<S>)
    requires s.For?
    ensures ExecFor(I, s, st, 0) == OutOfFuel
  {
  }

  /** With a step of zero or of the wrong sign, a loop that starts never ends. */
  lemma {:induction false} ReadsDiverge<S(!new)>(I: Interp<S>, s: Stmt, r: Reading<S>, st: State<S>, fuel: nat)
    requires s.For? && Reads(I, s, r) && r.keep(st.store)
    requires Stride(s.dir, r.step) <= 0 && Ahead(s.dir, r.value(st.store), r.limit) >= 0
    ensures ExecFor(I, s, st, fuel) == OutOfFuel
    decreases fuel
  {
    hide Reads, ExecFor, Pass, ExecStmts;
    NoFuel(I, s, st);
    if fuel > 0 {
      TurnOnce(I, s, r, st, fuel);
      ReadsDiverge(I, s, r, Pass(I, s, r, st), fuel - 1);
    }
  }

  // ----- the results -----

  /** From the test on, with the control variable at x. */
  lemma {:induction false} ForCounts<S(!new)>(I: Interp<S>, s: Stmt, r: Reading<S>, st: State<S>,
          x: int) returns (enough: nat)
    requires Counted(I, s, r) && r.keep(st.store) && r.value(st.store) == x && Stride(s.dir, r.step) > 0
    ensures var n := Trips(s.dir, x, r.limit, r.step);
      && Counts(I, s, r, st, x, n)
      && forall fuel: nat :: fuel >= enough ==> ExecFor(I, s, st, fuel) == Normal(Passes(I, s, r, st, n))
  {
    hide Counted, Reads, ExecFor, Passes, Counts, Trips;
    assert s.For? by { CountedFor(I, s, r); }
    CountedReads(I, s, r);
    enough := ReadsCount(I, s, r, st, x);
  }

  lemma {:induction false} CountedFor<S(!new)>(I: Interp<S>, s: Stmt, r: Reading<S>)
    requires Counted(I, s, r)
    ensures s.For?
  {
  }

  /** With a step of zero or of the wrong sign, a loop that starts never ends. */
  lemma {:induction false} ForDiverges<S(!new)>(I: Interp<S>, s: Stmt, r: Reading<S>, st: State<S>, fuel: nat)
    requires Counted(I, s, r) && r.keep(st.store)
    requires Stride(s.dir, r.step) <= 0 && Ahead(s.dir, r.value(st.store), r.limit) >= 0
    ensures ExecFor(I, s, st, fuel) == OutOfFuel
  {
    hide Reads, ExecFor;
    CountedReads(I, s, r);
    ReadsDiverge(I, s, r, st, fuel);
  }

  /** The store in which the first test is made. */
  function Started<S>(I: Interp<S>, s: Stmt, st: State<S>): State<S>
    requires s.For?
  {
    st.(store := I.prim(Assign(Place(Local(s.control), []), s.start), st.store).s)
  }

  /**
   From the statement itself: with `start`, `limit` and `step` the values of
   its expressions, the body runs `Trips` times, on pass k with the control
   variable at start + k * step.
   */
  lemma {:induction false} ForStatementCounts<S(!new)>(I: Interp<S>, s: Stmt, r: Reading<S>,
          st: State<S>) returns (enough: nat)
    requires Counted(I, s, r) && Stride(s.dir, r.step) > 0
    requires r.keep(st.store) && I.eval(s.start, st.store) == Val(r.start, st.store)
    ensures var st0, n := Started(I, s, st), Trips(s.dir, r.start, r.limit, r.step);
      && Counts(I, s, r, st0, r.start, n)
      && r.value(Passes(I, s, r, st0, n).store) == r.start + n * r.step
      && forall fuel: nat :: fuel >= enough ==> ExecStmt(I, s, st, fuel) == Normal(Passes(I, s, r, st0, n))
  {
    hide Bounds, ExecFor, Passes, Trips;
    var st0 := Started(I, s, st);
    assert Stores(I, s.control, r.value, r.keep, s.start, st.store);
    assert PrimOf(I, ForStart(s), st) == Normal(st0);
    enough := ForCounts(I, s, r, st0, r.start);
  }

  /** And so does the graph that is built for it: it ends after as many passes, in the same store. */
  lemma {:induction false} ForGraphCounts<S(!new)>(I: Interp<S>, s: Stmt, r: Reading<S>, st: State<S>)
    requires Counted(I, s, r) && Stride(s.dir, r.step) > 0
    requires r.keep(st.store) && I.eval(s.start, st.store) == Val(r.start, st.store)
    requires LegalStmts([s], false) && PlainStmts([s], I.exceptions.Keys, false)
    ensures var n := Trips(s.dir, r.start, r.limit, r.step);
      var last := Passes(I, s, r, Started(I, s, st), n);
      && r.value(last.store) == r.start + n * r.step
      && Leads(I, BuildCfg([s]), At(0, 0, st), Done(None, last))
  {
    hide Counted, Trips, Passes, Leads, LegalStmts, PlainStmts, ExecStmt, Started, Counts, BuildCfg;
    assert s.For? by { CountedFor(I, s, r); }
    var enough := ForStatementCounts(I, s, r, st);
    OneStatement(I, s, st, enough);
    LoweringPreserves(I, [s], st, enough);
  }

  lemma {:induction false} OneStatement<S>(I: Interp<S>, s: Stmt, st: State<S>, fuel: nat)
    ensures ExecStmts(I, [s], st, fuel) == ExecStmt(I, s, st, fuel)
  {
    hide ExecStmt;
    assert [s][1..] == [];
    match ExecStmt(I, s, st, fuel)
    case Normal(st1) => assert ExecStmts(I, [], st1, fuel) == Normal(st1);
    case _ =>
  }

  // ----- an example -----

  /** Integer arithmetic over a store that is the value of i. */
  function IntEval(e: Expr, x: int): Eval<int> {
    match e
    case IntLit(n) => Val(n, x)
    case PlaceExpr(pl) => if pl == Place(Local("i"), []) then Val(x, x) else Throw(0, x)
    case BinaryOp(op, a, b) =>
      (match (IntEval(a, x), IntEval(b, x))
       case (Val(m, _), Val(n, _)) =>
         (match op
          case Le => Val(if m <= n then 1 else 0, x)
          case Ge => Val(if m >= n then 1 else 0, x)
          case Add => Val(m + n, x)
          case _ => Throw(0, x))
       case _ => Throw(0, x))
    case _ => Throw(0, x)
  }

  function IntPrim(s: Stmt, x: int): Eval<int> {
    if s.Assign? && s.target == Place(Local("i"), []) then IntEval(s.value, x) else Throw(0, x)
  }

  /** An assignment leaves what its expression gives in the store. */
  function Ints(): Interp<int> {
    Interp((e: Expr, x: int) => IntEval(e, x),
           (s: Stmt, x: int) => match IntPrim(s, x) case Val(n, _) => Val(n, n) case Throw(z, _) => Throw(z, x),
           (_: CaseLabel, _: int, _: int) => false,
           (_: Expr, _: int, _: int) => false, (_: Expr, _: int, _: int) => false,
           map[])
  }

  /** FOR i := 1 TO 10 DO END. */
  function OneToTenLoop(): Stmt {
    For("i", IntLit(1), IntLit(10), None, Up, [])
  }

  function OneToTenReading(): Reading<int> {
    Reading((y: int) => y, (y: int) => true, 1, 10, 1, (z: State<int>) => z)
  }

  lemma {:induction false} IntsCompute()
    ensures Computes(Ints(), "i", OneToTenReading().value, OneToTenReading().keep)
  {
    hide Arithmetic, Stores;
    var I, r := Ints(), OneToTenReading();
    forall a, b, x ensures Arithmetic(I, a, b, x) {
      IntOps(a, b, x);
    }
    forall e, x ensures Stores(I, "i", r.value, r.keep, e, x) {
      IntStores(e, x);
    }
  }

  lemma {:induction false} IntOps(a: Expr, b: Expr, x: int)
    ensures Arithmetic(Ints(), a, b, x)
  {
  }

  lemma {:induction false} IntStores(e: Expr, x: int)
    ensures Stores(Ints(), "i", OneToTenReading().value, OneToTenReading().keep, e, x)
  {
  }

  lemma {:induction false} OneToTenBounds()
    ensures Bounds(Ints(), OneToTenLoop(), OneToTenReading())
  {
    forall z: State<int> ensures FallsThrough(Ints(), OneToTenLoop().body, z, z) {
      assert ExecStmts(Ints(), [], z, 0) == Normal(z);
    }
  }

  lemma {:induction false} OneToTenPlain()
    ensures LegalStmts([OneToTenLoop()], false) && PlainStmts([OneToTenLoop()], Ints().exceptions.Keys, false)
  {
    assert [OneToTenLoop()][1..] == [];
    assert LegalStmts([], true) && PlainStmts([], {}, false) && Ints().exceptions.Keys == {};
  }

  /** Its graph ends after ten passes, with 11 in i. */
  lemma {:induction false} OneToTen(x: int, p: int)
    ensures Trips(Up, 1, 10, 1) == 10
    ensures Leads(Ints(), BuildCfg([OneToTenLoop()]), At(0, 0, State(x, p)), Done(None, State(11, p)))
  {
    hide BuildCfg, Leads, Computes, Bounds, LegalStmts, PlainStmts, Passes;
    var s, I, st, r := OneToTenLoop(), Ints(), State(x, p), OneToTenReading();
    IntsCompute();
    OneToTenBounds();
    OneToTenPlain();
    ForGraphCounts(I, s, r, st);
    PassesKeepPending(I, s, r, Started(I, s, st), 10);
  }

  lemma {:induction false} PassesKeepPending<S>(I: Interp<S>, s: Stmt, r: Reading<S>, st: State<S>, k: nat)
    requires s.For? && forall z: State<S> :: r.run(z).pending == z.pending
    ensures Passes(I, s, r, st, k).pending == st.pending
    decreases k
  {
    if k > 0 { PassesKeepPending(I, s, r, Pass(I, s, r, st), k - 1); }
  }
}
