/**
 The forward dataflow framework (src/cfg/dataflow.rs): a worklist iteration
 over an arbitrary graph and an arbitrary analysis.
 */
module Dataflow {
  import opened Cfg

  /** `ForwardAnalysis`: `bottom` is where blocks start, the top of a "must" lattice. */
  datatype Analysis<!L> = Analysis(
    entry: L,
    bottom: L,
    join: (L, L) -> L,
    transfer: (BlockId, L) -> L
  )

  /** The order behind an analysis, used only to reason about it. */
  datatype Lattice<!L> = Lattice(dom: L -> bool, le: (L, L) -> bool, height: L -> nat)

  ghost predicate Ordered<L(!new)>(lat: Lattice<L>) {
    && (forall x :: lat.dom(x) ==> lat.le(x, x))
    && (forall x, y, z :: lat.dom(x) && lat.dom(y) && lat.dom(z) && lat.le(x, y) && lat.le(y, z) ==> lat.le(x, z))
    && (forall x, y :: lat.dom(x) && lat.dom(y) && lat.le(x, y) && lat.le(y, x) ==> x == y)
    && (forall x, y :: lat.dom(x) && lat.dom(y) && lat.le(x, y) && x != y ==> lat.height(x) < lat.height(y))
  }

  /** Join is the greatest lower bound, transfer is monotone, `bottom` is the greatest element. */
  ghost predicate Lawful<L(!new)>(a: Analysis<L>, lat: Lattice<L>) {
    && Ordered(lat)
    && lat.dom(a.entry) && lat.dom(a.bottom)
    && (forall x :: lat.dom(x) ==> lat.le(x, a.bottom))
    && (forall x, y :: lat.dom(x) && lat.dom(y) ==>
      lat.dom(a.join(x, y)) && lat.le(a.join(x, y), x) && lat.le(a.join(x, y), y))
    && (forall x, y, z :: lat.dom(x) && lat.dom(y) && lat.dom(z) && lat.le(z, x) && lat.le(z, y) ==>
      lat.le(z, a.join(x, y)))
    && (forall b, x :: lat.dom(x) ==> lat.dom(a.transfer(b, x)))
    && (forall b, x, y :: lat.dom(x) && lat.dom(y) && lat.le(x, y) ==> lat.le(a.transfer(b, x), a.transfer(b, y)))
  }

  // ----- graphs and paths -----

  /** `preds` inverts the successor relation, and the entry has none. */
  ghost predicate GraphOk(c: seq<Block>, preds: seq<seq<BlockId>>) {
    && |c| > 0 && |preds| == |c| && preds[0] == []
    && (forall i: BlockId, x: BlockId :: Edge(c, i, x) ==> x < |c|)
    && (forall x: BlockId, p: BlockId :: x < |c| ==> (p in preds[x] <==> Edge(c, p, x)))
  }

  ghost predicate IsPath(c: seq<Block>, p: seq<BlockId>) {
    |p| > 0 && p[0] == 0 && forall k :: 0 <= k < |p| - 1 ==> Edge(c, p[k], p[k + 1])
  }

  ghost predicate PathTo(c: seq<Block>, p: seq<BlockId>, b: BlockId) {
    IsPath(c, p) && p[|p| - 1] == b
  }

  ghost predicate Reachable(c: seq<Block>, b: BlockId) {
    exists p :: PathTo(c, p, b)
  }

  lemma {:induction false} PathExtends(c: seq<Block>, p: seq<BlockId>, b: BlockId, x: BlockId)
    requires PathTo(c, p, b) && Edge(c, b, x)
    ensures PathTo(c, p + [x], x)
  {
  }

  lemma {:induction false} EdgeReachable(c: seq<Block>, b: BlockId, x: BlockId)
    requires Edge(c, b, x) && (b == 0 || Reachable(c, b))
    ensures Reachable(c, x)
  {
    var p := if b == 0 then [0] else var q :| PathTo(c, q, b); q;
    assert PathTo(c, p, b);
    PathExtends(c, p, b, x);
  }

  // ----- the equations -----

  predicate InRange(ps: seq<BlockId>, n: nat) {
    ps != [] && forall k :: 0 <= k < |ps| ==> ps[k] < n
  }

  /** The states of the predecessors joined, left to right. */
  function JoinPreds<L>(a: Analysis<L>, out: seq<L>, ps: seq<BlockId>): L
    requires InRange(ps, |out|)
    decreases ps
  {
    if |ps| == 1 then out[ps[0]]
    else a.join(JoinPreds(a, out, ps[..|ps| - 1]), out[ps[|ps| - 1]])
  }

  ghost predicate AllIn<L>(lat: Lattice<L>, out: seq<L>) {
    forall i :: 0 <= i < |out| ==> lat.dom(out[i])
  }

  ghost predicate Below<L>(lat: Lattice<L>, x: seq<L>, y: seq<L>) {
    |x| == |y| && forall i :: 0 <= i < |x| ==> lat.le(x[i], y[i])
  }

  lemma {:induction false} JoinFacts<L(!new)>(a: Analysis<L>, lat: Lattice<L>, out: seq<L>, ps: seq<BlockId>)
    requires Lawful(a, lat) && AllIn(lat, out) && InRange(ps, |out|)
    ensures lat.dom(JoinPreds(a, out, ps))
    ensures forall k :: 0 <= k < |ps| ==> lat.le(JoinPreds(a, out, ps), out[ps[k]])
    decreases ps
  {
    if |ps| > 1 {
      var init := ps[..|ps| - 1];
      JoinFacts(a, lat, out, init);
      var j, l := JoinPreds(a, out, init), out[ps[|ps| - 1]];
      forall k | 0 <= k < |ps| ensures lat.le(a.join(j, l), out[ps[k]]) {
        if k < |ps| - 1 { assert init[k] == ps[k]; assert lat.le(j, out[init[k]]); }
      }
    }
  }

  lemma {:induction false} JoinGreatest<L(!new)>(a: Analysis<L>, lat: Lattice<L>, out: seq<L>, ps: seq<BlockId>, z: L)
    requires Lawful(a, lat) && AllIn(lat, out) && InRange(ps, |out|) && lat.dom(z)
    requires forall k :: 0 <= k < |ps| ==> lat.le(z, out[ps[k]])
    ensures lat.le(z, JoinPreds(a, out, ps))
    decreases ps
  {
    if |ps| > 1 {
      var init := ps[..|ps| - 1];
      JoinFacts(a, lat, out, init);
      JoinGreatest(a, lat, out, init, z);
    }
  }

  lemma {:induction false} JoinMonotone<L(!new)>(a: Analysis<L>, lat: Lattice<L>, x: seq<L>, y: seq<L>,
          ps: seq<BlockId>)
    requires Lawful(a, lat) && AllIn(lat, x) && AllIn(lat, y) && Below(lat, x, y) && InRange(ps, |x|)
    ensures lat.le(JoinPreds(a, x, ps), JoinPreds(a, y, ps))
  {
    JoinFacts(a, lat, x, ps);
    var z := JoinPreds(a, x, ps);
    forall k | 0 <= k < |ps| ensures lat.le(z, y[ps[k]]) {
      assert lat.le(z, x[ps[k]]) && lat.le(x[ps[k]], y[ps[k]]);
    }
    JoinGreatest(a, lat, y, ps, z);
  }

  /** Joining copies of one state gives that state. */
  lemma {:induction false} JoinConstant<L(!new)>(a: Analysis<L>, lat: Lattice<L>, out: seq<L>, ps: seq<BlockId>, z: L)
    requires Lawful(a, lat) && AllIn(lat, out) && InRange(ps, |out|) && lat.dom(z)
    requires forall k :: 0 <= k < |ps| ==> out[ps[k]] == z
    ensures JoinPreds(a, out, ps) == z
  {
    JoinFacts(a, lat, out, ps);
    JoinGreatest(a, lat, out, ps, z);
    assert lat.le(JoinPreds(a, out, ps), out[ps[0]]);
  }

  /** The state a block receives, by the equations. */
  function InOf<L>(a: Analysis<L>, preds: seq<seq<BlockId>>, x: seq<L>, b: BlockId): L
    requires b < |preds| == |x| && forall i :: 0 <= i < |preds| && preds[i] != [] ==> InRange(preds[i], |x|)
  {
    if b == 0 then a.entry else if preds[b] == [] then a.bottom else JoinPreds(a, x, preds[b])
  }

  ghost predicate RangesOk<L>(preds: seq<seq<BlockId>>, x: seq<L>) {
    |preds| == |x| && forall i :: 0 <= i < |preds| && preds[i] != [] ==> InRange(preds[i], |x|)
  }

  /** Some predecessor is the entry or has moved off `bottom`; only then is b ever visited. */
  ghost predicate Awake<L>(a: Analysis<L>, preds: seq<seq<BlockId>>, out: seq<L>, b: BlockId)
    requires b < |preds| && RangesOk(preds, out)
  {
    exists k :: 0 <= k < |preds[b]| && (preds[b][k] == 0 || out[preds[b][k]] != a.bottom)
  }

  /** x lies below its own image under the equations, at the entry and at every reachable block that x itself wakes. */
  ghost predicate PreSolution<L>(a: Analysis<L>, lat: Lattice<L>, c: seq<Block>, preds: seq<seq<BlockId>>, x: seq<L>) {
    && |x| == |c| && RangesOk(preds, x) && AllIn(lat, x)
    && forall b: BlockId :: b < |c| && Reachable(c, b) && (b == 0 || Awake(a, preds, x, b)) ==>
         lat.le(x[b], a.transfer(b, InOf(a, preds, x, b)))
  }

  /** x solves the equations at every reachable block, and is untouched elsewhere. */
  ghost predicate Solution<L>(a: Analysis<L>, c: seq<Block>, preds: seq<seq<BlockId>>, x: seq<L>) {
    && |x| == |c| && RangesOk(preds, x)
    && (forall b: BlockId :: b < |c| && Reachable(c, b) ==> x[b] == a.transfer(b, InOf(a, preds, x, b)))
    && (forall b: BlockId :: b < |c| && !Reachable(c, b) ==> x[b] == a.bottom)
  }

  // ----- the solver -----

  /** Blocks off the worklist obey their equation if awake, and are untouched if not. */
  ghost predicate Settled<L>(a: Analysis<L>, preds: seq<seq<BlockId>>, out: seq<L>, b: BlockId)
    requires b < |preds| && RangesOk(preds, out)
  {
    if Awake(a, preds, out, b) then out[b] == a.transfer(b, InOf(a, preds, out, b)) else out[b] == a.bottom
  }

  /** Every value only has to come down. */
  ghost predicate Descends<L>(a: Analysis<L>, lat: Lattice<L>, preds: seq<seq<BlockId>>, out: seq<L>) {
    && RangesOk(preds, out)
    && forall b: BlockId :: 0 < b < |out| && preds[b] != [] ==> lat.le(a.transfer(b, InOf(a, preds, out, b)), out[b])
  }

  /** No value has come down too far. */
  ghost predicate Above<L(!new)>(a: Analysis<L>, lat: Lattice<L>, c: seq<Block>, preds: seq<seq<BlockId>>, inn: seq<L>,
          out: seq<L>) {
    && |inn| == |out| == |c|
    && forall x: seq<L> :: PreSolution(a, lat, c, preds, x) ==>
         Below(lat, x, out) && forall b: BlockId :: b < |c| ==> lat.le(InOf(a, preds, x, b), inn[b])
  }

  ghost predicate Queued<L>(a: Analysis<L>, c: seq<Block>, preds: seq<seq<BlockId>>, out: seq<L>, b: BlockId) {
    RangesOk(preds, out) && 0 < b < |c| == |preds| && Reachable(c, b) && preds[b] != [] && Awake(a, preds, out, b)
  }

  ghost predicate SolverInv<L(!new)>(a: Analysis<L>, lat: Lattice<L>, c: seq<Block>, preds: seq<seq<BlockId>>,
                                     work: seq<BlockId>, inn: seq<L>, out: seq<L>) {
    && |inn| == |out| == |c| && |c| > 0 && AllIn(lat, inn) && AllIn(lat, out)
    && out[0] == a.transfer(0, a.entry) && inn[0] == a.entry
    && Descends(a, lat, preds, out)
    && Above(a, lat, c, preds, inn, out)
    && (forall b: BlockId :: b < |c| && !Reachable(c, b) ==> out[b] == a.bottom)
    && (forall b: BlockId :: 0 < b < |c| ==>
      if out[b] == a.bottom then inn[b] == a.bottom else out[b] == a.transfer(b, inn[b]))
    && (forall b :: b in work ==> Queued(a, c, preds, out, b))
    && (forall b: BlockId :: 0 < b < |c| && b !in work ==> Settled(a, preds, out, b))
  }

  lemma {:induction false} GraphRanges<L>(c: seq<Block>, preds: seq<seq<BlockId>>, x: seq<L>)
    requires GraphOk(c, preds) && |x| == |c|
    ensures RangesOk(preds, x)
  {
    forall i: BlockId, k | i < |preds| && 0 <= k < |preds[i]| ensures preds[i][k] < |c| {
      assert preds[i][k] in preds[i];
    }
  }

  lemma {:induction false} InOfDom<L(!new)>(a: Analysis<L>, lat: Lattice<L>, preds: seq<seq<BlockId>>, x: seq<L>,
          b: BlockId)
    requires Lawful(a, lat) && AllIn(lat, x) && RangesOk(preds, x) && b < |x|
    ensures lat.dom(InOf(a, preds, x, b)) && lat.le(InOf(a, preds, x, b), a.bottom)
  {
    if b != 0 && preds[b] != [] { JoinFacts(a, lat, x, preds[b]); }
  }

  lemma {:induction false} InOfMonotone<L(!new)>(a: Analysis<L>, lat: Lattice<L>, preds: seq<seq<BlockId>>, x: seq<L>,
          y: seq<L>, b: BlockId)
    requires Lawful(a, lat) && AllIn(lat, x) && AllIn(lat, y) && Below(lat, x, y) && RangesOk(preds, x) && b < |x|
    ensures RangesOk(preds, y) && lat.le(InOf(a, preds, x, b), InOf(a, preds, y, b))
    ensures lat.le(a.transfer(b, InOf(a, preds, x, b)), a.transfer(b, InOf(a, preds, y, b)))
  {
    InOfDom(a, lat, preds, x, b);
    InOfDom(a, lat, preds, y, b);
    if b != 0 && preds[b] != [] { JoinMonotone(a, lat, x, y, preds[b]); }
  }

  /** The state a block receives depends only on its predecessors. */
  lemma {:induction false} JoinSame<L>(a: Analysis<L>, x: seq<L>, y: seq<L>, ps: seq<BlockId>)
    requires InRange(ps, |x|) && |x| == |y| && forall k :: 0 <= k < |ps| ==> x[ps[k]] == y[ps[k]]
    ensures JoinPreds(a, x, ps) == JoinPreds(a, y, ps)
    decreases ps
  {
    if |ps| > 1 { JoinSame(a, x, y, ps[..|ps| - 1]); }
  }

  lemma {:induction false} InitInv<L(!new)>(a: Analysis<L>, lat: Lattice<L>, c: seq<Block>, preds: seq<seq<BlockId>>,
          work: seq<BlockId>, inn: seq<L>, out: seq<L>)
    requires Lawful(a, lat) && GraphOk(c, preds) && |inn| == |out| == |c|
    requires inn[0] == a.entry && out[0] == a.transfer(0, a.entry)
    requires forall i :: 0 < i < |c| ==> inn[i] == a.bottom && out[i] == a.bottom
    requires forall x: BlockId :: x in work <==> Edge(c, 0, x)
    ensures SolverInv(a, lat, c, preds, work, inn, out)
  {
    GraphRanges(c, preds, out);
    forall b: BlockId | 0 < b < |c| && preds[b] != []
      ensures lat.le(a.transfer(b, InOf(a, preds, out, b)), out[b])
    {
      InOfDom(a, lat, preds, out, b);
    }
    assert PathTo(c, [0], 0);
    assert Reachable(c, 0);
    forall x: seq<L> | PreSolution(a, lat, c, preds, x)
      ensures Below(lat, x, out) && forall b: BlockId :: b < |c| ==> lat.le(InOf(a, preds, x, b), inn[b])
    {
      forall b: BlockId | b < |c| ensures lat.le(InOf(a, preds, x, b), inn[b]) {
        InOfDom(a, lat, preds, x, b);
      }
    }
    forall b | b in work ensures Queued(a, c, preds, out, b) {
      assert 0 in preds[b];
      EdgeReachable(c, 0, b);
    }
    forall b: BlockId | 0 < b < |c| && b !in work ensures Settled(a, preds, out, b) {
      assert 0 !in preds[b];
    }
  }

  lemma {:induction false} VisitSame<L(!new)>(a: Analysis<L>, lat: Lattice<L>, c: seq<Block>, preds: seq<seq<BlockId>>,
          work: seq<BlockId>, inn: seq<L>, out: seq<L>)
    requires Lawful(a, lat) && GraphOk(c, preds) && SolverInv(a, lat, c, preds, work, inn, out) && work != []
    requires Queued(a, c, preds, out, work[0])
    requires out[work[0]] == a.transfer(work[0], InOf(a, preds, out, work[0]))
    ensures SolverInv(a, lat, c, preds, work[1..], inn, out)
  {
    var bid := work[0];
    assert Queued(a, c, preds, out, bid);
    forall b: BlockId | 0 < b < |c| && b !in work[1..] ensures Settled(a, preds, out, b) {
      if b != bid { assert b !in work; }
    }
  }

  /** A visit that changes block bid's value keeps the invariant. */
  lemma {:induction false} VisitChanged<L(!new)>(a: Analysis<L>, lat: Lattice<L>, c: seq<Block>,
          preds: seq<seq<BlockId>>,
                              work: seq<BlockId>, work': seq<BlockId>, inn: seq<L>, out: seq<L>)
    requires Lawful(a, lat) && GraphOk(c, preds) && SolverInv(a, lat, c, preds, work, inn, out) && work != []
    requires Queued(a, c, preds, out, work[0])
    requires out[work[0]] != a.transfer(work[0], InOf(a, preds, out, work[0]))
    requires forall x: BlockId :: x in work' <==> x in work[1..] || Edge(c, work[0], x)
    ensures var i := InOf(a, preds, out, work[0]);
      && SolverInv(a, lat, c, preds, work', inn[work[0] := i], out[work[0] := a.transfer(work[0], i)])
      && lat.height(a.transfer(work[0], i)) < lat.height(out[work[0]])
  {
    var bid := work[0];
    assert Queued(a, c, preds, out, bid);
    var i := InOf(a, preds, out, bid);
    InOfDom(a, lat, preds, out, bid);
    var o := a.transfer(bid, i);
    var out', inn' := out[bid := o], inn[bid := i];
    assert lat.le(o, out[bid]) && lat.dom(o);
    assert Below(lat, out', out);
    GraphRanges(c, preds, out');
    DescendsStep(a, lat, preds, out, out', bid);
    AboveStep(a, lat, c, preds, inn, out, bid);
    QueueStep(a, lat, c, preds, work, work', inn, out, bid);
  }

  lemma {:induction false} DescendsStep<L(!new)>(a: Analysis<L>, lat: Lattice<L>, preds: seq<seq<BlockId>>,
          out: seq<L>, out': seq<L>, bid: BlockId)
    requires Lawful(a, lat) && AllIn(lat, out) && AllIn(lat, out') && Descends(a, lat, preds, out)
    requires Below(lat, out', out)
    requires 0 < bid < |out| && out' == out[bid := a.transfer(bid, InOf(a, preds, out, bid))]
    ensures Descends(a, lat, preds, out')
  {
    forall b: BlockId | 0 < b < |out'| && preds[b] != []
      ensures lat.le(a.transfer(b, InOf(a, preds, out', b)), out'[b])
    {
      InOfMonotone(a, lat, preds, out', out, b);
      InOfDom(a, lat, preds, out, b);
      InOfDom(a, lat, preds, out', b);
      assert lat.le(a.transfer(b, InOf(a, preds, out, b)), out[b]);
    }
  }

  /** What wakes a block wakes it also from lower values. */
  lemma {:induction false} StillAwake<L(!new)>(a: Analysis<L>, lat: Lattice<L>, preds: seq<seq<BlockId>>, x: seq<L>,
          out: seq<L>, b: BlockId)
    requires Lawful(a, lat) && RangesOk(preds, x) && RangesOk(preds, out) && AllIn(lat, x) && AllIn(lat, out)
    requires Below(lat, x, out)
    requires b < |out| && Awake(a, preds, out, b)
    ensures Awake(a, preds, x, b)
  {
    var k :| 0 <= k < |preds[b]| && (preds[b][k] == 0 || out[preds[b][k]] != a.bottom);
    var q := preds[b][k];
    if x[q] == a.bottom { assert lat.le(a.bottom, out[q]) && lat.le(out[q], a.bottom); }
  }

  lemma {:induction false} AboveStep<L(!new)>(a: Analysis<L>, lat: Lattice<L>, c: seq<Block>, preds: seq<seq<BlockId>>,
          inn: seq<L>, out: seq<L>, bid: BlockId)
    requires Lawful(a, lat) && |inn| == |out| == |c| && AllIn(lat, out) && Above(a, lat, c, preds, inn, out)
    requires RangesOk(preds, out) && bid < |c| && Reachable(c, bid) && Awake(a, preds, out, bid)
    ensures var i := InOf(a, preds, out, bid);
      Above(a, lat, c, preds, inn[bid := i], out[bid := a.transfer(bid, i)])
  {
    var i := InOf(a, preds, out, bid);
    forall x: seq<L> | PreSolution(a, lat, c, preds, x)
      ensures Below(lat, x, out[bid := a.transfer(bid, i)])
      ensures forall b: BlockId :: b < |c| ==> lat.le(InOf(a, preds, x, b), inn[bid := i][b])
    {
      assert Below(lat, x, out);
      StillAwake(a, lat, preds, x, out, bid);
      InOfMonotone(a, lat, preds, x, out, bid);
      InOfDom(a, lat, preds, x, bid);
      InOfDom(a, lat, preds, out, bid);
      assert lat.le(x[bid], a.transfer(bid, InOf(a, preds, x, bid)));
    }
  }

  lemma {:induction false} QueueStep<L(!new)>(a: Analysis<L>, lat: Lattice<L>, c: seq<Block>, preds: seq<seq<BlockId>>,
                           work: seq<BlockId>, work': seq<BlockId>, inn: seq<L>, out: seq<L>, bid: BlockId)
    requires Lawful(a, lat) && GraphOk(c, preds) && SolverInv(a, lat, c, preds, work, inn, out) && work != []
    requires bid == work[0]
    requires bid < |c| && Reachable(c, bid) && out[bid] != a.transfer(bid, InOf(a, preds, out, bid))
    requires forall x: BlockId :: x in work' <==> x in work[1..] || Edge(c, bid, x)
    ensures var i := InOf(a, preds, out, bid);
      var out', inn' := out[bid := a.transfer(bid, i)], inn[bid := i];
      && RangesOk(preds, out') && a.transfer(bid, i) != a.bottom
      && (forall b :: b in work' ==> Queued(a, c, preds, out', b))
      && (forall b: BlockId :: 0 < b < |c| && b !in work' ==> Settled(a, preds, out', b))
  {
    assert Queued(a, c, preds, out, bid);
    var i := InOf(a, preds, out, bid);
    InOfDom(a, lat, preds, out, bid);
    var o := a.transfer(bid, i);
    var out', inn' := out[bid := o], inn[bid := i];
    GraphRanges(c, preds, out');
    assert o != a.bottom by {
      assert lat.le(o, out[bid]) && lat.le(out[bid], a.bottom);
    }
    forall b: BlockId | b < |c| && Awake(a, preds, out, b) ensures Awake(a, preds, out', b) {
      var k :| 0 <= k < |preds[b]| && (preds[b][k] == 0 || out[preds[b][k]] != a.bottom);
      assert preds[b][k] == 0 || out'[preds[b][k]] != a.bottom;
    }
    forall b | b in work' ensures Queued(a, c, preds, out', b) {
      if b in work[1..] {
        assert b in work;
        assert Queued(a, c, preds, out, b);
      } else {
        assert bid in preds[b];
        var k :| 0 <= k < |preds[b]| && preds[b][k] == bid;
        assert out'[preds[b][k]] != a.bottom;
        EdgeReachable(c, bid, b);
      }
    }
    forall b: BlockId | 0 < b < |c| && b !in work' ensures Settled(a, preds, out', b) {
      assert bid !in preds[b];
      assert Awake(a, preds, out', b) ==> Awake(a, preds, out, b) by {
        if Awake(a, preds, out', b) {
          var k :| 0 <= k < |preds[b]| && (preds[b][k] == 0 || out'[preds[b][k]] != a.bottom);
          assert preds[b][k] in preds[b];
          assert preds[b][k] == 0 || out[preds[b][k]] != a.bottom;
        }
      }
      if preds[b] != [] {
        forall k | 0 <= k < |preds[b]| ensures out'[preds[b][k]] == out[preds[b][k]] { assert preds[b][k] in preds[b]; }
        JoinSame(a, out', out, preds[b]);
      }
      if b != bid { assert b !in work; }
    }
  }

  // ----- termination -----

  ghost function SumHeights<L>(lat: Lattice<L>, out: seq<L>): nat {
    if out == [] then 0 else lat.height(out[0]) + SumHeights(lat, out[1..])
  }

  lemma {:induction false} SumLess<L>(lat: Lattice<L>, out: seq<L>, i: nat, v: L)
    requires i < |out| && lat.height(v) < lat.height(out[i])
    ensures SumHeights(lat, out[i := v]) < SumHeights(lat, out)
    decreases out
  {
    if i > 0 {
      SumLess(lat, out[1..], i - 1, v);
      assert out[i := v][1..] == out[1..][i - 1 := v];
    } else {
      assert out[0 := v][1..] == out[1..];
    }
  }

  /** `compute_preds` (mod.rs:141-154): the inverse of the successor relation, without repeats. */
  method ComputePreds(c: seq<Block>) returns (preds: seq<seq<BlockId>>)
    requires forall i: BlockId, x: BlockId :: Edge(c, i, x) ==> x < |c|
    ensures |preds| == |c|
    ensures forall x: BlockId, p: BlockId :: x < |c| ==> (p in preds[x] <==> Edge(c, p, x))
    ensures forall x, j, k :: 0 <= x < |c| && 0 <= j < k < |preds[x]| ==> preds[x][j] != preds[x][k]
    ensures Verified(c) ==> GraphOk(c, preds)
  {
    preds := seq(|c|, _ => []);
    for b := 0 to |c|
      invariant |preds| == |c|
      invariant forall x: BlockId, p: BlockId :: x < |c| ==> (p in preds[x] <==> p < b && Edge(c, p, x))
      invariant forall x, j, k :: 0 <= x < |c| && 0 <= j < k < |preds[x]| ==> preds[x][j] != preds[x][k]
    {
      if c[b].term.Some? {
        preds := AddPred(c, b, preds);
      }
    }
    if |c| > 0 { EntryPreds(c, preds); }
  }

  lemma {:induction false} EntryPreds(c: seq<Block>, preds: seq<seq<BlockId>>)
    requires |preds| == |c| > 0
    requires forall x: BlockId, p: BlockId :: x < |c| ==> (p in preds[x] <==> Edge(c, p, x))
    ensures preds[0] != [] ==> HasPred(c, 0)
  {
    if preds[0] != [] { assert preds[0][0] in preds[0]; }
  }

  method AddPred(c: seq<Block>, b: BlockId, preds0: seq<seq<BlockId>>) returns (preds: seq<seq<BlockId>>)
    requires b < |c| == |preds0| && c[b].term.Some?
    requires forall i: BlockId, x: BlockId :: Edge(c, i, x) ==> x < |c|
    requires forall x, j, k :: 0 <= x < |c| && 0 <= j < k < |preds0[x]| ==> preds0[x][j] != preds0[x][k]
    ensures |preds| == |c|
    ensures forall x: BlockId, p: BlockId :: x < |c| ==>
      (p in preds[x] <==> p in preds0[x] || (p == b && Edge(c, b, x)))
    ensures forall x, j, k :: 0 <= x < |c| && 0 <= j < k < |preds[x]| ==> preds[x][j] != preds[x][k]
  {
    var succs := Successors(c[b].term.value);
    preds := preds0;
    for s := 0 to |succs|
      invariant |preds| == |c|
      invariant forall x: BlockId, p: BlockId :: x < |c| ==>
        (p in preds[x] <==> p in preds0[x] || (p == b && x in succs[..s]))
      invariant forall x, j, k :: 0 <= x < |c| && 0 <= j < k < |preds[x]| ==> preds[x][j] != preds[x][k]
    {
      var x := succs[s];
      assert Edge(c, b, x);
      assert succs[..s + 1] == succs[..s] + [x];
      if b !in preds[x] { preds := preds[x := preds[x] + [b]]; }
    }
    assert succs[..|succs|] == succs;
  }

  /** Append the successors that are not waiting already. */
  method Enqueue(work: seq<BlockId>, succs: seq<BlockId>) returns (w: seq<BlockId>)
    ensures forall x :: x in w <==> x in work || x in succs
    ensures work <= w
  {
    w := work;
    for i := 0 to |succs|
      invariant work <= w
      invariant forall x :: x in w <==> x in work || x in succs[..i]
    {
      if succs[i] !in w { w := w + [succs[i]]; }
      assert succs[..i + 1] == succs[..i] + [succs[i]];
    }
  }

  method JoinAll<L>(a: Analysis<L>, out: seq<L>, ps: seq<BlockId>) returns (joined: L)
    requires InRange(ps, |out|)
    ensures joined == JoinPreds(a, out, ps)
  {
    joined := out[ps[0]];
    assert ps[..1] == [ps[0]];
    for i := 1 to |ps|
      invariant joined == JoinPreds(a, out, ps[..i])
    {
      assert ps[..i + 1][..i] == ps[..i];
      joined := a.join(joined, out[ps[i]]);
    }
    assert ps[..|ps|] == ps;
  }

  /**
   `solve_forward`.  It terminates; no value, at entry or exit of a block,
   falls below any solution of the equations; awake blocks end at their
   equation and the others were never visited.
   */
  method SolveForward<L(==,!new)>(a: Analysis<L>, ghost lat: Lattice<L>, c: seq<Block>, preds: seq<seq<BlockId>>)
    returns (blockIn: seq<L>, blockOut: seq<L>)
    requires Lawful(a, lat) && GraphOk(c, preds)
    ensures SolverInv(a, lat, c, preds, [], blockIn, blockOut)
  {
    blockIn := seq(|c|, _ => a.bottom);
    blockOut := blockIn;
    blockIn := blockIn[0 := a.entry];
    blockOut := blockOut[0 := a.transfer(0, a.entry)];
    var work := [];
    if c[0].term.Some? {
      work := Enqueue(work, Successors(c[0].term.value));
    }
    InitInv(a, lat, c, preds, work, blockIn, blockOut);
    while work != []
      invariant SolverInv(a, lat, c, preds, work, blockIn, blockOut)
      decreases SumHeights(lat, blockOut), |work|
    {
      var bid := work[0];
      assert Queued(a, c, preds, blockOut, bid);
      var newIn := a.entry;
      if preds[bid] != [] {
        newIn := JoinAll(a, blockOut, preds[bid]);
      }
      var newOut := a.transfer(bid, newIn);
      if newOut != blockOut[bid] {
        var work' := work[1..];
        if c[bid].term.Some? {
          work' := Enqueue(work', Successors(c[bid].term.value));
        }
        VisitChanged(a, lat, c, preds, work, work', blockIn, blockOut);
        SumLess(lat, blockOut, bid, newOut);
        blockIn, blockOut, work := blockIn[bid := newIn], blockOut[bid := newOut], work';
      } else {
        VisitSame(a, lat, c, preds, work, blockIn, blockOut);
        work := work[1..];
      }
    }
  }

  // ----- what the solver's result means -----

  /** Blocks reached only through blocks whose value stayed at `bottom`. */
  ghost predicate Asleep<L>(a: Analysis<L>, c: seq<Block>, preds: seq<seq<BlockId>>, out: seq<L>, b: BlockId)
    requires RangesOk(preds, out) && |c| == |out|
  {
    0 < b < |c| && Reachable(c, b) && !Awake(a, preds, out, b)
  }

  /** Some assignment consistent with the equations leaves b asleep. */
  ghost predicate Dormant<L(!new)>(a: Analysis<L>, lat: Lattice<L>, c: seq<Block>, preds: seq<seq<BlockId>>,
          b: BlockId) {
    0 < b < |c| && Reachable(c, b) && exists x: seq<L> :: PreSolution(a, lat, c, preds, x) && !Awake(a, preds, x, b)
  }

  /** The blocks the solver leaves asleep are the dormant ones, whatever order it worked in. */
  lemma {:induction false} AsleepIsDormant<L(!new)>(a: Analysis<L>, lat: Lattice<L>, c: seq<Block>,
          preds: seq<seq<BlockId>>, inn: seq<L>, out: seq<L>, b: BlockId)
    requires Lawful(a, lat) && GraphOk(c, preds) && SolverInv(a, lat, c, preds, [], inn, out)
    ensures Asleep(a, c, preds, out, b) <==> Dormant(a, lat, c, preds, b)
  {
    ResultIsPreSolution(a, lat, c, preds, inn, out);
    if Dormant(a, lat, c, preds, b) {
      var x: seq<L> :| PreSolution(a, lat, c, preds, x) && !Awake(a, preds, x, b);
      assert Below(lat, x, out);
      if Awake(a, preds, out, b) { StillAwake(a, lat, preds, x, out, b); }
    }
  }

  lemma {:induction false} ResultIsPreSolution<L(!new)>(a: Analysis<L>, lat: Lattice<L>, c: seq<Block>,
          preds: seq<seq<BlockId>>, inn: seq<L>, out: seq<L>)
    requires Lawful(a, lat) && GraphOk(c, preds) && SolverInv(a, lat, c, preds, [], inn, out)
    ensures PreSolution(a, lat, c, preds, out)
  {
    forall b: BlockId | b < |c| && Reachable(c, b) && (b == 0 || Awake(a, preds, out, b))
      ensures lat.le(out[b], a.transfer(b, InOf(a, preds, out, b))) {
      if b > 0 { assert Settled(a, preds, out, b); }
      InOfDom(a, lat, preds, out, b);
    }
  }

  lemma {:induction false} ReachableHasPred(c: seq<Block>, preds: seq<seq<BlockId>>, b: BlockId)
    requires GraphOk(c, preds) && 0 < b < |c| && Reachable(c, b)
    ensures preds[b] != []
  {
    var p :| PathTo(c, p, b);
    assert Edge(c, p[|p| - 2], p[|p| - 1]);
    assert p[|p| - 2] in preds[b];
  }

  /**
   The result solves the equations exactly when transfer fixes `bottom` at
   every dormant block: the early stop at dataflow.rs:88 loses nothing else.
   */
  lemma {:induction false} SolvesIff<L(!new)>(a: Analysis<L>, lat: Lattice<L>, c: seq<Block>, preds: seq<seq<BlockId>>,
          inn: seq<L>, out: seq<L>)
    requires Lawful(a, lat) && GraphOk(c, preds) && SolverInv(a, lat, c, preds, [], inn, out)
    ensures Solution(a, c, preds, out) <==> forall b: BlockId :: Dormant(a, lat, c, preds, b) ==>
      a.transfer(b, a.bottom) == a.bottom
  {
    hide Dormant;
    forall b: BlockId ensures Asleep(a, c, preds, out, b) <==> Dormant(a, lat, c, preds, b) {
      AsleepIsDormant(a, lat, c, preds, inn, out, b);
    }
    SolvesIffAsleep(a, lat, c, preds, inn, out);
  }

  lemma {:induction false} SolvesIffAsleep<L(!new)>(a: Analysis<L>, lat: Lattice<L>, c: seq<Block>,
          preds: seq<seq<BlockId>>, inn: seq<L>, out: seq<L>)
    requires Lawful(a, lat) && GraphOk(c, preds) && SolverInv(a, lat, c, preds, [], inn, out)
    ensures Solution(a, c, preds, out) <==> forall b: BlockId :: Asleep(a, c, preds, out, b) ==>
      a.transfer(b, a.bottom) == a.bottom
  {
    forall b: BlockId | 0 < b < |c| && Reachable(c, b) && !Awake(a, preds, out, b)
      ensures InOf(a, preds, out, b) == a.bottom && out[b] == a.bottom
    {
      ReachableHasPred(c, preds, b);
      assert Settled(a, preds, out, b);
      JoinConstant(a, lat, out, preds[b], a.bottom);
    }
    if forall b: BlockId :: Asleep(a, c, preds, out, b) ==> a.transfer(b, a.bottom) == a.bottom {
      forall b: BlockId | b < |c| && Reachable(c, b) ensures out[b] == a.transfer(b, InOf(a, preds, out, b)) {
        if b > 0 {
          assert Settled(a, preds, out, b);
          assert Awake(a, preds, out, b) || Asleep(a, c, preds, out, b);
        }
      }
    }
  }

  /** Every solution lies below the result. */
  lemma {:induction false} SolvesGreatest<L(!new)>(a: Analysis<L>, lat: Lattice<L>, c: seq<Block>,
          preds: seq<seq<BlockId>>, inn: seq<L>, out: seq<L>, x: seq<L>)
    requires Lawful(a, lat) && GraphOk(c, preds) && SolverInv(a, lat, c, preds, [], inn, out)
    requires Solution(a, c, preds, x) && AllIn(lat, x)
    ensures Below(lat, x, out)
  {
    forall b: BlockId | b < |c| && Reachable(c, b) ensures lat.le(x[b], a.transfer(b, InOf(a, preds, x, b))) {
    }
    assert PreSolution(a, lat, c, preds, x);
  }
}
