/**
 Analyses over vectors of bits in which a block sets, clears or keeps each
 bit, and what the solver's result says about the paths of the graph.
 */
module Paths {
  import opened Cfg
  import opened Dataflow

  type Bits = seq<bool>

  /** What running a block does to one bit. */
  datatype Effect = Gen | Kill | Keep

  function App(e: Effect, v: bool): bool {
    match e
    case Gen => true
    case Kill => false
    case Keep => v
  }

  function AllTrue(n: nat): Bits {
    seq(n, _ => true)
  }

  function Meet(x: Bits, y: Bits): Bits {
    seq(if |x| < |y| then |x| else |y|, i requires 0 <= i < |x| && i < |y| => x[i] && y[i])
  }

  ghost predicate Bitwise(a: Analysis<Bits>, n: nat, eff: (BlockId, nat) -> Effect) {
    && |a.entry| == n && a.bottom == AllTrue(n)
    && (forall x, y :: a.join(x, y) == Meet(x, y))
    && (forall b, x :: |x| == n ==> |a.transfer(b, x)| == n)
    && (forall b, x, i: nat :: |x| == n && i < n ==> a.transfer(b, x)[i] == App(eff(b, i), x[i]))
  }

  predicate BitLe(x: Bits, y: Bits) {
    |x| == |y| && forall i :: 0 <= i < |x| ==> x[i] ==> y[i]
  }

  function CountTrue(x: Bits): nat {
    if x == [] then 0 else (if x[0] then 1 else 0) + CountTrue(x[1..])
  }

  function BitLattice(n: nat): Lattice<Bits> {
    Lattice((x: Bits) => |x| == n, BitLe, CountTrue)
  }

  lemma {:induction false} CountLess(x: Bits, y: Bits)
    requires BitLe(x, y)
    ensures CountTrue(x) <= CountTrue(y) && (x != y ==> CountTrue(x) < CountTrue(y))
    decreases x
  {
    if x != [] {
      assert x == [x[0]] + x[1..] && y == [y[0]] + y[1..];
      CountLess(x[1..], y[1..]);
    }
  }

  lemma {:induction false} BitOrdered(n: nat)
    ensures Ordered(BitLattice(n))
  {
    var lat := BitLattice(n);
    forall x, y | lat.dom(x) && lat.dom(y) && lat.le(x, y) && x != y ensures lat.height(x) < lat.height(y) {
      CountLess(x, y);
    }
  }

  lemma {:induction false} BitLawful(a: Analysis<Bits>, n: nat, eff: (BlockId, nat) -> Effect)
    requires Bitwise(a, n, eff)
    ensures Lawful(a, BitLattice(n))
  {
    var lat := BitLattice(n);
    BitOrdered(n);
    forall b, x, y | lat.dom(x) && lat.dom(y) && lat.le(x, y) ensures lat.le(a.transfer(b, x), a.transfer(b, y)) {
      forall i: nat | i < n ensures a.transfer(b, x)[i] ==> a.transfer(b, y)[i] {
        assert a.transfer(b, x)[i] == App(eff(b, i), x[i]);
      }
    }
  }

  // ----- paths -----

  /** Bit i after running the blocks of a path, starting from `entry`. */
  function PathBit(entry: Bits, eff: (BlockId, nat) -> Effect, p: seq<BlockId>, i: nat): bool
    requires i < |entry|
    decreases p
  {
    if p == [] then entry[i] else App(eff(p[|p| - 1], i), PathBit(entry, eff, p[..|p| - 1], i))
  }

  /** Meet over all paths: the bit holds after every path through the end of b. */
  ghost predicate Mop(c: seq<Block>, entry: Bits, eff: (BlockId, nat) -> Effect, b: BlockId, i: nat)
    requires i < |entry|
  {
    forall p :: PathTo(c, p, b) ==> PathBit(entry, eff, p, i)
  }

  ghost function MopBits(c: seq<Block>, entry: Bits, eff: (BlockId, nat) -> Effect, b: BlockId): Bits {
    seq(|entry|, i requires 0 <= i < |entry| => Mop(c, entry, eff, b, i))
  }

  ghost function MopVec(c: seq<Block>, entry: Bits, eff: (BlockId, nat) -> Effect): seq<Bits> {
    seq(|c|, b requires 0 <= b < |c| => MopBits(c, entry, eff, b))
  }

  /** The joined bit is the conjunction over the predecessors. */
  lemma {:induction false} JoinBit(a: Analysis<Bits>, n: nat, eff: (BlockId, nat) -> Effect, out: seq<Bits>,
          ps: seq<BlockId>, i: nat)
    requires Bitwise(a, n, eff) && InRange(ps, |out|) && i < n && forall k :: 0 <= k < |out| ==> |out[k]| == n
    ensures |JoinPreds(a, out, ps)| == n
    ensures JoinPreds(a, out, ps)[i] <==> forall k :: 0 <= k < |ps| ==> out[ps[k]][i]
    decreases ps
  {
    if |ps| > 1 {
      var init := ps[..|ps| - 1];
      JoinBit(a, n, eff, out, init, i);
      assert JoinPreds(a, out, ps) == Meet(JoinPreds(a, out, init), out[ps[|ps| - 1]]);
      assert forall k :: 0 <= k < |init| ==> init[k] == ps[k];
    }
  }

  lemma {:induction false} EntryPath(c: seq<Block>, preds: seq<seq<BlockId>>, p: seq<BlockId>)
    requires GraphOk(c, preds) && PathTo(c, p, 0)
    ensures p == [0]
  {
    assert forall i: BlockId :: Edge(c, i, 0) ==> i in preds[0];
    LastEdge(c, p, 0);
  }

  lemma {:induction false} LastEdge(c: seq<Block>, p: seq<BlockId>, b: BlockId)
    requires PathTo(c, p, b)
    ensures |p| == 1 || Edge(c, p[|p| - 2], b)
  {
    if |p| > 1 { assert Edge(c, p[|p| - 2], p[|p| - 2 + 1]); }
  }

  lemma {:induction false} PathInit(c: seq<Block>, p: seq<BlockId>, b: BlockId)
    requires PathTo(c, p, b) && |p| > 1
    ensures PathTo(c, p[..|p| - 1], p[|p| - 2]) && Edge(c, p[|p| - 2], b)
  {
  }

  /** The bit that reaches b is true on every path or false on a path to it. */
  lemma {:induction false} MopIn(a: Analysis<Bits>, n: nat, eff: (BlockId, nat) -> Effect, c: seq<Block>,
          preds: seq<seq<BlockId>>, b: BlockId, i: nat)
    returns (p: seq<BlockId>)
    requires Bitwise(a, n, eff) && GraphOk(c, preds) && b < |c| && i < n && Reachable(c, b)
    ensures var x := MopVec(c, a.entry, eff);
      && RangesOk(preds, x) && |InOf(a, preds, x, b)| == n
      && (!InOf(a, preds, x, b)[i] ==> PathTo(c, p, b) && !PathBit(a.entry, eff, p[..|p| - 1], i))
      && (InOf(a, preds, x, b)[i] ==> forall q :: PathTo(c, q, b) ==> PathBit(a.entry, eff, q[..|q| - 1], i))
  {
    var x := MopVec(c, a.entry, eff);
    GraphRanges(c, preds, x);
    p := [0];
    if b == 0 {
      assert PathTo(c, [0], 0);
      forall q | PathTo(c, q, 0) ensures q == [0] { EntryPath(c, preds, q); }
    } else {
      ReachableHasPred(c, preds, b);
      JoinBit(a, n, eff, x, preds[b], i);
      if InOf(a, preds, x, b)[i] {
        forall q | PathTo(c, q, b) ensures PathBit(a.entry, eff, q[..|q| - 1], i) {
          PathInit(c, q, b);
          var r := q[|q| - 2];
          assert r in preds[b];
          var k :| 0 <= k < |preds[b]| && preds[b][k] == r;
          assert x[preds[b][k]][i];
        }
      } else {
        var k :| 0 <= k < |preds[b]| && !x[preds[b][k]][i];
        var r := preds[b][k];
        assert r in preds[b];
        var q :| PathTo(c, q, r) && !PathBit(a.entry, eff, q, i);
        PathExtends(c, q, r, b);
        p := q + [b];
        assert p[..|p| - 1] == q;
      }
    }
  }

  lemma {:induction false} MopIsPreSolution(a: Analysis<Bits>, n: nat, eff: (BlockId, nat) -> Effect, c: seq<Block>,
          preds: seq<seq<BlockId>>)
    requires Bitwise(a, n, eff) && GraphOk(c, preds)
    ensures PreSolution(a, BitLattice(n), c, preds, MopVec(c, a.entry, eff))
  {
    var x := MopVec(c, a.entry, eff);
    GraphRanges(c, preds, x);
    forall b: BlockId | b < |c| && Reachable(c, b)
      ensures BitLe(x[b], a.transfer(b, InOf(a, preds, x, b)))
    {
      var q0 :| PathTo(c, q0, b);
      if n > 0 { var _ := MopIn(a, n, eff, c, preds, b, 0); } else { InLength(a, n, eff, c, preds, x, b); }
      forall i: nat | i < n && x[b][i] ensures a.transfer(b, InOf(a, preds, x, b))[i] {
        var p := MopIn(a, n, eff, c, preds, b, i);
        assert PathBit(a.entry, eff, q0, i);
        if !InOf(a, preds, x, b)[i] { assert PathBit(a.entry, eff, p, i); }
      }
    }
  }

  lemma {:induction false} InLength(a: Analysis<Bits>, n: nat, eff: (BlockId, nat) -> Effect, c: seq<Block>,
          preds: seq<seq<BlockId>>, x: seq<Bits>, b: BlockId)
    requires Bitwise(a, n, eff) && GraphOk(c, preds) && |x| == |c| && RangesOk(preds, x) && b < |c|
    requires forall k :: 0 <= k < |x| ==> |x[k]| == n
    ensures |InOf(a, preds, x, b)| == n
  {
    BitLawful(a, n, eff);
    assert AllIn(BitLattice(n), x);
    InOfDom(a, BitLattice(n), preds, x, b);
  }

  /**
   A bit that the solver leaves clear at the start of a block is clear on
   some path from the entry to that block.
   */
  lemma {:induction false} ClearHasPath(a: Analysis<Bits>, n: nat, eff: (BlockId, nat) -> Effect, c: seq<Block>,
          preds: seq<seq<BlockId>>,
                     inn: seq<Bits>, out: seq<Bits>, b: BlockId, i: nat)
    returns (p: seq<BlockId>)
    requires Bitwise(a, n, eff) && GraphOk(c, preds) && SolverInv(a, BitLattice(n), c, preds, [], inn, out)
    requires b < |c| && i < n && |inn[b]| == n && !inn[b][i]
    ensures PathTo(c, p, b) && !PathBit(a.entry, eff, p[..|p| - 1], i)
  {
    var x := MopVec(c, a.entry, eff);
    MopIsPreSolution(a, n, eff, c, preds);
    assert BitLattice(n).le(InOf(a, preds, x, b), inn[b]);
    if b == 0 { assert PathTo(c, [0], 0); }
    assert inn[b] != a.bottom;
    p := MopIn(a, n, eff, c, preds, b, i);
  }

  /** A solution of the equations holds on every path. */
  lemma {:induction false} SolutionOnPath(a: Analysis<Bits>, n: nat, eff: (BlockId, nat) -> Effect, c: seq<Block>,
          preds: seq<seq<BlockId>>,
                                          out: seq<Bits>, p: seq<BlockId>, b: BlockId, i: nat)
    requires Bitwise(a, n, eff) && GraphOk(c, preds) && Solution(a, c, preds, out)
    requires forall k :: 0 <= k < |out| ==> |out[k]| == n
    requires PathTo(c, p, b) && b < |c| && i < n && out[b][i]
    ensures PathBit(a.entry, eff, p, i)
    decreases p
  {
    assert Reachable(c, b);
    InLength(a, n, eff, c, preds, out, b);
    if b == 0 {
      EntryPath(c, preds, p);
      assert p[..0] == [];
    } else {
      PathInit(c, p, b);
      var r := p[|p| - 2];
      ReachableHasPred(c, preds, b);
      JoinBit(a, n, eff, out, preds[b], i);
      assert r in preds[b];
      var k :| 0 <= k < |preds[b]| && preds[b][k] == r;
      if eff(b, i).Keep? {
        assert out[preds[b][k]][i];
        SolutionOnPath(a, n, eff, c, preds, out, p[..|p| - 1], r, i);
      }
    }
  }

  /** A solution that is not below the meet over all paths is exactly that meet. */
  lemma {:induction false} SolutionIsMop(a: Analysis<Bits>, n: nat, eff: (BlockId, nat) -> Effect, c: seq<Block>,
          preds: seq<seq<BlockId>>,
                      inn: seq<Bits>, out: seq<Bits>, b: BlockId, i: nat)
    requires Bitwise(a, n, eff) && GraphOk(c, preds) && SolverInv(a, BitLattice(n), c, preds, [], inn, out)
    requires Solution(a, c, preds, out)
    requires b < |c| && i < n
    ensures |out[b]| == n && (out[b][i] <==> Mop(c, a.entry, eff, b, i))
  {
    forall k | 0 <= k < |out| ensures |out[k]| == n { assert BitLattice(n).dom(out[k]); }
    MopIsPreSolution(a, n, eff, c, preds);
    assert BitLattice(n).le(MopVec(c, a.entry, eff)[b], out[b]);
    if out[b][i] {
      forall p | PathTo(c, p, b) ensures PathBit(a.entry, eff, p, i) {
        SolutionOnPath(a, n, eff, c, preds, out, p, b, i);
      }
    }
  }

  /** Transfer fixes `bottom` at b exactly when b clears no bit. */
  lemma {:induction false} FixesBottom(a: Analysis<Bits>, n: nat, eff: (BlockId, nat) -> Effect, b: BlockId)
    requires Bitwise(a, n, eff)
    ensures a.transfer(b, a.bottom) == a.bottom <==> forall i: nat :: i < n ==> !eff(b, i).Kill?
  {
    var t := a.transfer(b, a.bottom);
    assert |a.bottom| == n;
    assert forall i: nat :: i < n ==> t[i] == App(eff(b, i), true);
  }

  /** At the end of every reachable block the solver's bits are the meet over all paths. */
  ghost predicate ExactAtReachable(a: Analysis<Bits>, n: nat, eff: (BlockId, nat) -> Effect, c: seq<Block>,
          out: seq<Bits>) {
    |a.entry| == n && |out| == |c| && forall b: BlockId, i: nat :: b < |c| && Reachable(c, b) && i < n ==>
      |out[b]| == n && (out[b][i] <==> Mop(c, a.entry, eff, b, i))
  }

  // ----- which blocks the early stop leaves asleep -----

  /** Some bit is clear at the end of the path. */
  ghost predicate SomeClear(entry: Bits, eff: (BlockId, nat) -> Effect, p: seq<BlockId>) {
    exists i: nat :: i < |entry| && !PathBit(entry, eff, p, i)
  }

  /** A path to b that leaves some bit clear after each block between the entry and b. */
  ghost predicate Wakes(c: seq<Block>, entry: Bits, eff: (BlockId, nat) -> Effect, p: seq<BlockId>, b: BlockId) {
    PathTo(c, p, b) && forall m :: 2 <= m < |p| ==> SomeClear(entry, eff, p[..m])
  }

  /** b can be reached, but on no such path. */
  ghost predicate Sleeps(c: seq<Block>, entry: Bits, eff: (BlockId, nat) -> Effect, b: BlockId) {
    0 < b < |c| && Reachable(c, b) && forall p :: !Wakes(c, entry, eff, p, b)
  }

  lemma {:induction false} WakesOn(c: seq<Block>, entry: Bits, eff: (BlockId, nat) -> Effect, p: seq<BlockId>,
          q: BlockId, b: BlockId)
    requires Wakes(c, entry, eff, p, q) && Edge(c, q, b) && (|p| == 1 || SomeClear(entry, eff, p))
    ensures Wakes(c, entry, eff, p + [b], b)
  {
    hide SomeClear;
    PathExtends(c, p, q, b);
    var r := p + [b];
    forall m | 2 <= m < |r| ensures SomeClear(entry, eff, r[..m]) {
      assert r[..m] == if m == |p| then p else p[..m];
    }
  }

  lemma {:induction false} WakesBefore(c: seq<Block>, entry: Bits, eff: (BlockId, nat) -> Effect, p: seq<BlockId>,
          b: BlockId)
    requires Wakes(c, entry, eff, p, b) && |p| > 1
    ensures Wakes(c, entry, eff, p[..|p| - 1], p[|p| - 2]) && Edge(c, p[|p| - 2], b)
    ensures |p| > 2 ==> SomeClear(entry, eff, p[..|p| - 1])
  {
    hide SomeClear;
    PathInit(c, p, b);
    var q := p[..|p| - 1];
    forall m | 2 <= m < |q| ensures SomeClear(entry, eff, q[..m]) {
      assert q[..m] == p[..m];
    }
  }

  /** The bit holds after every path that wakes its end. */
  ghost predicate WakeBit(c: seq<Block>, entry: Bits, eff: (BlockId, nat) -> Effect, b: BlockId, i: nat)
    requires i < |entry|
  {
    forall p :: Wakes(c, entry, eff, p, b) ==> PathBit(entry, eff, p, i)
  }

  ghost function WakeBits(c: seq<Block>, entry: Bits, eff: (BlockId, nat) -> Effect, b: BlockId): Bits {
    seq(|entry|, i requires 0 <= i < |entry| => WakeBit(c, entry, eff, b, i))
  }

  ghost function WakeVec(c: seq<Block>, entry: Bits, eff: (BlockId, nat) -> Effect): seq<Bits> {
    seq(|c|, b requires 0 <= b < |c| => WakeBits(c, entry, eff, b))
  }

  /** A clear bit before b is clear on a waking path through the predecessor, which then wakes b. */
  lemma {:induction false} WakePred(c: seq<Block>, preds: seq<seq<BlockId>>, entry: Bits,
          eff: (BlockId, nat) -> Effect, q: BlockId, b: BlockId, i: nat)
    returns (p: seq<BlockId>)
    requires GraphOk(c, preds) && b < |c| && q in preds[b] && i < |entry| && !WakeBit(c, entry, eff, q, i)
    ensures Wakes(c, entry, eff, p, b) && |p| > 1 && !PathBit(entry, eff, p[..|p| - 1], i)
  {
    var r :| Wakes(c, entry, eff, r, q) && !PathBit(entry, eff, r, i);
    assert SomeClear(entry, eff, r);
    WakesOn(c, entry, eff, r, q, b);
    p := r + [b];
    assert p[..|p| - 1] == r;
  }

  lemma {:induction false} EntryWakes(c: seq<Block>, entry: Bits, eff: (BlockId, nat) -> Effect)
    ensures Wakes(c, entry, eff, [0], 0)
  {
    assert PathTo(c, [0], 0);
  }

  lemma {:induction false} WakeIsPreSolution(a: Analysis<Bits>, n: nat, eff: (BlockId, nat) -> Effect, c: seq<Block>,
          preds: seq<seq<BlockId>>)
    requires Bitwise(a, n, eff) && GraphOk(c, preds)
    ensures PreSolution(a, BitLattice(n), c, preds, WakeVec(c, a.entry, eff))
  {
    hide Wakes;
    var x := WakeVec(c, a.entry, eff);
    GraphRanges(c, preds, x);
    forall b: BlockId | b < |c| && Reachable(c, b) && (b == 0 || Awake(a, preds, x, b))
      ensures BitLe(x[b], a.transfer(b, InOf(a, preds, x, b)))
    {
      InLength(a, n, eff, c, preds, x, b);
      forall i: nat | i < n && x[b][i] ensures a.transfer(b, InOf(a, preds, x, b))[i] {
        if b == 0 {
          EntryWakes(c, a.entry, eff);
          assert PathBit(a.entry, eff, [0], i);
          assert [0][..0] == [];
        } else {
          WakeStep(a, n, eff, c, preds, b, i);
        }
      }
    }
  }

  lemma {:induction false} WakeStep(a: Analysis<Bits>, n: nat, eff: (BlockId, nat) -> Effect, c: seq<Block>,
          preds: seq<seq<BlockId>>, b: BlockId, i: nat)
    requires Bitwise(a, n, eff) && GraphOk(c, preds) && 0 < b < |c| && i < n && WakeBit(c, a.entry, eff, b, i)
    requires var x := WakeVec(c, a.entry, eff); RangesOk(preds, x) && Awake(a, preds, x, b)
    ensures var x := WakeVec(c, a.entry, eff); |InOf(a, preds, x, b)| == n && App(eff(b, i), InOf(a, preds, x, b)[i])
  {
    hide Wakes, GraphOk, WakeBit;
    var x := WakeVec(c, a.entry, eff);
    var k :| 0 <= k < |preds[b]| && (preds[b][k] == 0 || x[preds[b][k]] != a.bottom);
    InLength(a, n, eff, c, preds, x, b);
    JoinBit(a, n, eff, x, preds[b], i);
    if eff(b, i).Keep? {
      forall m | 0 <= m < |preds[b]| ensures x[preds[b][m]][i] {
        assert preds[b][m] in preds[b];
        WakeKeeps(c, preds, a.entry, eff, preds[b][m], b, i);
      }
    }
    WakeKills(a, n, eff, c, preds, b, k, i);
  }

  lemma {:induction false} WakeKeeps(c: seq<Block>, preds: seq<seq<BlockId>>, entry: Bits,
          eff: (BlockId, nat) -> Effect, q: BlockId, b: BlockId, i: nat)
    requires GraphOk(c, preds) && b < |c| && q in preds[b] && i < |entry| && WakeBit(c, entry, eff, b, i)
    requires eff(b, i).Keep?
    ensures WakeBit(c, entry, eff, q, i)
  {
    if !WakeBit(c, entry, eff, q, i) {
      var p := WakePred(c, preds, entry, eff, q, b, i);
      WakesEnd(c, entry, eff, p, b);
      assert false;
    }
  }

  lemma {:induction false} WakeKills(a: Analysis<Bits>, n: nat, eff: (BlockId, nat) -> Effect, c: seq<Block>,
          preds: seq<seq<BlockId>>, b: BlockId, k: nat, i: nat)
    requires Bitwise(a, n, eff) && GraphOk(c, preds) && b < |c| && k < |preds[b]| && preds[b][k] < |c| && i < n
    requires preds[b][k] == 0 || WakeBits(c, a.entry, eff, preds[b][k]) != a.bottom
    requires WakeBit(c, a.entry, eff, b, i)
    ensures !eff(b, i).Kill?
  {
    hide Wakes;
    var p := WakingPath(a, n, eff, c, preds, b, k);
    assert PathBit(a.entry, eff, p, i);
  }

  /** A predecessor that is the entry, or has a clear bit on some waking path, wakes b. */
  lemma {:induction false} WakingPath(a: Analysis<Bits>, n: nat, eff: (BlockId, nat) -> Effect, c: seq<Block>,
          preds: seq<seq<BlockId>>, b: BlockId, k: nat)
    returns (p: seq<BlockId>)
    requires Bitwise(a, n, eff) && GraphOk(c, preds) && b < |c| && k < |preds[b]| && preds[b][k] < |c|
    requires preds[b][k] == 0 || WakeBits(c, a.entry, eff, preds[b][k]) != a.bottom
    ensures Wakes(c, a.entry, eff, p, b) && |p| > 1 && p[|p| - 1] == b
  {
    var q := preds[b][k];
    assert q in preds[b];
    if q == 0 {
      EntryWakes(c, a.entry, eff);
      p := [0, b];
      assert [0] + [b] == p;
      WakesOn(c, a.entry, eff, [0], 0, b);
    } else {
      var bits := WakeBits(c, a.entry, eff, q);
      var i: nat :| i < n && !bits[i];
      p := WakePred(c, preds, a.entry, eff, q, b, i);
    }
  }

  /** Along a waking path every block is awake, and the result is below the path's bits. */
  lemma {:induction false} WakesOut(a: Analysis<Bits>, n: nat, eff: (BlockId, nat) -> Effect, c: seq<Block>,
          preds: seq<seq<BlockId>>,
                                    inn: seq<Bits>, out: seq<Bits>, p: seq<BlockId>, b: BlockId)
    requires Bitwise(a, n, eff) && GraphOk(c, preds) && SolverInv(a, BitLattice(n), c, preds, [], inn, out)
    requires Wakes(c, a.entry, eff, p, b) && b < |c|
    ensures b > 0 ==> Awake(a, preds, out, b)
    ensures |out[b]| == n && forall i: nat :: i < n && out[b][i] ==> PathBit(a.entry, eff, p, i)
    decreases p
  {
    hide Wakes, SomeClear, GraphOk;
    assert BitLattice(n).dom(out[b]);
    WakesEnd(c, a.entry, eff, p, b);
    if |p| == 1 {
      OnlyEntry(c, a.entry, eff, p, b);
      assert p[..0] == [];
    } else {
      WakesBefore(c, a.entry, eff, p, b);
      var q, r := p[..|p| - 1], p[|p| - 2];
      var k := PredIndex(c, preds, r, b);
      WakesOut(a, n, eff, c, preds, inn, out, q, r);
      if r != 0 { ClearMoves(a, n, eff, c, preds, out, q, r); }
      assert Awake(a, preds, out, b);
      if b > 0 {
        assert Settled(a, preds, out, b);
        forall i: nat | i < n && out[b][i] ensures PathBit(a.entry, eff, p, i) {
          InLength(a, n, eff, c, preds, out, b);
          JoinBit(a, n, eff, out, preds[b], i);
          if eff(b, i).Keep? { assert out[preds[b][k]][i]; }
        }
      } else {
        NoEdgeBack(c, preds, r);
      }
    }
  }

  lemma {:induction false} OnlyEntry(c: seq<Block>, entry: Bits, eff: (BlockId, nat) -> Effect, p: seq<BlockId>,
          b: BlockId)
    requires Wakes(c, entry, eff, p, b) && |p| == 1
    ensures b == 0 && p == [0]
  {
  }

  lemma {:induction false} WakesEnd(c: seq<Block>, entry: Bits, eff: (BlockId, nat) -> Effect, p: seq<BlockId>,
          b: BlockId)
    requires Wakes(c, entry, eff, p, b)
    ensures |p| > 0 && p[|p| - 1] == b && (|p| == 2 ==> p[0] == 0)
  {
  }

  lemma {:induction false} NoEdgeBack(c: seq<Block>, preds: seq<seq<BlockId>>, r: BlockId)
    requires GraphOk(c, preds)
    ensures !Edge(c, r, 0)
  {
    assert r !in preds[0];
  }

  lemma {:induction false} PredIndex(c: seq<Block>, preds: seq<seq<BlockId>>, r: BlockId, b: BlockId) returns (k: nat)
    requires GraphOk(c, preds) && Edge(c, r, b)
    ensures b < |c| && r < |c| && k < |preds[b]| && preds[b][k] == r
  {
    assert r in preds[b];
    k :| k < |preds[b]| && preds[b][k] == r;
  }

  lemma {:induction false} ClearMoves(a: Analysis<Bits>, n: nat, eff: (BlockId, nat) -> Effect, c: seq<Block>,
          preds: seq<seq<BlockId>>, out: seq<Bits>, q: seq<BlockId>, r: BlockId)
    requires Bitwise(a, n, eff) && r < |out| && |out[r]| == n && SomeClear(a.entry, eff, q)
    requires forall i: nat :: i < n && out[r][i] ==> PathBit(a.entry, eff, q, i)
    ensures out[r] != a.bottom
  {
    var i: nat :| i < |a.entry| && !PathBit(a.entry, eff, q, i);
    assert !out[r][i] && a.bottom[i];
  }

  /** A block other than the entry is woken exactly when some path wakes it: the graph alone decides. */
  lemma {:induction false} AwakeIff(a: Analysis<Bits>, n: nat, eff: (BlockId, nat) -> Effect, c: seq<Block>,
          preds: seq<seq<BlockId>>,
                                    inn: seq<Bits>, out: seq<Bits>, b: BlockId)
    requires Bitwise(a, n, eff) && GraphOk(c, preds) && SolverInv(a, BitLattice(n), c, preds, [], inn, out)
    requires 0 < b < |c|
    ensures Awake(a, preds, out, b) <==> exists p :: Wakes(c, a.entry, eff, p, b)
  {
    hide Wakes;
    if p :| Wakes(c, a.entry, eff, p, b) {
      WakesOut(a, n, eff, c, preds, inn, out, p, b);
    }
    if Awake(a, preds, out, b) {
      var x := WakeVec(c, a.entry, eff);
      WakeIsPreSolution(a, n, eff, c, preds);
      var k :| 0 <= k < |preds[b]| && (preds[b][k] == 0 || out[preds[b][k]] != a.bottom);
      var q := preds[b][k];
      assert Below(BitLattice(n), x, out);
      assert BitLe(x[q], out[q]) && BitLe(out[q], a.bottom);
      var p := WakingPath(a, n, eff, c, preds, b, k);
    }
  }

  /**
   The fixpoint is the meet over all paths exactly when no block that only
   sleeping paths reach clears a bit.
   */
  lemma {:induction false} FixpointIsMopIff(a: Analysis<Bits>, n: nat, eff: (BlockId, nat) -> Effect, c: seq<Block>,
          preds: seq<seq<BlockId>>,
                         inn: seq<Bits>, out: seq<Bits>)
    requires Bitwise(a, n, eff) && GraphOk(c, preds) && SolverInv(a, BitLattice(n), c, preds, [], inn, out)
    ensures ExactAtReachable(a, n, eff, c, out) <==>
        forall b: BlockId, i: nat :: Sleeps(c, a.entry, eff, b) && i < n ==> !eff(b, i).Kill?
  {
    hide ExactAtReachable, Wakes, Bitwise, SolverInv, GraphOk;
    AsleepIsSleeps(a, n, eff, c, preds, inn, out, 0);
    forall b: BlockId ensures Asleep(a, c, preds, out, b) <==> Sleeps(c, a.entry, eff, b) {
      AsleepIsSleeps(a, n, eff, c, preds, inn, out, b);
    }
    ExactIffAsleep(a, n, eff, c, preds, inn, out);
  }

  lemma {:induction false} AsleepIsSleeps(a: Analysis<Bits>, n: nat, eff: (BlockId, nat) -> Effect, c: seq<Block>,
          preds: seq<seq<BlockId>>,
                                          inn: seq<Bits>, out: seq<Bits>, b: BlockId)
    requires Bitwise(a, n, eff) && GraphOk(c, preds) && SolverInv(a, BitLattice(n), c, preds, [], inn, out)
    ensures RangesOk(preds, out) && |out| == |c| && (Asleep(a, c, preds, out, b) <==> Sleeps(c, a.entry, eff, b))
  {
    hide Wakes;
    if 0 < b < |c| { AwakeIff(a, n, eff, c, preds, inn, out, b); }
  }

  lemma {:induction false} ExactIffAsleep(a: Analysis<Bits>, n: nat, eff: (BlockId, nat) -> Effect, c: seq<Block>,
          preds: seq<seq<BlockId>>,
                         inn: seq<Bits>, out: seq<Bits>)
    requires Bitwise(a, n, eff) && GraphOk(c, preds) && SolverInv(a, BitLattice(n), c, preds, [], inn, out)
    ensures ExactAtReachable(a, n, eff, c, out) <==>
        forall b: BlockId, i: nat :: Asleep(a, c, preds, out, b) && i < n ==> !eff(b, i).Kill?
  {
    hide Mop;
    BitLawful(a, n, eff);
    SolvesIffAsleep(a, BitLattice(n), c, preds, inn, out);
    forall b: BlockId ensures a.transfer(b, a.bottom) == a.bottom <==> forall i: nat :: i < n ==> !eff(b, i).Kill? {
      FixesBottom(a, n, eff, b);
    }
    if forall b: BlockId, i: nat :: Asleep(a, c, preds, out, b) && i < n ==> !eff(b, i).Kill? {
      forall b: BlockId, i: nat | b < |c| && i < n
        ensures |out[b]| == n && (out[b][i] <==> Mop(c, a.entry, eff, b, i)) {
        SolutionIsMop(a, n, eff, c, preds, inn, out, b, i);
      }
    } else {
      var b: BlockId, i: nat :| Asleep(a, c, preds, out, b) && i < n && eff(b, i).Kill?;
      assert Settled(a, preds, out, b) && out[b][i];
      KillOnPath(c, a.entry, eff, b, i);
      assert Reachable(c, b) && b < |c|;
      assert !(out[b][i] <==> Mop(c, a.entry, eff, b, i));
    }
  }

  lemma {:induction false} KillOnPath(c: seq<Block>, entry: Bits, eff: (BlockId, nat) -> Effect, b: BlockId, i: nat)
    requires Reachable(c, b) && i < |entry| && eff(b, i).Kill?
    ensures !Mop(c, entry, eff, b, i)
  {
    var p :| PathTo(c, p, b);
    assert !PathBit(entry, eff, p, i);
  }

  /** In particular, always when no block can clear a bit. */
  lemma {:induction false} FixpointIsMop(a: Analysis<Bits>, n: nat, eff: (BlockId, nat) -> Effect, c: seq<Block>,
          preds: seq<seq<BlockId>>,
                      inn: seq<Bits>, out: seq<Bits>, b: BlockId, i: nat)
    requires Bitwise(a, n, eff) && GraphOk(c, preds) && SolverInv(a, BitLattice(n), c, preds, [], inn, out)
    requires forall x: BlockId, j: nat :: !eff(x, j).Kill?
    requires b < |c| && i < n
    ensures |out[b]| == n && (out[b][i] <==> Mop(c, a.entry, eff, b, i))
  {
    hide Mop;
    BitLawful(a, n, eff);
    forall d: BlockId ensures a.transfer(d, a.bottom) == a.bottom { FixesBottom(a, n, eff, d); }
    SolvesIffAsleep(a, BitLattice(n), c, preds, inn, out);
    SolutionIsMop(a, n, eff, c, preds, inn, out, b, i);
  }

  /** The result is exactly the meet over the waking paths. */
  lemma {:induction false} OutIsWakeBit(a: Analysis<Bits>, n: nat, eff: (BlockId, nat) -> Effect, c: seq<Block>,
          preds: seq<seq<BlockId>>, inn: seq<Bits>, out: seq<Bits>, b: BlockId, i: nat)
    requires Bitwise(a, n, eff) && GraphOk(c, preds) && SolverInv(a, BitLattice(n), c, preds, [], inn, out)
    requires b < |c| && i < n
    ensures |out[b]| == n
    ensures out[b][i] <==> forall p :: Wakes(c, a.entry, eff, p, b) ==> PathBit(a.entry, eff, p, i)
  {
    hide Wakes;
    assert BitLattice(n).dom(out[b]);
    if out[b][i] {
      forall p | Wakes(c, a.entry, eff, p, b) ensures PathBit(a.entry, eff, p, i) {
        WakesOut(a, n, eff, c, preds, inn, out, p, b);
      }
    }
    var x := WakeVec(c, a.entry, eff);
    WakeIsPreSolution(a, n, eff, c, preds);
    assert Below(BitLattice(n), x, out);
    assert BitLe(x[b], out[b]);
    assert x[b][i] == WakeBit(c, a.entry, eff, b, i);
  }
}
