/** Arrays by index (src/target.rs:364-371): where each element lies, and that nothing smaller would do. */
module ArrayLayout {
  import opened Layout
  import opened LayoutSafety
  import opened VariantLayout

  /** The element of index i, `i - low` strides on, ends within s bytes. */
  predicate Holds(e: Ty, low: int, i: int, s: nat) {
    (i - low) * Stride(e) + Size(e) <= s
  }

  /** There is room for the element of every index. */
  predicate HoldsAll(e: Ty, low: int, high: int, s: nat) {
    forall i: int :: low <= i <= high ==> Holds(e, low, i, s)
  }

  /** Inside the array. */
  lemma {:induction false} ElementInside(e: Ty, low: int, high: int, i: int)
    requires low <= i <= high
    ensures (i - low) * Stride(e) + Size(e) <= Size(Array(e, low, high))
  {
    hide Size, Stride;
    var n, s := high - low + 1, Stride(e);
    ArraySize(e, low, high);
    StrideHolds(e);
    Products(i - low + 1, n, s);
    assert (i - low) * s + s == (i - low + 1) * s by { OneMore(i - low, s); }
  }

  lemma {:induction false} ArraySize(e: Ty, low: int, high: int)
    ensures Size(Array(e, low, high)) == (if low <= high then (high - low + 1) * Stride(e) else 0)
  {
  }

  lemma {:induction false} StrideHolds(e: Ty)
    ensures Size(e) <= Stride(e) && (Size(e) == 0 ==> Stride(e) == 0)
  {
    hide Size;
    if Size(e) == 0 { assert AlignUp(0, Align(e)) == 0; }
  }

  lemma {:induction false} Products(a: nat, b: nat, s: nat)
    requires a <= b
    ensures a * s <= b * s
  {
  }

  lemma {:induction false} OneMore(a: nat, s: nat)
    ensures a * s + s == (a + 1) * s
  {
  }

  /** No smaller multiple of the stride has room for all elements; without an index the size is 0. */
  lemma {:induction false} ArraySizeIsLeast(e: Ty, low: int, high: int, q: nat)
    ensures HoldsAll(e, low, high, Size(Array(e, low, high)))
    ensures HoldsAll(e, low, high, q * Stride(e)) ==> Size(Array(e, low, high)) <= q * Stride(e)
    ensures high < low ==> Size(Array(e, low, high)) == 0
    ensures exists n: nat :: Size(Array(e, low, high)) == n * Stride(e)
  {
    hide Size, Stride;
    ArraySize(e, low, high);
    StrideHolds(e);
    forall i: int | low <= i <= high ensures Holds(e, low, i, Size(Array(e, low, high))) {
      ElementInside(e, low, high, i);
    }
    if high < low {
      assert Size(Array(e, low, high)) == 0 * Stride(e);
    } else {
      var n: nat := high - low + 1;
      assert Size(Array(e, low, high)) == n * Stride(e);
      if HoldsAll(e, low, high, q * Stride(e)) && q < n {
        assert Holds(e, low, high, q * Stride(e));
        Products(q, high - low, Stride(e));
      }
    }
  }

  /** The scalars of the element of index i are among the array's, where that element lies. */
  lemma {:induction false} ElementLeavesAt(e: Ty, low: int, high: int, base: nat, i: int)
    requires low <= i <= high
    ensures var k, m := i - low, |Leaves(e, 0)|;
      && (k + 1) * m <= |Leaves(Array(e, low, high), base)|
      && Leaves(Array(e, low, high), base)[k * m..(k + 1) * m] == Leaves(e, base + k * Stride(e))
  {
    ElementsAt(e, base, high - low + 1, i - low);
  }

  /** And there are no others. */
  lemma {:induction false} ArrayLeavesCount(e: Ty, low: int, high: int, base: nat)
    ensures |Leaves(Array(e, low, high), base)| == (if low <= high then (high - low + 1) * |Leaves(e, 0)| else 0)
  {
    ElementsCount(e, base, if low <= high then high - low + 1 else 0);
  }

  lemma {:induction false} ElementsCount(e: Ty, base: nat, n: nat)
    ensures |ElementLeaves(e, base, n)| == n * |Leaves(e, 0)|
    decreases n
  {
    hide Leaves, Stride;
    if n > 0 {
      LeavesShift(e, 0, base);
      ElementsCount(e, base + Stride(e), n - 1);
      OneMore(n - 1, |Leaves(e, 0)|);
    }
  }

  lemma {:induction false} ElementsAt(e: Ty, base: nat, n: nat, k: nat)
    requires k < n
    ensures var m := |Leaves(e, 0)|;
      && (k + 1) * m <= |ElementLeaves(e, base, n)|
      && ElementLeaves(e, base, n)[k * m..(k + 1) * m] == Leaves(e, base + k * Stride(e))
    decreases n
  {
    hide Leaves, Stride;
    var m, s, first := |Leaves(e, 0)|, Stride(e), Leaves(e, base);
    var rest := ElementLeaves(e, base + s, n - 1);
    LeavesShift(e, 0, base);
    ElementsCount(e, base, n);
    Products(k + 1, n, m);
    assert ElementLeaves(e, base, n) == first + rest && |first| == m;
    if k == 0 {
      assert (first + rest)[0..m] == first;
    } else {
      ElementsAt(e, base + s, n - 1, k - 1);
      OneMore(k - 1, m);
      OneMore(k, m);
      OneMore(k - 1, s);
      Skip(first, rest, (k - 1) * m, k * m);
      assert base + s + (k - 1) * s == base + k * s;
    }
  }

  lemma {:induction false} Skip(a: seq<Leaf>, b: seq<Leaf>, i: nat, j: nat)
    requires i <= j <= |b|
    ensures (a + b)[|a| + i..|a| + j] == b[i..j]
  {
  }
}
