/** Where the parts of a value lie: aligned, apart from each other, inside the value, and no later than needed. */
module LayoutSafety {
  import opened Layout

  // ----- the scalar parts of a value -----

  datatype Leaf = Leaf(offset: nat, size: nat, align: nat)

  /** No variant part anywhere by value. */
  predicate Plain(t: Ty)
    decreases t
  {
    match t
    case Alias(u) => Plain(u)
    case Array(e, _, _) => Plain(e)
    case Record(fs, vs) => vs.NoVariants? && forall i :: 0 <= i < |fs| ==> PlainField(fs[i])
    case Object(fs) => forall i :: 0 <= i < |fs| ==> PlainField(fs[i])
    case _ => true
  }

  predicate PlainField(f: Field)
    decreases f
  {
    Plain(f.typ)
  }

  /** The scalars of a value of type `t` at address `base`, in order; an object begins with its method table pointer. */
  function Leaves(t: Ty, base: nat): seq<Leaf>
    decreases t, 0, 0
  {
    match t
    case Alias(u) => Leaves(u, base)
    case Array(e, low, high) => ElementLeaves(e, base, Count(low, high))
    case Record(fs, _) => FieldLeaves(fs, base, 0)
    case Object(fs) => [Leaf(base, 8, 8)] + FieldLeaves(fs, base, 8)
    case _ => [Leaf(base, Size(t), Align(t))]
  }

  function ElementLeaves(e: Ty, base: nat, n: nat): seq<Leaf>
    decreases e, 1, n
  {
    if n == 0 then [] else Leaves(e, base) + ElementLeaves(e, base + Stride(e), n - 1)
  }

  function FieldLeaves(fs: seq<Field>, base: nat, o: nat): seq<Leaf>
    decreases fs, 0, 0
  {
    if fs == [] then [] else
    var at := AlignUp(o, FieldAlign(fs[0]));
    OneFieldLeaves(fs[0], base + at) + FieldLeaves(fs[1..], base, at + FieldSize(fs[0]))
  }

  function OneFieldLeaves(f: Field, base: nat): seq<Leaf>
    decreases f, 0, 0
  {
    Leaves(f.typ, base)
  }

  /** Aligned, between `lo` and `hi`, and each ending before any later one begins. */
  predicate Packed(ls: seq<Leaf>, lo: nat, hi: nat) {
    && (forall i :: 0 <= i < |ls| ==> IsAlign(ls[i].align) && Aligned(ls[i].offset, ls[i].align))
    && (forall i :: 0 <= i < |ls| ==> lo <= ls[i].offset && ls[i].offset + ls[i].size <= hi)
    && (forall i, j :: 0 <= i < j < |ls| ==> ls[i].offset + ls[i].size <= ls[j].offset)
  }

  lemma {:induction false} PackedAppend(a: seq<Leaf>, b: seq<Leaf>, lo: nat, end: nat, start: nat, hi: nat)
    requires Packed(a, lo, end) && Packed(b, start, hi) && lo <= start && end <= start && end <= hi
    ensures Packed(a + b, lo, hi)
  {
    hide Aligned;
    var c := a + b;
    forall i | 0 <= i < |c|
      ensures IsAlign(c[i].align) && Aligned(c[i].offset, c[i].align)
      ensures lo <= c[i].offset && c[i].offset + c[i].size <= hi {
      assert c[i] == if i < |a| then a[i] else b[i - |a|];
    }
    forall i, j | 0 <= i < j < |c| ensures c[i].offset + c[i].size <= c[j].offset {
      assert c[i] == if i < |a| then a[i] else b[i - |a|];
      assert c[j] == if j < |a| then a[j] else b[j - |a|];
    }
  }

  /** Each field's alignment is within the record's. */
  lemma {:induction false} FieldsAlignCovers(fs: seq<Field>, a: nat, i: nat)
    requires IsAlign(a) && i < |fs|
    ensures FieldAlign(fs[i]) <= FieldsAlign(fs, a)
    decreases |fs|
  {
    hide FieldAlign;
    if i > 0 {
      FieldsAlignCovers(fs[1..], Max(a, FieldAlign(fs[0])), i - 1);
    }
  }

  lemma {:induction false} AllCovered(fs: seq<Field>, a: nat)
    requires IsAlign(a)
    ensures forall i :: 0 <= i < |fs| ==> FieldAlign(fs[i]) <= FieldsAlign(fs, a)
  {
    forall i | 0 <= i < |fs| ensures FieldAlign(fs[i]) <= FieldsAlign(fs, a) {
      FieldsAlignCovers(fs, a, i);
    }
  }

  /** Every scalar of an aligned variant-free value is aligned, they are pairwise disjoint, and they lie inside it. */
  lemma {:induction false} LeavesArePacked(t: Ty, base: nat)
    requires Plain(t) && Aligned(base, Align(t))
    ensures Packed(Leaves(t, base), base, base + Size(t))
    decreases t, 2, 0
  {
    hide Aligned, Packed, FieldsEnd, FieldsAlign, FieldLeaves, ElementLeaves, Stride, AlignUp;
    match t {
      case Alias(u) => LeavesArePacked(u, base);
      case Array(e, low, high) => ElementsArePacked(e, base, Count(low, high));
      case Record(fs, _) =>
        AllCovered(fs, 1);
        FieldsArePacked(fs, base, 0, FieldsAlign(fs, 1));
        PackedWiden(FieldLeaves(fs, base, 0), base, base + FieldsEnd(fs, 0), base + Size(t));
      case Object(fs) =>
        AllCovered(fs, 8);
        FieldsArePacked(fs, base, 8, FieldsAlign(fs, 8));
        TableFirst(fs, base, base + Size(t));
      case _ => OneIsPacked(Leaf(base, Size(t), Align(t)));
    }
  }

  lemma {:induction false} OneIsPacked(l: Leaf)
    requires IsAlign(l.align) && Aligned(l.offset, l.align)
    ensures Packed([l], l.offset, l.offset + l.size)
  {
  }

  lemma {:induction false} PackedWiden(ls: seq<Leaf>, lo: nat, hi: nat, more: nat)
    requires Packed(ls, lo, hi) && hi <= more
    ensures Packed(ls, lo, more)
  {
  }

  lemma {:induction false} TableFirst(fs: seq<Field>, base: nat, hi: nat)
    requires Aligned(base, FieldsAlign(fs, 8)) && base + FieldsEnd(fs, 8) <= hi
    requires Packed(FieldLeaves(fs, base, 8), base + 8, base + FieldsEnd(fs, 8))
    ensures Packed([Leaf(base, 8, 8)] + FieldLeaves(fs, base, 8), base, hi)
  {
    hide Aligned, FieldsAlign, FieldsEnd, FieldLeaves, Packed;
    AlignedForParts(base, FieldsAlign(fs, 8), 8);
    OneIsPacked(Leaf(base, 8, 8));
    PackedAppend([Leaf(base, 8, 8)], FieldLeaves(fs, base, 8), base, base + 8, base + 8, base + FieldsEnd(fs, 8));
    PackedWiden([Leaf(base, 8, 8)] + FieldLeaves(fs, base, 8), base, base + FieldsEnd(fs, 8), hi);
  }

  lemma {:induction false} ElementsArePacked(e: Ty, base: nat, n: nat)
    requires Plain(e) && Aligned(base, Align(e))
    ensures Packed(ElementLeaves(e, base, n), base, base + Extent(n, Stride(e)))
    decreases e, 3, n
  {
    hide *;
    FirstElement(e, base, n);
    if n == 0 {
      NonePacked(base);
    } else {
      var next := base + Stride(e);
      LeavesArePacked(e, base);
      AddAligned(base, Stride(e), Align(e));
      ElementsArePacked(e, next, n - 1);
      PackedAppend(Leaves(e, base), ElementLeaves(e, next, n - 1), base, base + Size(e), next,
          base + Extent(n, Stride(e)));
    }
  }

  function Extent(n: nat, stride: nat): nat {
    n * stride
  }

  lemma {:induction false} NonePacked(base: nat)
    ensures Packed([], base, base)
  {
  }

  lemma {:induction false} FirstElement(e: Ty, base: nat, n: nat)
    ensures n == 0 ==> ElementLeaves(e, base, n) == [] && Extent(n, Stride(e)) == 0
    ensures n > 0 ==> ElementLeaves(e, base, n) == Leaves(e, base) + ElementLeaves(e, base + Stride(e), n - 1)
    ensures n > 0 ==> Extent(n, Stride(e)) == Stride(e) + Extent(n - 1, Stride(e))
  {
    hide Leaves, Stride;
  }

  lemma {:induction false} FieldsArePacked(fs: seq<Field>, base: nat, o: nat, a: nat)
    requires forall i :: 0 <= i < |fs| ==> PlainField(fs[i]) && FieldAlign(fs[i]) <= a
    requires IsAlign(a) && Aligned(base, a)
    ensures Packed(FieldLeaves(fs, base, o), base + o, base + FieldsEnd(fs, o))
    decreases fs, 2, 0
  {
    hide Aligned, Packed, AlignUp, OneFieldLeaves, FieldSize, FieldAlign, PlainField;
    if fs == [] {
      NonePacked(base + o);
    } else {
      var f := fs[0];
      var at := AlignUp(o, FieldAlign(f));
      var end := at + FieldSize(f);
      AlignedForParts(base, a, FieldAlign(f));
      AddAligned(base, at, FieldAlign(f));
      FieldIsPacked(f, base + at);
      FieldsArePacked(fs[1..], base, end, a);
      PackedAppend(OneFieldLeaves(f, base + at), FieldLeaves(fs[1..], base, end), base + at, base + end, base + end,
          base + FieldsEnd(fs, o));
      LowerStart(FieldLeaves(fs, base, o), base + o, base + at, base + FieldsEnd(fs, o));
    }
  }

  lemma {:induction false} LowerStart(ls: seq<Leaf>, less: nat, lo: nat, hi: nat)
    requires Packed(ls, lo, hi) && less <= lo
    ensures Packed(ls, less, hi)
  {
  }

  lemma {:induction false} FieldIsPacked(f: Field, base: nat)
    requires PlainField(f) && Aligned(base, FieldAlign(f))
    ensures Packed(OneFieldLeaves(f, base), base, base + FieldSize(f))
    decreases f, 3, 0
  {
    LeavesArePacked(f.typ, base);
  }

  // ----- field offsets -----

  /** The offset of each fixed field. */
  function Offsets(fs: seq<Field>, o: nat): (r: seq<nat>)
    ensures |r| == |fs|
  {
    if fs == [] then [] else
    var at := AlignUp(o, FieldAlign(fs[0]));
    [at] + Offsets(fs[1..], at + FieldSize(fs[0]))
  }

  /** Offsets that keep the order of the fields, align each and let none overlap, from `o` on. */
  predicate Feasible(fs: seq<Field>, o: nat, at: seq<nat>) {
    && |at| == |fs|
    && (forall i :: 0 <= i < |fs| ==> Aligned(at[i], FieldAlign(fs[i])))
    && (|at| > 0 ==> o <= at[0])
    && (forall i :: 0 <= i < |fs| - 1 ==> at[i] + FieldSize(fs[i]) <= at[i + 1])
  }

  /** The offsets chosen are feasible and the least: no feasible layout puts any field, or the end, earlier. */
  lemma {:induction false} OffsetsAreLeast(fs: seq<Field>, o: nat, at: seq<nat>, i: nat)
    requires Feasible(fs, o, at) && i < |fs|
    ensures Offsets(fs, o)[i] <= at[i]
    ensures FieldsEnd(fs, o) <= at[|fs| - 1] + FieldSize(fs[|fs| - 1])
    decreases |fs|
  {
    hide Aligned, FieldAlign, FieldSize, AlignUp;
    var first := AlignUp(o, FieldAlign(fs[0]));
    AlignUpIsLeast(o, FieldAlign(fs[0]), at[0]);
    if |fs| > 1 {
      var rest, more := fs[1..], at[1..];
      var end := first + FieldSize(fs[0]);
      assert more[0] == at[1];
      forall k | 0 <= k < |rest| - 1 ensures more[k] + FieldSize(rest[k]) <= more[k + 1] {
        assert rest[k] == fs[k + 1] && more[k] == at[k + 1] && more[k + 1] == at[k + 2];
      }
      OffsetsAreLeast(rest, end, more, if i == 0 then 0 else i - 1);
    } else {
      assert fs[1..] == [];
    }
  }

  lemma {:induction false} OffsetsAreFeasible(fs: seq<Field>, o: nat)
    ensures Feasible(fs, o, Offsets(fs, o))
    decreases |fs|
  {
    hide Aligned, FieldAlign, FieldSize, AlignUp;
    if fs != [] {
      var end := AlignUp(o, FieldAlign(fs[0])) + FieldSize(fs[0]);
      var rest, r := Offsets(fs[1..], end), Offsets(fs, o);
      OffsetsAreFeasible(fs[1..], end);
      forall i | 0 < i < |fs| ensures Aligned(r[i], FieldAlign(fs[i])) {
        assert r[i] == rest[i - 1] && fs[i] == fs[1..][i - 1];
      }
      forall i | 0 <= i < |fs| - 1 ensures r[i] + FieldSize(fs[i]) <= r[i + 1] {
        assert r[i + 1] == rest[i];
        if i > 0 { assert r[i] == rest[i - 1] && fs[i] == fs[1..][i - 1]; }
      }
    }
  }

  // ----- the alignment of a variant record -----

  /** The alignment that pads a record. */
  function PaddedTo(t: Ty): (a: nat)
    requires t.Record?
    ensures IsAlign(a)
  {
    if t.variants.NoVariants? then FieldsAlign(t.fields, 1) else VariantsAlign(t.variants, FieldsAlign(t.fields, 1))
  }
}
