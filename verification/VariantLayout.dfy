/**
 Variant records: where the tag and the cases lie, and when the alignment that
 is reported for the record, which looks at the fixed fields only
 (src/target.rs:412-418), is enough for them.
 */
module VariantLayout {
  import opened Wrappers
  import opened Layout
  import opened LayoutSafety

  // ----- values at other addresses -----

  /** The same parts, `d` bytes further on. */
  predicate Shifted(ls: seq<Leaf>, more: seq<Leaf>, d: nat) {
    |more| == |ls| && forall i :: 0 <= i < |ls| ==> more[i] == ls[i].(offset := ls[i].offset + d)
  }

  lemma {:induction false} ShiftedAppend(a: seq<Leaf>, a': seq<Leaf>, b: seq<Leaf>, b': seq<Leaf>, d: nat)
    requires Shifted(a, a', d) && Shifted(b, b', d)
    ensures Shifted(a + b, a' + b', d)
  {
  }

  lemma {:induction false} LeavesShift(t: Ty, base: nat, d: nat)
    ensures Shifted(Leaves(t, base), Leaves(t, base + d), d)
    decreases t, 2, 0
  {
    hide FieldLeaves, ElementLeaves, Size, Align;
    match t {
      case Alias(u) => LeavesShift(u, base, d);
      case Array(e, low, high) => ElementsShift(e, base, d, Count(low, high));
      case Record(fs, _) => FieldsShift(fs, base, d, 0);
      case Object(fs) =>
        FieldsShift(fs, base, d, 8);
        ShiftedAppend([Leaf(base, 8, 8)], [Leaf(base + d, 8, 8)], FieldLeaves(fs, base, 8),
            FieldLeaves(fs, base + d, 8), d);
      case _ =>
    }
  }

  lemma {:induction false} ElementsShift(e: Ty, base: nat, d: nat, n: nat)
    ensures Shifted(ElementLeaves(e, base, n), ElementLeaves(e, base + d, n), d)
    decreases e, 3, n
  {
    hide Leaves, Stride, Shifted;
    if n == 0 {
      NoneShifted(d);
    } else {
      var next := base + Stride(e);
      LeavesShift(e, base, d);
      ElementsShift(e, next, d, n - 1);
      assert base + d + Stride(e) == next + d;
      ShiftedAppend(Leaves(e, base), Leaves(e, base + d), ElementLeaves(e, next, n - 1),
          ElementLeaves(e, next + d, n - 1), d);
    }
  }

  lemma {:induction false} NoneShifted(d: nat)
    ensures Shifted([], [], d)
  {
  }

  lemma {:induction false} FieldsShift(fs: seq<Field>, base: nat, d: nat, o: nat)
    ensures Shifted(FieldLeaves(fs, base, o), FieldLeaves(fs, base + d, o), d)
    decreases fs, 2, 0
  {
    hide OneFieldLeaves, FieldAlign, FieldSize, AlignUp, Shifted;
    if fs == [] {
      NoneShifted(d);
    } else {
      var at := AlignUp(o, FieldAlign(fs[0]));
      var end := at + FieldSize(fs[0]);
      OneFieldShift(fs[0], base + at, d);
      FieldsShift(fs[1..], base, d, end);
      assert base + d + at == base + at + d;
      ShiftedAppend(OneFieldLeaves(fs[0], base + at), OneFieldLeaves(fs[0], base + at + d),
                    FieldLeaves(fs[1..], base, end), FieldLeaves(fs[1..], base + d, end), d);
    }
  }

  lemma {:induction false} OneFieldShift(f: Field, base: nat, d: nat)
    ensures Shifted(OneFieldLeaves(f, base), OneFieldLeaves(f, base + d), d)
    decreases f, 3, 0
  {
    LeavesShift(f.typ, base, d);
  }

  // ----- the parts of a variant record -----

  function TagOffset(t: Ty): nat
    requires t.Record? && t.variants.Variants?
  {
    AlignUp(FieldsEnd(t.fields, 0), Align(t.variants.tagType))
  }

  function UnionOffset(t: Ty): nat
    requires t.Record? && t.variants.Variants?
  {
    AlignUp(TagOffset(t) + Size(t.variants.tagType), UnionAlign(t.variants.cases, 1))
  }

  function CaseFields(t: Ty, k: nat): seq<Field>
    requires t.Record? && t.variants.Variants?
  {
    if k < |t.variants.cases| then t.variants.cases[k].fields else []
  }

  /** The scalars of a value at `base` whose tag selects case k: fixed fields, tag, case. */
  function Parts(t: Ty, base: nat, k: nat): seq<Leaf>
    requires t.Record? && t.variants.Variants?
  {
    FieldLeaves(t.fields, base, 0)
    + Leaves(t.variants.tagType, base + TagOffset(t))
    + FieldLeaves(CaseFields(t, k), base + UnionOffset(t), 0)
  }

  /** The record's own variant part is the only one. */
  predicate OneVariant(t: Ty) {
    && t.Record? && t.variants.Variants? && Plain(t.variants.tagType)
    && (forall i :: 0 <= i < |t.fields| ==> PlainField(t.fields[i]))
    && forall k, i :: 0 <= k < |t.variants.cases| && 0 <= i < |t.variants.cases[k].fields| ==>
      PlainField(t.variants.cases[k].fields[i])
  }

  lemma {:induction false} UnionCovers(cs: seq<Case>, n: nat, a: nat, k: nat)
    requires IsAlign(a) && k < |cs|
    ensures CaseSize(cs[k]) <= UnionSize(cs, n) && CaseAlign(cs[k]) <= UnionAlign(cs, a)
    decreases |cs|
  {
    hide CaseSize, CaseAlign;
    UnionGrows(cs[1..], Max(n, CaseSize(cs[0])));
    if k > 0 { UnionCovers(cs[1..], Max(n, CaseSize(cs[0])), Max(a, CaseAlign(cs[0])), k - 1); }
  }

  lemma {:induction false} UnionGrows(cs: seq<Case>, n: nat)
    ensures UnionSize(cs, n) >= n
    decreases |cs|
  {
    hide CaseSize;
    if cs != [] { UnionGrows(cs[1..], Max(n, CaseSize(cs[0]))); }
  }

  /**
     At an address aligned for all of it, the value's parts are aligned, disjoint and inside its
     size, whichever case it holds.
   */
  lemma {:induction false} PartsArePacked(t: Ty, k: nat)
    requires OneVariant(t)
    ensures Packed(Parts(t, 0, k), 0, Size(t))
  {
    hide Packed, FieldsEnd, FieldsAlign, FieldLeaves, AlignUp, Leaves, UnionSize, UnionAlign, Aligned;
    var fs, vs, cf := t.fields, t.variants, CaseFields(t, k);
    var tagAt, at := TagOffset(t), UnionOffset(t);
    AllCovered(fs, 1);
    ZeroAligned(FieldsAlign(fs, 1));
    FieldsArePacked(fs, 0, 0, FieldsAlign(fs, 1));
    LeavesArePacked(vs.tagType, tagAt);
    var fixed, tag := FieldLeaves(fs, 0, 0), Leaves(vs.tagType, tagAt);
    PackedAppend(fixed, tag, 0, FieldsEnd(fs, 0), tagAt, tagAt + Size(vs.tagType));
    CaseIsPacked(t, k);
    SizeCovers(t);
    PackedAppend(fixed + tag, FieldLeaves(cf, at, 0), 0, tagAt + Size(vs.tagType), at, Size(t));
  }

  lemma {:induction false} ZeroAligned(a: nat)
    requires IsAlign(a)
    ensures Aligned(0, a)
  {
  }

  lemma {:induction false} SizeCovers(t: Ty)
    requires t.Record? && t.variants.Variants?
    ensures UnionOffset(t) + UnionSize(t.variants.cases, 0) <= Size(t)
  {
    hide AlignUp, FieldsEnd, UnionSize, UnionAlign, FieldsAlign;
  }

  lemma {:induction false} CaseIsPacked(t: Ty, k: nat)
    requires OneVariant(t)
    ensures Packed(FieldLeaves(CaseFields(t, k), UnionOffset(t), 0), UnionOffset(t), Size(t))
  {
    hide Packed, FieldsEnd, FieldsAlign, FieldLeaves, AlignUp, UnionSize, UnionAlign, Aligned, Size;
    var cs, cf, at := t.variants.cases, CaseFields(t, k), UnionOffset(t);
    SizeCovers(t);
    if k < |cs| {
      UnionCovers(cs, 0, 1, k);
      AllCovered(cf, 1);
      FieldsArePacked(cf, at, 0, UnionAlign(cs, 1));
      PackedWiden(FieldLeaves(cf, at, 0), at, at + FieldsEnd(cf, 0), Size(t));
    } else {
      NoFields(at);
      UnionGrows(cs, 0);
      NonePacked(at);
      PackedWiden([], at, at, Size(t));
    }
  }

  lemma {:induction false} NoFields(base: nat)
    ensures FieldLeaves([], base, 0) == []
  {
  }

  lemma {:induction false} PartsShift(t: Ty, base: nat, k: nat)
    requires t.Record? && t.variants.Variants?
    ensures Shifted(Parts(t, 0, k), Parts(t, base, k), base)
  {
    hide FieldLeaves, Leaves, Shifted, TagOffset, UnionOffset;
    var tag, tagAt, at, cf := t.variants.tagType, TagOffset(t), UnionOffset(t), CaseFields(t, k);
    FieldsShift(t.fields, 0, base, 0);
    LeavesShift(tag, tagAt, base);
    FieldsShift(cf, at, base, 0);
    ShiftedAppend(FieldLeaves(t.fields, 0, 0), FieldLeaves(t.fields, base, 0), Leaves(tag, tagAt),
        Leaves(tag, base + tagAt), base);
    ShiftedAppend(FieldLeaves(t.fields, 0, 0) + Leaves(tag, tagAt),
      FieldLeaves(t.fields, base, 0) + Leaves(tag, base + tagAt),
                  FieldLeaves(cf, at, 0), FieldLeaves(cf, base + at, 0), base);
  }

  // ----- exactly when the reported alignment is enough -----

  /** Wherever the reported alignment allows the value to be put, its parts are aligned, disjoint and inside it. */
  ghost predicate AlwaysPacked(t: Ty)
    requires t.Record? && t.variants.Variants?
  {
    forall base: nat, k: nat :: Aligned(base, Align(t)) ==> Packed(Parts(t, base, k), base, base + Size(t))
  }

  /** No scalar of the fixed fields, the tag or a case needs more than the reported alignment. */
  predicate PartsNeed(t: Ty, k: nat, a: nat)
    requires t.Record? && t.variants.Variants?
  {
    forall i :: 0 <= i < |Parts(t, 0, k)| ==> Parts(t, 0, k)[i].align <= a
  }

  /**
     The value is laid out safely wherever its reported alignment allows if and only if no scalar of
     any case needs more.
   */
  lemma {:induction false} VariantAlignIff(t: Ty)
    requires OneVariant(t)
    ensures AlwaysPacked(t) <==> forall k: nat :: PartsNeed(t, k, Align(t))
  {
    assert t.Record? && t.variants.Variants?;
    hide Packed, Parts, Aligned, Align, Size, OneVariant, PartsNeed;
    if forall k: nat :: PartsNeed(t, k, Align(t)) {
      forall base: nat, k: nat | Aligned(base, Align(t)) ensures Packed(Parts(t, base, k), base, base + Size(t)) {
        EnoughFor(t, base, k);
      }
    }
    if AlwaysPacked(t) {
      SelfAligned(Align(t));
      forall k: nat ensures PartsNeed(t, k, Align(t)) {
        assert Packed(Parts(t, Align(t), k), Align(t), Align(t) + Size(t));
        NoMoreFor(t, k);
      }
    }
  }

  lemma {:induction false} EnoughFor(t: Ty, base: nat, k: nat)
    requires OneVariant(t) && PartsNeed(t, k, Align(t)) && Aligned(base, Align(t))
    ensures Packed(Parts(t, base, k), base, base + Size(t))
  {
    hide Packed, Parts, Aligned, Align, Size;
    PartsArePacked(t, k);
    PartsShift(t, base, k);
    PackedShift(Parts(t, 0, k), Parts(t, base, k), base, Size(t), Align(t));
  }

  lemma {:induction false} NoMoreFor(t: Ty, k: nat)
    requires OneVariant(t) && Packed(Parts(t, Align(t), k), Align(t), Align(t) + Size(t))
    ensures PartsNeed(t, k, Align(t))
  {
    hide Packed, Parts, Align, Size;
    PartsArePacked(t, k);
    PartsShift(t, Align(t), k);
    NeedsLittle(Parts(t, 0, k), Parts(t, Align(t), k), Align(t), Size(t));
  }

  lemma {:induction false} SelfAligned(a: nat)
    requires IsAlign(a)
    ensures Aligned(a, a)
  {
  }

  lemma {:induction false} PackedShift(ls: seq<Leaf>, more: seq<Leaf>, base: nat, hi: nat, a: nat)
    requires Packed(ls, 0, hi) && Shifted(ls, more, base) && IsAlign(a) && Aligned(base, a)
    requires forall i :: 0 <= i < |ls| ==> ls[i].align <= a
    ensures Packed(more, base, base + hi)
  {
    hide Aligned;
    forall i | 0 <= i < |more| ensures IsAlign(more[i].align) && Aligned(more[i].offset, more[i].align) {
      AlignedForParts(base, a, ls[i].align);
      AddAligned(ls[i].offset, base, ls[i].align);
    }
  }

  /** If the parts are aligned at address 0 and at address `a`, none needs more than `a`. */
  lemma {:induction false} NeedsLittle(ls: seq<Leaf>, more: seq<Leaf>, a: nat, hi: nat)
    requires IsAlign(a) && Packed(ls, 0, hi) && Packed(more, a, a + hi) && Shifted(ls, more, a)
    ensures forall i :: 0 <= i < |ls| ==> ls[i].align <= a
  {
    hide Aligned;
    forall i | 0 <= i < |ls| ensures ls[i].align <= a {
      assert Aligned(more[i].offset, more[i].align);
      DifferenceAligned(ls[i].offset, a, ls[i].align);
    }
  }

  lemma {:induction false} DifferenceAligned(o: nat, a: nat, b: nat)
    requires IsAlign(a) && IsAlign(b) && Aligned(o, b) && Aligned(o + a, b)
    ensures b <= a
  {
    match b {
      case 1 =>
      case 2 => var q, p := o / 2, (o + a) / 2; assert a == 2 * (p - q);
      case 4 => var q, p := o / 4, (o + a) / 4; assert a == 4 * (p - q);
      case _ => var q, p := o / 8, (o + a) / 8; assert a == 8 * (p - q);
    }
  }

  // ----- in terms of the types -----

  /** Every array has an element, so that a type's alignment comes from some scalar of it. */
  predicate Solid(t: Ty)
    decreases t
  {
    match t
    case Alias(u) => Solid(u)
    case Array(e, low, high) => Count(low, high) > 0 && Solid(e)
    case Record(fs, _) => forall i :: 0 <= i < |fs| ==> SolidField(fs[i])
    case Object(fs) => forall i :: 0 <= i < |fs| ==> SolidField(fs[i])
    case _ => true
  }

  predicate SolidField(f: Field)
    decreases f
  {
    Solid(f.typ)
  }

  ghost predicate HasAlign(ls: seq<Leaf>, a: nat) {
    a == 1 || exists i :: 0 <= i < |ls| && ls[i].align == a
  }

  lemma {:induction false} HasAlignMore(x: seq<Leaf>, ls: seq<Leaf>, y: seq<Leaf>, a: nat)
    requires HasAlign(ls, a)
    ensures HasAlign(x + ls + y, a)
  {
    if a != 1 {
      var i :| 0 <= i < |ls| && ls[i].align == a;
      assert (x + ls + y)[|x| + i] == ls[i];
    }
  }

  lemma {:induction false} TypeHasAlign(t: Ty, base: nat)
    requires Solid(t)
    ensures HasAlign(Leaves(t, base), Align(t))
    decreases t, 2
  {
    hide FieldLeaves, FieldsAlign, HasAlign;
    match t {
      case Alias(u) => TypeHasAlign(u, base);
      case Array(e, low, high) =>
        TypeHasAlign(e, base);
        var rest := ElementLeaves(e, base + Stride(e), Count(low, high) - 1);
        HasAlignMore([], Leaves(e, base), rest, Align(e));
        assert [] + Leaves(e, base) + rest == Leaves(t, base);
      case Record(fs, _) =>
        FieldsHaveAlign(fs, base, 0, 1);
        OneIsFree(FieldLeaves(fs, base, 0));
      case Object(fs) =>
        FieldsHaveAlign(fs, base, 8, 8);
        TableHasAlign(fs, base);
      case _ => OneHasAlign(Leaf(base, Size(t), Align(t)));
    }
  }

  lemma {:induction false} OneIsFree(ls: seq<Leaf>)
    ensures HasAlign(ls, 1)
  {
  }

  lemma {:induction false} OneHasAlign(l: Leaf)
    ensures HasAlign([l], l.align)
  {
    assert [l][0].align == l.align;
  }

  lemma {:induction false} TableHasAlign(fs: seq<Field>, base: nat)
    requires FieldsAlign(fs, 8) == 8 || HasAlign(FieldLeaves(fs, base, 8), FieldsAlign(fs, 8))
    ensures HasAlign([Leaf(base, 8, 8)] + FieldLeaves(fs, base, 8), FieldsAlign(fs, 8))
  {
    hide FieldLeaves, FieldsAlign;
    var l := Leaf(base, 8, 8);
    if FieldsAlign(fs, 8) == 8 {
      assert ([l] + FieldLeaves(fs, base, 8))[0] == l;
    } else {
      HasAlignMore([l], FieldLeaves(fs, base, 8), [], FieldsAlign(fs, 8));
      assert [l] + FieldLeaves(fs, base, 8) + [] == [l] + FieldLeaves(fs, base, 8);
    }
  }

  lemma {:induction false} FieldsHaveAlign(fs: seq<Field>, base: nat, o: nat, a: nat)
    requires IsAlign(a) && forall i :: 0 <= i < |fs| ==> SolidField(fs[i])
    ensures FieldsAlign(fs, a) == a || HasAlign(FieldLeaves(fs, base, o), FieldsAlign(fs, a))
    decreases fs, 2
  {
    hide FieldAlign, FieldSize, AlignUp, OneFieldLeaves, SolidField, HasAlign;
    if fs != [] {
      var f := fs[0];
      var at := AlignUp(o, FieldAlign(f));
      var first, rest := OneFieldLeaves(f, base + at), FieldLeaves(fs[1..], base, at + FieldSize(f));
      var b := Max(a, FieldAlign(f));
      FieldHasAlign(f, base + at);
      FieldsHaveAlign(fs[1..], base, at + FieldSize(f), b);
      HasAlignMore([], first, rest, FieldAlign(f));
      assert [] + first + rest == first + rest;
      if HasAlign(rest, FieldsAlign(fs, a)) {
        HasAlignMore(first, rest, [], FieldsAlign(fs, a));
        assert first + rest + [] == first + rest;
      }
    }
  }

  lemma {:induction false} FieldHasAlign(f: Field, base: nat)
    requires SolidField(f)
    ensures HasAlign(OneFieldLeaves(f, base), FieldAlign(f))
    decreases f, 3
  {
    TypeHasAlign(f.typ, base);
  }

  predicate SolidVariant(t: Ty) {
    && t.Record? && t.variants.Variants? && Solid(t.variants.tagType)
    && forall k, i :: 0 <= k < |t.variants.cases| && 0 <= i < |t.variants.cases[k].fields| ==>
      SolidField(t.variants.cases[k].fields[i])
  }

  /** Without empty arrays: exactly when neither the tag nor the union of the cases needs more than the fixed fields. */
  lemma {:induction false} VariantTypesIff(t: Ty)
    requires OneVariant(t) && SolidVariant(t)
    ensures AlwaysPacked(t) <==> Align(t.variants.tagType) <= Align(t) && UnionAlign(t.variants.cases, 1) <= Align(t)
  {
    assert t.Record? && t.variants.Variants?;
    hide OneVariant, AlwaysPacked, Align, Parts, UnionAlign, SolidVariant;
    VariantAlignIff(t);
    var vs, a := t.variants, Align(t);
    if forall k: nat :: PartsNeed(t, k, a) {
      TagNeeds(t, a);
      CasesNeed(t, a);
    }
    if Align(vs.tagType) <= a && UnionAlign(vs.cases, 1) <= a {
      forall k: nat ensures PartsNeed(t, k, a) { LittleNeeded(t, k, a); }
    }
  }

  lemma {:induction false} TagNeeds(t: Ty, a: nat)
    requires SolidVariant(t) && PartsNeed(t, 0, a) && a >= 1
    ensures Align(t.variants.tagType) <= a
  {
    hide FieldLeaves, Leaves, Align, TagOffset, UnionOffset;
    var tag := t.variants.tagType;
    var x, ls := FieldLeaves(t.fields, 0, 0), Leaves(tag, 0 + TagOffset(t));
    var y := FieldLeaves(CaseFields(t, 0), 0 + UnionOffset(t), 0);
    TypeHasAlign(tag, 0 + TagOffset(t));
    HasAlignMore(x, ls, y, Align(tag));
    assert Parts(t, 0, 0) == x + ls + y;
  }

  lemma {:induction false} CasesNeed(t: Ty, a: nat)
    requires SolidVariant(t) && IsAlign(a) && forall k: nat :: PartsNeed(t, k, a)
    ensures UnionAlign(t.variants.cases, 1) <= a
  {
    assert t.Record? && t.variants.Variants?;
    hide PartsNeed, SolidVariant, CaseAlign;
    var cs := t.variants.cases;
    forall k | 0 <= k < |cs| ensures CaseAlign(cs[k]) <= a { CaseNeeds(t, k, a); }
    UnionIsLeast(cs, 1, a);
  }

  lemma {:induction false} UnionIsLeast(cs: seq<Case>, b: nat, a: nat)
    requires IsAlign(a) && IsAlign(b) && b <= a && forall k :: 0 <= k < |cs| ==> CaseAlign(cs[k]) <= a
    ensures UnionAlign(cs, b) <= a
    decreases |cs|
  {
    hide CaseAlign;
    if cs != [] { UnionIsLeast(cs[1..], Max(b, CaseAlign(cs[0])), a); }
  }

  lemma {:induction false} CaseNeeds(t: Ty, k: nat, a: nat)
    requires SolidVariant(t) && PartsNeed(t, k, a) && a >= 1 && k < |t.variants.cases|
    ensures CaseAlign(t.variants.cases[k]) <= a
  {
    hide FieldLeaves, Leaves, FieldsAlign, TagOffset, UnionOffset;
    var cf := CaseFields(t, k);
    var before := FieldLeaves(t.fields, 0, 0) + Leaves(t.variants.tagType, 0 + TagOffset(t));
    var mine := FieldLeaves(cf, 0 + UnionOffset(t), 0);
    FieldsHaveAlign(cf, 0 + UnionOffset(t), 0, 1);
    HasAlignMore(before, mine, [], FieldsAlign(cf, 1));
    assert before + mine + [] == Parts(t, 0, k);
  }

  /** No scalar of a type needs more than the type. */
  lemma {:induction false} LeafAligns(t: Ty, base: nat)
    ensures forall i :: 0 <= i < |Leaves(t, base)| ==> Leaves(t, base)[i].align <= Align(t)
    decreases t, 2, 0
  {
    hide FieldLeaves, ElementLeaves, FieldsAlign;
    match t {
      case Alias(u) => LeafAligns(u, base);
      case Array(e, low, high) => ElementAligns(e, base, Count(low, high));
      case Record(fs, _) => FieldLeafAligns(fs, base, 0, 1);
      case Object(fs) => FieldLeafAligns(fs, base, 8, 8);
      case _ =>
    }
  }

  lemma {:induction false} ElementAligns(e: Ty, base: nat, n: nat)
    ensures forall i :: 0 <= i < |ElementLeaves(e, base, n)| ==> ElementLeaves(e, base, n)[i].align <= Align(e)
    decreases e, 3, n
  {
    hide Leaves, Stride, Align;
    if n > 0 {
      LeafAligns(e, base);
      ElementAligns(e, base + Stride(e), n - 1);
    }
  }

  lemma {:induction false} FieldLeafAligns(fs: seq<Field>, base: nat, o: nat, a: nat)
    requires IsAlign(a)
    ensures forall i :: 0 <= i < |FieldLeaves(fs, base, o)| ==> FieldLeaves(fs, base, o)[i].align <= FieldsAlign(fs, a)
    decreases fs, 2, 0
  {
    hide OneFieldLeaves, FieldAlign, FieldSize, AlignUp;
    if fs != [] {
      var at := AlignUp(o, FieldAlign(fs[0]));
      OneFieldAligns(fs[0], base + at);
      FieldLeafAligns(fs[1..], base, at + FieldSize(fs[0]), Max(a, FieldAlign(fs[0])));
      FieldsAlignCovers(fs, a, 0);
    }
  }

  lemma {:induction false} OneFieldAligns(f: Field, base: nat)
    ensures forall i :: 0 <= i < |OneFieldLeaves(f, base)| ==> OneFieldLeaves(f, base)[i].align <= FieldAlign(f)
    decreases f, 3, 0
  {
    LeafAligns(f.typ, base);
  }

  lemma {:induction false} LittleNeeded(t: Ty, k: nat, a: nat)
    requires t.Record? && t.variants.Variants? && a == Align(t)
    requires Align(t.variants.tagType) <= a && UnionAlign(t.variants.cases, 1) <= a
    ensures PartsNeed(t, k, a)
  {
    hide FieldLeaves, Leaves, FieldsAlign, TagOffset, UnionOffset, UnionAlign;
    var cf := CaseFields(t, k);
    FieldLeafAligns(t.fields, 0, 0, 1);
    LeafAligns(t.variants.tagType, 0 + TagOffset(t));
    FieldLeafAligns(cf, 0 + UnionOffset(t), 0, 1);
    if k < |t.variants.cases| { UnionCovers(t.variants.cases, 0, 1, k); } else { NoFields(0 + UnionOffset(t)); }
  }

  // ----- a record that is not -----

  /** An INTEGER tag and a case with a LONGINT: reported alignment 1. */
  function Tagged(): Ty {
    Record([], Variants(None, Prim(INTEGER), [Case([Field("x", Prim(LONGINT))])]))
  }

  /** After a CHAR it is placed at offset 1, and its LONGINT lands at absolute offset 9. */
  lemma {:induction false} LongintAtNine()
    ensures Offsets([Field("a", Prim(CHAR)), Field("v", Tagged())], 0) == [0, 1]
    ensures Leaf(9, 8, 8) in Parts(Tagged(), 1, 0) && !Aligned(9, 8)
    ensures OneVariant(Tagged()) && !AlwaysPacked(Tagged())
  {
    assert OneVariant(Tagged());
    hide Parts, Tagged, Size, OneVariant;
    TaggedAligns();
    TaggedParts();
    TaggedOffsets();
    NineIsOdd(Parts(Tagged(), 1, 0), 1, 1 + Size(Tagged()));
  }

  lemma {:induction false} NineIsOdd(ls: seq<Leaf>, lo: nat, hi: nat)
    requires Leaf(9, 8, 8) in ls
    ensures !Packed(ls, lo, hi) && !Aligned(9, 8) && Aligned(1, 1)
  {
  }

  lemma {:induction false} TaggedOffsets()
    requires Align(Tagged()) == 1
    ensures Offsets([Field("a", Prim(CHAR)), Field("v", Tagged())], 0) == [0, 1]
  {
    CharSize();
    hide Tagged, Size;
    var f, v := Field("a", Prim(CHAR)), Field("v", Tagged());
    var fs := [f, v];
    assert fs[1..] == [v] && [v][1..] == [];
    assert FieldAlign(f) == 1 && FieldSize(f) == 1 && FieldAlign(v) == 1;
    assert Offsets([v], 1) == [1] + Offsets([], 1 + FieldSize(v));
  }

  lemma {:induction false} CharSize()
    ensures Size(Prim(CHAR)) == 1
  {
  }

  lemma {:induction false} TaggedAligns()
    ensures Align(Tagged()) == 1 && UnionAlign(Tagged().variants.cases, 1) == 8
  {
    var c := Tagged().variants.cases[0];
    assert c.fields[1..] == [] && [c][1..] == [];
    assert CaseAlign(c) == 8;
    assert UnionAlign([c], 1) == UnionAlign([], 8);
  }

  lemma {:induction false} TaggedParts()
    ensures Leaf(9, 8, 8) in Parts(Tagged(), 1, 0)
  {
    TaggedAligns();
    var t := Tagged();
    assert TagOffset(t) == 0;
    assert UnionOffset(t) == 8;
    var f := Field("x", Prim(LONGINT));
    var cf := CaseFields(t, 0);
    assert cf == [f] && cf[1..] == [];
    assert OneFieldLeaves(f, 9) == [Leaf(9, 8, 8)];
    var ls := FieldLeaves(cf, 1 + UnionOffset(t), 0);
    assert ls == [Leaf(9, 8, 8)] + FieldLeaves([], 9, 8);
    assert ls[0] == Leaf(9, 8, 8) && ls[0] in ls;
  }
}
