/** The size, alignment and layout computations as src/target.rs runs them, with running offsets. */
module LayoutBuilding {
  import opened Wrappers
  import opened Layout
  import opened LayoutSafety
  import opened Targets

  method ResolveType(t: Ty) returns (u: Ty)
    ensures !u.Alias? && Size(u) == Size(t) && Align(u) == Align(t) && Leaves(u, 0) == Leaves(t, 0)
    ensures u == t || u < t
  {
    u := t;
    while u.Alias?
      invariant Size(u) == Size(t) && Align(u) == Align(t) && Leaves(u, 0) == Leaves(t, 0)
      invariant u == t || u < t
      decreases u
    {
      u := u.target;
    }
  }

  method TypeAlign(t: Ty) returns (a: nat)
    ensures a == Align(t)
    decreases t
  {
    var u := ResolveType(t);
    match u {
      case Prim(p) =>
        PrimitivesAgree(p);
        a := PrimitiveAlign(LP64, p);
      case Enumeration => a := 4;
      case Subrange => a := 4;
      case SetType => a := 4;
      case PointerLike => a := 8;
      case Array(e, _, _) => a := TypeAlign(e);
      case OpenArray(e) => a := TypeAlign(e);
      case Record(fs, _) => a := MaxFieldAlign(fs, 1);
      case Object(fs) => a := MaxFieldAlign(fs, 8);
      case StringLit(_) => a := 1;
      case Sizeless => a := 1;
    }
  }

  method MaxFieldAlign(fs: seq<Field>, start: nat) returns (a: nat)
    requires IsAlign(start)
    ensures a == FieldsAlign(fs, start)
    decreases fs
  {
    hide Align;
    a := start;
    for i := 0 to |fs|
      invariant IsAlign(a) && FieldsAlign(fs[i..], a) == FieldsAlign(fs, start)
    {
      assert fs[i..][1..] == fs[i + 1..] && fs[i..][0] == fs[i];
      var fa := AlignOfField(fs[i]);
      a := Max(a, fa);
    }
  }

  method AlignOfField(f: Field) returns (a: nat)
    ensures a == FieldAlign(f)
    decreases f
  {
    a := TypeAlign(f.typ);
  }

  method TypeSize(t: Ty) returns (n: nat)
    ensures n == Size(t)
    decreases t, 1
  {
    hide FieldsEnd, FieldsAlign, VariantsEnd, VariantsAlign, AlignUp;
    var u := ResolveType(t);
    match u {
      case Prim(p) =>
        PrimitivesAgree(p);
        n := PrimitiveSize(LP64, p);
      case Enumeration => n := 4;
      case Subrange => n := 4;
      case SetType => n := 4;
      case PointerLike => n := 8;
      case Array(e, low, high) =>
        var size := TypeSize(e);
        var align := TypeAlign(e);
        var count := if high - low + 1 > 0 then high - low + 1 else 0;
        n := count * AlignUp(size, align);
      case OpenArray(_) => n := 12;
      case Record(fs, vs) => n := ComputeRecordSize(fs, vs);
      case Object(fs) =>
        var offset, align := PlaceFields(fs, 8, 8);
        n := AlignUp(offset, align);
      case StringLit(len) => n := len + 1;
      case Sizeless => n := 0;
    }
  }

  method SizeOfField(f: Field) returns (n: nat)
    ensures n == FieldSize(f)
    decreases f, 1
  {
    n := TypeSize(f.typ);
  }

  /** The loop over fields: the running offset and the largest alignment. */
  method PlaceFields(fs: seq<Field>, o: nat, a: nat) returns (offset: nat, align: nat)
    requires IsAlign(a)
    ensures offset == FieldsEnd(fs, o) && align == FieldsAlign(fs, a)
    decreases fs, 1
  {
    hide Size, Align, AlignUp, FieldAlign, FieldSize;
    offset, align := o, a;
    for i := 0 to |fs|
      invariant IsAlign(align)
      invariant FieldsEnd(fs[i..], offset) == FieldsEnd(fs, o)
      invariant FieldsAlign(fs[i..], align) == FieldsAlign(fs, a)
    {
      assert fs[i..][1..] == fs[i + 1..] && fs[i..][0] == fs[i];
      var fa := AlignOfField(fs[i]);
      var n := SizeOfField(fs[i]);
      offset := AlignUp(offset, fa) + n;
      align := Max(align, fa);
    }
  }

  /** The union of the cases: the largest padded case and the largest alignment. */
  method PlaceUnion(cs: seq<Case>) returns (size: nat, align: nat)
    ensures size == UnionSize(cs, 0) && align == UnionAlign(cs, 1)
    decreases cs, 1
  {
    hide FieldsEnd, FieldsAlign, AlignUp;
    size, align := 0, 1;
    for i := 0 to |cs|
      invariant IsAlign(align)
      invariant UnionSize(cs[i..], size) == UnionSize(cs, 0)
      invariant UnionAlign(cs[i..], align) == UnionAlign(cs, 1)
    {
      assert cs[i..][1..] == cs[i + 1..] && cs[i..][0] == cs[i];
      var n, a := PlaceCase(cs[i]);
      size := Max(size, n);
      align := Max(align, a);
    }
  }

  method PlaceCase(c: Case) returns (size: nat, align: nat)
    ensures size == CaseSize(c) && align == CaseAlign(c)
    decreases c, 1
  {
    var n, a := PlaceFields(c.fields, 0, 1);
    size, align := AlignUp(n, a), a;
  }

  /** The tag and the union after the fixed fields. */
  method PlaceVariants(vs: Variants, o: nat, a: nat) returns (tag: FieldLayout, offset: nat, align: nat)
    requires vs.Variants? && IsAlign(a)
    ensures tag.offset == AlignUp(o, Align(vs.tagType)) && tag.size == Size(vs.tagType)
    ensures tag.align == Align(vs.tagType) && (vs.tagName.Some? ==> tag.name == vs.tagName.value)
    ensures offset == VariantsEnd(vs, o) && align == VariantsAlign(vs, a)
    decreases vs, 1
  {
    hide Size, Align, UnionSize, UnionAlign, AlignUp;
    var tagAlign := TypeAlign(vs.tagType);
    var tagSize := TypeSize(vs.tagType);
    var at := AlignUp(o, tagAlign);
    tag := FieldLayout(if vs.tagName.Some? then vs.tagName.value else "", at, tagSize, tagAlign);
    var n, ua := PlaceUnion(vs.cases);
    offset := AlignUp(at + tagSize, ua) + n;
    align := Max(Max(a, tagAlign), ua);
  }

  method ComputeRecordSize(fs: seq<Field>, vs: Variants) returns (n: nat)
    ensures n == Size(Record(fs, vs))
    decreases Record(fs, vs), 0
  {
    hide FieldsEnd, FieldsAlign, VariantsEnd, VariantsAlign, AlignUp;
    var offset, align := PlaceFields(fs, 0, 1);
    if vs.Variants? {
      var tag;
      tag, offset, align := PlaceVariants(vs, offset, align);
    }
    n := AlignUp(offset, align);
  }

  datatype FieldLayout = FieldLayout(name: string, offset: nat, size: nat, align: nat)

  datatype RecordLayout = RecordLayout(fields: seq<FieldLayout>, totalSize: nat, alignment: nat)

  predicate HasNamedTag(vs: Variants) {
    vs.Variants? && vs.tagName.Some?
  }

  /** The entry of the named tag: at the first offset after the fixed fields that suits its type. */
  predicate IsTagEntry(l: FieldLayout, u: Ty)
    requires u.Record? && HasNamedTag(u.variants)
  {
    var end := FieldsEnd(u.fields, 0);
    var a := Align(u.variants.tagType);
    && l.name == u.variants.tagName.value
    && l.size == Size(u.variants.tagType)
    && l.align == a
    && end <= l.offset < end + a
    && l.offset % a == 0
  }

  /** The fixed fields' entries. */
  method LayFields(fs: seq<Field>) returns (ls: seq<FieldLayout>, offset: nat, align: nat)
    ensures offset == FieldsEnd(fs, 0) && align == FieldsAlign(fs, 1)
    ensures |ls| == |fs|
    ensures forall i :: 0 <= i < |fs| ==>
      ls[i] == FieldLayout(fs[i].name, Offsets(fs, 0)[i], FieldSize(fs[i]), FieldAlign(fs[i]))
  {
    hide Size, Align, AlignUp, FieldAlign, FieldSize;
    ls, offset, align := [], 0, 1;
    for i := 0 to |fs|
      invariant IsAlign(align) && |ls| == i
      invariant FieldsEnd(fs[i..], offset) == FieldsEnd(fs, 0)
      invariant FieldsAlign(fs[i..], align) == FieldsAlign(fs, 1)
      invariant Offsets(fs, 0)[i..] == Offsets(fs[i..], offset)
      invariant forall j :: 0 <= j < i ==>
        ls[j] == FieldLayout(fs[j].name, Offsets(fs, 0)[j], FieldSize(fs[j]), FieldAlign(fs[j]))
    {
      assert fs[i..][1..] == fs[i + 1..] && fs[i..][0] == fs[i];
      var fa := AlignOfField(fs[i]);
      var n := SizeOfField(fs[i]);
      offset := AlignUp(offset, fa);
      assert Offsets(fs, 0)[i..][0] == offset && Offsets(fs, 0)[i..][1..] == Offsets(fs, 0)[i + 1..];
      ls := ls + [FieldLayout(fs[i].name, offset, n, fa)];
      offset := offset + n;
      align := Max(align, fa);
    }
  }

  /**
   The complete layout agrees with the size computed on its own; a record
   without variants also gets the alignment `TypeAlign` reports.
   */
  method ComputeRecordLayout(t: Ty) returns (r: Option<RecordLayout>, u: Ty)
    ensures !u.Alias? && Size(u) == Size(t) && Align(u) == Align(t)
    ensures r.Some? <==> u.Record?
    ensures r.Some? ==> r.value.totalSize == Size(t) && r.value.alignment == PaddedTo(u)
    ensures r.Some? ==> IsAlign(r.value.alignment) && Aligned(r.value.totalSize, r.value.alignment)
    ensures r.Some? && u.variants.NoVariants? ==> r.value.alignment == Align(t)
    ensures r.Some? ==>
      |r.value.fields| == |u.fields| + (if HasNamedTag(u.variants) then 1 else 0)
    ensures r.Some? && HasNamedTag(u.variants) ==> IsTagEntry(r.value.fields[|u.fields|], u)
    ensures r.Some? ==> |u.fields| <= |r.value.fields| && forall i :: 0 <= i < |u.fields| ==>
      r.value.fields[i]
      == FieldLayout(u.fields[i].name, Offsets(u.fields, 0)[i], FieldSize(u.fields[i]), FieldAlign(u.fields[i]))
  {
    hide FieldsEnd, FieldsAlign, VariantsEnd, VariantsAlign, AlignUp, Offsets, FieldSize, FieldAlign;
    u := ResolveType(t);
    if !u.Record? { return None, u; }
    var ls, offset, align := LayFields(u.fields);
    if u.variants.Variants? {
      var tag;
      tag, offset, align := PlaceVariants(u.variants, offset, align);
      if u.variants.tagName.Some? { ls := ls + [tag]; }
    }
    r := Some(RecordLayout(ls, AlignUp(offset, align), align));
  }
}
