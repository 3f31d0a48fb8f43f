/**
 Record layout on the supported targets (src/target.rs:307-579, 610-624), all
 of which are LP64.  A type is the tree of what it holds by value; pointers
 end the tree.  Offsets are unbounded: 32-bit overflow is not modelled.
 */
module Layout {
  import opened Wrappers

  datatype Prim =
    | INTEGER | CARDINAL | REAL | LONGREAL | BOOLEAN | CHAR | BITSET | WORD | BYTE
    | ADDRESS | LONGINT | LONGCARD | COMPLEX | LONGCOMPLEX | VOID | NIL | REFANY | PROC

  datatype Ty =
    | Prim(p: Prim)
    | Alias(target: Ty)
    | Enumeration
    | Subrange
    | SetType
    | PointerLike
    | Array(elem: Ty, low: int, high: int)
    | OpenArray(elem: Ty)
    | Record(fields: seq<Field>, variants: Variants)
    | Object(fields: seq<Field>)
    | StringLit(len: nat)
    | Sizeless

  datatype Field = Field(name: string, typ: Ty)

  datatype Variants = NoVariants | Variants(tagName: Option<string>, tagType: Ty, cases: seq<Case>)

  datatype Case = Case(fields: seq<Field>)

  // ----- arithmetic -----

  predicate IsAlign(a: nat) {
    a == 1 || a == 2 || a == 4 || a == 8
  }

  function Max(a: nat, b: nat): nat {
    if a < b then b else a
  }

  predicate Aligned(o: nat, a: nat)
    requires IsAlign(a)
  {
    match a
    case 1 => true
    case 2 => o % 2 == 0
    case 4 => o % 4 == 0
    case _ => o % 8 == 0
  }

  /** The least multiple of `a` that is not below `o`. */
  function AlignUp(o: nat, a: nat): (r: nat)
    requires IsAlign(a)
    ensures Aligned(r, a) && o <= r < o + a
  {
    match a
    case 1 => o
    case 2 => (o + 1) / 2 * 2
    case 4 => (o + 3) / 4 * 4
    case _ => (o + 7) / 8 * 8
  }

  lemma {:induction false} AlignUpIsLeast(o: nat, a: nat, m: nat)
    requires IsAlign(a) && o <= m && Aligned(m, a)
    ensures AlignUp(o, a) <= m
  {
    var k := m / a;
    match a {
      case 1 =>
      case 2 => assert m == 2 * k;
      case 4 => assert m == 4 * k;
      case _ => assert m == 8 * k;
    }
  }

  /** Bitwise AND. */
  function BitAnd(x: nat, y: nat): nat
    decreases x
  {
    if x == 0 || y == 0 then 0 else 2 * BitAnd(x / 2, y / 2) + (if x % 2 == 1 && y % 2 == 1 then 1 else 0)
  }

  function Pow2(w: nat): (r: nat)
    ensures r > 0
  {
    if w == 0 then 1 else 2 * Pow2(w - 1)
  }

  const WORD: nat := 0x1_0000_0000

  /** The source's form, on 32-bit words: the complement of `a - 1` is `WORD - a`. */
  function AlignUpMask(o: nat, a: nat): nat
    requires a < WORD
  {
    if a == 0 then o else BitAnd((o + a - 1) % WORD, WORD - a)
  }

  lemma {:induction false} AndOnes(x: nat, w: nat)
    requires x < Pow2(w)
    ensures BitAnd(x, Pow2(w) - 1) == x
    decreases w
  {
    if w > 0 && x > 0 {
      AndOnes(x / 2, w - 1);
      Halve(Pow2(w - 1));
    }
  }

  lemma {:induction false} Halve(p: nat)
    requires p > 0
    ensures (2 * p - 1) / 2 == p - 1 && (2 * p - 1) % 2 == 1
  {
  }

  /** A clear low bit of the mask clears the low bit. */
  lemma {:induction false} AndEven(x: nat, m: nat)
    ensures BitAnd(x, 2 * m) == 2 * BitAnd(x / 2, m)
  {
  }

  /** Because the alignments are powers of two, masking rounds up to the next multiple. */
  lemma {:induction false} MaskIsAlignUp(o: nat, a: nat)
    requires IsAlign(a) && o + a - 1 < WORD
    ensures AlignUpMask(o, a) == AlignUp(o, a)
  {
    hide BitAnd;
    var x := o + a - 1;
    assert x % WORD == x;
    Powers();
    match a {
      case 1 => AndOnes(x, 32);
      case 2 =>
        AndEven(x, Pow2(31) - 1);
        AndOnes(x / 2, 31);
      case 4 =>
        AndEven(x, 2 * (Pow2(30) - 1));
        AndEven(x / 2, Pow2(30) - 1);
        AndOnes(x / 2 / 2, 30);
        DivTwice(x);
      case _ =>
        AndEven(x, 4 * (Pow2(29) - 1));
        AndEven(x / 2, 2 * (Pow2(29) - 1));
        AndEven(x / 2 / 2, Pow2(29) - 1);
        AndOnes(x / 2 / 2 / 2, 29);
        DivTwice(x);
    }
  }

  lemma {:induction false} Powers()
    ensures Pow2(29) == 0x2000_0000 && Pow2(30) == 0x4000_0000 && Pow2(31) == 0x8000_0000 && Pow2(32) == WORD
  {
    assert Pow2(8) == 256;
    assert Pow2(16) == 65536;
    assert Pow2(24) == 16777216;
  }

  lemma {:induction false} DivTwice(x: nat)
    ensures x / 2 / 2 == x / 4 && x / 2 / 2 / 2 == x / 8
  {
  }

  /** A multiple of `a` is a multiple of its half. */
  lemma {:induction false} HalfAligned(base: nat, a: nat)
    requires a == 4 || a == 8
    requires Aligned(base, a)
    ensures Aligned(base, a / 2)
  {
    var k := base / a;
    if a == 8 {
      UniqueRemainder(base, 4, 2 * k);
    } else {
      UniqueRemainder(base, 2, 2 * k);
    }
  }

  lemma {:induction false} UniqueRemainder(n: nat, a: nat, q: nat)
    requires a == 2 || a == 4
    requires n == a * q
    ensures n % a == 0
  {
    var d := n / a - q;
    if a == 2 {
      assert n % 2 == -2 * d;
    } else {
      assert n % 4 == -4 * d;
    }
  }

  /** Of two alignments the smaller divides the larger, so an aligned base is aligned for every part. */
  lemma {:induction false} AlignedForParts(base: nat, big: nat, small: nat)
    requires IsAlign(big) && IsAlign(small) && small <= big && Aligned(base, big)
    ensures Aligned(base, small)
  {
    assert Aligned(base, 1);
    hide Aligned;
    if big == 8 && small < 8 { HalfAligned(base, 8); }
    if big >= 4 && small == 2 { HalfAligned(base, 4); }
  }

  lemma {:induction false} SumOfMultiples(a: nat, x: nat, y: nat)
    requires a == 2 || a == 4 || a == 8
    requires x % a == 0 && y % a == 0
    ensures (x + y) % a == 0
  {
    var j, k := x / a, y / a;
    if a == 2 {
      assert x + y == 2 * (j + k);
    } else if a == 4 {
      assert x + y == 4 * (j + k);
    } else {
      assert x + y == 8 * (j + k);
    }
  }

  lemma {:induction false} AddAligned(base: nat, o: nat, a: nat)
    requires IsAlign(a) && Aligned(base, a) && Aligned(o, a)
    ensures Aligned(base + o, a)
  {
    if a > 1 { SumOfMultiples(a, base, o); }
  }

  // ----- what size and alignment are -----

  function PrimSize(p: Prim): nat {
    match p
    case CHAR | BYTE => 1
    case INTEGER | CARDINAL | REAL | BOOLEAN | BITSET | WORD => 4
    case LONGREAL | LONGINT | LONGCARD | COMPLEX | ADDRESS | REFANY | PROC => 8
    case LONGCOMPLEX => 16
    case VOID | NIL => 0
  }

  function PrimAlign(p: Prim): (a: nat)
    ensures IsAlign(a) && Aligned(PrimSize(p), a)
  {
    match p
    case CHAR | BYTE | VOID | NIL => 1
    case INTEGER | CARDINAL | BITSET | WORD | BOOLEAN | REAL | COMPLEX => 4
    case LONGINT | LONGCARD | LONGREAL | ADDRESS | REFANY | PROC | LONGCOMPLEX => 8
  }

  function Align(t: Ty): (a: nat)
    ensures IsAlign(a)
    decreases t
  {
    match t
    case Prim(p) => PrimAlign(p)
    case Alias(u) => Align(u)
    case Enumeration | Subrange | SetType => 4
    case PointerLike => 8
    case Array(e, _, _) => Align(e)
    case OpenArray(e) => Align(e)
    case Record(fs, _) => FieldsAlign(fs, 1)
    case Object(fs) => FieldsAlign(fs, 8)
    case StringLit(_) | Sizeless => 1
  }

  /** The largest alignment among the fields and `a`. */
  function FieldsAlign(fs: seq<Field>, a: nat): (r: nat)
    requires IsAlign(a)
    ensures IsAlign(r) && a <= r
    decreases fs
  {
    if fs == [] then a else FieldsAlign(fs[1..], Max(a, FieldAlign(fs[0])))
  }

  function FieldAlign(f: Field): (a: nat)
    ensures IsAlign(a)
    decreases f
  {
    Align(f.typ)
  }

  function Count(low: int, high: int): nat {
    if high - low + 1 > 0 then high - low + 1 else 0
  }

  function Stride(e: Ty): (s: nat)
    ensures Aligned(s, Align(e)) && s >= Size(e)
    decreases e, 1
  {
    AlignUp(Size(e), Align(e))
  }

  function Size(t: Ty): nat
    decreases t, 0
  {
    match t
    case Prim(p) => PrimSize(p)
    case Alias(u) => Size(u)
    case Enumeration | Subrange | SetType => 4
    case PointerLike => 8
    case Array(e, low, high) => Count(low, high) * Stride(e)
    case OpenArray(_) => 12
    case Record(fs, NoVariants) => AlignUp(FieldsEnd(fs, 0), FieldsAlign(fs, 1))
    case Record(fs, vs) =>
      AlignUp(VariantsEnd(vs, FieldsEnd(fs, 0)), VariantsAlign(vs, FieldsAlign(fs, 1)))
    case Object(fs) => AlignUp(FieldsEnd(fs, 8), FieldsAlign(fs, 8))
    case StringLit(len) => len + 1
    case Sizeless => 0
  }

  function FieldSize(f: Field): nat
    decreases f, 1
  {
    Size(f.typ)
  }

  /** Where the last field ends when the first is placed at or after `o`. */
  function FieldsEnd(fs: seq<Field>, o: nat): (r: nat)
    ensures r >= o
    decreases fs, 1
  {
    if fs == [] then o else FieldsEnd(fs[1..], AlignUp(o, FieldAlign(fs[0])) + FieldSize(fs[0]))
  }

  /** One case of the union, padded to its own alignment. */
  function CaseSize(c: Case): nat
    decreases c, 1
  {
    AlignUp(FieldsEnd(c.fields, 0), CaseAlign(c))
  }

  function CaseAlign(c: Case): (a: nat)
    ensures IsAlign(a)
  {
    FieldsAlign(c.fields, 1)
  }

  function UnionSize(cs: seq<Case>, n: nat): nat
    decreases cs, 1
  {
    if cs == [] then n else UnionSize(cs[1..], Max(n, CaseSize(cs[0])))
  }

  function UnionAlign(cs: seq<Case>, a: nat): (r: nat)
    requires IsAlign(a)
    ensures IsAlign(r) && a <= r
  {
    if cs == [] then a else UnionAlign(cs[1..], Max(a, CaseAlign(cs[0])))
  }

  /** The tag, then the union of the cases. */
  function VariantsEnd(vs: Variants, o: nat): nat
    requires vs.Variants?
    decreases vs, 1
  {
    AlignUp(AlignUp(o, Align(vs.tagType)) + Size(vs.tagType), UnionAlign(vs.cases, 1)) + UnionSize(vs.cases, 0)
  }

  function VariantsAlign(vs: Variants, a: nat): (r: nat)
    requires vs.Variants? && IsAlign(a)
    ensures IsAlign(r) && a <= r
  {
    Max(Max(a, Align(vs.tagType)), UnionAlign(vs.cases, 1))
  }
}
