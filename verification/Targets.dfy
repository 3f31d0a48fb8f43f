/** What a target says of the primitive types (src/target.rs:43-120, 296-345); every supported target is LP64. */
module Targets {
  import opened Layout

  /** Sizes of the numeric types in bytes. */
  datatype IntLayout = IntLayout(integer: nat, cardinal: nat, longint: nat, longcard: nat, float_: nat, longreal: nat,
                                 bitset: nat)

  datatype Alignments = Alignments(pointer: nat, char_: nat, int_: nat, long_: nat, float_: nat, double_: nat)

  datatype Target = Target(pointerBits: nat, ints: IntLayout, aligns: Alignments)

  const LP64: Target := Target(64, IntLayout(4, 4, 8, 8, 4, 8, 4), Alignments(8, 1, 4, 8, 4, 8))

  /** `primitive_size`. */
  function PrimitiveSize(t: Target, p: Prim): nat {
    match p
    case INTEGER => t.ints.integer
    case CARDINAL => t.ints.cardinal
    case REAL => t.ints.float_
    case LONGREAL => t.ints.longreal
    case BOOLEAN => 4
    case CHAR => 1
    case BITSET => t.ints.bitset
    case WORD => 4
    case BYTE => 1
    case ADDRESS => t.pointerBits / 8
    case LONGINT => t.ints.longint
    case LONGCARD => t.ints.longcard
    case COMPLEX => t.ints.float_ * 2
    case LONGCOMPLEX => t.ints.longreal * 2
    case VOID | NIL => 0
    case REFANY | PROC => t.pointerBits / 8
  }

  /** `primitive_align`. */
  function PrimitiveAlign(t: Target, p: Prim): nat {
    match p
    case CHAR | BYTE => t.aligns.char_
    case INTEGER | CARDINAL | BITSET | WORD | BOOLEAN => t.aligns.int_
    case LONGINT | LONGCARD => t.aligns.long_
    case REAL => t.aligns.float_
    case LONGREAL => t.aligns.double_
    case ADDRESS | REFANY | PROC => t.aligns.pointer
    case COMPLEX => t.aligns.float_
    case LONGCOMPLEX => t.aligns.double_
    case VOID | NIL => 1
  }

  /** The sizes and alignments of the layout proofs are those of the targets. */
  lemma {:induction false} PrimitivesAgree(p: Prim)
    ensures PrimitiveSize(LP64, p) == PrimSize(p) && PrimitiveAlign(LP64, p) == PrimAlign(p)
  {
  }
}
