/**
 * The bit-mask codec of WickedMotorShield.cpp: apply_mask encodes one
 * operation into a register byte, filter_mask decodes one bit back as 0 or 1.
 */
module Codec {
  import opened Layout

  /** apply_mask: the byte that *shift_register_value holds afterwards. */
  function ApplyMask(v: bv8, mask: bv8, op: uint8): bv8
  {
    if op == OPERATION_CLEAR then v & !mask
    else if op == OPERATION_SET then v | mask
    else v
  }

  /** filter_mask: 0 if the masked bit is clear, 1 otherwise. */
  function FilterMask(v: bv8, mask: bv8): uint8
  {
    if v & mask == 0 then 0 else 1
  }

  /** apply_mask with SET turns the masked bits on, with CLEAR turns them
      off, and with NONE or any other code leaves the byte as it was; bits
      outside the mask never move. */
  lemma ApplyMaskMeaning(v: bv8, mask: bv8, op: uint8)
    ensures op == OPERATION_SET ==> ApplyMask(v, mask, op) & mask == mask
    ensures op == OPERATION_CLEAR ==> ApplyMask(v, mask, op) & mask == 0
    ensures op != OPERATION_SET && op != OPERATION_CLEAR ==> ApplyMask(v, mask, op) == v
    ensures ApplyMask(v, mask, op) & !mask == v & !mask
  {
  }

  /** filter_mask answers only 0 or 1, and 1 exactly when a masked bit is set. */
  lemma FilterMaskMeaning(v: bv8, mask: bv8)
    ensures FilterMask(v, mask) == 0 || FilterMask(v, mask) == 1
    ensures FilterMask(v, mask) == 1 <==> v & mask != 0
  {
  }

  /** For a single-bit mask, filter_mask reads exactly that bit. */
  lemma FilterReadsOneBit(v: bv8, mask: bv8)
    requires SingleBit(mask)
    ensures FilterMask(v, mask) == 1 <==> v & mask == mask
    ensures FilterMask(v, mask) == 0 <==> v & mask == 0
  {
  }

  /** Decoding a bit just encoded gives back the operation: SET reads 1
      (DIR_CW) and CLEAR reads 0 (DIR_CCW). */
  lemma FilterAfterApply(v: bv8, mask: bv8)
    requires mask != 0
    ensures FilterMask(ApplyMask(v, mask, OPERATION_SET), mask) == DIR_CW
    ensures FilterMask(ApplyMask(v, mask, OPERATION_CLEAR), mask) == DIR_CCW
  {
  }

  /** Re-encoding the decoded bit of a single-bit mask leaves the byte as it was. */
  lemma ApplyAfterFilter(v: bv8, mask: bv8)
    requires SingleBit(mask)
    ensures ApplyMask(v, mask, if FilterMask(v, mask) == 1 then OPERATION_SET else OPERATION_CLEAR) == v
  {
  }

  /** What filter_mask reads after apply_mask: the operation on the masked
      bit, and the old value of any bit outside the mask. */
  lemma FilterAfterApplyAt(w: bv8, mask: bv8, op: uint8, other: bv8)
    requires mask != 0 && mask & other == 0
    ensures op == OPERATION_SET ==> FilterMask(ApplyMask(w, mask, op), mask) == 1
    ensures op == OPERATION_CLEAR ==> FilterMask(ApplyMask(w, mask, op), mask) == 0
    ensures FilterMask(ApplyMask(w, mask, op), other) == FilterMask(w, other)
  {
    if op == OPERATION_SET {
      FilterAfterSet(w, mask, other);
    } else if op == OPERATION_CLEAR {
      FilterAfterClear(w, mask, other);
    } else {
      ApplyMaskNone(w, mask, op);
    }
  }

  /** SET turns the masked bit on and keeps any bit outside the mask. */
  lemma FilterAfterSet(w: bv8, mask: bv8, other: bv8)
    requires mask != 0 && mask & other == 0
    ensures FilterMask(ApplyMask(w, mask, OPERATION_SET), mask) == 1
    ensures FilterMask(ApplyMask(w, mask, OPERATION_SET), other) == FilterMask(w, other)
  {
    assert (w | mask) & other == w & other;
  }

  /** CLEAR turns the masked bit off and keeps any bit outside the mask. */
  lemma FilterAfterClear(w: bv8, mask: bv8, other: bv8)
    requires mask & other == 0
    ensures FilterMask(ApplyMask(w, mask, OPERATION_CLEAR), mask) == 0
    ensures FilterMask(ApplyMask(w, mask, OPERATION_CLEAR), other) == FilterMask(w, other)
  {
    assert (w & !mask) & other == w & other;
  }

  /** Two bytes equal outside `mask` read the same through any mask that
      does not meet it. */
  lemma FilterOutsideMask(x: bv8, y: bv8, mask: bv8, other: bv8)
    requires x & !mask == y & !mask && mask & other == 0
    ensures FilterMask(x, other) == FilterMask(y, other)
  {
    assert x & other == (x & !mask) & other;
    assert y & other == (y & !mask) & other;
  }

  /** Bits outside both masks survive two apply_mask calls. */
  lemma TwoMaskFrame(w: bv8, first: bv8, op1: uint8, second: bv8, op2: uint8)
    ensures ApplyMask(ApplyMask(w, first, op1), second, op2) & !(second | first) == w & !(second | first)
  {
    ApplyMaskMeaning(w, first, op1);
    ApplyMaskMeaning(ApplyMask(w, first, op1), second, op2);
  }

  /** apply_mask on two disjoint masks can be done in either order. */
  lemma ApplyMasksCommute(w: bv8, a: bv8, opA: uint8, b: bv8, opB: uint8)
    requires a & b == 0
    ensures ApplyMask(ApplyMask(w, a, opA), b, opB) == ApplyMask(ApplyMask(w, b, opB), a, opA)
  {
    if opA != OPERATION_CLEAR && opA != OPERATION_SET {
      ApplyMaskNone(w, a, opA);
      ApplyMaskNone(ApplyMask(w, b, opB), a, opA);
    } else if opB != OPERATION_CLEAR && opB != OPERATION_SET {
      ApplyMaskNone(w, b, opB);
      ApplyMaskNone(ApplyMask(w, a, opA), b, opB);
    } else if opA == OPERATION_SET && opB == OPERATION_SET {
      CommuteSet(w, a, b);
    } else if opA == OPERATION_CLEAR && opB == OPERATION_CLEAR {
      CommuteClear(w, a, b);
    } else if opA == OPERATION_CLEAR {
      CommuteClearSet(w, a, b);
    } else {
      CommuteClearSet(w, b, a);
    }
  }

  /** apply_mask with a code other than SET and CLEAR leaves the byte alone. */
  lemma ApplyMaskNone(v: bv8, mask: bv8, op: uint8)
    requires op != OPERATION_CLEAR && op != OPERATION_SET
    ensures ApplyMask(v, mask, op) == v
  {
  }

  /** Two SETs on any two masks can be swapped. */
  lemma CommuteSet(w: bv8, a: bv8, b: bv8)
    ensures ApplyMask(ApplyMask(w, a, OPERATION_SET), b, OPERATION_SET)
         == ApplyMask(ApplyMask(w, b, OPERATION_SET), a, OPERATION_SET)
  {
  }

  /** Two CLEARs on any two masks can be swapped. */
  lemma CommuteClear(w: bv8, a: bv8, b: bv8)
    ensures ApplyMask(ApplyMask(w, a, OPERATION_CLEAR), b, OPERATION_CLEAR)
         == ApplyMask(ApplyMask(w, b, OPERATION_CLEAR), a, OPERATION_CLEAR)
  {
  }

  /** A CLEAR and a SET on disjoint masks can be swapped. */
  lemma CommuteClearSet(w: bv8, a: bv8, b: bv8)
    requires a & b == 0
    ensures ApplyMask(ApplyMask(w, a, OPERATION_CLEAR), b, OPERATION_SET)
         == ApplyMask(ApplyMask(w, b, OPERATION_SET), a, OPERATION_CLEAR)
  {
  }

  /** A later apply_mask on the same mask overrides an earlier one, unless it is NONE. */
  lemma ApplyMaskOverrides(w: bv8, mask: bv8, op1: uint8, op2: uint8)
    requires op2 == OPERATION_SET || op2 == OPERATION_CLEAR
    ensures ApplyMask(ApplyMask(w, mask, op1), mask, op2) == ApplyMask(w, mask, op2)
  {
    if op1 != OPERATION_SET && op1 != OPERATION_CLEAR {
      ApplyMaskNone(w, mask, op1);
    } else if op2 == OPERATION_SET {
      SetOverrides(w, mask, op1);
    } else {
      ClearOverrides(w, mask, op1);
    }
  }

  /** SET after SET or CLEAR on the same mask. */
  lemma SetOverrides(w: bv8, mask: bv8, op1: uint8)
    requires op1 == OPERATION_SET || op1 == OPERATION_CLEAR
    ensures ApplyMask(ApplyMask(w, mask, op1), mask, OPERATION_SET) == ApplyMask(w, mask, OPERATION_SET)
  {
  }

  /** CLEAR after SET or CLEAR on the same mask. */
  lemma ClearOverrides(w: bv8, mask: bv8, op1: uint8)
    requires op1 == OPERATION_SET || op1 == OPERATION_CLEAR
    ensures ApplyMask(ApplyMask(w, mask, op1), mask, OPERATION_CLEAR) == ApplyMask(w, mask, OPERATION_CLEAR)
  {
  }

  /** Agreement outside a mask is transitive. */
  lemma ChainFrame(x: bv8, y: bv8, z: bv8, mask: bv8)
    requires y & !mask == x & !mask && z & !mask == y & !mask
    ensures z & !mask == x & !mask
  {
  }

  /** Releasing a brake bit `b` and re-encoding direction bit `a` as y read
      it gives back y, when the byte only differs from y in those two bits
      and y had the brake bit clear. */
  lemma RestoreBits(x: bv8, y: bv8, a: bv8, b: bv8)
    requires SingleBit(a) && a & b == 0
    requires x & !(a | b) == y & !(a | b) && y & b == 0
    ensures ApplyMask(ApplyMask(x, b, OPERATION_CLEAR), a, if FilterMask(y, a) == 1 then OPERATION_SET else OPERATION_CLEAR) == y
  {
    if y & a == 0 {
      RestoreClear(x, y, a, b);
    } else {
      RestoreSet(x, y, a, b);
    }
  }

  /** RestoreBits when the direction bit of y is clear. */
  lemma RestoreClear(x: bv8, y: bv8, a: bv8, b: bv8)
    requires x & !(a | b) == y & !(a | b) && y & b == 0 && y & a == 0
    ensures ApplyMask(ApplyMask(x, b, OPERATION_CLEAR), a, OPERATION_CLEAR) == y
  {
  }

  /** RestoreBits when the direction bit of y is set. */
  lemma RestoreSet(x: bv8, y: bv8, a: bv8, b: bv8)
    requires SingleBit(a) && a & b == 0
    requires x & !(a | b) == y & !(a | b) && y & b == 0 && y & a != 0
    ensures ApplyMask(ApplyMask(x, b, OPERATION_CLEAR), a, OPERATION_SET) == y
  {
  }
}
