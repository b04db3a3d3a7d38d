/**
 * Register field codec of the STM32F411 GPIO driver.
 *
 * Every per-pin attribute lives in a field of a 32-bit port register: bits
 * [offset, offset + width) with width 1 (OTYPER, ODR, IDR), 2 (MODER, OSPEEDR,
 * PUPDR) or 4 (AFR[0], AFR[1]).  The driver writes a field with the C idiom
 * `reg |= value << offset`, which merges by OR and never clears the field
 * first; `OrIn` is that expression, and the lemmas below say what it does to
 * the field it targets and to every other bit of the register.
 */
module RegisterField {

  /**
   * A field of `width` bits at `offset` lies inside one 32-bit word; the
   * driver's fields are 1, 2 or 4 bits wide.
   */
  predicate FieldFits(offset: bv32, width: bv32) {
    (width == 1 || width == 2 || width == 4) && offset <= 32 - width
  }

  /** `value` is representable in `width` bits. */
  predicate ValueFits(value: bv32, width: bv32)
    requires 1 <= width <= 4
  {
    value < 1 << width
  }

  /** The bits [offset, offset + width) of a register word. */
  function FieldMask(offset: bv32, width: bv32): (mask: bv32)
    requires FieldFits(offset, width)
  {
    ((1 << width) - 1) << offset
  }

  /** The value held by the field at `offset` of `width` bits. */
  function Field(reg: bv32, offset: bv32, width: bv32): (value: bv32)
    requires FieldFits(offset, width)
  {
    (reg >> offset) & ((1 << width) - 1)
  }

  /** Bit `k` of a register word is set. */
  predicate Bit(reg: bv32, k: bv32)
    requires k < 32
  {
    (reg >> k) & 1 == 1
  }

  /** `a` and `b` agree on every bit outside the field. */
  predicate SameOutside(a: bv32, b: bv32, offset: bv32, width: bv32)
    requires FieldFits(offset, width)
  {
    a & !FieldMask(offset, width) == b & !FieldMask(offset, width)
  }

  /** The driver's read-modify-write `reg | (value << offset)`. */
  function OrIn(reg: bv32, value: bv32, offset: bv32): (merged: bv32)
    requires offset < 32
  {
    reg | (value << offset)
  }

  /** A value that fits its field is OR-merged into it: new field == old field | value. */
  lemma OrInField(reg: bv32, value: bv32, offset: bv32, width: bv32)
    requires FieldFits(offset, width) && ValueFits(value, width)
    ensures Field(OrIn(reg, value, offset), offset, width) == Field(reg, offset, width) | value
  {
    if width == 1 {
      OrInWidth1(reg, value, offset);
    } else if width == 2 {
      OrInWidth2(reg, value, offset);
    } else {
      OrInWidth4(reg, value, offset);
    }
  }

  /** A value that fits its field changes no bit outside that field. */
  lemma OrInKeepsOutside(reg: bv32, value: bv32, offset: bv32, width: bv32)
    requires FieldFits(offset, width) && ValueFits(value, width)
    ensures SameOutside(OrIn(reg, value, offset), reg, offset, width)
  {
    if width == 1 {
      OrInWidth1(reg, value, offset);
    } else if width == 2 {
      OrInWidth2(reg, value, offset);
    } else {
      OrInWidth4(reg, value, offset);
    }
  }

  // The two facts above, one field width at a time: with the width fixed the
  // bit-vector reasoning stays small.

  lemma OrInWidth1(reg: bv32, value: bv32, offset: bv32)
    requires offset <= 31 && value < 2
    ensures Field(OrIn(reg, value, offset), offset, 1) == Field(reg, offset, 1) | value
    ensures SameOutside(OrIn(reg, value, offset), reg, offset, 1)
  {
  }

  lemma OrInWidth2(reg: bv32, value: bv32, offset: bv32)
    requires offset <= 30 && value < 4
    ensures Field(OrIn(reg, value, offset), offset, 2) == Field(reg, offset, 2) | value
    ensures SameOutside(OrIn(reg, value, offset), reg, offset, 2)
  {
  }

  lemma OrInWidth4(reg: bv32, value: bv32, offset: bv32)
    requires offset <= 28 && value < 16
    ensures Field(OrIn(reg, value, offset), offset, 4) == Field(reg, offset, 4) | value
    ensures SameOutside(OrIn(reg, value, offset), reg, offset, 4)
  {
  }

  /**
   * A value that fits its field leaves every other field of the register
   * alone (fields are aligned to their width, so distinct ones never overlap).
   */
  lemma OrInLeavesOtherField(reg: bv32, value: bv32, offset: bv32, other: bv32, width: bv32)
    requires FieldFits(offset, width) && FieldFits(other, width) && ValueFits(value, width)
    requires offset % width == 0 && other % width == 0 && offset != other
    ensures Field(OrIn(reg, value, offset), other, width) == Field(reg, other, width)
  {
    if width == 1 {
      OtherFieldWidth1(reg, value, offset, other);
    } else if width == 2 {
      OtherFieldWidth2(reg, value, offset, other);
    } else {
      OtherFieldWidth4(reg, value, offset, other);
    }
  }

  lemma OtherFieldWidth1(reg: bv32, value: bv32, offset: bv32, other: bv32)
    requires offset <= 31 && other <= 31 && offset != other && value < 2
    ensures Field(OrIn(reg, value, offset), other, 1) == Field(reg, other, 1)
  {
  }

  lemma OtherFieldWidth2(reg: bv32, value: bv32, offset: bv32, other: bv32)
    requires offset <= 30 && other <= 30 && offset % 2 == 0 && other % 2 == 0
    requires offset != other && value < 4
    ensures Field(OrIn(reg, value, offset), other, 2) == Field(reg, other, 2)
  {
  }

  lemma OtherFieldWidth4(reg: bv32, value: bv32, offset: bv32, other: bv32)
    requires offset <= 28 && other <= 28 && offset % 4 == 0 && other % 4 == 0
    requires offset != other && value < 16
    ensures Field(OrIn(reg, value, offset), other, 4) == Field(reg, other, 4)
  {
  }

  /** OR-merging zero writes nothing. */
  lemma OrInZero(reg: bv32, offset: bv32)
    requires offset < 32
    ensures OrIn(reg, 0, offset) == reg
  {
  }

  /** Only from a zero field does the OR-merge leave exactly the value. */
  lemma OrInFromZero(reg: bv32, value: bv32, offset: bv32, width: bv32)
    requires FieldFits(offset, width) && ValueFits(value, width)
    requires Field(reg, offset, width) == 0
    ensures Field(OrIn(reg, value, offset), offset, width) == value
  {
    OrInField(reg, value, offset, width);
  }

  /**
   * The merge behaves as a replacement exactly when the old field holds no
   * bit that the new value lacks.
   */
  lemma OrInReplacesIff(reg: bv32, value: bv32, offset: bv32, width: bv32)
    requires FieldFits(offset, width) && ValueFits(value, width)
    ensures Field(OrIn(reg, value, offset), offset, width) == value
        <==> Field(reg, offset, width) & !value == 0
  {
    OrInField(reg, value, offset, width);
  }

  /** Writing the same value twice is the same as writing it once. */
  lemma OrInIdempotent(reg: bv32, value: bv32, offset: bv32)
    requires offset < 32
    ensures OrIn(OrIn(reg, value, offset), value, offset) == OrIn(reg, value, offset)
  {
  }

  /**
   * Re-configuring with a second value leaves the OR of both values, not the
   * second value: the missing clear-before-set.
   */
  lemma OrInAccumulates(reg: bv32, v1: bv32, v2: bv32, offset: bv32, width: bv32)
    requires FieldFits(offset, width) && ValueFits(v1, width) && ValueFits(v2, width)
    ensures Field(OrIn(OrIn(reg, v1, offset), v2, offset), offset, width)
         == Field(reg, offset, width) | v1 | v2
  {
    if width == 1 {
      AccumulatesWidth1(reg, v1, v2, offset);
    } else if width == 2 {
      AccumulatesWidth2(reg, v1, v2, offset);
    } else {
      AccumulatesWidth4(reg, v1, v2, offset);
    }
  }

  lemma AccumulatesWidth1(reg: bv32, v1: bv32, v2: bv32, offset: bv32)
    requires offset <= 31 && v1 < 2 && v2 < 2
    ensures Field(OrIn(OrIn(reg, v1, offset), v2, offset), offset, 1) == Field(reg, offset, 1) | v1 | v2
  {
    FieldOrIn1(reg, v1, offset);
    FieldOrIn1(OrIn(reg, v1, offset), v2, offset);
  }

  lemma AccumulatesWidth2(reg: bv32, v1: bv32, v2: bv32, offset: bv32)
    requires offset <= 30 && v1 < 4 && v2 < 4
    ensures Field(OrIn(OrIn(reg, v1, offset), v2, offset), offset, 2) == Field(reg, offset, 2) | v1 | v2
  {
    FieldOrIn2(reg, v1, offset);
    FieldOrIn2(OrIn(reg, v1, offset), v2, offset);
  }

  lemma AccumulatesWidth4(reg: bv32, v1: bv32, v2: bv32, offset: bv32)
    requires offset <= 28 && v1 < 16 && v2 < 16
    ensures Field(OrIn(OrIn(reg, v1, offset), v2, offset), offset, 4) == Field(reg, offset, 4) | v1 | v2
  {
    FieldOrIn4(reg, v1, offset);
    FieldOrIn4(OrIn(reg, v1, offset), v2, offset);
  }

  // The field half of OrInWidth1/2/4 on its own, for proofs that chain merges.

  lemma FieldOrIn1(reg: bv32, value: bv32, offset: bv32)
    requires offset <= 31 && value < 2
    ensures Field(OrIn(reg, value, offset), offset, 1) == Field(reg, offset, 1) | value
  {
    OrInWidth1(reg, value, offset);
  }

  lemma FieldOrIn2(reg: bv32, value: bv32, offset: bv32)
    requires offset <= 30 && value < 4
    ensures Field(OrIn(reg, value, offset), offset, 2) == Field(reg, offset, 2) | value
  {
    OrInWidth2(reg, value, offset);
  }

  lemma FieldOrIn4(reg: bv32, value: bv32, offset: bv32)
    requires offset <= 28 && value < 16
    ensures Field(OrIn(reg, value, offset), offset, 4) == Field(reg, offset, 4) | value
  {
    OrInWidth4(reg, value, offset);
  }

  /** An OR-merge never clears a bit: whatever was set stays set. */
  lemma OrInNeverClears(reg: bv32, value: bv32, offset: bv32)
    requires offset < 32
    ensures OrIn(reg, value, offset) & reg == reg
  {
  }

  /** Writes to different offsets can be done in either order. */
  lemma OrInCommutes(reg: bv32, v1: bv32, o1: bv32, v2: bv32, o2: bv32)
    requires o1 < 32 && o2 < 32
    ensures OrIn(OrIn(reg, v1, o1), v2, o2) == OrIn(OrIn(reg, v2, o2), v1, o1)
  {
    var a, b := v1 << o1, v2 << o2;
    assert (reg | a) | b == (reg | b) | a;
  }

  /**
   * Without a range check a 2-bit value that does not fit spills into the
   * next pin's field: value 4 written at pin p's offset sets pin p+1's field
   * to 1 even when both fields were zero.
   */
  lemma OrInSpillsIntoNextField(reg: bv32, offset: bv32)
    requires offset <= 28
    requires Field(reg, offset, 2) == 0 && Field(reg, offset + 2, 2) == 0
    ensures Field(OrIn(reg, 4, offset), offset, 2) == 0
    ensures Field(OrIn(reg, 4, offset), offset + 2, 2) == 1
  {
  }
}
