/**
 * The GPIO port driver: configuration, read, write and alternate-function
 * selection for one pin of one port.
 *
 * A port is a set of memory-mapped 32-bit registers; here it is an object
 * whose fields are those registers and whose methods do the driver's
 * read-modify-write updates.  Every configuration write ORs the new value in
 * without clearing the field first, exactly as the driver does; the lemmas of
 * `RegisterField` say what that means for the field and its neighbours.
 * The driver checks no argument: where a C shift would be undefined (a shift
 * amount of 32 or more) the method requires the pin to be small enough.
 */
module GpioDriver {
  import opened RegisterField
  import opened GpioDefs

  /** Offset of a pin's 2-bit field in MODER, OSPEEDR and PUPDR. */
  function Offset2(pin: bv16): (offset: bv32)
    requires pin < 16
    ensures FieldFits(offset, 2) && offset % 2 == 0
  {
    (pin as bv32) << 1
  }

  /** The conversion of the record's 32-bit pin number to the helpers' 16-bit `pin_no`. */
  function U16(x: bv32): (r: bv16)
    ensures r as bv32 == x % 0x1_0000
  {
    (x & 0xFFFF) as bv16
  }

  /** Different pins have different 2-bit fields. */
  lemma Offset2Injective(p: bv16, q: bv16)
    requires p < 16 && q < 16 && p != q
    ensures Offset2(p) != Offset2(q)
  {
  }

  /** A 16-bit pin number survives the round trip through the record's 32-bit field. */
  lemma U16OfWidened(pin: bv16)
    ensures U16(pin as bv32) == pin
  {
  }

  /**
   * Bit offset of a pin's 4-bit alternate-function field inside the word the
   * driver picks for it: AFR[0] for pins up to 7, AFR[1] for every other pin.
   */
  function AfShift(pin: bv16): (shift: bv32)
    ensures FieldFits(shift, 4) && shift % 4 == 0
  {
    if pin <= 7 then (pin as bv32) << 2 else ((pin % 8) as bv32) << 2
  }

  /** Pins 8..15 use AFR[1] at offset 4 * (pin - 8); pins 0..7 use AFR[0] at 4 * pin. */
  lemma AfShiftSplit(pin: bv16)
    requires pin < 16
    ensures pin <= 7 ==> AfShift(pin) == 4 * (pin as bv32)
    ensures pin > 7 ==> AfShift(pin) == 4 * ((pin - 8) as bv32)
  {
  }

  /** The 16 pins of a port get 16 different (word, offset) slots. */
  lemma AfSlotsDistinct(p: bv16, q: bv16)
    requires p < 16 && q < 16 && p != q
    ensures (p <= 7) != (q <= 7) || AfShift(p) != AfShift(q)
  {
  }

  /**
   * Without a range check a pin number past 15 lands on a real pin's slot:
   * pin 16 writes pin 8's field of AFR[1].
   */
  lemma AfPin16AliasesPin8()
    ensures 16 > 7 && AfShift(16) == AfShift(8)
  {
  }

  /** The single-bit mask `1 << pin` the driver sets or clears in ODR. */
  function PinMask(pin: bv16): (mask: bv32)
    requires pin < 32
  {
    1 << (pin as bv32)
  }

  /** The level a `val` argument drives a pin to: 1 for any non-zero value. */
  function Level(val: bv8): (level: bv32)
  {
    if val != 0 then 1 else 0
  }

  /**
   * ODR after `hal_gpio_write_to_pin`, stated without the driver's branch:
   * the pin's bit is cleared and then receives the level of `val`.
   */
  function WriteBit(odr: bv32, pin: bv16, val: bv8): (written: bv32)
    requires pin < 32
  {
    (odr & !PinMask(pin)) | (Level(val) << (pin as bv32))
  }

  /** The driver's set branch (`val` non-zero) is `WriteBit`. */
  lemma SetBranchIsWriteBit(odr: bv32, pin: bv16, val: bv8)
    requires pin < 32 && val != 0
    ensures odr | PinMask(pin) == WriteBit(odr, pin, val)
  {
  }

  /** The driver's clear branch (`val` zero) is `WriteBit`. */
  lemma ClearBranchIsWriteBit(odr: bv32, pin: bv16, val: bv8)
    requires pin < 32 && val == 0
    ensures odr & !PinMask(pin) == WriteBit(odr, pin, val)
  {
  }

  /** After a write the pin reads back as the level written: set iff `val` is non-zero. */
  lemma WriteBitSetsPin(odr: bv32, pin: bv16, val: bv8)
    requires pin < 32
    ensures Bit(WriteBit(odr, pin, val), pin as bv32) <==> val != 0
  {
  }

  /** A write changes no ODR bit but the pin's own. */
  lemma WriteBitKeepsOtherPins(odr: bv32, pin: bv16, val: bv8)
    requires pin < 32
    ensures SameOutside(WriteBit(odr, pin, val), odr, pin as bv32, 1)
  {
    LevelInsideMask(pin, val);
    ClearThenOrKeepsOutside(odr, PinMask(pin), Level(val) << (pin as bv32));
    assert FieldMask(pin as bv32, 1) == PinMask(pin);
  }

  /** The level written lands inside the pin's mask. */
  lemma LevelInsideMask(pin: bv16, val: bv8)
    requires pin < 32
    ensures (Level(val) << (pin as bv32)) & !PinMask(pin) == 0
  {
  }

  /** Clearing a mask and OR-ing bits inside it leaves the bits outside it as they were. */
  lemma ClearThenOrKeepsOutside(reg: bv32, mask: bv32, bits: bv32)
    requires bits & !mask == 0
    ensures ((reg & !mask) | bits) & !mask == reg & !mask
  {
  }

  /** The same fact bit by bit: every other ODR bit reads as before the write. */
  lemma WriteBitKeepsOtherBit(odr: bv32, pin: bv16, val: bv8, k: bv32)
    requires pin < 32 && k < 32 && k != pin as bv32
    ensures Bit(WriteBit(odr, pin, val), k) == Bit(odr, k)
  {
  }

  /** Two writes to pins other than `k` leave bit `k` as it was. */
  lemma {:induction false} TwoWritesKeepOtherBit(odr: bv32, a: bv16, v: bv8, b: bv16, w: bv8, k: bv32)
    requires a < 32 && b < 32 && k < 32 && k != a as bv32 && k != b as bv32
    ensures Bit(WriteBit(WriteBit(odr, a, v), b, w), k) == Bit(odr, k)
  {
    WriteBitKeepsOtherBit(odr, a, v, k);
    WriteBitKeepsOtherBit(WriteBit(odr, a, v), b, w, k);
  }

  /** The last write to a pin wins: each write fixes the bit whatever it was. */
  lemma WriteBitLastWins(odr: bv32, pin: bv16, v1: bv8, v2: bv8)
    requires pin < 32
    ensures WriteBit(WriteBit(odr, pin, v1), pin, v2) == WriteBit(odr, pin, v2)
  {
  }

  /** Writing the same level twice is writing it once. */
  lemma {:induction false} WriteBitIdempotent(odr: bv32, pin: bv16, val: bv8)
    requires pin < 32
    ensures WriteBit(WriteBit(odr, pin, val), pin, val) == WriteBit(odr, pin, val)
  {
    WriteBitLastWins(odr, pin, val, val);
  }

  /** Writes to different pins commute: neither disturbs the other's bit. */
  lemma WriteBitsCommute(odr: bv32, p: bv16, v: bv8, q: bv16, w: bv8)
    requires p < 32 && q < 32 && p != q
    ensures WriteBit(WriteBit(odr, p, v), q, w) == WriteBit(WriteBit(odr, q, w), p, v)
  {
  }

  /** The register block of one GPIO port. */
  class GpioPort {
    var MODER: bv32
    var OTYPER: bv32
    var OSPEEDR: bv32
    var PUPDR: bv32
    var IDR: bv32
    var ODR: bv32
    var AFR0: bv32
    var AFR1: bv32

    /** `hal_gpio_configure_pin_mode`: OR `mode` into the pin's MODER field. */
    method ConfigurePinMode(pin: bv16, mode: bv32)
      requires pin < 16 && ValueFits(mode, 2)
      modifies this`MODER
      ensures MODER == OrIn(old(MODER), mode, Offset2(pin))
      ensures Field(MODER, Offset2(pin), 2) == Field(old(MODER), Offset2(pin), 2) | mode
      ensures SameOutside(MODER, old(MODER), Offset2(pin), 2)
    {
      OrInWidth2(MODER, mode, Offset2(pin));
      MODER := OrIn(MODER, mode, Offset2(pin));
    }

    /** `hal_gpio_configure_pin_otype`: OR `opType` into the pin's OTYPER bit. */
    method ConfigurePinOType(pin: bv16, opType: bv32)
      requires pin < 32 && ValueFits(opType, 1)
      modifies this`OTYPER
      ensures OTYPER == OrIn(old(OTYPER), opType, pin as bv32)
      ensures Field(OTYPER, pin as bv32, 1) == Field(old(OTYPER), pin as bv32, 1) | opType
      ensures SameOutside(OTYPER, old(OTYPER), pin as bv32, 1)
    {
      OrInWidth1(OTYPER, opType, pin as bv32);
      OTYPER := OrIn(OTYPER, opType, pin as bv32);
    }

    /** `hal_gpio_configure_pin_pupd`: OR `pupd` into the pin's PUPDR field. */
    method ConfigurePinPupd(pin: bv16, pupd: bv32)
      requires pin < 16 && ValueFits(pupd, 2)
      modifies this`PUPDR
      ensures PUPDR == OrIn(old(PUPDR), pupd, Offset2(pin))
      ensures Field(PUPDR, Offset2(pin), 2) == Field(old(PUPDR), Offset2(pin), 2) | pupd
      ensures SameOutside(PUPDR, old(PUPDR), Offset2(pin), 2)
    {
      OrInWidth2(PUPDR, pupd, Offset2(pin));
      PUPDR := OrIn(PUPDR, pupd, Offset2(pin));
    }

    /** `hal_gpio_configure_pin_speed`: OR `speed` into the pin's OSPEEDR field. */
    method ConfigurePinSpeed(pin: bv16, speed: bv32)
      requires pin < 16 && ValueFits(speed, 2)
      modifies this`OSPEEDR
      ensures OSPEEDR == OrIn(old(OSPEEDR), speed, Offset2(pin))
      ensures Field(OSPEEDR, Offset2(pin), 2) == Field(old(OSPEEDR), Offset2(pin), 2) | speed
      ensures SameOutside(OSPEEDR, old(OSPEEDR), Offset2(pin), 2)
    {
      OrInWidth2(OSPEEDR, speed, Offset2(pin));
      OSPEEDR := OrIn(OSPEEDR, speed, Offset2(pin));
    }

    /**
     * `hal_gpio_init`: mode, speed, output type and pull of `conf.pin`, each
     * OR-merged, in that order.  The `alternate` field is ignored; AFR[0],
     * AFR[1], ODR and IDR are left alone.
     */
    method Init(conf: PinConf)
      requires U16(conf.pin) < 16
      requires ValueFits(conf.mode, 2) && ValueFits(conf.speed, 2)
      requires ValueFits(conf.opType, 1) && ValueFits(conf.pull, 2)
      modifies this`MODER, this`OSPEEDR, this`OTYPER, this`PUPDR
      ensures MODER == OrIn(old(MODER), conf.mode, Offset2(U16(conf.pin)))
      ensures OSPEEDR == OrIn(old(OSPEEDR), conf.speed, Offset2(U16(conf.pin)))
      ensures OTYPER == OrIn(old(OTYPER), conf.opType, U16(conf.pin) as bv32)
      ensures PUPDR == OrIn(old(PUPDR), conf.pull, Offset2(U16(conf.pin)))
      ensures AFR0 == old(AFR0) && AFR1 == old(AFR1) && ODR == old(ODR) && IDR == old(IDR)
    {
      var pin := U16(conf.pin);
      ConfigurePinMode(pin, conf.mode);
      ConfigurePinSpeed(pin, conf.speed);
      ConfigurePinOType(pin, conf.opType);
      ConfigurePinPupd(pin, conf.pull);
    }

    /** `hal_gpio_read_from_pin`: bit `pin` of IDR, as 0 or 1; nothing changes. */
    method ReadFromPin(pin: bv16) returns (value: bv8)
      requires pin < 32
      ensures value <= 1
      ensures value == 1 <==> Bit(IDR, pin as bv32)
    {
      value := ((IDR >> (pin as bv32)) & 1) as bv8;
    }

    /** `hal_gpio_write_to_pin`: set ODR bit `pin` when `val` is non-zero, clear it otherwise. */
    method WriteToPin(pin: bv16, val: bv8)
      requires pin < 32
      modifies this`ODR
      ensures ODR == WriteBit(old(ODR), pin, val)
    {
      if val != 0 {
        SetBranchIsWriteBit(ODR, pin, val);
        ODR := ODR | PinMask(pin);
      } else {
        ClearBranchIsWriteBit(ODR, pin, val);
        ODR := ODR & !PinMask(pin);
      }
    }

    /**
     * `hal_gpio_set_alt_function`: OR `af` into the pin's 4-bit field of
     * AFR[0] (pins 0..7) or AFR[1] (pins 8..15); the other word stays.
     */
    method SetAltFunction(pin: bv16, af: bv16)
      requires pin < 16 && af < 16
      modifies this`AFR0, this`AFR1
      ensures pin <= 7 ==> AFR0 == OrIn(old(AFR0), af as bv32, AfShift(pin)) && AFR1 == old(AFR1)
      ensures pin > 7 ==> AFR1 == OrIn(old(AFR1), af as bv32, AfShift(pin)) && AFR0 == old(AFR0)
      ensures pin <= 7 ==>
        Field(AFR0, AfShift(pin), 4) == Field(old(AFR0), AfShift(pin), 4) | af as bv32
        && SameOutside(AFR0, old(AFR0), AfShift(pin), 4)
      ensures pin > 7 ==>
        Field(AFR1, AfShift(pin), 4) == Field(old(AFR1), AfShift(pin), 4) | af as bv32
        && SameOutside(AFR1, old(AFR1), AfShift(pin), 4)
    {
      if pin <= 7 {
        OrInWidth4(AFR0, af as bv32, AfShift(pin));
        AFR0 := OrIn(AFR0, af as bv32, AfShift(pin));
      } else {
        OrInWidth4(AFR1, af as bv32, AfShift(pin));
        AFR1 := OrIn(AFR1, af as bv32, AfShift(pin));
      }
    }
  }
}
