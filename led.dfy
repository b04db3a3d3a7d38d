/**
 * The LED layer on top of the GPIO driver: four LEDs on port D, configured
 * once as push-pull outputs and then switched through ODR.
 *
 * The LED pin numbers come from the board header, which is not part of this
 * model; they are a parameter here, required to be distinct pins of the port.
 */
module Led {
  import opened RegisterField
  import opened GpioDefs
  import opened GpioDriver

  /** The four LEDs of the board. */
  datatype Colour = Orange | Blue | Green | Red

  /** The port-D pin of each LED. */
  datatype LedPins = LedPins(orange: bv16, blue: bv16, green: bv16, red: bv16)
  {
    function Pin(c: Colour): (pin: bv16)
    {
      match c
      case Orange => orange
      case Blue => blue
      case Green => green
      case Red => red
    }

    /** Four different pins of a 16-pin port. */
    predicate Valid()
    {
      orange < 16 && blue < 16 && green < 16 && red < 16
      && orange != blue && orange != green && orange != red
      && blue != green && blue != red && green != red
    }
  }

  /**
   * The record `led_init` fills in for one LED: output, push-pull, medium
   * speed, no pull.  It never sets `alternate`, so that field holds whatever
   * the stack held (`stale`).
   */
  function LedConf(pin: bv16, stale: bv32): (conf: PinConf)
    ensures conf.pin == pin as bv32 && conf.alternate == stale
    ensures conf.mode == GPIO_PIN_OUTPUT_MODE && conf.opType == GPIO_PIN_OP_TYPE_PUSHPULL
    ensures conf.speed == GPIO_PIN_SPEED_MED && conf.pull == GPIO_PIN_NO_PUSH_PULL
  {
    PinConf(pin as bv32, GPIO_PIN_OUTPUT_MODE, GPIO_PIN_OP_TYPE_PUSHPULL,
            GPIO_PIN_NO_PUSH_PULL, GPIO_PIN_SPEED_MED, stale)
  }

  /** A 2-bit-per-pin register after `value` is OR-merged for the four LEDs, in `led_init`'s order. */
  function Spread2(reg: bv32, value: bv32, leds: LedPins): (spread: bv32)
    requires leds.Valid()
  {
    OrIn(OrIn(OrIn(OrIn(reg, value, Offset2(leds.orange)), value, Offset2(leds.blue)),
              value, Offset2(leds.green)), value, Offset2(leds.red))
  }

  /** A 1-bit-per-pin register after `value` is OR-merged for the four LEDs, in `led_init`'s order. */
  function Spread1(reg: bv32, value: bv32, leds: LedPins): (spread: bv32)
    requires leds.Valid()
  {
    OrIn(OrIn(OrIn(OrIn(reg, value, leds.orange as bv32), value, leds.blue as bv32),
              value, leds.green as bv32), value, leds.red as bv32)
  }

  /** Distinct LED pins have distinct 2-bit fields. */
  lemma LedOffsetsDistinct(leds: LedPins)
    requires leds.Valid()
    ensures Offset2(leds.orange) != Offset2(leds.blue) && Offset2(leds.orange) != Offset2(leds.green)
    ensures Offset2(leds.orange) != Offset2(leds.red) && Offset2(leds.blue) != Offset2(leds.green)
    ensures Offset2(leds.blue) != Offset2(leds.red) && Offset2(leds.green) != Offset2(leds.red)
  {
    Offset2Injective(leds.orange, leds.blue);
    Offset2Injective(leds.orange, leds.green);
    Offset2Injective(leds.orange, leds.red);
    Offset2Injective(leds.blue, leds.green);
    Offset2Injective(leds.blue, leds.red);
    Offset2Injective(leds.green, leds.red);
  }

  /** Each LED's own 2-bit field receives `value` by OR; the other three writes miss it. */
  lemma {:induction false} Spread2LedField(reg: bv32, value: bv32, leds: LedPins, c: Colour)
    requires leds.Valid() && value < 4
    ensures Field(Spread2(reg, value, leds), Offset2(leds.Pin(c)), 2)
         == Field(reg, Offset2(leds.Pin(c)), 2) | value
  {
    match c
    case Orange => Spread2OrangeField(reg, value, leds);
    case Blue => Spread2BlueField(reg, value, leds);
    case Green => Spread2GreenField(reg, value, leds);
    case Red => Spread2RedField(reg, value, leds);
  }

  // Spread2LedField one colour at a time: the colour's own write hits its
  // field, the other three miss it.

  lemma {:induction false} Spread2OrangeField(reg: bv32, value: bv32, leds: LedPins)
    requires leds.Valid() && value < 4
    ensures Field(Spread2(reg, value, leds), Offset2(leds.orange), 2)
         == Field(reg, Offset2(leds.orange), 2) | value
  {
    var o, b, g, r := Offset2(leds.orange), Offset2(leds.blue), Offset2(leds.green), Offset2(leds.red);
    var r1 := OrIn(reg, value, o);
    var r2 := OrIn(r1, value, b);
    var r3 := OrIn(r2, value, g);
    LedOffsetsDistinct(leds);
    FieldOrIn2(reg, value, o);
    OtherFieldWidth2(r1, value, b, o);
    OtherFieldWidth2(r2, value, g, o);
    OtherFieldWidth2(r3, value, r, o);
  }

  lemma {:induction false} Spread2BlueField(reg: bv32, value: bv32, leds: LedPins)
    requires leds.Valid() && value < 4
    ensures Field(Spread2(reg, value, leds), Offset2(leds.blue), 2)
         == Field(reg, Offset2(leds.blue), 2) | value
  {
    var o, b, g, r := Offset2(leds.orange), Offset2(leds.blue), Offset2(leds.green), Offset2(leds.red);
    var r1 := OrIn(reg, value, o);
    var r2 := OrIn(r1, value, b);
    var r3 := OrIn(r2, value, g);
    LedOffsetsDistinct(leds);
    OtherFieldWidth2(reg, value, o, b);
    FieldOrIn2(r1, value, b);
    OtherFieldWidth2(r2, value, g, b);
    OtherFieldWidth2(r3, value, r, b);
  }

  lemma {:induction false} Spread2GreenField(reg: bv32, value: bv32, leds: LedPins)
    requires leds.Valid() && value < 4
    ensures Field(Spread2(reg, value, leds), Offset2(leds.green), 2)
         == Field(reg, Offset2(leds.green), 2) | value
  {
    var o, b, g, r := Offset2(leds.orange), Offset2(leds.blue), Offset2(leds.green), Offset2(leds.red);
    var r1 := OrIn(reg, value, o);
    var r2 := OrIn(r1, value, b);
    var r3 := OrIn(r2, value, g);
    LedOffsetsDistinct(leds);
    OtherFieldWidth2(reg, value, o, g);
    OtherFieldWidth2(r1, value, b, g);
    FieldOrIn2(r2, value, g);
    OtherFieldWidth2(r3, value, r, g);
  }

  lemma {:induction false} Spread2RedField(reg: bv32, value: bv32, leds: LedPins)
    requires leds.Valid() && value < 4
    ensures Field(Spread2(reg, value, leds), Offset2(leds.red), 2)
         == Field(reg, Offset2(leds.red), 2) | value
  {
    var o, b, g, r := Offset2(leds.orange), Offset2(leds.blue), Offset2(leds.green), Offset2(leds.red);
    var r1 := OrIn(reg, value, o);
    var r2 := OrIn(r1, value, b);
    var r3 := OrIn(r2, value, g);
    LedOffsetsDistinct(leds);
    OtherFieldWidth2(reg, value, o, r);
    OtherFieldWidth2(r1, value, b, r);
    OtherFieldWidth2(r2, value, g, r);
    FieldOrIn2(r3, value, r);
  }

  /** The 2-bit field of a pin that carries no LED is not touched. */
  lemma {:induction false} Spread2OtherField(reg: bv32, value: bv32, leds: LedPins, pin: bv16)
    requires leds.Valid() && value < 4 && pin < 16
    requires pin != leds.orange && pin != leds.blue && pin != leds.green && pin != leds.red
    ensures Field(Spread2(reg, value, leds), Offset2(pin), 2) == Field(reg, Offset2(pin), 2)
  {
    var r1 := OrIn(reg, value, Offset2(leds.orange));
    var r2 := OrIn(r1, value, Offset2(leds.blue));
    var r3 := OrIn(r2, value, Offset2(leds.green));
    Offset2Injective(pin, leds.orange);
    Offset2Injective(pin, leds.blue);
    Offset2Injective(pin, leds.green);
    Offset2Injective(pin, leds.red);
    OtherFieldWidth2(reg, value, Offset2(leds.orange), Offset2(pin));
    OtherFieldWidth2(r1, value, Offset2(leds.blue), Offset2(pin));
    OtherFieldWidth2(r2, value, Offset2(leds.green), Offset2(pin));
    OtherFieldWidth2(r3, value, Offset2(leds.red), Offset2(pin));
  }

  /**
   * Push-pull and no-pull are code 0, so `led_init`'s OR-merges leave OTYPER
   * and PUPDR exactly as they were: a stale open-drain bit or pull setting on
   * an LED pin survives initialisation.
   */
  lemma {:induction false} LedInitKeepsTypeAndPull(otyper: bv32, pupdr: bv32, leds: LedPins)
    requires leds.Valid()
    ensures Spread1(otyper, GPIO_PIN_OP_TYPE_PUSHPULL, leds) == otyper
    ensures Spread2(pupdr, GPIO_PIN_NO_PUSH_PULL, leds) == pupdr
  {
    OrInZero(otyper, leds.orange as bv32);
    OrInZero(otyper, leds.blue as bv32);
    OrInZero(otyper, leds.green as bv32);
    OrInZero(otyper, leds.red as bv32);
    OrInZero(pupdr, Offset2(leds.orange));
    OrInZero(pupdr, Offset2(leds.blue));
    OrInZero(pupdr, Offset2(leds.green));
    OrInZero(pupdr, Offset2(leds.red));
  }

  /**
   * From registers whose LED fields are clear (as after reset), `led_init`
   * leaves every LED pin in output mode at medium speed, push-pull, no pull.
   */
  lemma {:induction false} LedInitFromReset(moder: bv32, ospeedr: bv32, otyper: bv32, pupdr: bv32,
                                            leds: LedPins, c: Colour)
    requires leds.Valid()
    requires Field(moder, Offset2(leds.Pin(c)), 2) == 0 && Field(ospeedr, Offset2(leds.Pin(c)), 2) == 0
    requires Field(otyper, leds.Pin(c) as bv32, 1) == 0 && Field(pupdr, Offset2(leds.Pin(c)), 2) == 0
    ensures Field(Spread2(moder, GPIO_PIN_OUTPUT_MODE, leds), Offset2(leds.Pin(c)), 2) == GPIO_PIN_OUTPUT_MODE
    ensures Field(Spread2(ospeedr, GPIO_PIN_SPEED_MED, leds), Offset2(leds.Pin(c)), 2) == GPIO_PIN_SPEED_MED
    ensures Field(Spread1(otyper, GPIO_PIN_OP_TYPE_PUSHPULL, leds), leds.Pin(c) as bv32, 1)
         == GPIO_PIN_OP_TYPE_PUSHPULL
    ensures Field(Spread2(pupdr, GPIO_PIN_NO_PUSH_PULL, leds), Offset2(leds.Pin(c)), 2) == GPIO_PIN_NO_PUSH_PULL
  {
    Spread2LedField(moder, GPIO_PIN_OUTPUT_MODE, leds, c);
    Spread2LedField(ospeedr, GPIO_PIN_SPEED_MED, leds, c);
    LedInitKeepsTypeAndPull(otyper, pupdr, leds);
  }

  /**
   * `led_init`: enable port D's clock, then `hal_gpio_init` the orange, blue,
   * green and red pins with the same record.
   */
  method LedInit(rcc: Rcc, gpiod: GpioPort, leds: LedPins, stale: bv32)
    requires leds.Valid()
    modifies rcc`AHB1ENR, gpiod`MODER, gpiod`OSPEEDR, gpiod`OTYPER, gpiod`PUPDR
    ensures rcc.AHB1ENR == OrIn(old(rcc.AHB1ENR), 1, ClockBit(PortD))
    ensures gpiod.MODER == Spread2(old(gpiod.MODER), GPIO_PIN_OUTPUT_MODE, leds)
    ensures gpiod.OSPEEDR == Spread2(old(gpiod.OSPEEDR), GPIO_PIN_SPEED_MED, leds)
    ensures gpiod.OTYPER == Spread1(old(gpiod.OTYPER), GPIO_PIN_OP_TYPE_PUSHPULL, leds)
    ensures gpiod.PUPDR == Spread2(old(gpiod.PUPDR), GPIO_PIN_NO_PUSH_PULL, leds)
    ensures gpiod.ODR == old(gpiod.ODR) && gpiod.IDR == old(gpiod.IDR)
    ensures gpiod.AFR0 == old(gpiod.AFR0) && gpiod.AFR1 == old(gpiod.AFR1)
  {
    rcc.EnableGpioClock(PortD);
    InitLedPin(gpiod, leds.orange, stale);
    InitLedPin(gpiod, leds.blue, stale);
    InitLedPin(gpiod, leds.green, stale);
    InitLedPin(gpiod, leds.red, stale);
  }

  /** One of `led_init`'s `hal_gpio_init` calls, with the LED record for `pin`. */
  method InitLedPin(gpiod: GpioPort, pin: bv16, stale: bv32)
    requires pin < 16
    modifies gpiod`MODER, gpiod`OSPEEDR, gpiod`OTYPER, gpiod`PUPDR
    ensures gpiod.MODER == OrIn(old(gpiod.MODER), GPIO_PIN_OUTPUT_MODE, Offset2(pin))
    ensures gpiod.OSPEEDR == OrIn(old(gpiod.OSPEEDR), GPIO_PIN_SPEED_MED, Offset2(pin))
    ensures gpiod.OTYPER == OrIn(old(gpiod.OTYPER), GPIO_PIN_OP_TYPE_PUSHPULL, pin as bv32)
    ensures gpiod.PUPDR == OrIn(old(gpiod.PUPDR), GPIO_PIN_NO_PUSH_PULL, Offset2(pin))
    ensures gpiod.ODR == old(gpiod.ODR) && gpiod.IDR == old(gpiod.IDR)
    ensures gpiod.AFR0 == old(gpiod.AFR0) && gpiod.AFR1 == old(gpiod.AFR1)
  {
    U16OfWidened(pin);
    gpiod.Init(LedConf(pin, stale));
  }

  /** `led_turn_on`: write 1 to the pin. */
  method TurnOn(gpio: GpioPort, pin: bv16)
    requires pin < 32
    modifies gpio`ODR
    ensures gpio.ODR == WriteBit(old(gpio.ODR), pin, 1)
    ensures Bit(gpio.ODR, pin as bv32) && SameOutside(gpio.ODR, old(gpio.ODR), pin as bv32, 1)
  {
    WriteBitSetsPin(gpio.ODR, pin, 1);
    WriteBitKeepsOtherPins(gpio.ODR, pin, 1);
    gpio.WriteToPin(pin, 1);
  }

  /** `led_turn_off`: write 0 to the pin. */
  method TurnOff(gpio: GpioPort, pin: bv16)
    requires pin < 32
    modifies gpio`ODR
    ensures gpio.ODR == WriteBit(old(gpio.ODR), pin, 0)
    ensures !Bit(gpio.ODR, pin as bv32) && SameOutside(gpio.ODR, old(gpio.ODR), pin as bv32, 1)
  {
    WriteBitSetsPin(gpio.ODR, pin, 0);
    WriteBitKeepsOtherPins(gpio.ODR, pin, 0);
    gpio.WriteToPin(pin, 0);
  }

  /**
   * `led_toggle`: read the pin's input bit and write its complement.  The
   * level written is decided by IDR, not by the ODR bit being replaced.
   */
  method Toggle(gpio: GpioPort, pin: bv16)
    requires pin < 32
    modifies gpio`ODR
    ensures gpio.ODR == WriteBit(old(gpio.ODR), pin, if Bit(gpio.IDR, pin as bv32) then 0 else 1)
    ensures Bit(gpio.ODR, pin as bv32) <==> !Bit(gpio.IDR, pin as bv32)
    ensures SameOutside(gpio.ODR, old(gpio.ODR), pin as bv32, 1)
  {
    var written: bv8 := if Bit(gpio.IDR, pin as bv32) then 0 else 1;
    WriteBitSetsPin(gpio.ODR, pin, written);
    WriteBitKeepsOtherPins(gpio.ODR, pin, written);
    var level := gpio.ReadFromPin(pin);
    if level != 0 {
      gpio.WriteToPin(pin, 0);
    } else {
      gpio.WriteToPin(pin, 1);
    }
  }

  /**
   * One pass of the blink loop: orange and blue on, (delay), orange and blue
   * off, (delay).  `lit` is ODR during the first delay.
   */
  method BlinkPass(gpiod: GpioPort, leds: LedPins) returns (lit: bv32)
    requires leds.Valid()
    modifies gpiod`ODR
    ensures lit == WriteBit(WriteBit(old(gpiod.ODR), leds.orange, 1), leds.blue, 1)
    ensures gpiod.ODR == WriteBit(WriteBit(lit, leds.orange, 0), leds.blue, 0)
    ensures gpiod.ODR == WriteBit(WriteBit(old(gpiod.ODR), leds.orange, 0), leds.blue, 0)
  {
    BlinkPassRestores(gpiod.ODR, leds.orange, leds.blue);
    TurnOn(gpiod, leds.orange);
    TurnOn(gpiod, leds.blue);
    lit := gpiod.ODR;
    TurnOff(gpiod, leds.orange);
    TurnOff(gpiod, leds.blue);
  }

  /**
   * Switching two different LEDs on and then off again is the same as just
   * switching them off: the pass ends with both bits clear and every other
   * ODR bit as it was before the pass.
   */
  lemma {:induction false} BlinkPassRestores(odr: bv32, a: bv16, b: bv16)
    requires a < 32 && b < 32 && a != b
    ensures WriteBit(WriteBit(WriteBit(WriteBit(odr, a, 1), b, 1), a, 0), b, 0)
         == WriteBit(WriteBit(odr, a, 0), b, 0)
  {
    var onA := WriteBit(odr, a, 1);
    WriteBitsCommute(onA, b, 1, a, 0);
    WriteBitLastWins(odr, a, 1, 0);
    WriteBitLastWins(WriteBit(odr, a, 0), b, 1, 0);
  }

  /** After a blink pass both LEDs are dark. */
  lemma {:induction false} BlinkPassEndsDark(odr: bv32, a: bv16, b: bv16)
    requires a < 32 && b < 32 && a != b
    ensures !Bit(WriteBit(WriteBit(odr, a, 0), b, 0), a as bv32)
    ensures !Bit(WriteBit(WriteBit(odr, a, 0), b, 0), b as bv32)
  {
    WriteBitsCommute(odr, a, 0, b, 0);
    WriteBitSetsPin(WriteBit(odr, b, 0), a, 0);
    WriteBitSetsPin(WriteBit(odr, a, 0), b, 0);
  }

  /** A blink pass leaves every ODR bit other than the two LEDs' as it was before the pass. */
  lemma {:induction false} BlinkPassKeepsOtherBits(odr: bv32, a: bv16, b: bv16, k: bv32)
    requires a < 32 && b < 32 && k < 32 && k != a as bv32 && k != b as bv32
    ensures Bit(WriteBit(WriteBit(odr, a, 0), b, 0), k) == Bit(odr, k)
  {
    TwoWritesKeepOtherBit(odr, a, 0, b, 0, k);
  }
}
