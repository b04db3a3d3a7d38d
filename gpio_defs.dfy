/**
 * Definitions shared by the GPIO driver and its clients: the numeric codes of
 * the pin attributes, the pin configuration record, and the RCC clock-enable
 * macros.  Both driver headers (the GPIO driver's and the copy used with the
 * UART project) define these identically.
 */
module GpioDefs {
  import opened RegisterField

  // Pin mode codes, one 2-bit MODER field per pin.
  const GPIO_PIN_INPUT_MODE: bv32 := 0x00
  const GPIO_PIN_OUTPUT_MODE: bv32 := 0x01
  const GPIO_PIN_ALT_FUN_MODE: bv32 := 0x02
  const GPIO_PIN_ANALOG_MODE: bv32 := 0x03

  // Output type codes, one OTYPER bit per pin.
  const GPIO_PIN_OP_TYPE_PUSHPULL: bv32 := 0x00
  const GPIO_PIN_OP_TYPE_OPEN_DRAIN: bv32 := 0x01

  // Output speed codes, one 2-bit OSPEEDR field per pin.
  const GPIO_PIN_SPEED_LOW: bv32 := 0x00
  const GPIO_PIN_SPEED_MED: bv32 := 0x01
  const GPIO_PIN_SPEED_FAST: bv32 := 0x02
  const GPIO_PIN_SPEED_HIGH: bv32 := 0x03

  // Pull-up / pull-down codes, one 2-bit PUPDR field per pin; 3 is not defined.
  const GPIO_PIN_NO_PUSH_PULL: bv32 := 0x00
  const GPIO_PIN_PULL_UP: bv32 := 0x01
  const GPIO_PIN_PULL_DOWN: bv32 := 0x02

  /** The four mode codes are distinct and each fits the 2-bit MODER field. */
  lemma ModeCodesFitField()
    ensures forall c | c in [GPIO_PIN_INPUT_MODE, GPIO_PIN_OUTPUT_MODE,
                             GPIO_PIN_ALT_FUN_MODE, GPIO_PIN_ANALOG_MODE] :: ValueFits(c, 2)
    ensures |{GPIO_PIN_INPUT_MODE, GPIO_PIN_OUTPUT_MODE, GPIO_PIN_ALT_FUN_MODE, GPIO_PIN_ANALOG_MODE}| == 4
  {
  }

  /** The two output-type codes are distinct and fit the 1-bit OTYPER field. */
  lemma OutputTypeCodesFitField()
    ensures ValueFits(GPIO_PIN_OP_TYPE_PUSHPULL, 1) && ValueFits(GPIO_PIN_OP_TYPE_OPEN_DRAIN, 1)
    ensures GPIO_PIN_OP_TYPE_PUSHPULL != GPIO_PIN_OP_TYPE_OPEN_DRAIN
  {
  }

  /** The four speed codes are distinct and each fits the 2-bit OSPEEDR field. */
  lemma SpeedCodesFitField()
    ensures forall c | c in [GPIO_PIN_SPEED_LOW, GPIO_PIN_SPEED_MED,
                             GPIO_PIN_SPEED_FAST, GPIO_PIN_SPEED_HIGH] :: ValueFits(c, 2)
    ensures |{GPIO_PIN_SPEED_LOW, GPIO_PIN_SPEED_MED, GPIO_PIN_SPEED_FAST, GPIO_PIN_SPEED_HIGH}| == 4
  {
  }

  /** The three pull codes are distinct, fit PUPDR's 2 bits, and none is 3. */
  lemma PullCodesFitField()
    ensures forall c | c in [GPIO_PIN_NO_PUSH_PULL, GPIO_PIN_PULL_UP, GPIO_PIN_PULL_DOWN] ::
      ValueFits(c, 2) && c != 3
    ensures |{GPIO_PIN_NO_PUSH_PULL, GPIO_PIN_PULL_UP, GPIO_PIN_PULL_DOWN}| == 3
  {
  }

  /**
   * The configuration an application fills in for one pin (every field a
   * 32-bit unsigned word in the source).
   */
  datatype PinConf = PinConf(
    pin: bv32,
    mode: bv32,
    opType: bv32,
    pull: bv32,
    speed: bv32,
    alternate: bv32)

  /** The GPIO ports of the device. */
  datatype PortName = PortA | PortB | PortC | PortD | PortE | PortH

  /** The AHB1ENR bit that gates a port's clock. */
  function ClockBit(port: PortName): (b: bv32)
    ensures b < 8 && b != 5 && b != 6
    ensures port == PortH <==> b == 7
  {
    match port
    case PortA => 0
    case PortB => 1
    case PortC => 2
    case PortD => 3
    case PortE => 4
    case PortH => 7
  }

  /** Each port has its own clock-enable bit. */
  lemma ClockBitsDistinct(p: PortName, q: PortName)
    ensures ClockBit(p) == ClockBit(q) <==> p == q
  {
  }

  /** Enabling a clock sets its bit and changes no other AHB1ENR bit. */
  lemma ClockEnableSetsOnlyItsBit(ahb1enr: bv32, port: PortName)
    ensures Bit(OrIn(ahb1enr, 1, ClockBit(port)), ClockBit(port))
    ensures SameOutside(OrIn(ahb1enr, 1, ClockBit(port)), ahb1enr, ClockBit(port), 1)
  {
    OrInWidth1(ahb1enr, 1, ClockBit(port));
  }

  /** Clock-enable requests for two ports can be issued in either order. */
  lemma ClockEnablesCommute(ahb1enr: bv32, p: PortName, q: PortName)
    ensures OrIn(OrIn(ahb1enr, 1, ClockBit(p)), 1, ClockBit(q))
         == OrIn(OrIn(ahb1enr, 1, ClockBit(q)), 1, ClockBit(p))
  {
    OrInCommutes(ahb1enr, 1, ClockBit(p), 1, ClockBit(q));
  }

  /** The reset and clock controller, reduced to the two enable registers used here. */
  class Rcc {
    var AHB1ENR: bv32
    var APB1ENR: bv32

    /** `_HAL_RCC_GPIOx_CLK_ENABLE()`: OR the port's bit into AHB1ENR. */
    method EnableGpioClock(port: PortName)
      modifies this`AHB1ENR
      ensures AHB1ENR == OrIn(old(AHB1ENR), 1, ClockBit(port))
      ensures Bit(AHB1ENR, ClockBit(port))
      ensures SameOutside(AHB1ENR, old(AHB1ENR), ClockBit(port), 1)
    {
      ClockEnableSetsOnlyItsBit(AHB1ENR, port);
      AHB1ENR := AHB1ENR | (1 << ClockBit(port));
    }
  }
}
