/**
 * One pass of the LED command loop: receive a line over USART2, compare it
 * with the four commands the firmware knows, switch the named LED and send
 * a response.  The delay at the end of the pass is not modelled.
 */
module Command {
  import opened RegisterField
  import opened GpioDriver
  import opened Led
  import opened Uart

  /** What a command does to the LEDs. */
  datatype Action = NoAction | SwitchOn(colour: Colour) | SwitchOff(colour: Colour)

  /** The LED action and the response text of one command. */
  datatype Reply = Reply(action: Action, response: string)

  const OK_RESPONSE: string := "OK\n"
  const UNKNOWN_RESPONSE: string := "UNKNOWN COMMAND\n"

  /** The size of the command buffer in the loop. */
  const COMMAND_SIZE: int := 100

  /**
   * The dispatch chain: an exact, case-sensitive match against the four
   * known commands; anything else is unknown and touches no LED.
   */
  function Dispatch(command: string): (r: Reply)
    ensures r.action == SwitchOn(Orange) <==> command == "LED_ON orange"
    ensures r.action == SwitchOff(Orange) <==> command == "LED_OFF orange"
    ensures r.action == SwitchOn(Blue) <==> command == "LED_ON blue"
    ensures r.action == SwitchOff(Blue) <==> command == "LED_OFF blue"
    ensures r.action.SwitchOn? || r.action.SwitchOff? ==> r.action.colour in {Orange, Blue}
    ensures r.response == if r.action == NoAction then UNKNOWN_RESPONSE else OK_RESPONSE
  {
    if command == "LED_ON orange" then Reply(SwitchOn(Orange), OK_RESPONSE)
    else if command == "LED_OFF orange" then Reply(SwitchOff(Orange), OK_RESPONSE)
    else if command == "LED_ON blue" then Reply(SwitchOn(Blue), OK_RESPONSE)
    else if command == "LED_OFF blue" then Reply(SwitchOff(Blue), OK_RESPONSE)
    else Reply(NoAction, UNKNOWN_RESPONSE)
  }

  /** The command text that asks for an action on the orange or blue LED. */
  function CommandFor(action: Action): (command: string)
    requires action != NoAction && action.colour in {Orange, Blue}
  {
    (if action.SwitchOn? then "LED_ON " else "LED_OFF ")
      + (if action.colour == Orange then "orange" else "blue")
  }

  /** Every action the dispatcher can produce has a command, and that command produces it. */
  lemma DispatchCommandFor(action: Action)
    requires action != NoAction && action.colour in {Orange, Blue}
    ensures Dispatch(CommandFor(action)).action == action
    ensures Dispatch(CommandFor(action)).response == OK_RESPONSE
  {
  }

  /** Green and red have no command: asking for them is an unknown command. */
  lemma GreenAndRedAreUnknown()
    ensures Dispatch("LED_ON green") == Reply(NoAction, UNKNOWN_RESPONSE)
    ensures Dispatch("LED_OFF red") == Reply(NoAction, UNKNOWN_RESPONSE)
  {
  }

  /**
   * A command typed on a terminal arrives followed by a line end; the
   * receive strips it, so the command is recognised.
   */
  lemma TypedCommandIsRecognised(eol: char, rest: string)
    requires IsEol(eol)
    ensures Dispatch(CString(Line("LED_ON orange" + [eol] + rest, Room(COMMAND_SIZE))))
         == Reply(SwitchOn(Orange), OK_RESPONSE)
  {
    LineOfTerminated("LED_ON orange", eol, rest, Room(COMMAND_SIZE));
    CStringOfNulFree("LED_ON orange");
  }

  /** ODR after the LED call of an action. */
  function Apply(odr: bv32, action: Action, leds: LedPins): (applied: bv32)
    requires leds.Valid()
  {
    match action
    case NoAction => odr
    case SwitchOn(c) => WriteBit(odr, leds.Pin(c), 1)
    case SwitchOff(c) => WriteBit(odr, leds.Pin(c), 0)
  }

  /** A known command is the driver write of its level to its LED's pin. */
  lemma ApplyIsWriteBit(odr: bv32, action: Action, leds: LedPins)
    requires leds.Valid() && action != NoAction
    ensures Apply(odr, action, leds) == WriteBit(odr, leds.Pin(action.colour), if action.SwitchOn? then 1 else 0)
  {
  }

  /** An "on" command leaves its LED's ODR bit set. */
  lemma SwitchOnLightsLed(odr: bv32, c: Colour, leds: LedPins)
    requires leds.Valid()
    ensures Bit(Apply(odr, SwitchOn(c), leds), leds.Pin(c) as bv32)
  {
    WriteBitSetsPin(odr, leds.Pin(c), 1);
  }

  /** An "off" command leaves its LED's ODR bit clear. */
  lemma SwitchOffDarkensLed(odr: bv32, c: Colour, leds: LedPins)
    requires leds.Valid()
    ensures !Bit(Apply(odr, SwitchOff(c), leds), leds.Pin(c) as bv32)
  {
    WriteBitSetsPin(odr, leds.Pin(c), 0);
  }

  /** A known command changes no ODR bit but its LED's. */
  lemma ApplyKeepsOtherPins(odr: bv32, action: Action, leds: LedPins)
    requires leds.Valid() && action != NoAction
    ensures SameOutside(Apply(odr, action, leds), odr, leds.Pin(action.colour) as bv32, 1)
  {
    var pin, level := leds.Pin(action.colour), if action.SwitchOn? then 1 else 0;
    ApplyIsWriteBit(odr, action, leds);
    WriteBitKeepsOtherPins(odr, pin, level);
  }

  /**
   * One iteration of the command loop: receive into the 100-character
   * buffer, compare the buffer as a C string with each command in turn, make
   * the matching LED call, and send the response.  `sent` is what goes out
   * on the wire.
   */
  method ServeCommand(gpiod: GpioPort, leds: LedPins, command: array<char>, input: string)
    returns (consumed: nat, sent: string)
    requires command.Length == COMMAND_SIZE && leds.Valid()
    requires Arrives(input, Room(COMMAND_SIZE))
    modifies command, gpiod`ODR
    ensures CString(command[..]) == CString(Line(input, Room(COMMAND_SIZE)))
    ensures consumed == Consumed(input, Room(COMMAND_SIZE))
    ensures var reply := Dispatch(CString(Line(input, Room(COMMAND_SIZE))));
      gpiod.ODR == Apply(old(gpiod.ODR), reply.action, leds) && sent == reply.response
  {
    consumed := ReceiveString(command, COMMAND_SIZE, input);
    ghost var line := Line(input, Room(COMMAND_SIZE));
    assert command[..] == line + [NUL] + command[|line| + 1..];
    CStringStopsAtNul(line, command[|line| + 1..]);
    var text := CString(command[..]);
    sent := Respond(gpiod, leds, text);
  }

  /** The comparison chain of the loop and its LED call and response. */
  method Respond(gpiod: GpioPort, leds: LedPins, text: string) returns (sent: string)
    requires leds.Valid()
    modifies gpiod`ODR
    ensures gpiod.ODR == Apply(old(gpiod.ODR), Dispatch(text).action, leds)
    ensures sent == Dispatch(text).response
  {
    if text == "LED_ON orange" {
      SwitchLed(gpiod, leds, SwitchOn(Orange));
      sent := SendOk();
    } else if text == "LED_OFF orange" {
      SwitchLed(gpiod, leds, SwitchOff(Orange));
      sent := SendOk();
    } else if text == "LED_ON blue" {
      SwitchLed(gpiod, leds, SwitchOn(Blue));
      sent := SendOk();
    } else if text == "LED_OFF blue" {
      SwitchLed(gpiod, leds, SwitchOff(Blue));
      sent := SendOk();
    } else {
      CStringOfTerminated(UNKNOWN_RESPONSE, []);
      sent := SendString(UNKNOWN_RESPONSE + [NUL]);
    }
  }

  /** `led_turn_on` or `led_turn_off` on the LED an action names. */
  method SwitchLed(gpiod: GpioPort, leds: LedPins, action: Action)
    requires leds.Valid() && action != NoAction
    modifies gpiod`ODR
    ensures gpiod.ODR == Apply(old(gpiod.ODR), action, leds)
  {
    match action
    case SwitchOn(c) => TurnOn(gpiod, leds.Pin(c));
    case SwitchOff(c) => TurnOff(gpiod, leds.Pin(c));
  }

  /** `uart_send_string("OK\n")`. */
  method SendOk() returns (sent: string)
    ensures sent == OK_RESPONSE
  {
    CStringOfTerminated(OK_RESPONSE, []);
    sent := SendString(OK_RESPONSE + [NUL]);
  }
}
