# STM32F411 GPIO driver and its LED / UART clients, modelled in Dafny

The firmware drives the GPIO ports of an STM32F411 by read-modify-write on
32-bit port registers.  MODER, OSPEEDR and PUPDR hold a 2-bit field per pin,
OTYPER and ODR one bit per pin, IDR one (read-only) bit per pin, and AFR[0] /
AFR[1] a 4-bit alternate-function field per pin, pins 0-7 in the first word
and 8-15 in the second.  Every configuration write merges by OR
(`reg |= value << offset`) and never clears the field first; only the ODR
write clears a bit (`&= ~(1 << pin)`).

On top of the driver sit an LED layer (four pins of port D configured as
medium-speed push-pull outputs, switched on, off and toggled through ODR), a
blink loop, a polled USART2 driver (send a C string, receive a line into a
buffer, set up clocks, pins, baud rate and control register) and a command
loop that switches the orange and blue LEDs on exact-match text commands.

Files:

- `register_field.dfy` (module `RegisterField`): fields of a `bv32` word,
  the OR-merge `OrIn`, and what it does to its own field and to every other bit.
- `gpio_defs.dfy` (`GpioDefs`): the attribute codes, the pin configuration
  record, the port clock-enable bits and class `Rcc`.
- `gpio_driver.dfy` (`GpioDriver`): class `GpioPort` with the eight
  register words and one method per driver function; the ODR write as the
  pure `WriteBit`, and the alternate-function slot `AfShift`.
- `led.dfy` (`Led`): the LED layer and one pass of the blink loop.
- `uart.dfy` (`Uart`): send, receive and the USART2 set-up.
- `command.dfy` (`Command`): the command dispatcher and one pass of the command loop.

Registers are `bv32` fields that the methods reassign; each method's
`modifies` clause names the registers the C function may write, and its
`ensures` state which of them keep their value on each path (for example,
`SetAltFunction` may write either AF word, and keeps the one the pin does
not select).  The
UART input is an abstract character sequence, the UART output the sequence of
characters written to the data register.

## Model

| member | source | states |
|---|---|---|
| RegisterField.OrIn | STM32F411VET6_GPIO_and_UART/hal_gpio_driver.c:21 | defines the driver's read-modify-write (also at lines 36, 53, 72, 161 and 173) `reg \| (value << offset)`; its properties are the OrIn lemmas below |
| RegisterField.OrInField | STM32F411VET6_GPIO_and_UART/hal_gpio_driver.c:21 | a value that fits its field is OR-merged into it: new field == old field \| value |
| RegisterField.OrInKeepsOutside | STM32F411VET6_GPIO_and_UART/hal_gpio_driver.c:21 | a value that fits its field changes no bit outside that field |
| RegisterField.OrInLeavesOtherField | STM32F411VET6_GPIO_and_UART/hal_gpio_driver.c:53 | a fitting write leaves every other aligned field of the register unchanged |
| RegisterField.OrInWidth1 | STM32F411VET6_GPIO_and_UART/hal_gpio_driver.c:36 | 1-bit field write: field becomes old \| value, nothing outside changes |
| RegisterField.OrInWidth2 | STM32F411VET6_GPIO_and_UART/hal_gpio_driver.c:53 | 2-bit field write: field becomes old \| value, nothing outside changes |
| RegisterField.OrInWidth4 | STM32F411VET6_GPIO_and_UART/hal_gpio_driver.c:161 | 4-bit field write: field becomes old \| value, nothing outside changes |
| RegisterField.OtherFieldWidth1 | STM32F411VET6_GPIO_and_UART/hal_gpio_driver.c:36 | a 1-bit write leaves every other bit's field alone |
| RegisterField.OtherFieldWidth2 | STM32F411VET6_GPIO_and_UART/hal_gpio_driver.c:72 | a 2-bit write at an even offset leaves every other 2-bit field alone |
| RegisterField.OtherFieldWidth4 | STM32F411VET6_GPIO_and_UART/hal_gpio_driver.c:173 | a 4-bit write at a multiple of 4 leaves every other 4-bit field alone |
| RegisterField.OrInZero | STM32F411VET6_GPIO_and_UART/hal_gpio_driver.c:36 | OR-merging the value 0 leaves the register as it was |
| RegisterField.OrInFromZero | STM32F411VET6_GPIO_and_UART/hal_gpio_driver.c:21 | from a zero field the merge leaves exactly the value |
| RegisterField.OrInReplacesIff | STM32F411VET6_GPIO_and_UART/hal_gpio_driver.c:21 | the merge acts as a replacement iff the old field holds no bit the value lacks |
| RegisterField.OrInIdempotent | STM32F411VET6_GPIO_and_UART/hal_gpio_driver.c:72 | writing the same value twice equals writing it once |
| RegisterField.OrInAccumulates | STM32F411VET6_GPIO_and_UART/hal_gpio_driver.c:21 | two writes to one field leave old \| v1 \| v2, not the second value |
| RegisterField.AccumulatesWidth1 | STM32F411VET6_GPIO_and_UART/hal_gpio_driver.c:36 | as OrInAccumulates, for the 1-bit OTYPER field |
| RegisterField.AccumulatesWidth2 | STM32F411VET6_GPIO_and_UART/hal_gpio_driver.c:53 | as OrInAccumulates, for the 2-bit fields |
| RegisterField.AccumulatesWidth4 | STM32F411VET6_GPIO_and_UART/hal_gpio_driver.c:161 | as OrInAccumulates, for the 4-bit AF fields |
| RegisterField.FieldOrIn1 | STM32F411VET6_GPIO_and_UART/hal_gpio_driver.c:36 | 1-bit field after a merge is old \| value |
| RegisterField.FieldOrIn2 | STM32F411VET6_GPIO_and_UART/hal_gpio_driver.c:72 | 2-bit field after a merge is old \| value |
| RegisterField.FieldOrIn4 | STM32F411VET6_GPIO_and_UART/hal_gpio_driver.c:173 | 4-bit field after a merge is old \| value |
| RegisterField.OrInNeverClears | STM32F411VET6_GPIO_and_UART/hal_gpio_driver.c:21 | a merge never clears a bit that was set |
| RegisterField.OrInCommutes | STM32F411VET6_GPIO_and_UART/led.c:24-34 | merges into one register at any two offsets can be done in either order, as led_init's four hal_gpio_init calls and the clock-enable macros do |
| RegisterField.OrInSpillsIntoNextField | STM32F411VET6_GPIO_and_UART/hal_gpio_driver.c:21 | without a range check, mode value 4 leaves pin p's field 0 and sets pin p+1's field to 1 |
| GpioDefs.ModeCodesFitField | STM32F411VET6_GPIO_DRIVER/hal_gpio_driver.h:15-18 | the four mode codes are distinct and fit the 2-bit MODER field |
| GpioDefs.OutputTypeCodesFitField | STM32F411VET6_GPIO_DRIVER/hal_gpio_driver.h:22-23 | the two output-type codes are distinct and fit the 1-bit OTYPER field |
| GpioDefs.SpeedCodesFitField | STM32F411VET6_GPIO_DRIVER/hal_gpio_driver.h:27-30 | the four speed codes are distinct and fit the 2-bit OSPEEDR field |
| GpioDefs.PullCodesFitField | STM32F411VET6_GPIO_and_UART/gpio_driver.h:34-36 | the three pull codes are distinct, fit 2 bits, and code 3 is never defined |
| GpioDefs.ClockBit | STM32F411VET6_GPIO_DRIVER/hal_gpio_driver.h:48-53 | each port's AHB1ENR enable bit is below 8, bit 7 exactly for port H, bits 5 and 6 unused |
| GpioDefs.ClockBitsDistinct | STM32F411VET6_GPIO_and_UART/gpio_driver.h:48-53 | two ports share an enable bit iff they are the same port |
| GpioDefs.ClockEnableSetsOnlyItsBit | STM32F411VET6_GPIO_DRIVER/hal_gpio_driver.h:48-53 | a clock enable sets its port's bit and changes no other AHB1ENR bit |
| GpioDefs.ClockEnablesCommute | STM32F411VET6_GPIO_and_UART/gpio_driver.h:48-53 | enabling two ports' clocks gives the same AHB1ENR in either order |
| GpioDefs.Rcc.EnableGpioClock | STM32F411VET6_GPIO_DRIVER/hal_gpio_driver.h:48-53 | the clock macro ORs the port's bit into AHB1ENR: that bit set, every other bit unchanged |
| GpioDriver.Offset2 | STM32F411VET6_GPIO_and_UART/hal_gpio_driver.c:21 | the 2-bit field of pin < 16 lies inside the word at an even offset |
| GpioDriver.Offset2Injective | STM32F411VET6_GPIO_and_UART/hal_gpio_driver.c:53 | distinct pins have distinct 2-bit fields |
| GpioDriver.U16 | STM32F411VET6_GPIO_and_UART/hal_gpio_driver.c:96 | passing the 32-bit conf.pin as a uint16_t pin number keeps its low 16 bits |
| GpioDriver.U16OfWidened | STM32F411VET6_GPIO_DRIVER/hal_gpio_driver.h:69 | a 16-bit pin number stored in the 32-bit record field comes back unchanged |
| GpioDriver.AfShift | STM32F411VET6_GPIO_and_UART/hal_gpio_driver.c:158-175 | the AF shift of any pin number lies in [0, 28] and is a multiple of 4, so a 4-bit value fits one word |
| GpioDriver.AfShiftSplit | STM32F411VET6_GPIO_and_UART/hal_gpio_driver.c:158-175 | pins 0-7 shift by 4*pin, pins 8-15 by 4*(pin-8) |
| GpioDriver.AfSlotsDistinct | STM32F411VET6_GPIO_and_UART/hal_gpio_driver.c:158-175 | two distinct pins < 16 use different AF words or different slots |
| GpioDriver.AfPin16AliasesPin8 | STM32F411VET6_GPIO_and_UART/hal_gpio_driver.c:173 | unchecked pin 16 selects AFR[1] and aliases pin 8's slot |
| GpioDriver.Level | STM32F411VET6_GPIO_and_UART/hal_gpio_driver.c:135-142 | defines the level a `val` argument drives: 1 for any non-zero value, else 0 |
| GpioDriver.WriteBit | STM32F411VET6_GPIO_and_UART/hal_gpio_driver.c:132-145 | defines ODR after a write without the branch: the pin's bit cleared, then OR-ed with the level; tied to the C branches by the two lemmas below |
| GpioDriver.SetBranchIsWriteBit | STM32F411VET6_GPIO_and_UART/hal_gpio_driver.c:135-137 | the set branch `odr \| (1 << pin)` for val != 0 is WriteBit |
| GpioDriver.ClearBranchIsWriteBit | STM32F411VET6_GPIO_and_UART/hal_gpio_driver.c:140-142 | the clear branch `odr & ~(1 << pin)` for val == 0 is WriteBit |
| GpioDriver.WriteBitSetsPin | STM32F411VET6_GPIO_and_UART/hal_gpio_driver.c:132-145 | after a write, the pin's ODR bit is set iff val != 0 |
| GpioDriver.WriteBitKeepsOtherPins | STM32F411VET6_GPIO_and_UART/hal_gpio_driver.c:132-145 | a write changes no ODR bit but the pin's own |
| GpioDriver.WriteBitKeepsOtherBit | STM32F411VET6_GPIO_and_UART/hal_gpio_driver.c:132-145 | bit by bit: every ODR bit other than the pin's reads as before the write |
| GpioDriver.TwoWritesKeepOtherBit | STM32F411VET6_GPIO_and_UART/hal_gpio_driver.c:132-145 | two writes to pins other than k leave bit k as it was |
| GpioDriver.WriteBitLastWins | STM32F411VET6_GPIO_and_UART/hal_gpio_driver.c:132-145 | of two writes to one pin, the second decides the result |
| GpioDriver.WriteBitIdempotent | STM32F411VET6_GPIO_and_UART/hal_gpio_driver.c:132-145 | writing the same value twice equals writing it once |
| GpioDriver.WriteBitsCommute | STM32F411VET6_GPIO_and_UART/hal_gpio_driver.c:132-145 | writes to distinct pins commute |
| GpioDriver.GpioPort.ConfigurePinMode | STM32F411VET6_GPIO_and_UART/hal_gpio_driver.c:19-23 | MODER is OR-merged with mode at 2*pin: field == old \| mode, every other MODER bit and every other register unchanged |
| GpioDriver.GpioPort.ConfigurePinOType | STM32F411VET6_GPIO_and_UART/hal_gpio_driver.c:33-39 | op_type is ORed into OTYPER bit pin only; all other bits and registers unchanged |
| GpioDriver.GpioPort.ConfigurePinPupd | STM32F411VET6_GPIO_and_UART/hal_gpio_driver.c:50-58 | PUPDR is OR-merged with pupd at 2*pin; nothing else changes |
| GpioDriver.GpioPort.ConfigurePinSpeed | STM32F411VET6_GPIO_and_UART/hal_gpio_driver.c:69-75 | OSPEEDR is OR-merged with speed at 2*pin; nothing else changes |
| GpioDriver.GpioPort.Init | STM32F411VET6_GPIO_and_UART/hal_gpio_driver.c:93-102 | MODER, OSPEEDR, OTYPER, PUPDR are OR-merged with the record's values; AFR[0], AFR[1], ODR, IDR unchanged, alternate ignored |
| GpioDriver.GpioPort.ReadFromPin | STM32F411VET6_GPIO_and_UART/hal_gpio_driver.c:111-122 | returns 0 or 1, 1 iff IDR bit pin is set; no register changes |
| GpioDriver.GpioPort.WriteToPin | STM32F411VET6_GPIO_and_UART/hal_gpio_driver.c:132-145 | ODR becomes WriteBit(old ODR, pin, val), through the driver's own if/else; no other register changes |
| GpioDriver.GpioPort.SetAltFunction | STM32F411VET6_GPIO_and_UART/hal_gpio_driver.c:155-177 | pin <= 7 merges af at 4*pin into AFR[0], AFR[1] kept; pin 8-15 merges at 4*(pin%8) into AFR[1], AFR[0] kept; the slot becomes old \| af and nothing else changes |
| Led.LedConf | STM32F411VET6_GPIO_and_UART/led.c:19-23 | the LED record: output mode, push-pull, medium speed, no pull, and whatever the uninitialised alternate field held |
| Led.LedOffsetsDistinct | STM32F411VET6_GPIO_and_UART/led.c:19-34 | four distinct LED pins have four distinct 2-bit fields |
| Led.Spread2 | STM32F411VET6_GPIO_and_UART/led.c:24-34 | defines a 2-bit-per-pin register after led_init's four OR-merges of one value, in orange, blue, green, red order |
| Led.Spread1 | STM32F411VET6_GPIO_and_UART/led.c:24-34 | defines OTYPER after led_init's four OR-merges of the output type |
| Led.Spread2LedField | STM32F411VET6_GPIO_and_UART/led.c:24-34 | after led_init each LED pin's 2-bit field is old field \| the configured value |
| Led.Spread2OtherField | STM32F411VET6_GPIO_and_UART/led.c:24-34 | led_init leaves the 2-bit field of every non-LED pin unchanged |
| Led.LedInitKeepsTypeAndPull | STM32F411VET6_GPIO_and_UART/led.c:21-23 | the push-pull and no-pull codes are 0, so led_init leaves OTYPER and PUPDR exactly as they were |
| Led.LedInitFromReset | STM32F411VET6_GPIO_and_UART/led.c:19-34 | from zero fields, each LED pin ends with mode output, speed medium, push-pull and no pull |
| Led.LedInit | STM32F411VET6_GPIO_and_UART/led.c:11-36 | port D clock bit ORed into AHB1ENR, then the four OR-merge chains on MODER, OSPEEDR, OTYPER, PUPDR; ODR, IDR, AFR unchanged |
| Led.InitLedPin | STM32F411VET6_GPIO_DRIVER/led.c:18-23 | one hal_gpio_init call with the LED record: the four merges at the pin, everything else unchanged |
| Led.TurnOn | STM32F411VET6_GPIO_and_UART/led.c:45-49 | sets the pin's ODR bit and changes no other ODR bit |
| Led.TurnOff | STM32F411VET6_GPIO_DRIVER/led.c:58-62 | clears the pin's ODR bit and changes no other ODR bit |
| Led.Toggle | STM32F411VET6_GPIO_DRIVER/led.c:71-85 | the new ODR bit is the complement of the IDR bit read, other ODR bits unchanged |
| Led.BlinkPass | STM32F411VET6_GPIO_DRIVER/led.c:97-103 | orange and blue lit after the first half; at the end ODR equals old ODR with both bits cleared |
| Led.BlinkPassRestores | STM32F411VET6_GPIO_DRIVER/led.c:97-103 | set a, set b, clear a, clear b equals clearing a and b |
| Led.BlinkPassEndsDark | STM32F411VET6_GPIO_DRIVER/led.c:102-103 | after the pass both LED bits are 0 |
| Led.BlinkPassKeepsOtherBits | STM32F411VET6_GPIO_DRIVER/led.c:97-103 | after a blink pass every ODR bit other than the two LEDs' reads as before the pass |
| Uart.CString | STM32F411VET6_GPIO_and_UART/hal_uart_driver.c:41 | the C string of a buffer is its prefix before the first NUL, and holds no NUL |
| Uart.CStringStopsAtNul | STM32F411VET6_GPIO_and_UART/hal_uart_driver.c:41 | whatever follows the first NUL is not part of the string |
| Uart.CStringOfNulFree | STM32F411VET6_GPIO_and_UART/hal_uart_driver.c:41 | text without a NUL is its own C string |
| Uart.CStringOfTerminated | STM32F411VET6_GPIO_and_UART/hal_uart_driver.c:64 | a NUL-free text followed by a terminator reads back as that text |
| Uart.SendString | STM32F411VET6_GPIO_and_UART/hal_uart_driver.c:39-46 | the characters written to DR are exactly those before the first NUL, in order; the NUL is not sent |
| Uart.Room | STM32F411VET6_GPIO_and_UART/hal_uart_driver.c:54 | the number of characters a receive may store is the least natural number not below max_len - 1 |
| Uart.RoomIsLoopGuard | STM32F411VET6_GPIO_and_UART/hal_uart_driver.c:54 | an index passes the loop guard `i < max_len - 1` exactly when it is below Room, so at most max_len - 1 characters are stored |
| Uart.IsEol | STM32F411VET6_GPIO_and_UART/hal_uart_driver.c:59 | defines the characters that stop a receive: newline and carriage return |
| Uart.Line | STM32F411VET6_GPIO_and_UART/hal_uart_driver.c:54-63 | the stored line is an input prefix of at most room characters with no line end, stopped by room, end of input, or a line end |
| Uart.Consumed | STM32F411VET6_GPIO_and_UART/hal_uart_driver.c:54-63 | the number of input characters a receive reads is the stored line's length or one more (the line end that stopped it), and never more than the input holds |
| Uart.LineOfTerminated | STM32F411VET6_GPIO_and_UART/hal_uart_driver.c:59-60 | a short line followed by a line end is stored intact and the line end is consumed |
| Uart.LineTruncates | STM32F411VET6_GPIO_and_UART/hal_uart_driver.c:54 | a long line is cut at room characters and no further character is consumed |
| Uart.MoreInputArrives | STM32F411VET6_GPIO_and_UART/hal_uart_driver.c:56-57 | while the loop still runs, another input character is available |
| Uart.LineStopsAt | STM32F411VET6_GPIO_and_UART/hal_uart_driver.c:59-60 | a line end at position i, with none before, stops the line at length i |
| Uart.LineFull | STM32F411VET6_GPIO_and_UART/hal_uart_driver.c:54 | with no line end among the first room characters the line has room characters |
| Uart.ReceiveString | STM32F411VET6_GPIO_and_UART/hal_uart_driver.c:49-65 | the buffer starts with the line, then a NUL at its length, the rest unchanged; the count of characters read matches Consumed |
| Uart.UartInit | STM32F411VET6_GPIO_and_UART/hal_uart_driver.c:7-20 | APB1ENR, AHB1ENR, MODER and AFR[0] are OR-merged with the device bits, AFR[1] untouched, BRR = clock / 115200, CR1 overwritten with TE\|RE\|UE |
| Uart.GpioaClockMatchesDriver | STM32F411VET6_GPIO_and_UART/hal_uart_driver.c:13 | the GPIOA enable of uart_init is the driver's port-A clock enable |
| Uart.UartModeMatchesDriver | STM32F411VET6_GPIO_and_UART/hal_uart_driver.c:14 | the MODER bits of uart_init are the driver's alternate-function mode merges for pins 2 and 3 |
| Uart.UartAfMatchesDriver | STM32F411VET6_GPIO_and_UART/hal_uart_driver.c:15 | the AFR[0] bits of uart_init are what hal_gpio_set_alt_function merges for AF7 on pins 2 and 3 |
| Uart.UartPinsFromReset | STM32F411VET6_GPIO_and_UART/hal_uart_driver.c:14-15 | from zero fields, pins 2 and 3 end in alternate-function mode with AF7 |
| Command.Dispatch | STM32F411VET6_GPIO_and_UART/led.c:105-128 | each of the four exact commands maps to its LED action, and only it; anything else is no action; response "OK\n" for an action, "UNKNOWN COMMAND\n" otherwise; only orange and blue are addressed |
| Command.DispatchCommandFor | STM32F411VET6_GPIO_and_UART/led.c:105-124 | every orange or blue action has a command text that produces it with "OK\n" |
| Command.GreenAndRedAreUnknown | STM32F411VET6_GPIO_and_UART/led.c:125-128 | "LED_ON green" and "LED_OFF red" are unknown commands and change nothing |
| Command.TypedCommandIsRecognised | STM32F411VET6_GPIO_and_UART/led.c:102-108 | "LED_ON orange" followed by a line end is received and recognised as switching orange on |
| Command.SwitchOnLightsLed | STM32F411VET6_GPIO_and_UART/led.c:105-108 | after an "on" command its LED's ODR bit is set |
| Command.SwitchOffDarkensLed | STM32F411VET6_GPIO_and_UART/led.c:110-113 | after an "off" command its LED's ODR bit is clear |
| Command.Apply | STM32F411VET6_GPIO_and_UART/led.c:105-124 | defines ODR after the LED call of an action: unchanged for no action, WriteBit of 1 or 0 at the LED's pin otherwise |
| Command.ApplyIsWriteBit | STM32F411VET6_GPIO_and_UART/led.c:105-124 | a known command is the driver write of 1 (on) or 0 (off) to its LED's pin |
| Command.ApplyKeepsOtherPins | STM32F411VET6_GPIO_and_UART/led.c:105-124 | a known command changes no ODR bit but its LED's |
| Command.ServeCommand | STM32F411VET6_GPIO_and_UART/led.c:94-128 | one loop pass: the buffer reads as the received line, ODR changes by the dispatched action, and exactly one response is sent |
| Command.Respond | STM32F411VET6_GPIO_and_UART/led.c:105-128 | the strcmp chain makes the dispatched LED call and sends the dispatched response |
| Command.SwitchLed | STM32F411VET6_GPIO_and_UART/led.c:105-124 | led_turn_on or led_turn_off on the LED an action names changes ODR exactly as Apply says |
| Command.SendOk | STM32F411VET6_GPIO_and_UART/led.c:108 | uart_send_string("OK\n") sends exactly "OK\n" |

## Left out

- Busy-waiting on the USART TXE and RXNE flags: sent characters are a returned sequence, received ones an input sequence; waiting and timing are not modelled.
- Uart.ReceiveString: requires the input to hold a line end or max_len - 1 characters, since otherwise the C loop waits forever.
- Uart.ReceiveString: requires buffer.Length >= 1 and max_len <= buffer.Length; the C code writes out of bounds otherwise.
- The counting delay loops of both main functions: timing only.
- The infinite while(1) of both main functions: one pass of the body is modelled (Led.BlinkPass, Command.ServeCommand); led_init and uart_init before the loop are Led.LedInit and Uart.UartInit.
- Volatile and memory-mapped access: registers are plain fields, so hardware-side changes of IDR between reads and the order of the writes are not observable.
- The device header stm32f411xe.h is not part of this model: the CMSIS bit masks used by uart_init are constants with their values from the reference manual, and SystemCoreClock is a parameter of Uart.UartInit.
- led.h is not part of this model: the LED pin numbers are a parameter (Led.LedPins), required to be distinct and below 16.
- The RCC peripheral is only AHB1ENR and APB1ENR; USART2 is only BRR and CR1.
- Characters are Dafny `char`s, not 8-bit bytes.
- GpioDriver.GpioPort.ConfigurePinMode: the value range is a requires; the C code shifts any value, and a value too wide spills into the neighbouring field (RegisterField.OrInSpillsIntoNextField).
- GpioDriver.GpioPort.ConfigurePinOType: the value range is a requires; the C code shifts any value, and a value too wide spills into the neighbouring field (RegisterField.OrInSpillsIntoNextField).
- GpioDriver.GpioPort.ConfigurePinPupd: the value range is a requires; the C code shifts any value, and a value too wide spills into the neighbouring field (RegisterField.OrInSpillsIntoNextField).
- GpioDriver.GpioPort.ConfigurePinSpeed: the value range is a requires; the C code shifts any value, and a value too wide spills into the neighbouring field (RegisterField.OrInSpillsIntoNextField).
- GpioDriver.GpioPort.Init: the value range is a requires; the C code shifts any value, and a value too wide spills into the neighbouring field (RegisterField.OrInSpillsIntoNextField).
- GpioDriver.GpioPort.SetAltFunction: requires pin < 16 and af < 16; the C code has no range check (GpioDriver.AfPin16AliasesPin8 shows what pin 16 does), and `af << 28` with af >= 8 overflows a signed int, which the model reads as an unsigned 32-bit shift.
- GpioDriver.GpioPort.WriteToPin: requires pin < 32; `1 << pin` on a C int is undefined beyond that, and `1 << 31` overflows a signed int, which the model reads as the unsigned bit 31.
- GpioDriver.GpioPort.ReadFromPin: requires pin < 32; shifting the 32-bit IDR by 32 or more is undefined in C.
- Led.TurnOn: requires pin < 32; `1 << pin` on a C int is undefined beyond that, and `1 << 31` overflows a signed int, which the model reads as the unsigned bit 31.
- Led.TurnOff: requires pin < 32; `1 << pin` on a C int is undefined beyond that, and `1 << 31` overflows a signed int, which the model reads as the unsigned bit 31.
- Led.Toggle: requires pin < 32; `1 << pin` on a C int is undefined beyond that, and `1 << 31` overflows a signed int, which the model reads as the unsigned bit 31.
- Kept as written: led_init cannot clear stale open-drain or pull-up bits on an LED pin, because the driver only ORs (Led.LedInitKeepsTypeAndPull states the merge leaves OTYPER and PUPDR as they were).
- Kept as written: led_toggle reads IDR (the pin's input level) and writes ODR; it is not a toggle of the ODR bit.
- The Python test, flashing and packaging scripts and the FreeRTOS configuration header: host-side tooling.
