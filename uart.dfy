/**
 * The USART2 routines the LED command loop uses: pin and peripheral set-up,
 * sending a NUL-terminated string, and receiving one line into a caller's
 * buffer.
 *
 * The wire is modelled by sequences: the bytes a send writes to the data
 * register are its result, and the bytes a receive reads come from an input
 * sequence.  Waiting on the status flags (TXE, RXNE) is not modelled.
 */
module Uart {
  import opened RegisterField
  import opened GpioDefs
  import opened GpioDriver

  const NUL: char := '\0'

  /** The characters of a C string: everything before the first NUL. */
  function CString(s: string): (c: string)
    ensures c <= s
    ensures NUL !in c
    ensures |c| < |s| ==> s[|c|] == NUL
  {
    if |s| == 0 || s[0] == NUL then [] else [s[0]] + CString(s[1..])
  }

  /** A C string ends at its first NUL, whatever follows. */
  lemma {:induction false} CStringStopsAtNul(text: string, rest: string)
    ensures CString(text + [NUL] + rest) == CString(text)
  {
    if |text| > 0 && text[0] != NUL {
      assert (text + [NUL] + rest)[1..] == text[1..] + [NUL] + rest;
      CStringStopsAtNul(text[1..], rest);
    }
  }

  /** Text without a NUL is a C string of its own length. */
  lemma CStringOfNulFree(text: string)
    requires NUL !in text
    ensures CString(text) == text
  {
  }

  /** Text without a NUL, followed by a terminator, reads back as itself. */
  lemma {:induction false} CStringOfTerminated(text: string, rest: string)
    requires NUL !in text
    ensures CString(text + [NUL] + rest) == text
  {
    CStringStopsAtNul(text, rest);
  }

  /**
   * `uart_send_string`: write each character of `str` to the data register
   * until the NUL, which is not sent.  `sent` is the sequence of those
   * writes.  The string must contain its terminator.
   */
  method SendString(str: string) returns (sent: string)
    requires NUL in str
    ensures sent == CString(str)
  {
    sent := [];
    var i := 0;
    while str[i] != NUL
      invariant 0 <= i < |str|
      invariant NUL in str[i..]
      invariant sent == str[..i] && NUL !in sent
      decreases |str| - i
    {
      sent := sent + [str[i]];
      i := i + 1;
      assert str[i - 1] != NUL;
    }
    CStringOfTerminated(sent, str[i + 1..]);
    assert str == sent + [NUL] + str[i + 1..];
  }

  /** The characters that end a received line. */
  predicate IsEol(ch: char)
  {
    ch == '\n' || ch == '\r'
  }

  /**
   * How many characters a buffer of `maxLen` can store besides the
   * terminator: the least natural number not below `maxLen - 1`, so that an
   * index is below it exactly when it passes the receive loop's guard
   * (`RoomIsLoopGuard`).
   */
  function Room(maxLen: int): (room: nat)
    ensures maxLen - 1 <= room
    ensures room > 0 ==> room <= maxLen - 1
  {
    if maxLen >= 1 then maxLen - 1 else 0
  }

  /** An index passes the receive loop's guard exactly when it is below the room. */
  lemma RoomIsLoopGuard(maxLen: int, i: nat)
    ensures i < maxLen - 1 <==> i < Room(maxLen)
  {
  }

  /**
   * The input holds enough characters for a receive with `room` places to
   * finish: either `room` of them or a line end.  With less, the driver waits
   * for more forever.
   */
  predicate Arrives(input: string, room: nat)
  {
    room <= |input| || exists k :: 0 <= k < |input| && IsEol(input[k])
  }

  /**
   * The characters a receive with `room` places stores: the input up to the
   * first line end, cut at `room` characters.
   */
  function Line(input: string, room: nat): (line: string)
    ensures |line| <= room && line <= input
    ensures forall k :: 0 <= k < |line| ==> !IsEol(line[k])
    ensures |line| == room || |line| == |input| || IsEol(input[|line|])
  {
    if room == 0 || |input| == 0 || IsEol(input[0]) then []
    else [input[0]] + Line(input[1..], room - 1)
  }

  /** How many input characters a receive reads: the stored ones, plus the line end that stopped it. */
  function Consumed(input: string, room: nat): (n: nat)
    ensures |Line(input, room)| <= n <= |Line(input, room)| + 1 && n <= |input|
  {
    var line := Line(input, room);
    if |line| < room && |line| < |input| then |line| + 1 else |line|
  }

  /** A line shorter than the room, sent with its terminator, is received intact and the terminator is consumed. */
  lemma {:induction false} LineOfTerminated(text: string, eol: char, rest: string, room: nat)
    requires |text| < room && IsEol(eol)
    requires forall k :: 0 <= k < |text| ==> !IsEol(text[k])
    ensures Line(text + [eol] + rest, room) == text
    ensures Consumed(text + [eol] + rest, room) == |text| + 1
  {
    if |text| > 0 {
      assert (text + [eol] + rest)[1..] == text[1..] + [eol] + rest;
      LineOfTerminated(text[1..], eol, rest, room - 1);
    }
  }

  /** A line that does not fit is cut at `room` characters and nothing past them is read. */
  lemma {:induction false} LineTruncates(input: string, room: nat)
    requires room <= |input|
    requires forall k :: 0 <= k < room ==> !IsEol(input[k])
    ensures Line(input, room) == input[..room]
    ensures Consumed(input, room) == room
  {
    if room > 0 {
      LineTruncates(input[1..], room - 1);
      assert input[..room] == [input[0]] + input[1..][..room - 1];
    }
  }

  /**
   * `uart_receive_string`: read characters into `buffer` until a line end
   * (read but not stored) or until `maxLen - 1` are stored, then write the
   * terminating NUL after them.  The source writes `buffer[0]` even when
   * `maxLen` is below 1, so the buffer must have at least one place.
   */
  method ReceiveString(buffer: array<char>, maxLen: int, input: string) returns (consumed: nat)
    requires 1 <= buffer.Length && maxLen <= buffer.Length
    requires Arrives(input, Room(maxLen))
    modifies buffer
    ensures var line := Line(input, Room(maxLen));
      buffer[..|line|] == line && buffer[|line|] == NUL
      && buffer[|line| + 1..] == old(buffer[|line| + 1..])
    ensures consumed == Consumed(input, Room(maxLen))
  {
    var i := 0;
    ghost var room := Room(maxLen);
    consumed := 0;
    while i < maxLen - 1
      invariant 0 <= i <= room && i <= |input| && consumed == i
      invariant forall k :: 0 <= k < i ==> !IsEol(input[k])
      invariant buffer[..i] == input[..i]
      invariant buffer[i..] == old(buffer[i..])
      decreases room - i
    {
      MoreInputArrives(input, room, i);
      var ch := input[i];
      consumed := consumed + 1;
      if ch == '\n' || ch == '\r' {
        LineStopsAt(input, room, i);
        break;
      }
      buffer[i] := ch;
      i := i + 1;
    }
    RoomIsLoopGuard(maxLen, i);
    if i == room {
      LineFull(input, room, i);
    }
    assert buffer[i + 1..] == buffer[i..][1..] && old(buffer[i + 1..]) == old(buffer[i..])[1..];
    buffer[i] := NUL;
  }

  /** While the buffer has room and no line end has come, another character arrives. */
  lemma MoreInputArrives(input: string, room: nat, i: nat)
    requires Arrives(input, room) && i < room && i <= |input|
    requires forall k :: 0 <= k < i ==> !IsEol(input[k])
    ensures i < |input|
  {
  }

  // Facts about `Line` one position at a time, for the receive loop.

  lemma {:induction false} LineStopsAt(input: string, room: nat, i: nat)
    requires i < room && i < |input| && IsEol(input[i])
    requires forall k :: 0 <= k < i ==> !IsEol(input[k])
    ensures |Line(input, room)| == i
  {
    if i > 0 {
      LineStopsAt(input[1..], room - 1, i - 1);
    }
  }

  lemma {:induction false} LineFull(input: string, room: nat, i: nat)
    requires i == room && i <= |input|
    requires forall k :: 0 <= k < i ==> !IsEol(input[k])
    ensures |Line(input, room)| == room
  {
    if i > 0 {
      LineFull(input[1..], room - 1, i - 1);
    }
  }

  // Bit masks of the device header used by `uart_init`.
  const RCC_APB1ENR_USART2EN: bv32 := 0x0002_0000   // bit 17
  const RCC_AHB1ENR_GPIOAEN: bv32 := 0x0000_0001    // bit 0
  const GPIO_MODER_MODER2_1: bv32 := 0x0000_0020    // high bit of pin 2's mode field
  const GPIO_MODER_MODER3_1: bv32 := 0x0000_0080    // high bit of pin 3's mode field
  const USART_CR1_RE: bv32 := 0x0000_0004           // receiver enable
  const USART_CR1_TE: bv32 := 0x0000_0008           // transmitter enable
  const USART_CR1_UE: bv32 := 0x0000_2000           // USART enable

  /** The pins of USART2 on port A: PA2 transmits, PA3 receives. */
  const TX_PIN: bv16 := 2
  const RX_PIN: bv16 := 3
  /** The alternate function that routes PA2/PA3 to USART2. */
  const AF7_USART2: bv32 := 7
  const BAUD_RATE: bv32 := 115200

  /** The AFR[0] bits `uart_init` ORs in: AF7 in the fields of pins 2 and 3. */
  const UART_AF_BITS: bv32 := (7 << 8) | (7 << 12)

  /** The USART2 registers `uart_init` writes. */
  class Usart {
    var BRR: bv32
    var CR1: bv32
  }

  /**
   * `uart_init`: enable the USART2 and GPIOA clocks, put PA2/PA3 in
   * alternate-function mode with AF7 (both by OR, through the CMSIS masks
   * rather than the GPIO driver), set the baud divisor and overwrite CR1
   * with transmitter, receiver and USART enable.  BRR is the core clock
   * divided by 115200, rounded down (138 at a 16 MHz core clock).
   */
  method UartInit(rcc: Rcc, gpioa: GpioPort, usart2: Usart, systemCoreClock: bv32)
    modifies rcc`APB1ENR, rcc`AHB1ENR, gpioa`MODER, gpioa`AFR0, usart2`BRR, usart2`CR1
    ensures rcc.APB1ENR == old(rcc.APB1ENR) | RCC_APB1ENR_USART2EN
    ensures rcc.AHB1ENR == old(rcc.AHB1ENR) | RCC_AHB1ENR_GPIOAEN
    ensures gpioa.MODER == old(gpioa.MODER) | (GPIO_MODER_MODER2_1 | GPIO_MODER_MODER3_1)
    ensures gpioa.AFR0 == old(gpioa.AFR0) | UART_AF_BITS
    ensures gpioa.AFR1 == old(gpioa.AFR1)
    ensures usart2.BRR == systemCoreClock / BAUD_RATE
    ensures usart2.CR1 == USART_CR1_TE | USART_CR1_RE | USART_CR1_UE
  {
    rcc.APB1ENR := rcc.APB1ENR | RCC_APB1ENR_USART2EN;
    rcc.AHB1ENR := rcc.AHB1ENR | RCC_AHB1ENR_GPIOAEN;
    gpioa.MODER := gpioa.MODER | (GPIO_MODER_MODER2_1 | GPIO_MODER_MODER3_1);
    gpioa.AFR0 := gpioa.AFR0 | UART_AF_BITS;
    usart2.BRR := systemCoreClock / BAUD_RATE;
    usart2.CR1 := USART_CR1_TE | USART_CR1_RE | USART_CR1_UE;
  }

  /** The GPIOA clock bit is the one the driver's clock-enable macro sets for port A. */
  lemma GpioaClockMatchesDriver(ahb1enr: bv32)
    ensures ahb1enr | RCC_AHB1ENR_GPIOAEN == OrIn(ahb1enr, 1, ClockBit(PortA))
  {
  }

  /** The MODER mask equals configuring pins 2 and 3 to alternate-function mode through the driver. */
  lemma UartModeMatchesDriver(moder: bv32)
    ensures moder | (GPIO_MODER_MODER2_1 | GPIO_MODER_MODER3_1)
         == OrIn(OrIn(moder, GPIO_PIN_ALT_FUN_MODE, Offset2(TX_PIN)), GPIO_PIN_ALT_FUN_MODE, Offset2(RX_PIN))
  {
  }

  /** The AFR[0] bits equal `hal_gpio_set_alt_function` for pins 2 and 3 with AF7. */
  lemma UartAfMatchesDriver(afr0: bv32)
    ensures afr0 | UART_AF_BITS
         == OrIn(OrIn(afr0, AF7_USART2, AfShift(TX_PIN)), AF7_USART2, AfShift(RX_PIN))
  {
  }

  /**
   * From clear fields (as after reset) the set-up leaves PA2 and PA3 in
   * alternate-function mode with AF7; with a field already set the OR-merge
   * would leave a different mode or function.
   */
  lemma {:induction false} UartPinsFromReset(moder: bv32, afr0: bv32)
    requires Field(moder, Offset2(TX_PIN), 2) == 0 && Field(moder, Offset2(RX_PIN), 2) == 0
    requires Field(afr0, AfShift(TX_PIN), 4) == 0 && Field(afr0, AfShift(RX_PIN), 4) == 0
    ensures Field(moder | (GPIO_MODER_MODER2_1 | GPIO_MODER_MODER3_1), Offset2(TX_PIN), 2) == GPIO_PIN_ALT_FUN_MODE
    ensures Field(moder | (GPIO_MODER_MODER2_1 | GPIO_MODER_MODER3_1), Offset2(RX_PIN), 2) == GPIO_PIN_ALT_FUN_MODE
    ensures Field(afr0 | UART_AF_BITS, AfShift(TX_PIN), 4) == AF7_USART2
    ensures Field(afr0 | UART_AF_BITS, AfShift(RX_PIN), 4) == AF7_USART2
  {
    var m1 := OrIn(moder, GPIO_PIN_ALT_FUN_MODE, Offset2(TX_PIN));
    UartModeMatchesDriver(moder);
    FieldOrIn2(moder, GPIO_PIN_ALT_FUN_MODE, Offset2(TX_PIN));
    OtherFieldWidth2(m1, GPIO_PIN_ALT_FUN_MODE, Offset2(RX_PIN), Offset2(TX_PIN));
    OtherFieldWidth2(moder, GPIO_PIN_ALT_FUN_MODE, Offset2(TX_PIN), Offset2(RX_PIN));
    FieldOrIn2(m1, GPIO_PIN_ALT_FUN_MODE, Offset2(RX_PIN));
    var a1 := OrIn(afr0, AF7_USART2, AfShift(TX_PIN));
    UartAfMatchesDriver(afr0);
    FieldOrIn4(afr0, AF7_USART2, AfShift(TX_PIN));
    OtherFieldWidth4(a1, AF7_USART2, AfShift(RX_PIN), AfShift(TX_PIN));
    OtherFieldWidth4(afr0, AF7_USART2, AfShift(TX_PIN), AfShift(RX_PIN));
    FieldOrIn4(a1, AF7_USART2, AfShift(RX_PIN));
  }
}
