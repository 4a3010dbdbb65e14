# LitecAVRTools register-mediation core in Dafny

This project models three peripheral drivers of the LitecAVRTools hardware
abstraction layer for AVR microcontrollers. Each driver is modelled as an
immutable record of register values (`bv8`/`bv16`) plus pure
state-to-state functions:

- the 16-bit Timer/Counter engine (`TimerCounter16Bit`). It packs the 4-bit
  waveform-generation mode into TCCRnA and TCCRnB, selects the clock, routes
  the TOP value to OCRnA or ICRn by mode, and drives the compare registers,
  the COMnX pin-mode fields, forced compare matches and the interrupt
  mask/flag registers;
- the external interrupt lines INTn (`setExtIntEventType`, `enableExtInt`,
  `disableExtInt`, `clearPendingExtIntEvent` and the `ExtInt` class);
- the register logic of `Usart`: `init` with its round-to-nearest
  double-speed baud divisor, the 24 `UsartConfiguration` frame formats, the
  error mask, the non-blocking transmit/receive guards and the
  interrupt-enable update.

Modules:

- `Registers` (registers.dfy): fixed-width integer types, `Option`, and single bits.
  It also holds the hardware write semantics of interrupt-flag registers. A 1
  written to a flag clears it; a 0 leaves it (`WriteOneToClear`).
- `Timer16Modes` (timer16_modes.dfy): the enums of Timer16Bit.h, the datasheet mode
  table (TOP source per mode), and the ATmega2560 bit positions
  (WGM10=0, WGM11=1, WGM12=3, WGM13=4, CS10..CS12=0..2, COM1C0=2, COM1B0=4,
  COM1A0=6, FOC1C=5, FOC1B=6, FOC1A=7).
- `Timer16` (timer16.dfy): the register record and the engine operations.
- `ExternalInterrupts` (external_interrupts.dfy): EICRA/EICRB/EIMSK/EIFR and the
  `ExtInt` wrapper. The chip is a parameter: the line count `EXT_INT_COUNT`
  (1..8) and whether EICRB exists.
- `Usart` (usart.dfy): UCSRnA/B/C, UBRRn and the two UDRn buffers. UBRRn is
  12 bits wide (UBRRnH bits 7..4 are reserved and read as 0), so a store keeps
  its value modulo 2^12, and init's read-back increment sees the truncated value.

Hardware variant: the ATmega2560 is the default. On the ATmega328P the third
compare register is absent, and the model represents it as `ocrC: Option<bv16>`
(`None` there). Channel and interrupt arguments are raw byte values, as in
C, so OR'ed and unrecognised values go down the same branches as the
`switch` statements in the source.

Where the source's documentation and its code disagree, the model follows the code:

- The reserved code 0x0D (Timer16Bit.h:56) has no enum constant, but getMode
  can return it. For it `getTopValue` reports 0xFFFF and `setTopValue`
  returns -1, the same as for normal mode.
- Clearing pending interrupt flags with `|=` clears every pending flag, not
  only the named ones (see Findings).
- `enableOrDisableInterrupts` cannot disable (see Findings).

## Model

| member | source | states |
|---|---|---|
| Registers.WriteOneToClear | LitecAVRTools/ExternalInterrupts.cpp:102-103 | a flag written as 1 is cleared; a flag written as 0 keeps its value; no flag is ever set by a write |
| Registers.OrIntoFlagRegister | LitecAVRTools/ExternalInterrupts.cpp:104 | the read-modify-write `reg \|= mask` on a write-one-to-clear register leaves it 0 whatever the mask |
| Timer16Modes.ModeOfCode | LitecAVRTools/Timer16Bit.h:41-59 | every raw 4-bit code other than 0x0D names exactly the mode whose enum value it is; 0x0D names none |
| Timer16Modes.ModeCodesDistinct | LitecAVRTools/Timer16Bit.h:41-59 | the fifteen mode constants are distinct, none is the reserved 0x0D, and decoding a constant gives its mode back |
| Timer16Modes.ClockSourceOf | LitecAVRTools/Timer16Bit.h:76-86 | the clock source read from TCCRnB is the one whose constant equals the CSn[2..0] field |
| Timer16Modes.ClockSourceCodeInjective | LitecAVRTools/Timer16Bit.h:76-86 | the eight clock-select constants are distinct and decode back to themselves |
| Timer16Modes.Combine | LitecAVRTools/Timer16Bit.h:106-108 | `operator\|` keeps every bit of both operands and adds no other bit |
| Timer16Modes.ChannelConstantsAreSingleBits | LitecAVRTools/Timer16Bit.h:97-104 | T16_COMP_A/B/C are three distinct single bits |
| Timer16Modes.InterruptConstantsAreSingleBits | LitecAVRTools/Timer16Bit.h:144-151 | the five interrupt constants are distinct single bits |
| Timer16Modes.CombineIsUnion | LitecAVRTools/Timer16Bit.h:153-155 | the constants named by `a \| b` are exactly those named by `a` plus those named by `b` |
| Timer16Modes.SingleConstantNamesItself | LitecAVRTools/Timer16Bit.h:144-151 | a single channel or interrupt constant names only itself, so OR'ed masks decode unambiguously |
| Timer16.GetMode | LitecAVRTools/Timer16Bit.h:204-205 | the mode is WGMn3..2 (TCCRnB bits 4..3) above WGMn1..0 (TCCRnA bits 1..0); SetMode is its inverse |
| Timer16.GetModeDependsOnlyOnWgmBits | LitecAVRTools/Timer16Bit.h:204-205 | the decoded mode is a function of the four WGM bits alone |
| Timer16.SetMode | LitecAVRTools/Timer16Bit.cpp:28-37 | after setMode(m), getMode returns m; every TCCRnA bit except WGMn1..0, every TCCRnB bit except WGMn3..2 and every other register are unchanged |
| Timer16.SetModeOfCurrentModeIsIdentity | LitecAVRTools/Timer16Bit.cpp:28-37 | re-selecting the mode getMode reports changes nothing, so encode and decode are inverse both ways |
| Timer16.SelectClockSource | LitecAVRTools/Timer16Bit.cpp:40-45 | the CS field then holds the selected source; all other TCCRnB bits and the mode are preserved |
| Timer16.SetActualCountValue | LitecAVRTools/Timer16Bit.h:228-229 | TCNTn then holds the value and no other register changes |
| Timer16.GetActualCountValue | LitecAVRTools/Timer16Bit.h:235-236 | writing back the count value read changes no register |
| Timer16.CountValueRoundTrip | LitecAVRTools/Timer16Bit.h:228-236 | the count value written is the count value read; the mode is untouched |
| Timer16.SetTopValue | LitecAVRTools/Timer16Bit.cpp:48-71 | per the datasheet's TOP column: OCRnA-TOP modes write OCRnA and return 0, ICRn-TOP modes write ICRn and return 0, fixed-TOP modes and 0x0D return -1 and change nothing |
| Timer16.GetTopValue | LitecAVRTools/Timer16Bit.cpp:74-105 | returns the fixed TOP of the datasheet's table or the live OCRnA/ICRn, and 0xFFFF for the reserved code |
| Timer16.TopSourceByCode | LitecAVRTools/Timer16Bit.cpp:48-105 | the raw codes in the switches' case lists are exactly the datasheet rows: OCRnA is TOP for 4, 9, 11, 15; ICRn for 8, 10, 12, 14; the fixed TOPs 0xFF, 0x1FF, 0x3FF and 0xFFFF for 1/5, 2/6, 3/7 and 0; 0x0D alone is no mode |
| Timer16.SetTopThenGetTop | LitecAVRTools/Timer16Bit.cpp:48-105 | after a successful setTopValue(v), getTopValue is v; status is 0 or -1, and -1 exactly when the mode has no programmable TOP, in which case no register changed; the mode is preserved |
| Timer16.GetCompareMatchValue | LitecAVRTools/Timer16Bit.cpp:131-149 | an unrecognised channel reads 0xFFFF; in an OCRnA-TOP mode channel A reads the same as getTopValue |
| Timer16.SetCompareMatchValue | LitecAVRTools/Timer16Bit.cpp:108-128 | the written channel reads back v, every other channel reads as before, an unrecognised channel writes nothing, no non-compare register changes |
| Timer16.CompareMatchAMovesTop | LitecAVRTools/Timer16Bit.h:277-278 | in an OCRnA-TOP mode, writing channel A's compare value sets TOP to it |
| Timer16.WriteComBits | LitecAVRTools/Timer16Bit.cpp:178-203 | each pin-mode branch leaves exactly its pattern (OFF 0, TOGGLE 1, CLEAR/PWM_NORMAL 2, SET/PWM_INVERTED 3) in the 2-bit field and keeps every other bit |
| Timer16.SetPwmPinMode | LitecAVRTools/Timer16Bit.cpp:152-206 | the channel's COM field equals the mode's pattern and all other TCCRnA bits are kept; for a valid channel the mode is preserved, for an unrecognised one the pattern lands in WGMn1..0 |
| Timer16.PwmPinModeChannelsIndependent | LitecAVRTools/Timer16Bit.cpp:152-206 | setting one channel's pin mode never changes another channel's field |
| Timer16.ForceOutputCompareMatch | LitecAVRTools/Timer16Bit.cpp:210-219 | TCCRnC holds FOCnA/B/C exactly for the channels present in the argument and zero in bits 4..0; previous content is discarded |
| Timer16.EnableInterrupts | LitecAVRTools/Timer16Bit.h:342-343 | the named enable bits are set, all other TIMSKn bits and registers unchanged |
| Timer16.DisableInterrupts | LitecAVRTools/Timer16Bit.h:354-355 | the named enable bits are cleared, all other TIMSKn bits and registers unchanged |
| Timer16.EnableThenDisableRestores | LitecAVRTools/Timer16Bit.h:342-355 | enabling interrupts that were off and then disabling them restores the registers |
| Timer16.DisableThenEnableRestores | LitecAVRTools/Timer16Bit.h:342-355 | disabling interrupts that were on and then enabling them restores the registers |
| Timer16.ClearPendingInterruptEvents | LitecAVRTools/Timer16Bit.h:365-366 | as written: the named flags end cleared, and so does every other pending flag (TIFRn becomes 0) |
| Timer16.ClearPendingInterruptEventsIntended | LitecAVRTools/Timer16Bit.h:357-364 | the documented clear: the named flags end cleared and every other pending flag is kept |
| Timer16.ClearPendingDiscardsUnnamedFlags | LitecAVRTools/Timer16Bit.h:365-366 | the code and the documented clear agree exactly when no flag outside the mask is pending |
| Timer16.ClearOverflowLosesCompareMatchA | LitecAVRTools/Timer16Bit.h:365-366 | with overflow and compare-match-A pending, clearing overflow also loses compare-match-A |
| Timer16.RunKeepsMode | LitecAVRTools/Timer16Bit.cpp:40-219 | any sequence of calls other than setMode, with pin modes only for existing channels, leaves getMode unchanged |
| Timer16.ModeIsLastModeSet | LitecAVRTools/Timer16Bit.h:200-205 | getMode returns the mode of the most recent setMode, whatever clock, TOP, compare, pin-mode and interrupt calls followed it |
| Timer16.CtcScenario | LitecAVRTools/examples/exampleTimer16Bit_CtcMode.cpp:65-69 | the CTC example's sequence reads back TOP 39999, compare B 2000, CTC mode, prescaler 8 and both compare interrupts enabled |
| ExternalInterrupts.EventTypeConstantsAreTheAcceptedRange | LitecAVRTools/ExternalInterrupts.cpp:58-69 | on an existing line, setExtIntEventType stores a value exactly when it is one of the four EXTINT constants (ExternalInterrupts.h:40-43); any other value leaves the registers as they were |
| ExternalInterrupts.WriteSenseBits | LitecAVRTools/ExternalInterrupts.cpp:68-69 | the clear-then-OR leaves the event type in the line's field and every other 2-bit field as it was |
| ExternalInterrupts.SetExtIntEventType | LitecAVRTools/ExternalInterrupts.cpp:53-84 | for an existing line and type 0..3, the line's field in EICRA (lines 0..3) or EICRB (lines 4..7 with EICRB) becomes the type, only that register changes, and every other line's field is kept; otherwise nothing changes |
| ExternalInterrupts.SetExtIntEventTypeIdempotent | LitecAVRTools/ExternalInterrupts.cpp:60-83 | repeating the same call changes nothing |
| ExternalInterrupts.SetExtIntEventTypeLastWins | LitecAVRTools/ExternalInterrupts.cpp:60-83 | setting two valid types in a row equals setting only the second |
| ExternalInterrupts.EnableExtInt | LitecAVRTools/ExternalInterrupts.cpp:86-90 | for an existing line its EIMSK bit is set and no other bit or register changes; otherwise nothing changes |
| ExternalInterrupts.DisableExtInt | LitecAVRTools/ExternalInterrupts.cpp:93-97 | for an existing line its EIMSK bit is cleared and no other bit or register changes; otherwise nothing changes |
| ExternalInterrupts.EnableThenDisableRestores | LitecAVRTools/ExternalInterrupts.cpp:86-97 | enabling a disabled line and disabling it again restores the registers |
| ExternalInterrupts.ClearPendingExtIntEvent | LitecAVRTools/ExternalInterrupts.cpp:99-105 | as written: for an existing line EIFR becomes 0, clearing every line's pending event; otherwise nothing changes |
| ExternalInterrupts.ClearPendingExtIntEventIntended | LitecAVRTools/ExternalInterrupts.cpp:99-103 | the documented clear: the line's flag is cleared and every other line's flag kept |
| ExternalInterrupts.ClearPendingDiscardsOtherLines | LitecAVRTools/ExternalInterrupts.cpp:99-105 | the code and the documented clear agree exactly when no other line has a pending event |
| ExternalInterrupts.ClearInt0LosesInt1 | LitecAVRTools/ExternalInterrupts.cpp:99-105 | with INT0 and INT1 pending, clearing INT0 also loses INT1 |
| ExternalInterrupts.NewExtInt | LitecAVRTools/ExternalInterrupts.h:136-138 | the object stores the line number; the line's field holds the event type when the C function accepts it, otherwise no register changes; no other line's field and no EIMSK or EIFR bit changes |
| ExternalInterrupts.ExtInt.SetEventType | LitecAVRTools/ExternalInterrupts.h:151-152 | sets the bound line's field when the line exists and the type is 0..3, otherwise changes nothing; no other line's field, EIMSK or EIFR changes |
| ExternalInterrupts.ExtInt.Enable | LitecAVRTools/ExternalInterrupts.h:164-165 | sets the bound line's enable bit and changes only EIMSK; a missing line is a no-op; no other line is affected |
| ExternalInterrupts.ExtInt.Disable | LitecAVRTools/ExternalInterrupts.h:171-172 | clears the bound line's enable bit and changes only EIMSK; a missing line is a no-op; no other line is affected |
| ExternalInterrupts.ExtInt.ClearPendingEvent | LitecAVRTools/ExternalInterrupts.h:179-182 | changes only EIFR; like the C function it wraps, it clears all pending flags when the line exists, and is a no-op otherwise |
| ExternalInterrupts.CallsKeepOtherLines | LitecAVRTools/ExternalInterrupts.h:136-182 | any sequence of method calls on one ExtInt object leaves every other line's sense control and enable bit unchanged |
| Usart.ErrorConstantsAreSingleBits | LitecAVRTools/Usart.h:64-69 | the three UsartErrors constants are distinct single bits |
| Usart.EncodeConfig | LitecAVRTools/Usart.h:73-109 | the UCSRnC byte holds data bits minus five in bits 2..1, two stop bits in bit 3, parity 00/10/11 in bits 5..4, and zero in bits 7..6 and 0 |
| Usart.DecodeConfig | LitecAVRTools/Usart.h:73-109 | a byte decodes exactly when bits 7..6 and 0 are clear and the parity field is not the reserved 01, and then re-encodes to itself |
| Usart.DecodeEncodeConfig | LitecAVRTools/Usart.h:73-83 | decoding the encoding of a frame format (5..8 data bits, parity, stop bits) gives it back |
| Usart.EncodeDecodeConfig | LitecAVRTools/Usart.h:73-83 | re-encoding a decoded configuration byte gives the byte back |
| Usart.ConfigConstantsFollowEncoding | LitecAVRTools/Usart.h:83-109 | each of the 24 constants is the encoding of the format its name spells |
| Usart.ConfigConstantsAreTheEncoding | LitecAVRTools/Usart.h:83-109 | the 24 constants are exactly the bytes that decode to a frame format |
| Usart.BaudDivisor | LitecAVRTools/Usart.cpp:71-76 | UBRRn + 1 is F_CPU / (8 * baud) rounded to nearest (halves down), modulo 2^12 (the width of UBRRn), with 8 * baud wrapped to 32 bits |
| Usart.BaudDivisorRounding | LitecAVRTools/Usart.cpp:71-76 | when 8*baud <= F_CPU and the quotient q is below 2^12, UBRRn is q-1, or q exactly when the remainder exceeds 4*baud |
| Usart.RoundedQuotientIsNearest | LitecAVRTools/Usart.cpp:73-76 | rounding F_CPU / (8 * baud) up exactly when the remainder exceeds half of 8 * baud gives the step count with the smallest error of all integers, and that error is at most 4 * baud |
| Usart.BaudDivisorIsNearest | LitecAVRTools/Usart.cpp:70-76 | under the same conditions, the resulting bit rate is the nearest any 12-bit UBRRn value can give, off by at most 4*baud CPU cycles per bit clock |
| Usart.BaudDivisor9600At16MHz | LitecAVRTools/Usart.cpp:71-76 | 9600 baud at 16 MHz gives UBRRn = 207 |
| Usart.BaudDivisor300At16MHzWraps | LitecAVRTools/Usart.cpp:71-76 | a rate too slow for the 12-bit register is not detected: 300 baud at 16 MHz needs 6666 steps, and UBRRn ends at 2570 |
| Usart.Init | LitecAVRTools/Usart.cpp:64-77 | UCSRnA is exactly U2X, UCSRnB enables exactly the receiver and transmitter, UCSRnC is the configuration byte, and, when 0 < 8*baud <= F_CPU and F_CPU / (8*baud) < 2^12, UBRRn is within half a step of the requested rate |
| Usart.InitDefault | LitecAVRTools/Usart.h:154 | init without a configuration argument sets the frame format to 8 data bits, no parity, one stop bit |
| Usart.TransmitByteNonBlocking | LitecAVRTools/Usart.cpp:88-95 | returns 0 exactly when UDRE is set, then loads the byte; otherwise returns -1 and changes nothing |
| Usart.ReceiveByteNonBlocking | LitecAVRTools/Usart.cpp:103-107 | returns -1 exactly when RXC is clear; otherwise the received byte, 0..255, so never -1 |
| Usart.ByteAvailable | LitecAVRTools/Usart.h:221-222 | non-zero exactly when RXC is set, that is, exactly when a non-blocking receive succeeds |
| Usart.GetReceiveErrors | LitecAVRTools/Usart.h:178-181 | only the three error bits can be reported, each exactly when it is set in UCSRnA |
| Usart.EnableOrDisableInterrupts | LitecAVRTools/Usart.h:165-169 | as written: each interrupt passed 1 is enabled, and UCSRnB only gains bits, so passing 0 disables nothing |
| Usart.EnableOrDisableInterruptsIntended | LitecAVRTools/Usart.h:156-164 | the documented behaviour: each enable bit equals its argument, other UCSRnB bits kept |
| Usart.EnableOrDisableCannotDisable | LitecAVRTools/Usart.h:156-169 | code and documentation agree exactly when no enabled interrupt is passed 0 |
| Usart.DisableReceiveInterruptHasNoEffect | LitecAVRTools/Usart.h:156-169 | with the receive interrupt on, passing 0 leaves it on |

## Left out

- Blocking `transmitByte` and `receiveByte` (Usart.cpp lines 80-101). They busy-wait on hardware flags, and without a model of the hardware they need not terminate.
- `usartPrintf`, `usartScanf`, `s_usartPut`, `s_usartGet` and the stream setup in the `Usart` constructor. They are thin wrappers over avr-libc stdio, which is not part of this model. The CR/LF rewrite and echo are compiled out (`REPLACE_LF_BY_CRLF 0`, `USE_ECHO 0`).
- The example programs, GPIO pin/port macros and the system clock module, which are not part of this model.
- Preemption by interrupt handlers and non-atomic 16-bit register access. These are concurrency, and every operation here is one atomic state transition.
- Physical counter behaviour: ticking, TOP wrap-around, dual- versus single-slope counting and pin output. The code never computes these, so the mode table carries only the TOP column.
- `#ifdef` variant selection and the `make...Object` macros. A record of registers with `ocrC` optional replaces them, plus the `ExtIntChip` parameters.
- Hardware side effects of register writes other than flag registers. UCSRnA is treated as plain storage, although its RXC/UDRE/error bits are read-only. TCCRnC keeps the value written, although FOC bits are strobes that read back as 0.
- Timer16.ForceOutputCompareMatch: modelled for the ATmega2560 only. The source names `T16_COMP_C` unconditionally, so it does not compile for the ATmega328P.
- Usart.BaudDivisorIsNearest: proved only for 0 < 8*baud <= F_CPU with the quotient below 2^12, the range UBRRn can hold. Outside that range `BaudDivisor` models what the code and the register do: the 32-bit product, the unsigned wrap of `q - 1`, the 16-bit cast and the 12-bit store. Nothing more is promised, and the source promises nothing there either.
- Usart.BaudDivisor: a baud rate whose 32-bit product `8 * baud` is 0 would divide by zero. It is excluded by a precondition.
- Usart.EnableOrDisableInterrupts: arguments are restricted to 0 and 1, the values its documentation allows.
- Usart.ReceiveByteNonBlocking: returns the byte but no new register state. In hardware, reading UDRn pops the two-level receive FIFO and with it RXCn and the FEn/DORn/UPEn flags of that byte. The documented consequences are not stated: that the read clears the error state (Usart.h:172-173), and that byteAvailable turns 0 once the byte is fetched (Usart.h:218-219). Modelling this would need the FIFO contents and per-byte error flags, which the registers here do not hold.
- Timer16.SetTopValue: the `int8_t` status is an unbounded `int`. Its contract pins the status to 0 or -1.

## Findings

| source | as written | input that shows it | evidently intended | confidence | as-written member | corrected member |
|---|---|---|---|---|---|---|
| LitecAVRTools/Timer16Bit.h:365-366 | `*m_tifr \|= flags` reads TIFRn and writes back every pending flag as 1, so a write-one-to-clear register loses all pending flags | TIFRn = 0x03, flags = T16_INT_OVERFLOW: compare-match-A is lost too (`Timer16.ClearOverflowLosesCompareMatchA`) | store `flags` into TIFRn, clearing only the named flags | medium, not executed (a compiler emitting a single-bit SBI for a constant mask would avoid it; through the run-time address in `m_tifr` it is a load, OR and store) | Timer16.ClearPendingInterruptEvents | Timer16.ClearPendingInterruptEventsIntended |
| LitecAVRTools/ExternalInterrupts.cpp:104 | `EIFR \|= (1 << n)` with a run-time `n` is a read-modify-write, so it clears every line's pending flag | EIFR = 0x03, n = 0: INT1's pending event is lost too (`ExternalInterrupts.ClearInt0LosesInt1`) | `EIFR = (1 << n)`, clearing only line n | medium, not executed | ExternalInterrupts.ClearPendingExtIntEvent | ExternalInterrupts.ClearPendingExtIntEventIntended |
| LitecAVRTools/Usart.h:167 | the clear mask is built from the arguments, so it clears only the bits that line 168 sets again; an argument of 0 never disables | UCSRnB = 0x98 (receive interrupt on), arguments (0, 0, 0): the receive interrupt stays on (`Usart.DisableReceiveInterruptHasNoEffect`) | clear all three enable bits, then set those whose argument is 1 | high, not executed | Usart.EnableOrDisableInterrupts | Usart.EnableOrDisableInterruptsIntended |
