/**
  The register-level logic of the Usart class: initialisation with the
  double-speed baud-rate divisor, the frame-format constants written to
  UCSRnC, the receive-error mask, the non-blocking byte transfer guards and
  the interrupt-enable update.
 */
module Usart {
  import opened Registers

  // UCSRnA bits (ATmega2560 datasheet).
  const RXC0: nat := 7
  const UDRE0: nat := 5
  const U2X0: nat := 1

  // UCSRnB bits.
  const RXCIE0: nat := 7
  const TXCIE0: nat := 6
  const UDRIE0: nat := 5
  const RXEN0: nat := 4
  const TXEN0: nat := 3

  /** The three interrupt-enable bits of UCSRnB. */
  const InterruptEnableMask: bv8 := (1 << RXCIE0) | (1 << TXCIE0) | (1 << UDRIE0)

  // UsartErrors: the receive-error bits of UCSRnA.
  const ParityError: bv8 := 1 << 2
  const DataOverrunError: bv8 := 1 << 3
  const FrameError: bv8 := 1 << 4

  const ErrorBits: set<bv8> := {ParityError, DataOverrunError, FrameError}

  /** The UsartErrors constants are three distinct single bits. */
  lemma ErrorConstantsAreSingleBits()
    ensures forall e :: e in ErrorBits ==> IsSingleBit(e)
    ensures |ErrorBits| == 3
  {
  }

  /**
    The content of UBRRn: twelve bits (UBRRnH bits 7..4 are reserved and
    read as 0), so a store keeps the value modulo 2^12.
   */
  type UbrrValue = x: int | 0 <= x < 0x1000

  /**
    The registers of one USART. UDRn is two registers at one address: a store
    loads the transmit buffer and a load reads the receive buffer, so they are
    kept apart here.
   */
  datatype UsartRegs = UsartRegs(
    ucsrA: bv8,
    ucsrB: bv8,
    ucsrC: bv8,
    ubrr: UbrrValue,
    txBuffer: bv8,
    rxBuffer: bv8)

  // ---------------------------------------------------------------------
  // Frame format (UsartConfiguration)

  datatype Parity = NoParity | EvenParity | OddParity

  datatype FrameFormat = FrameFormat(dataBits: nat, parity: Parity, twoStopBits: bool) {
    predicate Valid() {
      5 <= dataBits <= 8
    }
  }

  /**
    The UCSRnC byte for a frame format: UCSZn1..0 (bits 2..1) hold the data
    bits minus five, USBSn (bit 3) selects two stop bits, UPMn1..0 (bits 5..4)
    are 00 for no parity, 10 for even and 11 for odd. Asynchronous mode
    (bits 7..6) and clock polarity (bit 0) stay 0.
   */
  function EncodeConfig(f: FrameFormat): (c: bv8)
    requires f.Valid()
    ensures c & 0xC1 == 0
    ensures (c >> 1) & 0x03 == (f.dataBits - 5) as bv8
    ensures c & 0x08 != 0 <==> f.twoStopBits
    ensures c & 0x30 == 0x00 <==> f.parity == NoParity
    ensures c & 0x30 == 0x20 <==> f.parity == EvenParity
    ensures c & 0x30 == 0x30 <==> f.parity == OddParity
  {
    var size := ((f.dataBits - 5) as bv8) << 1;
    var stop: bv8 := if f.twoStopBits then 1 << 3 else 0;
    var parity: bv8 := match f.parity
      case NoParity => 0x00
      case EvenParity => 0x20
      case OddParity => 0x30;
    size | stop | parity
  }

  /** Reads a UCSRnC byte back as a frame format; None for bytes outside the encoding. */
  function DecodeConfig(c: bv8): (r: Option<FrameFormat>)
    ensures r.Some? <==> c & 0xC1 == 0 && c & 0x30 != 0x10
    ensures r.Some? ==> r.value.Valid()
    ensures r.Some? ==> EncodeConfig(r.value) == c
  {
    if c & 0xC1 != 0 || c & 0x30 == 0x10 then None
    else
      var parity := if c & 0x30 == 0x00 then NoParity
        else if c & 0x30 == 0x20 then EvenParity
        else OddParity;
      Some(FrameFormat(((c >> 1) & 0x03) as nat + 5, parity, c & 0x08 != 0))
  }

  /** Encoding then decoding returns the frame format. */
  lemma DecodeEncodeConfig(f: FrameFormat)
    requires f.Valid()
    ensures DecodeConfig(EncodeConfig(f)) == Some(f)
  {
  }

  /** Decoding then re-encoding returns the byte, so no two formats share a byte. */
  lemma EncodeDecodeConfig(c: bv8)
    requires DecodeConfig(c).Some?
    ensures EncodeConfig(DecodeConfig(c).value) == c
  {
  }

  // The 24 UsartConfiguration constants, named data bits / parity / stop bits.
  const Config5N1: bv8 := 0x00
  const Config6N1: bv8 := 0x02
  const Config7N1: bv8 := 0x04
  const Config8N1: bv8 := 0x06
  const Config5N2: bv8 := 0x08
  const Config6N2: bv8 := 0x0A
  const Config7N2: bv8 := 0x0C
  const Config8N2: bv8 := 0x0E
  const Config5E1: bv8 := 0x20
  const Config6E1: bv8 := 0x22
  const Config7E1: bv8 := 0x24
  const Config8E1: bv8 := 0x26
  const Config5E2: bv8 := 0x28
  const Config6E2: bv8 := 0x2A
  const Config7E2: bv8 := 0x2C
  const Config8E2: bv8 := 0x2E
  const Config5O1: bv8 := 0x30
  const Config6O1: bv8 := 0x32
  const Config7O1: bv8 := 0x34
  const Config8O1: bv8 := 0x36
  const Config5O2: bv8 := 0x38
  const Config6O2: bv8 := 0x3A
  const Config7O2: bv8 := 0x3C
  const Config8O2: bv8 := 0x3E

  /** Each constant is the encoding of the format its name spells. */
  lemma ConfigConstantsFollowEncoding()
    ensures Config5N1 == EncodeConfig(FrameFormat(5, NoParity, false))
    ensures Config6N1 == EncodeConfig(FrameFormat(6, NoParity, false))
    ensures Config7N1 == EncodeConfig(FrameFormat(7, NoParity, false))
    ensures Config8N1 == EncodeConfig(FrameFormat(8, NoParity, false))
    ensures Config5N2 == EncodeConfig(FrameFormat(5, NoParity, true))
    ensures Config6N2 == EncodeConfig(FrameFormat(6, NoParity, true))
    ensures Config7N2 == EncodeConfig(FrameFormat(7, NoParity, true))
    ensures Config8N2 == EncodeConfig(FrameFormat(8, NoParity, true))
    ensures Config5E1 == EncodeConfig(FrameFormat(5, EvenParity, false))
    ensures Config6E1 == EncodeConfig(FrameFormat(6, EvenParity, false))
    ensures Config7E1 == EncodeConfig(FrameFormat(7, EvenParity, false))
    ensures Config8E1 == EncodeConfig(FrameFormat(8, EvenParity, false))
    ensures Config5E2 == EncodeConfig(FrameFormat(5, EvenParity, true))
    ensures Config6E2 == EncodeConfig(FrameFormat(6, EvenParity, true))
    ensures Config7E2 == EncodeConfig(FrameFormat(7, EvenParity, true))
    ensures Config8E2 == EncodeConfig(FrameFormat(8, EvenParity, true))
    ensures Config5O1 == EncodeConfig(FrameFormat(5, OddParity, false))
    ensures Config6O1 == EncodeConfig(FrameFormat(6, OddParity, false))
    ensures Config7O1 == EncodeConfig(FrameFormat(7, OddParity, false))
    ensures Config8O1 == EncodeConfig(FrameFormat(8, OddParity, false))
    ensures Config5O2 == EncodeConfig(FrameFormat(5, OddParity, true))
    ensures Config6O2 == EncodeConfig(FrameFormat(6, OddParity, true))
    ensures Config7O2 == EncodeConfig(FrameFormat(7, OddParity, true))
    ensures Config8O2 == EncodeConfig(FrameFormat(8, OddParity, true))
  {
  }

  const AllConfigs: set<bv8> := {
    Config5N1, Config6N1, Config7N1, Config8N1, Config5N2, Config6N2, Config7N2, Config8N2,
    Config5E1, Config6E1, Config7E1, Config8E1, Config5E2, Config6E2, Config7E2, Config8E2,
    Config5O1, Config6O1, Config7O1, Config8O1, Config5O2, Config6O2, Config7O2, Config8O2}

  /** The constants are exactly the bytes that decode to a frame format. */
  lemma ConfigConstantsAreTheEncoding(c: bv8)
    ensures c in AllConfigs <==> DecodeConfig(c).Some?
  {
  }

  // ---------------------------------------------------------------------
  // Baud rate

  /** |x|. */
  function Abs(x: int): nat {
    if x < 0 then -x else x
  }

  /**
    How far the bit clock of divisor register value `ubrr` is from the
    requested rate, in units of the CPU clock: with double speed the USART
    divides the CPU clock by 8 * (UBRRn + 1).
   */
  function BaudError(fCpu: nat, baud: nat, ubrrPlusOne: int): nat {
    Abs(8 * baud * ubrrPlusOne - fCpu)
  }

  /**
    The UBRRn value init leaves: the floor quotient F_CPU / (8 * baud) minus
    one, computed in 32-bit unsigned arithmetic and cast to 16 bits, stored
    into the 12-bit register; then, when the remainder exceeds half the
    divisor, the register is read back, incremented and stored again. The
    product 8 * baud wraps at 32 bits; a product of 0 would be a division
    by zero.
   */
  function BaudDivisor(fCpu: uint32, baud: uint32): (ubrr: UbrrValue)
    requires (baud * 8) % 0x1_0000_0000 != 0
    ensures var d := (baud * 8) % 0x1_0000_0000;
      var nearest := fCpu / d + (if fCpu % d > d / 2 then 1 else 0);
      (ubrr + 1) % 0x1000 == nearest % 0x1000
  {
    var divisor := (baud * 8) % 0x1_0000_0000;
    var q := fCpu / divisor;
    var stored := ((q - 1) % 0x1_0000) % 0x1000;
    NarrowMod(q - 1);
    ModAdd(q - 1, 1);
    if fCpu % divisor > divisor / 2 then
      NarrowMod(stored + 1);
      ModAdd(stored + 1, 1);
      ModAdd(q - 1, 2);
      ((stored + 1) % 0x1_0000) % 0x1000
    else stored
  }

  /** Truncating to 16 bits and then to 12 bits is truncating to 12 bits. */
  lemma NarrowMod(x: int)
    ensures (x % 0x1_0000) % 0x1000 == x % 0x1000
  {
    var k := x / 0x1_0000;
    assert x == 0x1_0000 * k + x % 0x1_0000;
    assert x % 0x1_0000 == x - 0x1000 * (16 * k);
  }

  /** Reducing modulo 2^12 before an addition does not change the result modulo 2^12. */
  lemma ModAdd(x: int, y: int)
    ensures ((x % 0x1000) + y) % 0x1000 == (x + y) % 0x1000
  {
    var k := x / 0x1000;
    assert x == 0x1000 * k + x % 0x1000;
    assert (x % 0x1000) + y == (x + y) - 0x1000 * k;
  }

  /** For k <= q, d * k <= d * q; for k >= q, d * k >= d * q. */
  lemma MulMonotone(d: nat, k: int, q: int)
    ensures k <= q ==> d * k <= d * q
    ensures k >= q ==> d * k >= d * q
  {
    if k <= q {
      assert d * q - d * k == d * (q - k);
    } else {
      assert d * k - d * q == d * (k - q);
    }
  }

  /**
    When 8 * baud neither exceeds F_CPU nor makes the quotient overflow
    UBRRn, the divisor is the floor quotient minus one, plus one exactly when
    the remainder is more than half of 8 * baud.
   */
  lemma BaudDivisorRounding(fCpu: uint32, baud: uint32)
    requires 0 < 8 * baud <= fCpu
    requires fCpu / (8 * baud) < 0x1000
    ensures (baud * 8) % 0x1_0000_0000 != 0
    ensures fCpu / (8 * baud) >= 1
    ensures fCpu % (8 * baud) > 4 * baud ==> BaudDivisor(fCpu, baud) == fCpu / (8 * baud)
    ensures fCpu % (8 * baud) <= 4 * baud ==> BaudDivisor(fCpu, baud) == fCpu / (8 * baud) - 1
  {
    var d := 8 * baud;
    assert (baud * 8) % 0x1_0000_0000 == d;
    var q := fCpu / d;
    var rem := fCpu % d;
    assert fCpu == d * q + rem && 0 <= rem < d;
    if q <= 0 {
      MulMonotone(d, q, 0);
      assert false;
    }
    assert d / 2 == 4 * baud;
    StepCountFromRegister(BaudDivisor(fCpu, baud), q + (if rem > 4 * baud then 1 else 0));
  }

  /** A 12-bit register value whose successor agrees modulo 2^12 with a step count in 1..2^12 is that count minus one. */
  lemma StepCountFromRegister(ubrr: UbrrValue, steps: int)
    requires 1 <= steps <= 0x1000
    requires (ubrr + 1) % 0x1000 == steps % 0x1000
    ensures ubrr == steps - 1
  {
    if ubrr + 1 == 0x1000 {
      assert steps % 0x1000 == 0;
    } else {
      assert (ubrr + 1) % 0x1000 == ubrr + 1;
      if steps < 0x1000 {
        assert steps % 0x1000 == steps;
      }
    }
  }


  /** A divisor d * k with k at most the floor quotient undershoots by at least the remainder. */
  lemma ErrorBelowQuotient(f: nat, d: nat, q: int, rem: int, k: int)
    requires f == d * q + rem && 0 <= rem < d
    requires k <= q
    ensures Abs(d * k - f) >= rem
  {
    MulMonotone(d, k, q);
  }

  /** A divisor d * k with k above the floor quotient overshoots by at least d - rem. */
  lemma ErrorAboveQuotient(f: nat, d: nat, q: int, rem: int, k: int)
    requires f == d * q + rem && 0 <= rem < d
    requires k >= q + 1
    ensures Abs(d * k - f) >= d - rem
  {
    MulMonotone(d, k, q + 1);
    assert d * (q + 1) == d * q + d;
  }

  /**
    The divisor step count rounded to nearest, F_CPU / (8 * baud) rounded up
    exactly when the remainder exceeds half of 8 * baud, gives the smallest
    error of any step count, and that error is at most 4 * baud.
   */
  lemma RoundedQuotientIsNearest(fCpu: nat, baud: nat, u: int)
    requires baud > 0
    requires u == fCpu / (8 * baud) + (if fCpu % (8 * baud) > 4 * baud then 1 else 0)
    ensures BaudError(fCpu, baud, u) <= 4 * baud
    ensures forall k :: BaudError(fCpu, baud, u) <= BaudError(fCpu, baud, k)
  {
    var d := 8 * baud;
    var q := fCpu / d;
    var rem := fCpu % d;
    assert fCpu == d * q + rem && 0 <= rem < d;
    var best := if rem > 4 * baud then d - rem else rem;
    assert BaudError(fCpu, baud, u) == best by {
      if rem > 4 * baud {
        assert d * (q + 1) - fCpu == d - rem;
      } else {
        assert d * q - fCpu == -rem;
      }
    }
    forall k
      ensures best <= BaudError(fCpu, baud, k)
    {
      if k <= q {
        ErrorBelowQuotient(fCpu, d, q, rem, k);
      } else {
        ErrorAboveQuotient(fCpu, d, q, rem, k);
      }
    }
  }

  /**
    Whenever the divisor fits in UBRRn, init chooses the nearest achievable
    bit rate: no 16-bit register value gives a smaller error, and the error
    is at most half a step (4 * baud).
   */
  lemma BaudDivisorIsNearest(fCpu: uint32, baud: uint32)
    requires 0 < 8 * baud <= fCpu
    requires fCpu / (8 * baud) < 0x1000
    ensures (baud * 8) % 0x1_0000_0000 != 0
    ensures var ubrr: int := BaudDivisor(fCpu, baud);
      && BaudError(fCpu, baud, ubrr + 1) <= 4 * baud
      && (forall k :: 1 <= k <= 0x1000 ==> BaudError(fCpu, baud, ubrr + 1) <= BaudError(fCpu, baud, k))
  {
    BaudDivisorRounding(fCpu, baud);
    RoundedQuotientIsNearest(fCpu, baud, BaudDivisor(fCpu, baud) + 1);
  }

  /** 9600 baud on a 16 MHz CPU gives UBRRn = 207, the datasheet's double-speed entry. */
  lemma BaudDivisor9600At16MHz()
    ensures BaudDivisor(16_000_000, 9600) == 207
  {
  }

  /**
    A rate too slow for the 12-bit register is not detected: 300 baud at
    16 MHz needs 6666 steps, but UBRRn keeps 6665 modulo 2^12 and the
    read-back increment makes it 2570, about 777 baud.
   */
  lemma BaudDivisor300At16MHzWraps()
    ensures 16_000_000 / (8 * 300) == 6666
    ensures BaudDivisor(16_000_000, 300) == 2570
  {
  }

  // ---------------------------------------------------------------------
  // Operations

  /**
    init: double speed on, receiver and transmitter on (interrupts and
    9-bit frames off), the frame format stored verbatim, and the divisor.
   */
  function Init(u: UsartRegs, fCpu: uint32, baud: uint32, config: bv8): (r: UsartRegs)
    requires (baud * 8) % 0x1_0000_0000 != 0
    ensures r.ucsrA == 0x02
    ensures r.ucsrB & (1 << RXEN0) != 0 && r.ucsrB & (1 << TXEN0) != 0
    ensures r.ucsrB & !((1 << RXEN0) | (1 << TXEN0)) == 0
    ensures r.ucsrC == config
    ensures 0 < 8 * baud <= fCpu && fCpu / (8 * baud) < 0x1000 ==> BaudError(fCpu, baud, r.ubrr + 1) <= 4 * baud
    ensures r.txBuffer == u.txBuffer && r.rxBuffer == u.rxBuffer
  {
    var r := u.(ucsrA := 1 << U2X0,
                ucsrB := (1 << RXEN0) | (1 << TXEN0),
                ucsrC := config,
                ubrr := BaudDivisor(fCpu, baud));
    assert 0 < 8 * baud <= fCpu && fCpu / (8 * baud) < 0x1000 ==> BaudError(fCpu, baud, r.ubrr + 1) <= 4 * baud by {
      if 0 < 8 * baud <= fCpu && fCpu / (8 * baud) < 0x1000 {
        BaudDivisorIsNearest(fCpu, baud);
      }
    }
    r
  }

  /** init with its default argument: 8 data bits, no parity, one stop bit. */
  function InitDefault(u: UsartRegs, fCpu: uint32, baud: uint32): (r: UsartRegs)
    requires (baud * 8) % 0x1_0000_0000 != 0
    ensures DecodeConfig(r.ucsrC) == Some(FrameFormat(8, NoParity, false))
    ensures r == Init(u, fCpu, baud, Config8N1)
  {
    DecodeEncodeConfig(FrameFormat(8, NoParity, false));
    Init(u, fCpu, baud, Config8N1)
  }

  /** True iff the transmit buffer can take a new byte (UDREn set). */
  predicate TransmitReady(u: UsartRegs) {
    u.ucsrA & (1 << UDRE0) != 0
  }

  /** True iff an unread byte is in the receive buffer (RXCn set). */
  predicate ReceiveComplete(u: UsartRegs) {
    u.ucsrA & (1 << RXC0) != 0
  }

  /** Queues `c` if the transmit buffer is free (0), otherwise changes nothing (-1). */
  function TransmitByteNonBlocking(u: UsartRegs, c: bv8): (r: (UsartRegs, int))
    ensures r.1 == 0 || r.1 == -1
    ensures r.1 == 0 <==> TransmitReady(u)
    ensures r.1 == -1 ==> r.0 == u
    ensures r.1 == 0 ==> r.0.txBuffer == c && r.0 == u.(txBuffer := r.0.txBuffer)
  {
    if u.ucsrA & (1 << UDRE0) == 0 then (u, -1)
    else (u.(txBuffer := c), 0)
  }

  /** The received byte as 0..255, or -1 when nothing has been received. */
  function ReceiveByteNonBlocking(u: UsartRegs): (v: int)
    ensures v == -1 <==> !ReceiveComplete(u)
    ensures ReceiveComplete(u) ==> 0 <= v < 0x100 && v as bv8 == u.rxBuffer
  {
    if u.ucsrA & (1 << RXC0) == 0 then -1
    else u.rxBuffer as int
  }

  /** Non-zero exactly when a received byte is waiting. */
  function ByteAvailable(u: UsartRegs): (b: bv8)
    ensures b != 0 <==> ReceiveComplete(u)
    ensures b != 0 <==> ReceiveByteNonBlocking(u) != -1
  {
    u.ucsrA & (1 << RXC0)
  }

  /** The receive-error bits of UCSRnA, as an OR of UsartErrors constants. */
  function GetReceiveErrors(u: UsartRegs): (e: bv8)
    ensures e & !(ParityError | DataOverrunError | FrameError) == 0
    ensures forall err :: err in ErrorBits ==> (e & err != 0 <==> u.ucsrA & err != 0)
  {
    u.ucsrA & (ParityError | DataOverrunError | FrameError)
  }

  /** The UCSRnB bits an argument triple requests: bit 7 receive, 6 transmit, 5 data-empty. */
  function RequestedEnables(rx: bv8, tx: bv8, ud: bv8): (m: bv8)
    requires rx <= 1 && tx <= 1 && ud <= 1
    ensures m & !InterruptEnableMask == 0
    ensures (m & (1 << RXCIE0) != 0 <==> rx == 1) && (m & (1 << TXCIE0) != 0 <==> tx == 1)
    ensures m & (1 << UDRIE0) != 0 <==> ud == 1
  {
    (rx << RXCIE0) | (tx << TXCIE0) | (ud << UDRIE0)
  }

  /**
    enableOrDisableInterrupts as written: it clears only the bits it then
    sets again, so an argument of 1 enables and an argument of 0 leaves the
    bit as it was. UCSRnB only ever gains bits.
   */
  function EnableOrDisableInterrupts(u: UsartRegs, rx: bv8, tx: bv8, ud: bv8): (r: UsartRegs)
    requires rx <= 1 && tx <= 1 && ud <= 1
    ensures r.ucsrB & u.ucsrB == u.ucsrB
    ensures r.ucsrB == u.ucsrB | RequestedEnables(rx, tx, ud)
    ensures r == u.(ucsrB := r.ucsrB)
  {
    var cleared := u.ucsrB & !(rx << RXCIE0) & !(tx << TXCIE0) & !(ud << UDRIE0);
    u.(ucsrB := cleared | ((rx << RXCIE0) | (tx << TXCIE0) | (ud << UDRIE0)))
  }

  /** What the documentation promises: each interrupt enabled for 1 and disabled for 0. */
  function EnableOrDisableInterruptsIntended(u: UsartRegs, rx: bv8, tx: bv8, ud: bv8): (r: UsartRegs)
    requires rx <= 1 && tx <= 1 && ud <= 1
    ensures r.ucsrB & InterruptEnableMask == RequestedEnables(rx, tx, ud)
    ensures r.ucsrB & !InterruptEnableMask == u.ucsrB & !InterruptEnableMask
    ensures r == u.(ucsrB := r.ucsrB)
  {
    u.(ucsrB := (u.ucsrB & !InterruptEnableMask) | RequestedEnables(rx, tx, ud))
  }

  /**
    The code and the documented behaviour differ exactly when a 0 is passed
    for an interrupt that is enabled: that interrupt stays enabled.
   */
  lemma EnableOrDisableCannotDisable(u: UsartRegs, rx: bv8, tx: bv8, ud: bv8)
    requires rx <= 1 && tx <= 1 && ud <= 1
    ensures EnableOrDisableInterrupts(u, rx, tx, ud) == EnableOrDisableInterruptsIntended(u, rx, tx, ud)
      <==> u.ucsrB & InterruptEnableMask & !RequestedEnables(rx, tx, ud) == 0
  {
  }

  /** Concretely: with the receive interrupt on, passing 0 for it leaves it on. */
  lemma DisableReceiveInterruptHasNoEffect(u: UsartRegs)
    requires u.ucsrB == 0x98
    ensures EnableOrDisableInterrupts(u, 0, 0, 0).ucsrB & (1 << RXCIE0) != 0
    ensures EnableOrDisableInterruptsIntended(u, 0, 0, 0).ucsrB & (1 << RXCIE0) == 0
  {
  }
}
