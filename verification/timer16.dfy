/**
  The TimerCounter16Bit engine: a record of the registers of one 16-bit
  Timer/Counter and one pure state-to-state function per operation.
  Channel and interrupt arguments are the raw byte values of the C enums,
  so OR'ed and unrecognised values are handled as the C switch statements
  handle them.
 */
module Timer16 {
  import opened Registers
  import opened Timer16Modes

  /**
    The register set of one Timer/Counter. `ocrC` is None on a variant
    without a third compare channel (ATmega328P), Some on the ATmega2560.
   */
  datatype Timer16Regs = Timer16Regs(
    tccrA: bv8,
    tccrB: bv8,
    tccrC: bv8,
    tcnt: bv16,
    ocrA: bv16,
    ocrB: bv16,
    ocrC: Option<bv16>,
    icr: bv16,
    timsk: bv8,
    tifr: bv8)

  // ---------------------------------------------------------------------
  // Mode

  /** Decodes WGMn[3..0] from TCCRnA bits 1..0 and TCCRnB bits 4..3. */
  function GetMode(t: Timer16Regs): (m: WgmCode)
    ensures m == ((t.tccrB & WgmMaskB) >> 1) | (t.tccrA & WgmMaskA)
  {
    ((t.tccrA >> WGM10) & 0x03) | (((t.tccrB >> WGM12) << 2) & 0x0C)
  }

  /** The decoded mode depends on the four WGM bits and on nothing else. */
  lemma GetModeDependsOnlyOnWgmBits(t: Timer16Regs, u: Timer16Regs)
    requires t.tccrA & WgmMaskA == u.tccrA & WgmMaskA
    requires t.tccrB & WgmMaskB == u.tccrB & WgmMaskB
    ensures GetMode(t) == GetMode(u)
  {
  }

  /** Clears the four WGM bits and writes the code's bits 1..0 into TCCRnA, 3..2 into TCCRnB. */
  function SetMode(t: Timer16Regs, mode: WgmCode): (r: Timer16Regs)
    ensures GetMode(r) == mode
    ensures r.tccrA & !WgmMaskA == t.tccrA & !WgmMaskA
    ensures r.tccrB & !WgmMaskB == t.tccrB & !WgmMaskB
    ensures r == t.(tccrA := r.tccrA, tccrB := r.tccrB)
  {
    var tccrB := (t.tccrB & !WgmMaskB) | (((mode & 0x0C) >> 2) << WGM12);
    var tccrA := (t.tccrA & !WgmMaskA) | ((mode & 0x03) << WGM10);
    t.(tccrA := tccrA, tccrB := tccrB)
  }

  /**
    Encoding and decoding are exact inverses in the other direction too:
    re-selecting the live mode rewrites the registers with what they hold.
   */
  lemma SetModeOfCurrentModeIsIdentity(t: Timer16Regs)
    ensures SetMode(t, GetMode(t)) == t
  {
  }

  // ---------------------------------------------------------------------
  // Clock source and count value

  /** Rewrites the CSn[2..0] field of TCCRnB. */
  function SelectClockSource(t: Timer16Regs, source: ClockSource): (r: Timer16Regs)
    ensures ClockSourceOf(r.tccrB) == source
    ensures r.tccrB & !ClockMask == t.tccrB & !ClockMask
    ensures GetMode(r) == GetMode(t)
    ensures r == t.(tccrB := r.tccrB)
  {
    ClockSourceCodeInjective(ClockSourceOf((t.tccrB & !ClockMask) | (source.Code() << CS10)), source);
    t.(tccrB := (t.tccrB & !ClockMask) | (source.Code() << CS10))
  }

  /** Writes TCNTn; no other register changes. */
  function SetActualCountValue(t: Timer16Regs, count: bv16): (r: Timer16Regs)
    ensures r.tcnt == count
    ensures r == t.(tcnt := r.tcnt)
  {
    t.(tcnt := count)
  }

  /** Reads TCNTn; writing back the value read changes no register. */
  function GetActualCountValue(t: Timer16Regs): (count: bv16)
    ensures SetActualCountValue(t, count) == t
  {
    t.tcnt
  }

  /** Writing the count register and reading it back yields the value written. */
  lemma CountValueRoundTrip(t: Timer16Regs, count: bv16)
    ensures GetActualCountValue(SetActualCountValue(t, count)) == count
    ensures GetMode(SetActualCountValue(t, count)) == GetMode(t)
  {
  }

  // ---------------------------------------------------------------------
  // TOP value

  /** `top` is what the TOP source `src` yields on registers `t`. */
  predicate ReadsTop(t: Timer16Regs, src: TopSource, top: bv16) {
    match src
    case FixedTop(x) => top == x
    case OcrATop => top == t.ocrA
    case IcrTop => top == t.icr
  }

  /** `r` is the outcome of asking to set TOP to `v` where the TOP source is `src`. */
  predicate WritesTop(t: Timer16Regs, src: TopSource, v: bv16, r: (Timer16Regs, int)) {
    match src
    case FixedTop(_) => r == (t, -1)
    case OcrATop => r == (t.(ocrA := v), 0)
    case IcrTop => r == (t.(icr := v), 0)
  }

  /**
    Writes `v` to the register the live mode takes TOP from; returns 0 on a
    write and -1, writing nothing, when the mode has a fixed TOP.
   */
  function SetTopValue(t: Timer16Regs, v: bv16): (r: (Timer16Regs, int))
    ensures ModeOfCode(GetMode(t)).Some? ==> WritesTop(t, ModeOfCode(GetMode(t)).value.Top(), v, r)
    ensures GetMode(t) == 0xD ==> r == (t, -1)
  {
    match GetMode(t)
    case 0x4 | 0x9 | 0xB | 0xF => (t.(ocrA := v), 0)
    case 0x8 | 0xA | 0xC | 0xE => (t.(icr := v), 0)
    case _ => (t, -1)
  }

  /** The TOP of the live mode: a fixed constant, or the content of OCRnA or ICRn. */
  function GetTopValue(t: Timer16Regs): (top: bv16)
    ensures ModeOfCode(GetMode(t)).Some? ==> ReadsTop(t, ModeOfCode(GetMode(t)).value.Top(), top)
    ensures GetMode(t) == 0xD ==> top == 0xFFFF
  {
    match GetMode(t)
    case 0x4 | 0x9 | 0xB | 0xF => t.ocrA
    case 0x8 | 0xA | 0xC | 0xE => t.icr
    case 0x1 | 0x5 => 0x00FF
    case 0x2 | 0x6 => 0x01FF
    case 0x3 | 0x7 => 0x03FF
    case _ => 0xFFFF
  }

  /**
    The case lists of the setTopValue and getTopValue switches are exactly the
    rows of the datasheet's mode table: the codes whose TOP is OCRnA, those
    whose TOP is ICRn, and each fixed TOP; 0x0D alone names no mode.
   */
  lemma TopSourceByCode(c: WgmCode)
    ensures ModeOfCode(c).None? <==> c == 0xD
    ensures (ModeOfCode(c).Some? && ModeOfCode(c).value.Top() == OcrATop) <==> c in {0x4, 0x9, 0xB, 0xF}
    ensures (ModeOfCode(c).Some? && ModeOfCode(c).value.Top() == IcrTop) <==> c in {0x8, 0xA, 0xC, 0xE}
    ensures (ModeOfCode(c).Some? && ModeOfCode(c).value.Top() == FixedTop(0x00FF)) <==> c in {0x1, 0x5}
    ensures (ModeOfCode(c).Some? && ModeOfCode(c).value.Top() == FixedTop(0x01FF)) <==> c in {0x2, 0x6}
    ensures (ModeOfCode(c).Some? && ModeOfCode(c).value.Top() == FixedTop(0x03FF)) <==> c in {0x3, 0x7}
    ensures (ModeOfCode(c).Some? && ModeOfCode(c).value.Top() == FixedTop(0xFFFF)) <==> c == 0x0
  {
  }

  /**
    A successful setTopValue is observed by getTopValue; a refused one
    changes no register. Either way the mode is unchanged.
   */
  lemma SetTopThenGetTop(t: Timer16Regs, v: bv16)
    ensures var (r, status) := SetTopValue(t, v);
      && GetMode(r) == GetMode(t)
      && (status == 0 ==> GetTopValue(r) == v)
      && (status == -1 <==> r == t && !(ModeOfCode(GetMode(t)).Some? && ModeOfCode(GetMode(t)).value.Top() in {OcrATop, IcrTop}))
      && (status == 0 || status == -1)
  {
  }

  // ---------------------------------------------------------------------
  // Compare channels

  /** `ch` names exactly one compare channel that exists on this variant. */
  predicate HasChannel(t: Timer16Regs, ch: bv8) {
    ch == CompA || ch == CompB || (ch == CompC && t.ocrC.Some?)
  }

  /** Reads OCRnA, OCRnB or OCRnC; an unrecognised channel value reads 0xFFFF. */
  function GetCompareMatchValue(t: Timer16Regs, ch: bv8): (v: bv16)
    ensures !HasChannel(t, ch) ==> v == 0xFFFF
    ensures ch == CompA && ModeOfCode(GetMode(t)).Some? && ModeOfCode(GetMode(t)).value.Top() == OcrATop
      ==> v == GetTopValue(t)
  {
    if ch == CompA then t.ocrA
    else if ch == CompB then t.ocrB
    else if ch == CompC && t.ocrC.Some? then t.ocrC.value
    else 0xFFFF
  }

  /** Writes the compare register of `ch`; an unrecognised channel value writes nothing. */
  function SetCompareMatchValue(t: Timer16Regs, ch: bv8, v: bv16): (r: Timer16Regs)
    ensures HasChannel(t, ch) ==> GetCompareMatchValue(r, ch) == v
    ensures !HasChannel(t, ch) ==> r == t
    ensures forall c :: c != ch ==> GetCompareMatchValue(r, c) == GetCompareMatchValue(t, c)
    ensures r.ocrC.Some? == t.ocrC.Some?
    ensures r == t.(ocrA := r.ocrA, ocrB := r.ocrB, ocrC := r.ocrC)
  {
    if ch == CompA then t.(ocrA := v)
    else if ch == CompB then t.(ocrB := v)
    else if ch == CompC && t.ocrC.Some? then t.(ocrC := Some(v))
    else t
  }

  /** In a mode whose TOP is OCRnA, writing channel A's compare value moves TOP. */
  lemma CompareMatchAMovesTop(t: Timer16Regs, v: bv16)
    requires ModeOfCode(GetMode(t)).Some? && ModeOfCode(GetMode(t)).value.Top() == OcrATop
    ensures GetTopValue(SetCompareMatchValue(t, CompA, v)) == v
  {
  }

  // ---------------------------------------------------------------------
  // PWM pin modes

  /** Position of the COMnX[1..0] field of `ch` in TCCRnA; 0 for an unrecognised value. */
  function ComOffset(t: Timer16Regs, ch: bv8): (off: bv8)
    ensures off <= 6
  {
    if ch == CompA then COM1A0 as bv8
    else if ch == CompB then COM1B0 as bv8
    else if ch == CompC && t.ocrC.Some? then COM1C0 as bv8
    else 0
  }

  /** The 2-bit COM field of channel `ch` as stored in TCCRnA. */
  function ComField(t: Timer16Regs, ch: bv8): bv8 {
    (t.tccrA >> ComOffset(t, ch)) & 0x03
  }

  /**
    The byte TCCRnA becomes when the 2-bit field at `off` is written for
    `pinMode`: cleared and OR'ed with the pattern, except that the all-ones
    pattern is only OR'ed in.
   */
  function WriteComBits(x: bv8, off: bv8, pinMode: PwmPinMode): (y: bv8)
    requires off <= 6
    ensures (y >> off) & 0x03 == pinMode.ComBits()
    ensures y & !(0x03 << off) == x & !(0x03 << off)
  {
    var cleared := x & !(0x03 << off);
    match pinMode
    case PinOff => cleared
    case ToggleOnMatch => cleared | (0x01 << off)
    case ClearOnMatch | PwmNormal => cleared | (0x02 << off)
    case SetOnMatch | PwmInverted => x | (0x03 << off)
  }

  /**
    Rewrites the 2-bit COM field at the channel's offset with the pin mode's
    pattern. An unrecognised channel value leaves the offset at 0, so the
    write lands on WGMn1..0 instead.
   */
  function SetPwmPinMode(t: Timer16Regs, ch: bv8, pinMode: PwmPinMode): (r: Timer16Regs)
    ensures ComField(r, ch) == pinMode.ComBits()
    ensures var keep: bv8 := !(0x03 << ComOffset(t, ch)); r.tccrA & keep == t.tccrA & keep
    ensures HasChannel(t, ch) ==> GetMode(r) == GetMode(t)
    ensures !HasChannel(t, ch) ==> GetMode(r) & 0x03 == pinMode.ComBits()
    ensures r == t.(tccrA := r.tccrA)
  {
    var off := ComOffset(t, ch);
    var y := WriteComBits(t.tccrA, off, pinMode);
    assert off >= 2 ==> y & WgmMaskA == t.tccrA & WgmMaskA by {
      if off >= 2 {
        assert !(0x03 << off) & WgmMaskA == WgmMaskA;
        assert y & WgmMaskA == (y & !(0x03 << off)) & WgmMaskA;
      }
    }
    t.(tccrA := y)
  }

  /** Setting one channel's pin mode never disturbs another channel's field. */
  lemma PwmPinModeChannelsIndependent(t: Timer16Regs, a: bv8, b: bv8, pinMode: PwmPinMode)
    requires HasChannel(t, a) && HasChannel(t, b) && a != b
    ensures ComField(SetPwmPinMode(t, a, pinMode), b) == ComField(t, b)
  {
  }

  // ---------------------------------------------------------------------
  // Forced compare match

  /**
    Stores in TCCRnC the FOCnX strobe bit of every channel present in
    `channels`; the previous content and all other bits are discarded.
   */
  function ForceOutputCompareMatch(t: Timer16Regs, channels: bv8): (r: Timer16Regs)
    ensures r.tccrC & (1 << FOC1A) != 0 <==> channels & CompA != 0
    ensures r.tccrC & (1 << FOC1B) != 0 <==> channels & CompB != 0
    ensures r.tccrC & (1 << FOC1C) != 0 <==> channels & CompC != 0
    ensures r.tccrC & 0x1F == 0
    ensures r == t.(tccrC := r.tccrC)
  {
    var a: bv8 := if channels & CompA != 0 then 1 << FOC1A else 0;
    var b: bv8 := if channels & CompB != 0 then 1 << FOC1B else 0;
    var c: bv8 := if channels & CompC != 0 then 1 << FOC1C else 0;
    t.(tccrC := a | b | c)
  }

  // ---------------------------------------------------------------------
  // Interrupts

  function EnableInterrupts(t: Timer16Regs, flags: bv8): (r: Timer16Regs)
    ensures r.timsk & flags == flags
    ensures r.timsk & !flags == t.timsk & !flags
    ensures r == t.(timsk := r.timsk)
  {
    t.(timsk := t.timsk | flags)
  }

  function DisableInterrupts(t: Timer16Regs, flags: bv8): (r: Timer16Regs)
    ensures r.timsk & flags == 0
    ensures r.timsk & !flags == t.timsk & !flags
    ensures r == t.(timsk := r.timsk)
  {
    t.(timsk := t.timsk & !flags)
  }

  /** Enabling interrupts that were disabled and then disabling them restores the mask. */
  lemma EnableThenDisableRestores(t: Timer16Regs, flags: bv8)
    requires t.timsk & flags == 0
    ensures DisableInterrupts(EnableInterrupts(t, flags), flags) == t
  {
  }

  /** Disabling interrupts that were enabled and then enabling them restores the mask. */
  lemma DisableThenEnableRestores(t: Timer16Regs, flags: bv8)
    requires t.timsk & flags == flags
    ensures EnableInterrupts(DisableInterrupts(t, flags), flags) == t
  {
  }

  /**
    `*m_tifr |= flags` as written: the read-modify-write stores a 1 for every
    pending flag, and TIFRn clears each flag written as 1, so every pending
    flag is cleared, whether or not it was named in `flags`.
   */
  function ClearPendingInterruptEvents(t: Timer16Regs, flags: bv8): (r: Timer16Regs)
    ensures r.tifr & flags == 0
    ensures r.tifr == 0
    ensures r == t.(tifr := r.tifr)
  {
    t.(tifr := OrIntoFlagRegister(t.tifr, flags))
  }

  /** Clearing exactly the named pending flags: a plain store of `flags` into TIFRn. */
  function ClearPendingInterruptEventsIntended(t: Timer16Regs, flags: bv8): (r: Timer16Regs)
    ensures r.tifr & flags == 0
    ensures r.tifr & !flags == t.tifr & !flags
    ensures r == t.(tifr := r.tifr)
  {
    t.(tifr := WriteOneToClear(t.tifr, flags))
  }

  /**
    The two differ exactly when some flag outside `flags` is pending: the
    code as written then discards an interrupt event it was not asked to.
   */
  lemma ClearPendingDiscardsUnnamedFlags(t: Timer16Regs, flags: bv8)
    ensures ClearPendingInterruptEvents(t, flags) == ClearPendingInterruptEventsIntended(t, flags)
      <==> t.tifr & !flags == 0
  {
  }

  /** Concretely: clearing the overflow flag also loses a pending compare-match-A event. */
  lemma ClearOverflowLosesCompareMatchA(t: Timer16Regs)
    requires t.tifr == IntOverflow | IntCompMatchA
    ensures ClearPendingInterruptEvents(t, IntOverflow).tifr & IntCompMatchA == 0
    ensures ClearPendingInterruptEventsIntended(t, IntOverflow).tifr == IntCompMatchA
  {
  }

  // ---------------------------------------------------------------------
  // Combined behaviour

  /** One call of the TimerCounter16Bit public interface, with its arguments. */
  datatype Timer16Call =
    | SetModeCall(mode: WgmCode)
    | SelectClockSourceCall(source: ClockSource)
    | SetCountCall(count: bv16)
    | SetTopCall(top: bv16)
    | SetCompareCall(ch: bv8, value: bv16)
    | SetPwmPinModeCall(ch: bv8, pinMode: PwmPinMode)
    | ForceCall(channels: bv8)
    | EnableCall(flags: bv8)
    | DisableCall(flags: bv8)
    | ClearPendingCall(flags: bv8)

  /** The registers after one call; the status of setTopValue is dropped. */
  function Step(t: Timer16Regs, c: Timer16Call): (r: Timer16Regs)
    ensures r.ocrC.Some? == t.ocrC.Some?
    ensures KeepsMode(c, t.ocrC.Some?) ==> GetMode(r) == GetMode(t)
    ensures c.SetModeCall? ==> GetMode(r) == c.mode
  {
    match c
    case SetModeCall(m) => SetMode(t, m)
    case SelectClockSourceCall(src) => SelectClockSource(t, src)
    case SetCountCall(v) => SetActualCountValue(t, v)
    case SetTopCall(v) => SetTopThenGetTop(t, v); SetTopValue(t, v).0
    case SetCompareCall(ch, v) => SetCompareMatchValue(t, ch, v)
    case SetPwmPinModeCall(ch, pm) => SetPwmPinMode(t, ch, pm)
    case ForceCall(chs) => ForceOutputCompareMatch(t, chs)
    case EnableCall(f) => EnableInterrupts(t, f)
    case DisableCall(f) => DisableInterrupts(t, f)
    case ClearPendingCall(f) => ClearPendingInterruptEvents(t, f)
  }

  /** The registers after a sequence of calls, first call first. */
  function Run(t: Timer16Regs, calls: seq<Timer16Call>): Timer16Regs
    decreases |calls|
  {
    if |calls| == 0 then t else Run(Step(t, calls[0]), calls[1..])
  }

  /** Running two sequences one after the other is running their concatenation. */
  lemma {:induction false} RunAppend(t: Timer16Regs, a: seq<Timer16Call>, b: seq<Timer16Call>)
    ensures Run(t, a + b) == Run(Run(t, a), b)
    decreases |a|
  {
    if |a| == 0 {
      assert a + b == b;
    } else {
      assert (a + b)[0] == a[0];
      assert (a + b)[1..] == a[1..] + b;
      RunAppend(Step(t, a[0]), a[1..], b);
    }
  }

  /** No call adds or removes the third compare register: the variant is fixed. */
  lemma {:induction false} RunKeepsVariant(t: Timer16Regs, calls: seq<Timer16Call>)
    ensures Run(t, calls).ocrC.Some? == t.ocrC.Some?
    decreases |calls|
  {
    if |calls| > 0 {
      RunKeepsVariant(Step(t, calls[0]), calls[1..]);
    }
  }

  /**
    A call that leaves the mode alone on a variant with (`hasC`) or without
    the third channel: anything but setMode, and a pin-mode call only for a
    channel that exists (otherwise the write lands on WGMn1..0).
   */
  predicate KeepsMode(c: Timer16Call, hasC: bool) {
    match c
    case SetModeCall(_) => false
    case SetPwmPinModeCall(ch, _) => ch == CompA || ch == CompB || (ch == CompC && hasC)
    case _ => true
  }

  /** Every call that keeps the mode, run in any order and any number, leaves getMode as it was. */
  lemma {:induction false} RunKeepsMode(t: Timer16Regs, calls: seq<Timer16Call>)
    requires forall i :: 0 <= i < |calls| ==> KeepsMode(calls[i], t.ocrC.Some?)
    ensures GetMode(Run(t, calls)) == GetMode(t)
    decreases |calls|
  {
    if |calls| > 0 {
      RunKeepsMode(Step(t, calls[0]), calls[1..]);
    }
  }

  /**
    getMode reports the mode most recently passed to setMode, however the
    clock, TOP, compare values, pin modes and interrupts were configured after it.
   */
  lemma {:induction false} ModeIsLastModeSet(t: Timer16Regs, before: seq<Timer16Call>, mode: WgmCode, after: seq<Timer16Call>)
    requires forall i :: 0 <= i < |after| ==> KeepsMode(after[i], t.ocrC.Some?)
    ensures GetMode(Run(t, before + [SetModeCall(mode)] + after)) == mode
  {
    RunAppend(t, before + [SetModeCall(mode)], after);
    RunAppend(t, before, [SetModeCall(mode)]);
    var t1 := Run(t, before + [SetModeCall(mode)]);
    RunKeepsVariant(t, before);
    assert t1 == Step(Run(t, before), SetModeCall(mode));
    RunKeepsMode(t1, after);
  }

  /**
    The CTC example's configuration sequence: CTC mode with TOP in OCRnA,
    TOP 39999, compare value 2000 on channel B, compare-match A and B
    interrupts enabled, prescaler 8. Everything reads back as configured.
   */
  lemma CtcScenario(t: Timer16Regs)
    ensures var t1 := SetMode(t, CtcOcrA.Code());
      var (t2, status) := SetTopValue(t1, 39999);
      var t3 := SetCompareMatchValue(t2, CompB, 2000);
      var t4 := EnableInterrupts(t3, Combine(IntCompMatchA, IntCompMatchB));
      var t5 := SelectClockSource(t4, Prescale8);
      && status == 0
      && GetTopValue(t5) == 39999
      && GetCompareMatchValue(t5, CompB) == 2000
      && ModeOfCode(GetMode(t5)) == Some(CtcOcrA)
      && ClockSourceOf(t5.tccrB) == Prescale8
      && FlagsIn(t5.timsk & (IntCompMatchA | IntCompMatchB), AllInterrupts) == {IntCompMatchA, IntCompMatchB}
  {
  }
}
