/**
  The constants of the 16-bit Timer/Counter API: waveform-generation modes,
  clock sources, compare channels, PWM pin modes and interrupt flags, with
  the register bit positions of the ATmega2560 that they are packed into.
 */
module Timer16Modes {
  import opened Registers

  // Bit positions in TCCRnA, TCCRnB and TCCRnC (ATmega2560 datasheet).
  const WGM10: nat := 0
  const WGM11: nat := 1
  const WGM12: nat := 3
  const WGM13: nat := 4
  const CS10: nat := 0
  const CS11: nat := 1
  const CS12: nat := 2
  const COM1C0: nat := 2
  const COM1B0: nat := 4
  const COM1A0: nat := 6
  const FOC1C: nat := 5
  const FOC1B: nat := 6
  const FOC1A: nat := 7

  /** The WGMn[1..0] bits of TCCRnA and the WGMn[3..2] bits of TCCRnB. */
  const WgmMaskA: bv8 := (1 << WGM11) | (1 << WGM10)
  const WgmMaskB: bv8 := (1 << WGM13) | (1 << WGM12)

  /** The CSn[2..0] clock-select bits of TCCRnB. */
  const ClockMask: bv8 := (1 << CS12) | (1 << CS11) | (1 << CS10)

  /** A raw 4-bit waveform-generation code WGMn[3..0], as read back from hardware. */
  type WgmCode = m: bv8 | m < 16

  /** Where a mode takes its TOP (counting ceiling) from. */
  datatype TopSource = FixedTop(top: bv16) | OcrATop | IcrTop

  /** The fifteen operating modes; code 0x0D is reserved and has no name. */
  datatype Timer16Mode =
    | Normal
    | PwmPhaseCorrect8Bit
    | PwmPhaseCorrect9Bit
    | PwmPhaseCorrect10Bit
    | CtcOcrA
    | FastPwm8Bit
    | FastPwm9Bit
    | FastPwm10Bit
    | PwmPhaseFreqCorrectIcr
    | PwmPhaseFreqCorrectOcrA
    | PwmPhaseCorrectIcr
    | PwmPhaseCorrectOcrA
    | CtcIcr
    | FastPwmIcr
    | FastPwmOcrA
  {
    /** The enum value, i.e. the WGMn[3..0] bit pattern selecting the mode. */
    function Code(): WgmCode {
      match this
      case Normal => 0x0
      case PwmPhaseCorrect8Bit => 0x1
      case PwmPhaseCorrect9Bit => 0x2
      case PwmPhaseCorrect10Bit => 0x3
      case CtcOcrA => 0x4
      case FastPwm8Bit => 0x5
      case FastPwm9Bit => 0x6
      case FastPwm10Bit => 0x7
      case PwmPhaseFreqCorrectIcr => 0x8
      case PwmPhaseFreqCorrectOcrA => 0x9
      case PwmPhaseCorrectIcr => 0xA
      case PwmPhaseCorrectOcrA => 0xB
      case CtcIcr => 0xC
      case FastPwmIcr => 0xE
      case FastPwmOcrA => 0xF
    }

    /** The TOP column of the datasheet's waveform-generation mode table. */
    function Top(): TopSource {
      match this
      case Normal => FixedTop(0xFFFF)
      case PwmPhaseCorrect8Bit => FixedTop(0x00FF)
      case PwmPhaseCorrect9Bit => FixedTop(0x01FF)
      case PwmPhaseCorrect10Bit => FixedTop(0x03FF)
      case CtcOcrA => OcrATop
      case FastPwm8Bit => FixedTop(0x00FF)
      case FastPwm9Bit => FixedTop(0x01FF)
      case FastPwm10Bit => FixedTop(0x03FF)
      case PwmPhaseFreqCorrectIcr => IcrTop
      case PwmPhaseFreqCorrectOcrA => OcrATop
      case PwmPhaseCorrectIcr => IcrTop
      case PwmPhaseCorrectOcrA => OcrATop
      case CtcIcr => IcrTop
      case FastPwmIcr => IcrTop
      case FastPwmOcrA => OcrATop
    }
  }

  /** The named mode a raw code selects; None for the reserved code 0x0D. */
  function ModeOfCode(c: WgmCode): (r: Option<Timer16Mode>)
    ensures r.Some? ==> r.value.Code() == c
    ensures r.None? <==> c == 0xD
  {
    match c
    case 0x0 => Some(Normal)
    case 0x1 => Some(PwmPhaseCorrect8Bit)
    case 0x2 => Some(PwmPhaseCorrect9Bit)
    case 0x3 => Some(PwmPhaseCorrect10Bit)
    case 0x4 => Some(CtcOcrA)
    case 0x5 => Some(FastPwm8Bit)
    case 0x6 => Some(FastPwm9Bit)
    case 0x7 => Some(FastPwm10Bit)
    case 0x8 => Some(PwmPhaseFreqCorrectIcr)
    case 0x9 => Some(PwmPhaseFreqCorrectOcrA)
    case 0xA => Some(PwmPhaseCorrectIcr)
    case 0xB => Some(PwmPhaseCorrectOcrA)
    case 0xC => Some(CtcIcr)
    case 0xD => None
    case 0xE => Some(FastPwmIcr)
    case _ => Some(FastPwmOcrA)
  }

  /** Every named mode has its own code, none of them the reserved 0x0D. */
  lemma ModeCodesDistinct(a: Timer16Mode, b: Timer16Mode)
    ensures a.Code() != 0xD
    ensures a.Code() == b.Code() <==> a == b
    ensures ModeOfCode(a.Code()) == Some(a)
  {
  }

  /** The eight clock-select settings; the enum value is the CSn[2..0] field. */
  datatype ClockSource =
    | ClockOff
    | Prescale1
    | Prescale8
    | Prescale64
    | Prescale256
    | Prescale1024
    | ExternalFalling
    | ExternalRising
  {
    function Code(): (c: bv8)
      ensures c & !ClockMask == 0
    {
      match this
      case ClockOff => 0
      case Prescale1 => 1
      case Prescale8 => 2
      case Prescale64 => 3
      case Prescale256 => 4
      case Prescale1024 => 5
      case ExternalFalling => 6
      case ExternalRising => 7
    }
  }

  /** Reads the clock source back out of a TCCRnB value. */
  function ClockSourceOf(tccrB: bv8): (s: ClockSource)
    ensures s.Code() == tccrB & ClockMask
  {
    match tccrB & ClockMask
    case 0 => ClockOff
    case 1 => Prescale1
    case 2 => Prescale8
    case 3 => Prescale64
    case 4 => Prescale256
    case 5 => Prescale1024
    case 6 => ExternalFalling
    case _ => ExternalRising
  }

  /** Distinct clock sources have distinct codes, so the field identifies the source. */
  lemma ClockSourceCodeInjective(s: ClockSource, u: ClockSource)
    ensures s.Code() == u.Code() ==> s == u
    ensures ClockSourceOf(s.Code()) == s
  {
  }

  // Compare-channel identifiers; they are bit flags so that several can be OR'ed.
  const CompA: bv8 := 0x01
  const CompB: bv8 := 0x02
  const CompC: bv8 := 0x04

  // Interrupt enable / flag bits of TIMSKn and TIFRn.
  const IntOverflow: bv8 := 0x01
  const IntCompMatchA: bv8 := 0x02
  const IntCompMatchB: bv8 := 0x04
  const IntCompMatchC: bv8 := 0x08
  const IntInputCapture: bv8 := 0x20

  const AllChannels: set<bv8> := {CompA, CompB, CompC}
  const AllInterrupts: set<bv8> := {IntOverflow, IntCompMatchA, IntCompMatchB, IntCompMatchC, IntInputCapture}

  /** The `operator|` defined for channel and interrupt enums: OR of the byte values. */
  function Combine(a: bv8, b: bv8): (r: bv8)
    ensures r & a == a && r & b == b
    ensures r & !(a | b) == 0
  {
    a | b
  }

  /** The named constants of `flags` present in a combined mask. */
  function FlagsIn(mask: bv8, flags: set<bv8>): (s: set<bv8>)
    ensures s <= flags
    ensures forall f :: f in flags ==> (f in s <==> mask & f != 0)
  {
    set f | f in flags && mask & f != 0
  }

  /** The channel constants are distinct single bits. */
  lemma ChannelConstantsAreSingleBits()
    ensures forall c :: c in AllChannels ==> IsSingleBit(c)
    ensures |AllChannels| == 3
  {
  }

  /** The interrupt constants are distinct single bits. */
  lemma InterruptConstantsAreSingleBits()
    ensures forall c :: c in AllInterrupts ==> IsSingleBit(c)
    ensures |AllInterrupts| == 5
  {
  }

  /**
    Combining two sets of single-bit constants with `operator|` yields the
    union of what each names, and a single constant names only itself.
   */
  lemma CombineIsUnion(a: bv8, b: bv8, flags: set<bv8>)
    ensures FlagsIn(Combine(a, b), flags) == FlagsIn(a, flags) + FlagsIn(b, flags)
  {
    forall f | f in flags
      ensures (a | b) & f != 0 <==> a & f != 0 || b & f != 0
    {
      assert (a | b) & f == (a & f) | (b & f);
    }
  }

  lemma SingleConstantNamesItself(c: bv8, flags: set<bv8>)
    requires flags == AllChannels || flags == AllInterrupts
    requires c in flags
    ensures FlagsIn(c, flags) == {c}
  {
  }

  /** The six pin behaviours of an OCnX output. */
  datatype PwmPinMode =
    | PinOff
    | ToggleOnMatch
    | ClearOnMatch
    | SetOnMatch
    | PwmNormal
    | PwmInverted
  {
    /**
      The COMnX[1..0] pattern written for the mode; clear-on-match and normal
      PWM share one pattern, as do set-on-match and inverted PWM.
     */
    function ComBits(): (b: bv8)
      ensures b < 4
    {
      match this
      case PinOff => 0
      case ToggleOnMatch => 1
      case ClearOnMatch | PwmNormal => 2
      case SetOnMatch | PwmInverted => 3
    }
  }
}
