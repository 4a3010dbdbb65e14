/**
  External interrupt lines INTn: the sense-control field of each line in
  EICRA/EICRB, its enable bit in EIMSK and its pending flag in EIFR, with
  the C functions and the ExtInt wrapper class bound to one line number.
  Line numbers and event types are the C `uint8_t` arguments, as bytes.
 */
module ExternalInterrupts {
  import opened Registers

  // The event types accepted by setExtIntEventType (the ISCn1..0 patterns).
  const ExtIntLowLevelActive: bv8 := 0x00
  const ExtIntAnyEdge: bv8 := 0x01
  const ExtIntFallingEdge: bv8 := 0x02
  const ExtIntRisingEdge: bv8 := 0x03

  /** EXT_INT_COUNT: one more than the highest INTn vector the chip defines. */
  type ExtIntCount = c: bv8 | 1 <= c <= 8 witness 1

  /** The variant parameters: how many lines there are and whether EICRB exists. */
  datatype ExtIntChip = ExtIntChip(count: ExtIntCount, hasEicrb: bool)

  const ATmega2560: ExtIntChip := ExtIntChip(8, true)

  datatype ExtIntRegs = ExtIntRegs(eicra: bv8, eicrb: bv8, eimsk: bv8, eifr: bv8)

  /** Bit offset of the ISCn1..0 field of line `n` within its control register. */
  function SenseOffset(n: bv8): (off: bv8)
    requires n < 8
    ensures off <= 6 && off % 2 == 0
  {
    (n % 4) * 2
  }

  /** The 2-bit field of `x` starting at bit `off`. */
  function FieldAt(x: bv8, off: bv8): bv8
    requires off <= 6
  {
    (x >> off) & 0x03
  }

  /** The 2-bit sense-control field of line `n`: EICRA for lines 0..3, EICRB for 4..7. */
  function SenseField(regs: ExtIntRegs, n: bv8): bv8
    requires n < 8
  {
    if n < 4 then FieldAt(regs.eicra, SenseOffset(n))
    else FieldAt(regs.eicrb, SenseOffset(n))
  }

  /** The EIMSK / EIFR bit of line `n`. */
  function LineBit(n: bv8): (b: bv8)
    requires n < 8
    ensures IsSingleBit(b)
  {
    1 << n
  }

  /** Writes `evt` into the 2-bit field at `off` of `x`, leaving the other bits. */
  function WriteSenseBits(x: bv8, off: bv8, evt: bv8): (y: bv8)
    requires off <= 6 && off % 2 == 0 && evt <= 0x03
    ensures FieldAt(y, off) == evt
    ensures y & !(0x03 << off) == x & !(0x03 << off)
    ensures forall o: bv8 :: o <= 6 && o % 2 == 0 && o != off ==> FieldAt(y, o) == FieldAt(x, o)
  {
    var y := (x & !(0x03 << off)) | (evt << off);
    forall o: bv8 | o <= 6 && o % 2 == 0 && o != off
      ensures FieldAt(y, o) == FieldAt(x, o)
    {
      assert ((0x03 as bv8) << off) & ((0x03 as bv8) << o) == 0;
    }
    y
  }

  /**
    setExtIntEventType: for an existing line and an event type 0..3, rewrites
    the line's sense field; out-of-range lines and event types are no-ops,
    and so are lines 4..7 on a chip without EICRB.
   */
  function SetExtIntEventType(chip: ExtIntChip, regs: ExtIntRegs, n: bv8, evt: bv8): (r: ExtIntRegs)
    ensures n >= chip.count || evt > 0x03 ==> r == regs
    ensures n < chip.count && evt <= 0x03 && n < 4 ==>
      SenseField(r, n) == evt && r == regs.(eicra := r.eicra)
    ensures n < chip.count && evt <= 0x03 && 4 <= n && chip.hasEicrb ==>
      SenseField(r, n) == evt && r == regs.(eicrb := r.eicrb)
    ensures 4 <= n && !chip.hasEicrb ==> r == regs
    ensures forall j: bv8 :: j < 8 && j != n ==> SenseField(r, j) == SenseField(regs, j)
  {
    if n >= chip.count then regs
    else if evt > 0x03 then regs
    else if n < 4 then regs.(eicra := WriteSenseBits(regs.eicra, SenseOffset(n), evt))
    else if chip.hasEicrb && n < 8 then regs.(eicrb := WriteSenseBits(regs.eicrb, SenseOffset(n), evt))
    else regs
  }

  /**
    On a line that exists, the event types setExtIntEventType stores are
    exactly the four EXTINT constants; any other value leaves the line as it was.
   */
  lemma EventTypeConstantsAreTheAcceptedRange(chip: ExtIntChip, regs: ExtIntRegs, n: bv8, evt: bv8)
    requires n < chip.count && (n < 4 || chip.hasEicrb)
    ensures evt in {ExtIntLowLevelActive, ExtIntAnyEdge, ExtIntFallingEdge, ExtIntRisingEdge}
      <==> SenseField(SetExtIntEventType(chip, regs, n, evt), n) == evt
    ensures evt !in {ExtIntLowLevelActive, ExtIntAnyEdge, ExtIntFallingEdge, ExtIntRisingEdge}
      ==> SetExtIntEventType(chip, regs, n, evt) == regs
  {
  }

  /** Setting the same event type twice has the effect of setting it once. */
  lemma SetExtIntEventTypeIdempotent(chip: ExtIntChip, regs: ExtIntRegs, n: bv8, evt: bv8)
    ensures var once := SetExtIntEventType(chip, regs, n, evt);
      SetExtIntEventType(chip, once, n, evt) == once
  {
  }

  /** A second event type for the same line overrides the first entirely. */
  lemma SetExtIntEventTypeLastWins(chip: ExtIntChip, regs: ExtIntRegs, n: bv8, evt1: bv8, evt2: bv8)
    requires evt1 <= 0x03 && evt2 <= 0x03
    ensures SetExtIntEventType(chip, SetExtIntEventType(chip, regs, n, evt1), n, evt2)
      == SetExtIntEventType(chip, regs, n, evt2)
  {
  }

  /** enableExtInt: sets the line's EIMSK bit; a line that does not exist is a no-op. */
  function EnableExtInt(chip: ExtIntChip, regs: ExtIntRegs, n: bv8): (r: ExtIntRegs)
    ensures n >= chip.count ==> r == regs
    ensures n < chip.count ==> r.eimsk & LineBit(n) != 0
    ensures n < chip.count ==> r.eimsk & !LineBit(n) == regs.eimsk & !LineBit(n)
    ensures r == regs.(eimsk := r.eimsk)
  {
    if n >= chip.count then regs
    else regs.(eimsk := regs.eimsk | (0x01 << n))
  }

  /** disableExtInt: clears the line's EIMSK bit; a line that does not exist is a no-op. */
  function DisableExtInt(chip: ExtIntChip, regs: ExtIntRegs, n: bv8): (r: ExtIntRegs)
    ensures n >= chip.count ==> r == regs
    ensures n < chip.count ==> r.eimsk & LineBit(n) == 0
    ensures n < chip.count ==> r.eimsk & !LineBit(n) == regs.eimsk & !LineBit(n)
    ensures r == regs.(eimsk := r.eimsk)
  {
    if n >= chip.count then regs
    else regs.(eimsk := regs.eimsk & !(0x01 << n))
  }

  /** Enabling a disabled line and disabling it again restores EIMSK. */
  lemma EnableThenDisableRestores(chip: ExtIntChip, regs: ExtIntRegs, n: bv8)
    requires n < chip.count ==> regs.eimsk & LineBit(n) == 0
    ensures DisableExtInt(chip, EnableExtInt(chip, regs, n), n) == regs
  {
  }

  /**
    clearPendingExtIntEvent as written, `EIFR |= 1 << n`: the read-modify-write
    writes a 1 for every pending flag, so every pending flag is cleared.
   */
  function ClearPendingExtIntEvent(chip: ExtIntChip, regs: ExtIntRegs, n: bv8): (r: ExtIntRegs)
    ensures n >= chip.count ==> r == regs
    ensures n < chip.count ==> r.eifr == 0
    ensures r == regs.(eifr := r.eifr)
  {
    if n >= chip.count then regs
    else regs.(eifr := OrIntoFlagRegister(regs.eifr, 0x01 << n))
  }

  /** Clearing only line `n`'s pending flag: a plain store of `1 << n` into EIFR. */
  function ClearPendingExtIntEventIntended(chip: ExtIntChip, regs: ExtIntRegs, n: bv8): (r: ExtIntRegs)
    ensures n >= chip.count ==> r == regs
    ensures n < chip.count ==> r.eifr & LineBit(n) == 0
    ensures n < chip.count ==> r.eifr & !LineBit(n) == regs.eifr & !LineBit(n)
    ensures r == regs.(eifr := r.eifr)
  {
    if n >= chip.count then regs
    else regs.(eifr := WriteOneToClear(regs.eifr, 0x01 << n))
  }

  /** The code as written and the intended clear differ exactly when another line has a pending event. */
  lemma ClearPendingDiscardsOtherLines(chip: ExtIntChip, regs: ExtIntRegs, n: bv8)
    requires n < chip.count
    ensures ClearPendingExtIntEvent(chip, regs, n) == ClearPendingExtIntEventIntended(chip, regs, n)
      <==> regs.eifr & !LineBit(n) == 0
  {
  }

  /** Concretely: clearing INT0 while INT1 is pending also loses the INT1 event. */
  lemma ClearInt0LosesInt1(regs: ExtIntRegs)
    requires regs.eifr == 0x03
    ensures ClearPendingExtIntEvent(ATmega2560, regs, 0).eifr & LineBit(1) == 0
    ensures ClearPendingExtIntEventIntended(ATmega2560, regs, 0).eifr & LineBit(1) != 0
  {
  }

  // ---------------------------------------------------------------------
  // The ExtInt class: a line number bound once, then every method
  // delegates to the C function with that number.

  datatype ExtInt = ExtInt(number: bv8) {

    /** The line's registers are untouched by this object for every other line. */
    ghost predicate OtherLinesUnchanged(before: ExtIntRegs, after: ExtIntRegs) {
      forall j: bv8 :: j < 8 && j != number ==>
        && SenseField(after, j) == SenseField(before, j)
        && after.eimsk & LineBit(j) == before.eimsk & LineBit(j)
    }

    function SetEventType(chip: ExtIntChip, regs: ExtIntRegs, evt: bv8): (r: ExtIntRegs)
      ensures number < chip.count && evt <= 0x03 && (number < 4 || chip.hasEicrb) ==> SenseField(r, number) == evt
      ensures !(number < chip.count && evt <= 0x03 && (number < 4 || chip.hasEicrb)) ==> r == regs
      ensures OtherLinesUnchanged(regs, r) && r.eimsk == regs.eimsk && r.eifr == regs.eifr
    {
      SetExtIntEventType(chip, regs, number, evt)
    }

    function Enable(chip: ExtIntChip, regs: ExtIntRegs): (r: ExtIntRegs)
      ensures number < chip.count ==> r.eimsk & LineBit(number) != 0
      ensures number >= chip.count ==> r == regs
      ensures OtherLinesUnchanged(regs, r) && r == regs.(eimsk := r.eimsk)
    {
      EnableExtInt(chip, regs, number)
    }

    function Disable(chip: ExtIntChip, regs: ExtIntRegs): (r: ExtIntRegs)
      ensures number < chip.count ==> r.eimsk & LineBit(number) == 0
      ensures number >= chip.count ==> r == regs
      ensures OtherLinesUnchanged(regs, r) && r == regs.(eimsk := r.eimsk)
    {
      DisableExtInt(chip, regs, number)
    }

    /** Like the C function, this clears the pending flags of every line when the line exists. */
    function ClearPendingEvent(chip: ExtIntChip, regs: ExtIntRegs): (r: ExtIntRegs)
      ensures number < chip.count ==> r.eifr == 0
      ensures number >= chip.count ==> r == regs
      ensures OtherLinesUnchanged(regs, r) && r == regs.(eifr := r.eifr)
    {
      ClearPendingExtIntEvent(chip, regs, number)
    }
  }

  /** The ExtInt constructor: binds the line number and sets its event type once. */
  function NewExtInt(chip: ExtIntChip, regs: ExtIntRegs, n: bv8, evt: bv8): (r: (ExtInt, ExtIntRegs))
    ensures r.0.number == n
    ensures n < chip.count && evt <= 0x03 && (n < 4 || chip.hasEicrb) ==> SenseField(r.1, n) == evt
    ensures !(n < chip.count && evt <= 0x03 && (n < 4 || chip.hasEicrb)) ==> r.1 == regs
    ensures r.0.OtherLinesUnchanged(regs, r.1)
    ensures r.1.eimsk == regs.eimsk && r.1.eifr == regs.eifr
  {
    var obj := ExtInt(n);
    (obj, obj.SetEventType(chip, regs, evt))
  }

  /** One method call on an ExtInt object. */
  datatype ExtIntCall = SetEventTypeCall(evt: bv8) | EnableCall | DisableCall | ClearPendingCall

  /** The registers after calling `c` on `obj`. */
  function ApplyCall(obj: ExtInt, chip: ExtIntChip, regs: ExtIntRegs, c: ExtIntCall): (r: ExtIntRegs)
    ensures obj.OtherLinesUnchanged(regs, r)
  {
    match c
    case SetEventTypeCall(evt) => obj.SetEventType(chip, regs, evt)
    case EnableCall => obj.Enable(chip, regs)
    case DisableCall => obj.Disable(chip, regs)
    case ClearPendingCall => obj.ClearPendingEvent(chip, regs)
  }

  /** The registers after a sequence of calls on `obj`, first call first. */
  function RunCalls(obj: ExtInt, chip: ExtIntChip, regs: ExtIntRegs, calls: seq<ExtIntCall>): ExtIntRegs
    decreases |calls|
  {
    if |calls| == 0 then regs else RunCalls(obj, chip, ApplyCall(obj, chip, regs, calls[0]), calls[1..])
  }

  /**
    However many methods of one ExtInt object are called, in whatever order,
    the sense control and the enable bit of every other line stay as they were.
   */
  lemma {:induction false} CallsKeepOtherLines(obj: ExtInt, chip: ExtIntChip, regs: ExtIntRegs, calls: seq<ExtIntCall>)
    ensures obj.OtherLinesUnchanged(regs, RunCalls(obj, chip, regs, calls))
    decreases |calls|
  {
    if |calls| > 0 {
      var next := ApplyCall(obj, chip, regs, calls[0]);
      CallsKeepOtherLines(obj, chip, next, calls[1..]);
    }
  }
}
