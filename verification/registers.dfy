/**
  Shared vocabulary for memory-mapped AVR registers: the C integer widths the
  library computes with, an Option for hardware parts a variant may lack, single-bit
  masks, and the write semantics of interrupt-flag registers.
 */
module Registers {

  /** C's `uint32_t`, used for the baud rate and the CPU clock frequency. */
  type uint32 = x: int | 0 <= x < 0x1_0000_0000

  /** A register or value that may be absent on a hardware variant. */
  datatype Option<+T> = None | Some(value: T)

  /** True iff exactly one bit of `x` is set. */
  predicate IsSingleBit(x: bv8) {
    x != 0 && x & (x - 1) == 0
  }

  /**
    What a store of `written` does to an interrupt-flag register holding
    `flags` (TIFRn, EIFR): every bit written as 1 clears that pending flag,
    every bit written as 0 leaves its flag as it was.
   */
  function WriteOneToClear(flags: bv8, written: bv8): (r: bv8)
    ensures r & written == 0
    ensures r & !written == flags & !written
    ensures r & !flags == 0
  {
    flags & !written
  }

  /**
    The effect on a flag register of the C statement `reg |= mask`: the
    processor reads the pending flags, ORs in `mask` and writes the result
    back, so the store carries a 1 for every flag that was pending.
   */
  function OrIntoFlagRegister(flags: bv8, mask: bv8): (r: bv8)
    ensures r == 0
  {
    WriteOneToClear(flags, flags | mask)
  }
}
