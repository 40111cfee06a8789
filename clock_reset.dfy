/**
 * Clock/reset decoupler driver
 * (reset_decouple/clock_reset_decoupler_driver.c): four fire-and-forget
 * register writes, with no read, no poll and no status.
 *
 * Register map relative to the handler's offset:
 *   +0  clock decouple: 1 decouples, 0 recouples
 *   +4  reset: 1 asserts, 0 deasserts
 */
module ClockResetDecoupler {
  import opened Registers

  /** Byte offset of the clock-decouple register. */
  const CLOCK: Addr := 0x0

  /** Byte offset of the reset register. */
  const RESET: Addr := 0x4

  /** The handler record: the callback pair and the register base offset. */
  class ClockResetDecouplerHandler {
    var bus: Bus
    var offset: Addr

    /** init_clock_reset_decoupler: stores its arguments and performs no register access. */
    constructor Init(bus: Bus, off: Addr)
      ensures this.bus == bus && offset == off
      ensures unchanged(bus)
    {
      this.bus := bus;
      offset := off;
    }

    /** decouple_clock_crd: one write of 1 to the clock register; the reset register is untouched. */
    method DecoupleClock()
      modifies bus
      ensures bus.trace == old(bus.trace) + [RegWrite(Field(offset, CLOCK), 0x1)]
      ensures bus.regs == old(bus.regs)[Field(offset, CLOCK) := 0x1]
      ensures bus.pending == old(bus.pending)
      ensures Reg(bus.regs, Field(offset, RESET)) == old(Reg(bus.regs, Field(offset, RESET)))
    {
      bus.Write(Field(offset, CLOCK), 0x1);
    }

    /** recouple_clock_crd: one write of 0 to the clock register; the reset register is untouched. */
    method RecoupleClock()
      modifies bus
      ensures bus.trace == old(bus.trace) + [RegWrite(Field(offset, CLOCK), 0x0)]
      ensures bus.regs == old(bus.regs)[Field(offset, CLOCK) := 0x0]
      ensures bus.pending == old(bus.pending)
      ensures Reg(bus.regs, Field(offset, RESET)) == old(Reg(bus.regs, Field(offset, RESET)))
    {
      bus.Write(Field(offset, CLOCK), 0x0);
    }

    /** assert_reset_crd: one write of 1 to the reset register; the clock register is untouched. */
    method AssertReset()
      modifies bus
      ensures bus.trace == old(bus.trace) + [RegWrite(Field(offset, RESET), 0x1)]
      ensures bus.regs == old(bus.regs)[Field(offset, RESET) := 0x1]
      ensures bus.pending == old(bus.pending)
      ensures Reg(bus.regs, Field(offset, CLOCK)) == old(Reg(bus.regs, Field(offset, CLOCK)))
    {
      bus.Write(Field(offset, RESET), 0x1);
    }

    /** deassert_reset_crd: one write of 0 to the reset register; the clock register is untouched. */
    method DeassertReset()
      modifies bus
      ensures bus.trace == old(bus.trace) + [RegWrite(Field(offset, RESET), 0x0)]
      ensures bus.regs == old(bus.regs)[Field(offset, RESET) := 0x0]
      ensures bus.pending == old(bus.pending)
      ensures Reg(bus.regs, Field(offset, CLOCK)) == old(Reg(bus.regs, Field(offset, CLOCK)))
    {
      bus.Write(Field(offset, RESET), 0x0);
    }
  }

  /**
   * The usual isolation sequence (decouple the clock, assert reset, deassert
   * reset, recouple the clock) is exactly four writes and leaves both
   * registers at 0.
   */
  method IsolateAndRelease(h: ClockResetDecouplerHandler)
    modifies h.bus
    ensures h.bus.trace == old(h.bus.trace) + [
      RegWrite(Field(h.offset, CLOCK), 0x1), RegWrite(Field(h.offset, RESET), 0x1),
      RegWrite(Field(h.offset, RESET), 0x0), RegWrite(Field(h.offset, CLOCK), 0x0)]
    ensures Reg(h.bus.regs, Field(h.offset, CLOCK)) == 0
    ensures Reg(h.bus.regs, Field(h.offset, RESET)) == 0
  {
    h.DecoupleClock();
    h.AssertReset();
    h.DeassertReset();
    h.RecoupleClock();
  }
}
