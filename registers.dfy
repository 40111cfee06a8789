/**
 * The hardware side of every isolation driver: a word-wide register file
 * addressed by byte offset, reached only through a read callback and a
 * write callback. The pair of callbacks is modelled as one `Bus` object
 * that keeps the register contents, the answers the device has queued for
 * reads it will change on its own (a status register being polled), and a
 * trace of every access in order.
 */
module Registers {

  /** A byte address on the bus: the C `unsigned int` passed to the callbacks. */
  newtype Addr = x: int | 0 <= x < 0x1_0000_0000

  /**
   * The address `base + delta` as the C code computes it on `unsigned int`,
   * wrapping around modulo 2^32.
   */
  function Field(base: Addr, delta: Addr): (a: Addr)
    ensures a as int + (if base as int + delta as int >= 0x1_0000_0000 then 0x1_0000_0000 else 0)
            == base as int + delta as int
  {
    ((base as int + delta as int) % 0x1_0000_0000) as Addr
  }

  /** Distinct register offsets from one base always name distinct addresses. */
  lemma FieldsDistinct(base: Addr, d1: Addr, d2: Addr)
    requires d1 != d2
    ensures Field(base, d1) != Field(base, d2)
  {
  }

  /** One access made through a driver's callbacks. */
  datatype Access = RegRead(addr: Addr, value: bv32) | RegWrite(addr: Addr, value: bv32)

  /** The value held at byte address `a`; a register never written holds 0. */
  function Reg(regs: map<Addr, bv32>, a: Addr): bv32
  {
    if a in regs then regs[a] else 0
  }

  /** The values the device will answer to the next reads of `a`, oldest first. */
  function Answers(pending: map<Addr, seq<bv32>>, a: Addr): seq<bv32>
  {
    if a in pending then pending[a] else []
  }

  /**
   * No answer is queued for `a`: reads of `a` return what was last written,
   * as in a plain register file.
   */
  predicate Settled(pending: map<Addr, seq<bv32>>, a: Addr)
  {
    Answers(pending, a) == []
  }

  /** What the next read of `a` returns: a queued answer first, else the stored value. */
  function NextValue(regs: map<Addr, bv32>, pending: map<Addr, seq<bv32>>, a: Addr): bv32
  {
    if Answers(pending, a) != [] then Answers(pending, a)[0] else Reg(regs, a)
  }

  /** The queued answers after one read of `a`. */
  function Consume(pending: map<Addr, seq<bv32>>, a: Addr): map<Addr, seq<bv32>>
  {
    if Answers(pending, a) != [] then pending[a := pending[a][1..]] else pending
  }

  /** The trace of successive reads of `a` that returned `vs`. */
  function ReadsOf(a: Addr, vs: seq<bv32>): (t: seq<Access>)
    ensures |t| == |vs|
  {
    if vs == [] then [] else ReadsOf(a, vs[..|vs| - 1]) + [RegRead(a, vs[|vs| - 1])]
  }

  /** The i-th access of `ReadsOf(a, vs)` is the read of `a` that returned `vs[i]`. */
  lemma {:induction false} ReadsOfAt(a: Addr, vs: seq<bv32>)
    ensures forall i :: 0 <= i < |vs| ==> ReadsOf(a, vs)[i] == RegRead(a, vs[i])
  {
    if vs != [] {
      var front := vs[..|vs| - 1];
      ReadsOfAt(a, front);
      assert ReadsOf(a, vs) == ReadsOf(a, front) + [RegRead(a, vs[|vs| - 1])];
    }
  }

  /**
   * One more read of `a`, while the answers `polls[n..]` are still queued,
   * returns `polls[n]`, extends the trace by that read and dequeues it.
   */
  lemma PollStep(regs: map<Addr, bv32>, pending: map<Addr, seq<bv32>>, t0: seq<Access>,
                 a: Addr, polls: seq<bv32>, n: nat)
    requires n < |polls|
    ensures NextValue(regs, pending[a := polls[n..]], a) == polls[n]
    ensures Consume(pending[a := polls[n..]], a) == pending[a := polls[n + 1..]]
    ensures t0 + ReadsOf(a, polls[..n]) + [RegRead(a, polls[n])] == t0 + ReadsOf(a, polls[..n + 1])
  {
    assert polls[n..][1..] == polls[n + 1..];
    assert polls[..n + 1][..n] == polls[..n];
  }

  /** Reference meaning of "bit n of x is set", independent of any mask constant. */
  predicate Bit(x: bv32, n: bv32)
    requires n < 32
  {
    (x >> n) & 1 == 1
  }

  /** Words `x` and `y` agree on every bit outside `mask`. */
  predicate SameOutside(x: bv32, y: bv32, mask: bv32)
  {
    x & !mask == y & !mask
  }

  /** Agreeing outside `mask` means agreeing on one bit that `mask` does not cover. */
  lemma SameOutsideBit(x: bv32, y: bv32, mask: bv32, n: bv32)
    requires SameOutside(x, y, mask) && n < 32 && !Bit(mask, n)
    ensures Bit(x, n) == Bit(y, n)
  {
  }

  /** Agreeing outside `mask` means agreeing on every bit that `mask` does not cover. */
  lemma SameOutsideBits(x: bv32, y: bv32, mask: bv32)
    requires SameOutside(x, y, mask)
    ensures forall n: bv32 :: n < 32 && !Bit(mask, n) ==> Bit(x, n) == Bit(y, n)
  {
    forall n: bv32 | n < 32 && !Bit(mask, n)
      ensures Bit(x, n) == Bit(y, n)
    {
      SameOutsideBit(x, y, mask, n);
    }
  }

  /** The register bus behind a handler's read and write callbacks. */
  class Bus {
    var regs: map<Addr, bv32>
    var pending: map<Addr, seq<bv32>>
    var trace: seq<Access>

    constructor (regs0: map<Addr, bv32>, pending0: map<Addr, seq<bv32>>)
      ensures regs == regs0 && pending == pending0 && trace == []
    {
      regs, pending, trace := regs0, pending0, [];
    }

    /** What the next read of `a` returns. */
    function Next(a: Addr): bv32
      reads this
    {
      NextValue(regs, pending, a)
    }

    /** The read callback: one word read at byte address `a`. */
    method Read(a: Addr) returns (v: bv32)
      modifies this
      ensures v == NextValue(old(regs), old(pending), a)
      ensures regs == old(regs)
      ensures pending == Consume(old(pending), a)
      ensures trace == old(trace) + [RegRead(a, v)]
    {
      v := NextValue(regs, pending, a);
      pending := Consume(pending, a);
      trace := trace + [RegRead(a, v)];
    }

    /** The write callback: one word written at byte address `a`. */
    method Write(a: Addr, v: bv32)
      modifies this
      ensures regs == old(regs)[a := v]
      ensures pending == old(pending)
      ensures trace == old(trace) + [RegWrite(a, v)]
    {
      regs := regs[a := v];
      trace := trace + [RegWrite(a, v)];
    }
  }
}
