/**
 * The decouple handshake shared by the control, memory and network
 * isolation drivers: after requesting decoupling, the driver re-reads the
 * status register until its "decouple done" bit (bit 1) is set. What the
 * device answers to those reads is an oracle sequence of words; these
 * definitions say where in that sequence the poll stops.
 */
module Handshake {
  import opened Registers

  /** Byte offset of the status register (decouple request / decouple done). */
  const STATUS: Addr := 0x0

  /** The decouple request written to the status register. */
  const DECOUPLE_REQUEST: bv32 := 0x1

  /** The value written to the status register to recouple. */
  const RECOUPLE_REQUEST: bv32 := 0x0

  /** The poll loop's exit test on one status read: `done &= 0x2; while (!done)`. */
  predicate DecoupleDone(status: bv32)
  {
    status & 0x2 != 0
  }

  /** Some answer in `polls` reports decoupling complete. */
  predicate HasDone(polls: seq<bv32>)
  {
    exists i :: 0 <= i < |polls| && DecoupleDone(polls[i])
  }

  /** The index of the first answer that reports decoupling complete. */
  ghost function FirstDone(polls: seq<bv32>): (k: nat)
    requires HasDone(polls)
    ensures k < |polls| && DecoupleDone(polls[k])
    ensures forall j :: 0 <= j < k ==> !DecoupleDone(polls[j])
    decreases |polls|
  {
    if DecoupleDone(polls[0]) then 0
    else
      var i :| 0 <= i < |polls| && DecoupleDone(polls[i]);
      assert polls[1..][i - 1] == polls[i];
      1 + FirstDone(polls[1..])
  }

  /**
   * The accesses decouple makes on status register `a` when the device
   * answers `polls`: the request write, then one read per answer up to and
   * including the first that reports completion.
   */
  ghost function DecoupleTrace(a: Addr, polls: seq<bv32>): (t: seq<Access>)
    requires HasDone(polls)
    ensures |t| == FirstDone(polls) + 2
    ensures t[0] == RegWrite(a, DECOUPLE_REQUEST)
    ensures forall i :: 1 <= i < |t| ==>
      && t[i].RegRead?
      && t[i].addr == a
      && t[i].value == polls[i - 1]
      && (DecoupleDone(t[i].value) <==> i == |t| - 1)
  {
    var polled := ReadsOf(a, polls[..FirstDone(polls) + 1]);
    ReadsOfAt(a, polls[..FirstDone(polls) + 1]);
    [RegWrite(a, DECOUPLE_REQUEST)] + polled
  }

  /**
   * The poll loop of decouple: re-reads status register `a` until an answer
   * has bit 1 set. The reads are exactly the device's queued answers up to
   * and including the first that reports completion; nothing is written.
   */
  method AwaitDecoupled(bus: Bus, a: Addr)
    requires HasDone(Answers(bus.pending, a))
    modifies bus
    ensures var polls := old(Answers(bus.pending, a));
      var k := FirstDone(polls);
      && bus.trace == old(bus.trace) + ReadsOf(a, polls[..k + 1])
      && bus.regs == old(bus.regs)
      && bus.pending == old(bus.pending)[a := polls[k + 1..]]
  {
    ghost var polls := Answers(bus.pending, a);
    ghost var k := FirstDone(polls);
    // The source's do-while: `done` starts at 0, so the body runs at least once.
    var done: bv32 := 0;
    ghost var n := 0;
    while done == 0
      invariant n <= k + 1
      invariant done == 0 <==> n == 0 || !DecoupleDone(polls[n - 1])
      invariant bus.trace == old(bus.trace) + ReadsOf(a, polls[..n])
      invariant bus.regs == old(bus.regs)
      invariant bus.pending == old(bus.pending)[a := polls[n..]]
      decreases k + 1 - n
    {
      PollStep(bus.regs, old(bus.pending), old(bus.trace), a, polls, n);
      done := bus.Read(a);
      done := done & 0x2;
      n := n + 1;
    }
  }

  /** The exit test reads exactly bit 1 of the status word. */
  lemma DoneIsBitOne(status: bv32)
    ensures DecoupleDone(status) <==> Bit(status, 1)
  {
  }

  /**
   * A device that answers "not complete" to the first `n` polls and then
   * "complete" stops the poll after exactly `n + 1` reads, whatever it would
   * have answered afterwards.
   */
  lemma BusyThenDone(busy: seq<bv32>, done: bv32, rest: seq<bv32>)
    requires forall j :: 0 <= j < |busy| ==> !DecoupleDone(busy[j])
    requires DecoupleDone(done)
    ensures HasDone(busy + [done] + rest)
    ensures FirstDone(busy + [done] + rest) == |busy|
  {
    var polls := busy + [done] + rest;
    assert polls[|busy|] == done;
  }

  /**
   * The poll's stopping point depends only on the answers up to the first
   * "complete": answers queued after it are never consulted.
   */
  lemma FirstDoneIgnoresLaterAnswers(polls: seq<bv32>, more: seq<bv32>)
    requires HasDone(polls)
    ensures HasDone(polls + more)
    ensures FirstDone(polls + more) == FirstDone(polls)
  {
    var k := FirstDone(polls);
    var all := polls + more;
    assert all[k] == polls[k];
  }
}
