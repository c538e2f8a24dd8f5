/** The bus as the CPU sees it: memory in 32-bit cells behind a port that may
    answer Busy. A Busy answer has no effect on memory. Which calls are answered
    Busy is an arbitrary function of the call's number, so a statement about every
    `Bus` is a statement about every pattern of Busy answers. */
module CpuBus {
  import opened Isa

  /** A 32-bit cell, named by the address of its first byte. */
  datatype Cell = Cell(addr: Word)

  type Memory = map<Cell, Word>

  datatype Fault = Busy | Unmapped | Misaligned | ReadOnly

  datatype Answer<+T> = Ok(value: T) | Err(fault: Fault) {
    predicate Waits() { Err? && fault.Busy? }
  }

  datatype Bus = Bus(mem: Memory, readOnly: set<Cell>, calls: nat, busy: nat -> bool) {
    predicate IsBusy() { busy(calls) }
    function Called(): Bus { this.(calls := calls + 1) }
  }

  datatype Reply<+T> = Reply(bus: Bus, answer: Answer<T>)

  function CellOf(addr: Word): Cell { Cell(addr & !3) }

  /** How far the byte at `addr` sits from the low end of its cell, in bits. */
  function Lane(addr: Word): (s: Word)
    ensures s < 32
  {
    (addr & 3) << 3
  }

  predicate WordAligned(addr: Word) { addr & 3 == 0 }
  predicate HalfAligned(addr: Word) { addr & 1 == 0 }

  /** The bits of a cell that a narrower access at `addr` sees. */
  function Extract(cell: Word, addr: Word, mask: Word): Word { (cell >> Lane(addr)) & mask }

  /** A cell after the bits under `mask` have been replaced. */
  function Merge(cell: Word, mask: Word, value: Word): Word { (cell & !mask) | (value & mask) }

  /** A mask or a value moved to where `addr` sits in its cell. */
  function Placed(value: Word, addr: Word): Word { value << Lane(addr) }

  function ReadCell(bus: Bus, addr: Word): Reply<Word> {
    if bus.IsBusy() then Reply(bus.Called(), Err(Busy))
    else if CellOf(addr) !in bus.mem then Reply(bus.Called(), Err(Unmapped))
    else Reply(bus.Called(), Ok(bus.mem[CellOf(addr)]))
  }

  function WriteCell(bus: Bus, addr: Word, mask: Word, value: Word): Reply<()> {
    if bus.IsBusy() then Reply(bus.Called(), Err(Busy))
    else if CellOf(addr) !in bus.mem then Reply(bus.Called(), Err(Unmapped))
    else if CellOf(addr) in bus.readOnly then Reply(bus.Called(), Err(ReadOnly))
    else Reply(bus.Called().(mem := bus.mem[CellOf(addr) := Merge(bus.mem[CellOf(addr)], mask, value)]), Ok(()))
  }

  function Load32(bus: Bus, addr: Word): Reply<Word> {
    if !WordAligned(addr) then Reply(bus, Err(Misaligned)) else ReadCell(bus, addr)
  }

  function Shifted(r: Reply<Word>, addr: Word, mask: Word): Reply<Word> {
    match r.answer
    case Err(_) => r
    case Ok(w) => Reply(r.bus, Ok(Extract(w, addr, mask)))
  }

  function Load16(bus: Bus, addr: Word): Reply<Word> {
    if !HalfAligned(addr) then Reply(bus, Err(Misaligned)) else Shifted(ReadCell(bus, addr), addr, 0xffff)
  }

  function Load8(bus: Bus, addr: Word): Reply<Word> { Shifted(ReadCell(bus, addr), addr, 0xff) }

  function Store32(bus: Bus, addr: Word, value: Word): Reply<()> {
    if !WordAligned(addr) then Reply(bus, Err(Misaligned)) else WriteCell(bus, addr, 0xffff_ffff, value)
  }

  function Store16(bus: Bus, addr: Word, value: Word): Reply<()> {
    if !HalfAligned(addr) then Reply(bus, Err(Misaligned))
    else WriteCell(bus, addr, Placed(0xffff, addr), Placed(value, addr))
  }

  function Store8(bus: Bus, addr: Word, value: Word): Reply<()> {
    WriteCell(bus, addr, Placed(0xff, addr), Placed(value, addr))
  }

  /** `fetch32`, on this bus, reads as `load32` does. */
  function Fetch32(bus: Bus, addr: Word): Reply<Word> { Load32(bus, addr) }

  /** The bus updated in place. */
  class BusPort {
    var state: Bus

    method Load(addr: Word) returns (answer: Answer<Word>)
      modifies this
      ensures Reply(state, answer) == Load32(old(state), addr)
    {
      var r := Load32(state, addr);
      state, answer := r.bus, r.answer;
    }

    method Store(addr: Word, value: Word) returns (answer: Answer<()>)
      modifies this
      ensures Reply(state, answer) == Store32(old(state), addr, value)
    {
      var r := Store32(state, addr, value);
      state, answer := r.bus, r.answer;
    }
  }
}
