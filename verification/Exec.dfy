/** The sequential meaning of one instruction, and the same instruction cut into the
    EX, MEM and WB stages of the pipeline. */
module Exec {
  import opened Wrappers
  import opened Isa
  import opened CsrState
  import opened CpuBus
  import opened Mmu

  type RegisterFile = s: seq<Word> | |s| == 32 witness ZEROS

  const ZEROS: seq<Word> := [0,0,0,0,0,0,0,0,0,0,0,0,0,0,0,0,0,0,0,0,0,0,0,0,0,0,0,0,0,0,0,0]
  const RESET_REGISTERS: RegisterFile := ZEROS

  datatype Hart = Hart(pc: Word, regs: RegisterFile, csrs: Csrs, privilege: Privilege, halted: bool)

  function ResetHart(vector: Word): Hart {
    Hart(vector, RESET_REGISTERS, Write(Write(RESET_CSRS, Mtvec, vector), Stvec, vector), Machine, false)
  }

  function ReadReg(regs: RegisterFile, r: Reg): Word { regs[r] }

  function WriteReg(regs: RegisterFile, r: Reg, value: Word): (w: RegisterFile)
    ensures w[0] == regs[0]
  {
    if r == 0 then regs else regs[r := value]
  }

  function WriteRd(regs: RegisterFile, rd: Option<Reg>, value: Word): RegisterFile {
    if rd.Some? then WriteReg(regs, rd.value, value) else regs
  }

  /** An absent source register reads as zero. */
  function Operand(regs: RegisterFile, source: Option<Reg>): Word {
    if source.Some? then ReadReg(regs, source.value) else 0
  }

  /* ---------- shared helpers ---------- */

  function Alu(op: AluOp, lhs: Word, rhs: Word): Word {
    match op
    case Add => lhs + rhs
    case Sub => lhs - rhs
    case And => lhs & rhs
    case Or => lhs | rhs
    case Xor => lhs ^ rhs
    case Sll => lhs << (rhs & 0x1f)
    case Slt => if SignedLess(lhs, rhs) then 1 else 0
    case Sltu => if lhs < rhs then 1 else 0
    case Srl => lhs >> (rhs & 0x1f)
    case Sra => ShiftRightArithmetic(lhs, rhs & 0x1f)
  }

  function ImmediateRhs(op: AluOp, d: Decoded): Word {
    if op.Sll? || op.Srl? || op.Sra? then d.raw >> 20 else d.imm
  }

  predicate BranchTaken(kind: BranchKind, lhs: Word, rhs: Word) {
    match kind
    case Beq => lhs == rhs
    case Bne => lhs != rhs
    case Blt => SignedLess(lhs, rhs)
    case Bge => !SignedLess(lhs, rhs)
    case Bltu => lhs < rhs
    case Bgeu => lhs >= rhs
  }

  function EffectiveAddress(base: Word, offset: Word): Word { base + offset }
  function Following(pc: Word): Word { pc + 4 }
  function Even(target: Word): Word { target & !1 }

  function Extended(r: Reply<Word>, shift: Word): Reply<Word>
    requires shift < 32
  {
    match r.answer
    case Err(_) => r
    case Ok(w) => r.(answer := Ok(SignExtend(w, shift)))
  }

  function LoadValue(bus: Bus, kind: LoadKind, addr: Word): Reply<Word> {
    match kind
    case LoadByte => Extended(Load8(bus, addr), 24)
    case LoadHalf => Extended(Load16(bus, addr), 16)
    case LoadWord => Load32(bus, addr)
    case LoadByteUnsigned => Load8(bus, addr)
    case LoadHalfUnsigned => Load16(bus, addr)
  }

  function StoreValue(bus: Bus, kind: StoreKind, addr: Word, value: Word): Reply<()> {
    match kind
    case StoreByte => Store8(bus, addr, value)
    case StoreHalf => Store16(bus, addr, value)
    case StoreWord => Store32(bus, addr, value)
  }

  function FaultTrap(fault: Fault, addr: Word, access: Access): Trap
    requires !fault.Busy?
  {
    ExceptionTrap(
      if fault.Misaligned? then
        match access
        case InstructionAccess => InstructionAddressMisaligned(addr)
        case LoadAccess => LoadAddressMisaligned(addr)
        case StoreAccess => StoreAddressMisaligned(addr)
      else
        match access
        case InstructionAccess => InstructionAccessFault(addr)
        case LoadAccess => LoadAccessFault(addr)
        case StoreAccess => StoreAccessFault(addr))
  }

  datatype CsrWrite = CsrWrite(address: CsrAddress, value: Word)
  datatype CsrOutcome = CsrOutcome(read: Word, write: Option<CsrWrite>)

  function CsrWriteValue(op: CsrOp, csr: CsrAddress, current: Word, source: Word): Option<CsrWrite> {
    match op
    case ReadWrite => Some(CsrWrite(csr, source))
    case ReadWriteImmediate => Some(CsrWrite(csr, source))
    case ReadSet => if source == 0 then None else Some(CsrWrite(csr, current | source))
    case ReadSetImmediate => if source == 0 then None else Some(CsrWrite(csr, current | source))
    case ReadClear => if source == 0 then None else Some(CsrWrite(csr, current & !source))
    case ReadClearImmediate => if source == 0 then None else Some(CsrWrite(csr, current & !source))
  }

  function ExecuteCsr(op: CsrOp, rs1: Option<Reg>, csr: CsrAddress, csrs: Csrs, rs1Value: Word): CsrOutcome {
    var current := Read(csrs, csr);
    var source :=
      if op.ReadWriteImmediate? || op.ReadSetImmediate? || op.ReadClearImmediate? then
        (if rs1.Some? then RegisterNumber(rs1.value) else 0)
      else rs1Value;
    CsrOutcome(current, CsrWriteValue(op, csr, current, source))
  }

  /** A CSR instruction traps before it reads or writes anything. */
  predicate CsrIllegal(csrs: Csrs, p: Privilege, csr: CsrAddress, write: Option<CsrWrite>) {
    !AllowsCsrAccess(csrs, p, csr) || (p.Supervisor? && TvmEnabled(csrs) && csr.Satp?) ||
    (write.Some? && IsReadOnly(csr))
  }

  predicate SfenceIllegal(csrs: Csrs, p: Privilege) { p.User? || (p.Supervisor? && TvmEnabled(csrs)) }
  predicate WfiIllegal(csrs: Csrs, p: Privilege) { !p.Machine? && TwEnabled(csrs) }
  predicate SretIllegal(csrs: Csrs, p: Privilege) { !p.Supervisor? || TsrEnabled(csrs) }

  function EcallException(p: Privilege): Exception {
    match p
    case User => EnvironmentCallFromUMode
    case Supervisor => EnvironmentCallFromSMode
    case Machine => EnvironmentCallFromMMode
  }

  function Illegal(d: Decoded): Trap { ExceptionTrap(IllegalInstruction(d.raw)) }

  predicate WellDecoded(d: Decoded) { d.kind.Csr? ==> d.csr.Some? }

  /* ---------- the sequential machine ---------- */

  datatype Computer = Computer(hart: Hart, walker: Walker, bus: Bus)

  datatype Executed = Executed(computer: Computer, retired: nat, trap: Option<Trap>)

  function ApplyTrap(hart: Hart, trap: Trap, pc: Word): Hart {
    var e := EnterTrap(hart.csrs, trap, pc, hart.privilege);
    Hart(e.pc, hart.regs, e.csrs, e.privilege, false)
  }

  function ReturnFromTrap(hart: Hart, kind: SystemKind): Hart
    requires kind.Mret? || kind.Sret?
  {
    var e := if kind.Mret? then ReturnFromMachineTrap(hart.csrs) else ReturnFromSupervisorTrap(hart.csrs);
    Hart(e.pc, hart.regs, e.csrs, e.privilege, false)
  }

  function Trapped(m: Computer, trap: Trap, pc: Word): Executed {
    Executed(m.(hart := ApplyTrap(m.hart, trap, pc)), 0, Some(trap))
  }

  function Retired(m: Computer, hart: Hart): Executed { Executed(m.(hart := hart), 1, None) }

  /** Write a result and move on to `next`. */
  function Finish(m: Computer, d: Decoded, value: Word, next: Word): Executed {
    Retired(m, m.hart.(regs := WriteRd(m.hart.regs, d.rd, value), pc := next))
  }

  function ExecuteLoad(m: Computer, d: Decoded, kind: LoadKind, va: Word): Executed {
    var t := Translate(m.walker, m.bus, MakeRequest(m.hart.csrs, m.hart.privilege, va, LoadAccess));
    var m1 := m.(walker := t.walker, bus := t.bus);
    match t.result
    case Stall => Executed(m1, 0, None)
    case Faulted(trap) => Trapped(m1, trap, d.pc)
    case PhysicalAddress(pa) =>
      var r := LoadValue(t.bus, kind, pa);
      var m2 := m1.(bus := r.bus);
      match r.answer
      case Ok(value) => Finish(m2, d, value, Following(d.pc))
      case Err(fault) =>
        if fault.Busy? then Executed(m2, 0, None) else Trapped(m2, FaultTrap(fault, va, LoadAccess), d.pc)
  }

  function ExecuteStore(m: Computer, d: Decoded, kind: StoreKind, va: Word, value: Word): Executed {
    var t := Translate(m.walker, m.bus, MakeRequest(m.hart.csrs, m.hart.privilege, va, StoreAccess));
    var m1 := m.(walker := t.walker, bus := t.bus);
    match t.result
    case Stall => Executed(m1, 0, None)
    case Faulted(trap) => Trapped(m1, trap, d.pc)
    case PhysicalAddress(pa) =>
      var r := StoreValue(t.bus, kind, pa, value);
      var m2 := m1.(bus := r.bus);
      match r.answer
      case Ok(_) => Retired(m2, m2.hart.(pc := Following(d.pc)))
      case Err(fault) =>
        if fault.Busy? then Executed(m2, 0, None) else Trapped(m2, FaultTrap(fault, va, StoreAccess), d.pc)
  }

  function ExecuteSystem(m: Computer, d: Decoded, kind: SystemKind, v1: Word, v2: Word): Executed {
    var hart := m.hart;
    match kind
    case Ecall => Trapped(m, ExceptionTrap(EcallException(hart.privilege)), d.pc)
    case Ebreak => Trapped(m, ExceptionTrap(Breakpoint), d.pc)
    case SfenceVma =>
      if SfenceIllegal(hart.csrs, hart.privilege) then Trapped(m, Illegal(d), d.pc)
      else Retired(m.(walker := FlushFence(m.walker, FenceFromOperands(d.rs1, v1, d.rs2, v2))),
                   hart.(pc := Following(d.pc)))
    case Wfi =>
      if WfiIllegal(hart.csrs, hart.privilege) then Trapped(m, Illegal(d), d.pc)
      else Retired(m, hart.(pc := Following(d.pc), halted := true))
    case Mret =>
      if !hart.privilege.Machine? then Trapped(m, Illegal(d), d.pc) else Retired(m, ReturnFromTrap(hart, kind))
    case Sret =>
      if SretIllegal(hart.csrs, hart.privilege) then Trapped(m, Illegal(d), d.pc)
      else Retired(m, ReturnFromTrap(hart, kind))
  }

  function ExecuteCsrInstruction(m: Computer, d: Decoded, op: CsrOp, csr: CsrAddress, v1: Word): Executed {
    var outcome := ExecuteCsr(op, d.rs1, csr, m.hart.csrs, v1);
    if CsrIllegal(m.hart.csrs, m.hart.privilege, csr, outcome.write) then Trapped(m, Illegal(d), d.pc)
    else
      var csrs := if outcome.write.Some?
        then Write(m.hart.csrs, outcome.write.value.address, outcome.write.value.value) else m.hart.csrs;
      Retired(m, m.hart.(regs := WriteRd(m.hart.regs, d.rd, outcome.read), csrs := csrs, pc := Following(d.pc)))
  }

  /** `execute_decoded`: one instruction against the whole machine. */
  function ExecuteDecoded(m: Computer, d: Decoded): Executed
    requires WellDecoded(d)
  {
    var v1, v2 := Operand(m.hart.regs, d.rs1), Operand(m.hart.regs, d.rs2);
    match d.kind
    case Lui => Finish(m, d, d.imm, Following(d.pc))
    case Auipc => Finish(m, d, EffectiveAddress(d.pc, d.imm), Following(d.pc))
    case Jal => Finish(m, d, Following(d.pc), EffectiveAddress(d.pc, d.imm))
    case Jalr => Finish(m, d, Following(d.pc), Even(EffectiveAddress(v1, d.imm)))
    case Branch(kind) =>
      Retired(m, m.hart.(pc := if BranchTaken(kind, v1, v2) then EffectiveAddress(d.pc, d.imm) else Following(d.pc)))
    case Load(kind) => ExecuteLoad(m, d, kind, EffectiveAddress(v1, d.imm))
    case Store(kind) => ExecuteStore(m, d, kind, EffectiveAddress(v1, d.imm), v2)
    case OpImm(op) => Finish(m, d, Alu(op, v1, ImmediateRhs(op, d)), Following(d.pc))
    case Op(op) => Finish(m, d, Alu(op, v1, v2), Following(d.pc))
    case Csr(op) => ExecuteCsrInstruction(m, d, op, d.csr.value, v1)
    case System(kind) => ExecuteSystem(m, d, kind, v1, v2)
  }

  /* ---------- the pipeline stages ---------- */

  datatype Outcome = Outcome(
    value: Option<Word>, csrWrite: Option<CsrWrite>, fence: Option<TranslationFence>,
    address: Option<Word>, storeValue: Word, next: Word)

  datatype ExecuteEvent = Advance(outcome: Outcome) | ExecuteTrap(trap: Trap)

  predicate UsesMemory(d: Decoded) { d.kind.Load? || d.kind.Store? }

  predicate WritesBack(d: Decoded) {
    (d.kind.Lui? || d.kind.Auipc? || d.kind.Jal? || d.kind.Jalr? || d.kind.Load? || d.kind.OpImm? || d.kind.Op? ||
     d.kind.Csr?) && d.rd.Some? && d.rd.value != 0
  }

  function Plain(value: Option<Word>, next: Word): ExecuteEvent { Advance(Outcome(value, None, None, None, 0, next)) }

  function ExecuteStage(d: Decoded, v1: Word, v2: Word, p: Privilege, csrs: Csrs): ExecuteEvent
    requires WellDecoded(d)
  {
    var next := Following(d.pc);
    match d.kind
    case Lui => Plain(Some(d.imm), next)
    case Auipc => Plain(Some(EffectiveAddress(d.pc, d.imm)), next)
    case Jal => Plain(Some(next), EffectiveAddress(d.pc, d.imm))
    case Jalr => Plain(Some(next), Even(EffectiveAddress(v1, d.imm)))
    case Branch(kind) => Plain(None, if BranchTaken(kind, v1, v2) then EffectiveAddress(d.pc, d.imm) else next)
    case Load(_) => Advance(Outcome(None, None, None, Some(EffectiveAddress(v1, d.imm)), 0, next))
    case Store(_) => Advance(Outcome(None, None, None, Some(EffectiveAddress(v1, d.imm)), v2, next))
    case OpImm(op) => Plain(Some(Alu(op, v1, ImmediateRhs(op, d))), next)
    case Op(op) => Plain(Some(Alu(op, v1, v2)), next)
    case Csr(op) =>
      var outcome := ExecuteCsr(op, d.rs1, d.csr.value, csrs, v1);
      if CsrIllegal(csrs, p, d.csr.value, outcome.write) then ExecuteTrap(Illegal(d))
      else Advance(Outcome(Some(outcome.read), outcome.write, None, None, 0, next))
    case System(kind) =>
      match kind
      case Ecall => ExecuteTrap(ExceptionTrap(EcallException(p)))
      case Ebreak => ExecuteTrap(ExceptionTrap(Breakpoint))
      case SfenceVma =>
        if SfenceIllegal(csrs, p) then ExecuteTrap(Illegal(d))
        else Advance(Outcome(None, None, Some(FenceFromOperands(d.rs1, v1, d.rs2, v2)), None, 0, next))
      case Wfi => if WfiIllegal(csrs, p) then ExecuteTrap(Illegal(d)) else Plain(None, next)
      case Mret => if !p.Machine? then ExecuteTrap(Illegal(d)) else Plain(None, csrs.machine.mepc)
      case Sret => if SretIllegal(csrs, p) then ExecuteTrap(Illegal(d)) else Plain(None, csrs.supervisor.sepc)
  }

  /** The EX/MEM and MEM/WB latches carry an instruction and what is known of it. */
  datatype ExMem = ExMem(d: Decoded, out: Outcome)
  datatype MemWb = MemWb(d: Decoded, value: Option<Word>, csrWrite: Option<CsrWrite>,
                         fence: Option<TranslationFence>, next: Word)

  datatype MemoryEvent = MemAdvance(payload: MemWb) | MemStall | MemTrap(trap: Trap)

  datatype Accessed = Accessed(walker: Walker, bus: Bus, event: MemoryEvent)

  function Passed(p: ExMem, value: Option<Word>): MemoryEvent {
    MemAdvance(MemWb(p.d, value, p.out.csrWrite, p.out.fence, p.out.next))
  }

  function Address(p: ExMem): Word { if p.out.address.Some? then p.out.address.value else 0 }

  /** `mem_stage::access`. */
  function MemoryStage(walker: Walker, bus: Bus, csrs: Csrs, p: Privilege, payload: ExMem): Accessed {
    if !UsesMemory(payload.d) then Accessed(walker, bus, Passed(payload, payload.out.value))
    else
      var va := Address(payload);
      var access := if payload.d.kind.Load? then LoadAccess else StoreAccess;
      var t := Translate(walker, bus, MakeRequest(csrs, p, va, access));
      match t.result
      case Stall => Accessed(t.walker, t.bus, MemStall)
      case Faulted(trap) => Accessed(t.walker, t.bus, MemTrap(trap))
      case PhysicalAddress(pa) =>
        if payload.d.kind.Load? then
          var r := LoadValue(t.bus, payload.d.kind.load, pa);
          match r.answer
          case Ok(value) => Accessed(t.walker, r.bus, Passed(payload, Some(value)))
          case Err(fault) =>
            Accessed(t.walker, r.bus, if fault.Busy? then MemStall else MemTrap(FaultTrap(fault, va, access)))
        else
          var r := StoreValue(t.bus, payload.d.kind.store, pa, payload.out.storeValue);
          match r.answer
          case Ok(_) => Accessed(t.walker, r.bus, Passed(payload, None))
          case Err(fault) =>
            Accessed(t.walker, r.bus, if fault.Busy? then MemStall else MemTrap(FaultTrap(fault, va, access)))
  }

  datatype Commit = Commit(pc: Word, next: Word, kind: Kind, destination: Option<Reg>,
                           value: Option<Word>, csrWrite: Option<CsrWrite>)

  datatype Written = Written(hart: Hart, walker: Walker, commit: Commit)

  /** `wb_stage::write_back`. */
  function WriteBack(hart: Hart, walker: Walker, p: MemWb): Written {
    if p.d.kind.System? && (p.d.kind.system.Mret? || p.d.kind.system.Sret?) then
      var h := ReturnFromTrap(hart, p.d.kind.system);
      Written(h, walker, Commit(p.d.pc, h.pc, p.d.kind, p.d.rd, p.value, p.csrWrite))
    else
      var w := if p.fence.Some? then FlushFence(walker, p.fence.value) else walker;
      var csrs := if p.csrWrite.Some? then Write(hart.csrs, p.csrWrite.value.address, p.csrWrite.value.value) else hart.csrs;
      var regs := if p.d.rd.Some? && p.value.Some? then WriteReg(hart.regs, p.d.rd.value, p.value.value) else hart.regs;
      var halted := if p.d.kind.System? && p.d.kind.system.Wfi? then true else hart.halted;
      Written(hart.(pc := p.next, regs := regs, csrs := csrs, halted := halted), w,
              Commit(p.d.pc, p.next, p.d.kind, p.d.rd, p.value, p.csrWrite))
  }

  /** Decode reads x0 where an instruction has no source register. */
  function Source(source: Option<Reg>): Reg { if source.Some? then source.value else 0 }

  /** EX, then MEM, then WB, on a machine with nothing else in flight. */
  function StagedExecute(m: Computer, d: Decoded): Executed
    requires WellDecoded(d)
  {
    var v1, v2 := ReadReg(m.hart.regs, Source(d.rs1)), ReadReg(m.hart.regs, Source(d.rs2));
    match ExecuteStage(d, v1, v2, m.hart.privilege, m.hart.csrs)
    case ExecuteTrap(trap) => Trapped(m, trap, d.pc)
    case Advance(outcome) =>
      var a := MemoryStage(m.walker, m.bus, m.hart.csrs, m.hart.privilege, ExMem(d, outcome));
      var m1 := m.(walker := a.walker, bus := a.bus);
      match a.event
      case MemStall => Executed(m1, 0, None)
      case MemTrap(trap) => Trapped(m1, trap, d.pc)
      case MemAdvance(payload) =>
        var w := WriteBack(m1.hart, m1.walker, payload);
        Executed(m1.(hart := w.hart, walker := w.walker), 1, None)
  }

  /** What `decode` guarantees about the destination field of each kind. */
  predicate RdMatchesKind(d: Decoded) {
    d.rd.None? <==> (d.kind.Branch? || d.kind.Store? || d.kind.System?)
  }

  lemma OperandsAgree(regs: RegisterFile, source: Option<Reg>)
    requires regs[0] == 0
    ensures ReadReg(regs, Source(source)) == Operand(regs, source)
  {}

  lemma StagedMemory(m: Computer, d: Decoded)
    requires m.hart.regs[0] == 0 && RdMatchesKind(d) && UsesMemory(d)
    ensures StagedExecute(m, d) == ExecuteDecoded(m, d)
  {
    hide EffectiveAddress, Following, LoadValue, StoreValue, Translate, MakeRequest, FaultTrap, EnterTrap, WriteReg;
    OperandsAgree(m.hart.regs, d.rs1);
    OperandsAgree(m.hart.regs, d.rs2);
    hide Operand, ReadReg;
  }

  lemma StagedSystem(m: Computer, d: Decoded)
    requires m.hart.regs[0] == 0 && RdMatchesKind(d) && d.kind.System?
    ensures StagedExecute(m, d) == ExecuteDecoded(m, d)
  {
    hide Following, SfenceIllegal, WfiIllegal, SretIllegal, FlushFence, FenceFromOperands, EnterTrap,
         ReturnFromMachineTrap, ReturnFromSupervisorTrap, Illegal, EcallException, Translate, WriteReg, Write;
    OperandsAgree(m.hart.regs, d.rs1);
    OperandsAgree(m.hart.regs, d.rs2);
    hide Operand, ReadReg;
  }

  lemma StagedCsr(m: Computer, d: Decoded)
    requires m.hart.regs[0] == 0 && RdMatchesKind(d) && d.kind.Csr? && WellDecoded(d)
    ensures StagedExecute(m, d) == ExecuteDecoded(m, d)
  {
    hide Following, ExecuteCsr, CsrIllegal, EnterTrap, Illegal, Translate, WriteReg, Write, FlushFence;
    OperandsAgree(m.hart.regs, d.rs1);
    OperandsAgree(m.hart.regs, d.rs2);
    hide Operand, ReadReg;
  }

  lemma StagedInteger(m: Computer, d: Decoded)
    requires m.hart.regs[0] == 0 && RdMatchesKind(d)
    requires !UsesMemory(d) && !d.kind.System? && !d.kind.Csr?
    ensures StagedExecute(m, d) == ExecuteDecoded(m, d)
  {
    hide Alu, ImmediateRhs, BranchTaken, EffectiveAddress, Following, Even, Translate, WriteReg, FlushFence, Write;
    OperandsAgree(m.hart.regs, d.rs1);
    OperandsAgree(m.hart.regs, d.rs2);
    hide Operand, ReadReg;
  }

  /** The staged and the sequential semantics agree on every instruction kind, from
      every hart, walker and bus state, including the trap each may raise. */
  lemma StagedEqualsSequential(m: Computer, d: Decoded)
    requires WellDecoded(d) && RdMatchesKind(d) && m.hart.regs[0] == 0
    ensures StagedExecute(m, d) == ExecuteDecoded(m, d)
  {
    hide StagedExecute, ExecuteDecoded;
    if UsesMemory(d) {
      StagedMemory(m, d);
    } else if d.kind.System? {
      StagedSystem(m, d);
    } else if d.kind.Csr? {
      StagedCsr(m, d);
    } else {
      StagedInteger(m, d);
    }
  }
}
