/** The RV32I vocabulary of the simulator: registers, instruction kinds, traps
    and the decoder. Machine words are 32-bit vectors, so addition wraps as the
    simulator's `wrapping_add` does. */
module Isa {
  import opened Wrappers

  type Word = bv32
  type Byte = bv8
  type Reg = r: nat | r < 32

  datatype Privilege = User | Supervisor | Machine

  datatype AluOp = Add | Sub | And | Or | Xor | Sll | Slt | Sltu | Srl | Sra
  datatype BranchKind = Beq | Bne | Blt | Bge | Bltu | Bgeu
  datatype LoadKind = LoadByte | LoadHalf | LoadWord | LoadByteUnsigned | LoadHalfUnsigned
  datatype StoreKind = StoreByte | StoreHalf | StoreWord
  datatype CsrOp = ReadWrite | ReadSet | ReadClear | ReadWriteImmediate | ReadSetImmediate | ReadClearImmediate
  datatype SystemKind = Ecall | Ebreak | SfenceVma | Wfi | Mret | Sret

  datatype Kind =
    | Lui
    | Auipc
    | Jal
    | Jalr
    | Branch(branch: BranchKind)
    | Load(load: LoadKind)
    | Store(store: StoreKind)
    | OpImm(aluImm: AluOp)
    | Op(alu: AluOp)
    | Csr(csrOp: CsrOp)
    | System(system: SystemKind)

  datatype Decoded = Decoded(
    raw: Word, pc: Word, kind: Kind,
    rd: Option<Reg>, rs1: Option<Reg>, rs2: Option<Reg>,
    imm: Word, csr: Option<CsrAddress>)

  datatype CsrAddress =
    | Sstatus | Sie | Stvec | Scounteren | Satp
    | Mstatus | Medeleg | Mideleg | Mie | Mtvec | Mcounteren
    | Mcycle | Minstret | Mcycleh | Minstreth
    | Cycle | Time | Instret | Cycleh | Timeh | Instreth
    | Sepc | Scause | Stval | Sip | Mepc | Mcause | Mtval | Mip

  /* ---------- traps ---------- */

  datatype Interrupt =
    | SupervisorSoftware | MachineSoftware
    | SupervisorTimer | MachineTimer
    | SupervisorExternal | MachineExternal

  predicate IsSupervisorInterrupt(i: Interrupt) {
    i.SupervisorSoftware? || i.SupervisorTimer? || i.SupervisorExternal?
  }

  function InterruptCode(i: Interrupt): Word {
    match i
    case SupervisorSoftware => 1
    case MachineSoftware => 3
    case SupervisorTimer => 5
    case MachineTimer => 7
    case SupervisorExternal => 9
    case MachineExternal => 11
  }

  datatype Exception =
    | InstructionAddressMisaligned(addr: Word)
    | InstructionAccessFault(addr: Word)
    | InstructionPageFault(addr: Word)
    | IllegalInstruction(instruction: Word)
    | Breakpoint
    | LoadAddressMisaligned(addr: Word)
    | LoadAccessFault(addr: Word)
    | LoadPageFault(addr: Word)
    | StoreAddressMisaligned(addr: Word)
    | StoreAccessFault(addr: Word)
    | StorePageFault(addr: Word)
    | EnvironmentCallFromUMode
    | EnvironmentCallFromSMode
    | EnvironmentCallFromMMode

  datatype Trap = ExceptionTrap(exception: Exception) | InterruptTrap(interrupt: Interrupt)

  function ExceptionCode(e: Exception): (code: Word)
    ensures code <= 15
  {
    match e
    case InstructionAddressMisaligned(_) => 0
    case InstructionAccessFault(_) => 1
    case IllegalInstruction(_) => 2
    case Breakpoint => 3
    case LoadAddressMisaligned(_) => 4
    case LoadAccessFault(_) => 5
    case StoreAddressMisaligned(_) => 6
    case StoreAccessFault(_) => 7
    case EnvironmentCallFromUMode => 8
    case EnvironmentCallFromSMode => 9
    case EnvironmentCallFromMMode => 11
    case InstructionPageFault(_) => 12
    case LoadPageFault(_) => 13
    case StorePageFault(_) => 15
  }

  function CauseCode(t: Trap): (code: Word)
    ensures code <= 15
  {
    match t
    case InterruptTrap(i) => InterruptCode(i)
    case ExceptionTrap(e) => ExceptionCode(e)
  }

  function CauseBits(t: Trap): Word {
    CauseCode(t) | (if t.InterruptTrap? then 0x8000_0000 else 0)
  }

  function TrapValue(t: Trap): Word {
    match t
    case InterruptTrap(_) => 0
    case ExceptionTrap(e) =>
      match e
      case IllegalInstruction(raw) => raw
      case Breakpoint => 0
      case EnvironmentCallFromUMode => 0
      case EnvironmentCallFromSMode => 0
      case EnvironmentCallFromMMode => 0
      case InstructionAddressMisaligned(addr) => addr
      case InstructionAccessFault(addr) => addr
      case InstructionPageFault(addr) => addr
      case LoadAddressMisaligned(addr) => addr
      case LoadAccessFault(addr) => addr
      case LoadPageFault(addr) => addr
      case StoreAddressMisaligned(addr) => addr
      case StoreAccessFault(addr) => addr
      case StorePageFault(addr) => addr
  }

  /* ---------- arithmetic on words ---------- */

  predicate Negative(x: Word) { x & 0x8000_0000 != 0 }

  /** Shift right keeping the sign, as Rust's `>>` on `i32`. */
  function ShiftRightArithmetic(x: Word, amount: Word): Word
    requires amount < 32
  {
    if Negative(x) then !(!x >> amount) else x >> amount
  }

  predicate SignedLess(x: Word, y: Word) { (x ^ 0x8000_0000) < (y ^ 0x8000_0000) }

  function SignExtend(value: Word, shift: Word): Word
    requires shift < 32
  {
    ShiftRightArithmetic(value << shift, shift)
  }

  /* ---------- the decoder ---------- */

  function ImmI(raw: Word): Word { SignExtend(raw >> 20, 20) }

  function ImmS(raw: Word): Word {
    SignExtend(((raw >> 7) & 0x1f) | (((raw >> 25) & 0x7f) << 5), 20)
  }

  function ImmB(raw: Word): Word {
    SignExtend((((raw >> 8) & 0x0f) << 1) | (((raw >> 25) & 0x3f) << 5)
               | (((raw >> 7) & 1) << 11) | (((raw >> 31) & 1) << 12), 19)
  }

  function ImmU(raw: Word): Word { raw & 0xffff_f000 }

  function ImmJ(raw: Word): Word {
    SignExtend((((raw >> 21) & 0x3ff) << 1) | (((raw >> 20) & 1) << 11)
               | (((raw >> 12) & 0xff) << 12) | (((raw >> 31) & 1) << 20), 11)
  }

  function RegisterField(raw: Word, low: Word): Reg
    requires low < 32
  {
    ((raw >> low) & 0x1f) as bv5 as nat
  }

  /** The index of a register as a word, as the immediate CSR forms use it. */
  function RegisterNumber(r: Reg): Word { r as Word }

  function DecodeBranch(funct3: Word): Option<BranchKind> {
    if funct3 == 0 then Some(Beq)
    else if funct3 == 1 then Some(Bne)
    else if funct3 == 4 then Some(Blt)
    else if funct3 == 5 then Some(Bge)
    else if funct3 == 6 then Some(Bltu)
    else if funct3 == 7 then Some(Bgeu)
    else None
  }

  function DecodeLoad(funct3: Word): Option<LoadKind> {
    if funct3 == 0 then Some(LoadByte)
    else if funct3 == 1 then Some(LoadHalf)
    else if funct3 == 2 then Some(LoadWord)
    else if funct3 == 4 then Some(LoadByteUnsigned)
    else if funct3 == 5 then Some(LoadHalfUnsigned)
    else None
  }

  function DecodeStore(funct3: Word): Option<StoreKind> {
    if funct3 == 0 then Some(StoreByte)
    else if funct3 == 1 then Some(StoreHalf)
    else if funct3 == 2 then Some(StoreWord)
    else None
  }

  function DecodeOpImm(funct3: Word, funct7: Word): Option<AluOp> {
    if funct3 == 0 then Some(Add)
    else if funct3 == 2 then Some(Slt)
    else if funct3 == 3 then Some(Sltu)
    else if funct3 == 4 then Some(Xor)
    else if funct3 == 6 then Some(Or)
    else if funct3 == 7 then Some(And)
    else if funct3 == 1 && funct7 == 0 then Some(Sll)
    else if funct3 == 5 && funct7 == 0 then Some(Srl)
    else if funct3 == 5 && funct7 == 0x20 then Some(Sra)
    else None
  }

  function DecodeOp(funct3: Word, funct7: Word): Option<AluOp> {
    if funct7 == 0x20 then
      if funct3 == 0 then Some(Sub) else if funct3 == 5 then Some(Sra) else None
    else if funct7 != 0 then None
    else if funct3 == 0 then Some(Add)
    else if funct3 == 1 then Some(Sll)
    else if funct3 == 2 then Some(Slt)
    else if funct3 == 3 then Some(Sltu)
    else if funct3 == 4 then Some(Xor)
    else if funct3 == 5 then Some(Srl)
    else if funct3 == 6 then Some(Or)
    else if funct3 == 7 then Some(And)
    else None
  }

  function DecodeSystem(raw: Word): Option<SystemKind> {
    if raw == 0x0000_0073 then Some(Ecall)
    else if raw == 0x0010_0073 then Some(Ebreak)
    else if raw == 0x1050_0073 then Some(Wfi)
    else if raw == 0x1020_0073 then Some(Sret)
    else if raw == 0x3020_0073 then Some(Mret)
    else if raw & 0xfe00_7fff == 0x1200_0073 then Some(SfenceVma)
    else None
  }

  function DecodeCsrOp(funct3: Word): Option<CsrOp> {
    if funct3 == 1 then Some(ReadWrite)
    else if funct3 == 2 then Some(ReadSet)
    else if funct3 == 3 then Some(ReadClear)
    else if funct3 == 5 then Some(ReadWriteImmediate)
    else if funct3 == 6 then Some(ReadSetImmediate)
    else if funct3 == 7 then Some(ReadClearImmediate)
    else None
  }

  /** The architectural number of each modelled CSR. */
  function CsrNumber(csr: CsrAddress): Word {
    match csr
    case Sstatus => 0x100 case Sie => 0x104 case Stvec => 0x105 case Scounteren => 0x106
    case Satp => 0x180
    case Mstatus => 0x300 case Medeleg => 0x302 case Mideleg => 0x303 case Mie => 0x304
    case Mtvec => 0x305 case Mcounteren => 0x306
    case Mcycle => 0xb00 case Minstret => 0xb02 case Mcycleh => 0xb80 case Minstreth => 0xb82
    case Cycle => 0xc00 case Time => 0xc01 case Instret => 0xc02
    case Cycleh => 0xc80 case Timeh => 0xc81 case Instreth => 0xc82
    case Sepc => 0x141 case Scause => 0x142 case Stval => 0x143 case Sip => 0x144
    case Mepc => 0x341 case Mcause => 0x342 case Mtval => 0x343 case Mip => 0x344
  }

  function CsrFromNumber(number: Word): Option<CsrAddress> {
    if number == 0x100 then Some(Sstatus) else if number == 0x104 then Some(Sie)
    else if number == 0x105 then Some(Stvec) else if number == 0x106 then Some(Scounteren)
    else if number == 0x180 then Some(Satp)
    else if number == 0x300 then Some(Mstatus) else if number == 0x302 then Some(Medeleg)
    else if number == 0x303 then Some(Mideleg) else if number == 0x304 then Some(Mie)
    else if number == 0x305 then Some(Mtvec) else if number == 0x306 then Some(Mcounteren)
    else if number == 0xb00 then Some(Mcycle) else if number == 0xb02 then Some(Minstret)
    else if number == 0xb80 then Some(Mcycleh) else if number == 0xb82 then Some(Minstreth)
    else if number == 0xc00 then Some(Cycle) else if number == 0xc01 then Some(Time)
    else if number == 0xc02 then Some(Instret) else if number == 0xc80 then Some(Cycleh)
    else if number == 0xc81 then Some(Timeh) else if number == 0xc82 then Some(Instreth)
    else if number == 0x141 then Some(Sepc) else if number == 0x142 then Some(Scause)
    else if number == 0x143 then Some(Stval) else if number == 0x144 then Some(Sip)
    else if number == 0x341 then Some(Mepc) else if number == 0x342 then Some(Mcause)
    else if number == 0x343 then Some(Mtval) else if number == 0x344 then Some(Mip)
    else None
  }

  /** `decode` of the simulator; None stands for its DecodeError. */
  function Decode(raw: Word, pc: Word): (d: Option<Decoded>)
    ensures d.Some? ==> d.value.pc == pc && d.value.raw == raw
    ensures d.Some? && d.value.kind.Csr? ==> d.value.csr.Some?
    ensures d.Some? && (d.value.kind.Branch? || d.value.kind.Store? || d.value.kind.System?) ==> d.value.rd.None?
    ensures d.Some? && !(d.value.kind.Branch? || d.value.kind.Store? || d.value.kind.System?) ==> d.value.rd.Some?
  {
    var opcode := raw & 0x7f;
    var funct3 := (raw >> 12) & 7;
    var funct7 := (raw >> 25) & 0x7f;
    var rd := RegisterField(raw, 7);
    var rs1 := RegisterField(raw, 15);
    var rs2 := RegisterField(raw, 20);
    if opcode == 0x37 then Some(Decoded(raw, pc, Lui, Some(rd), None, None, ImmU(raw), None))
    else if opcode == 0x17 then Some(Decoded(raw, pc, Auipc, Some(rd), None, None, ImmU(raw), None))
    else if opcode == 0x6f then Some(Decoded(raw, pc, Jal, Some(rd), None, None, ImmJ(raw), None))
    else if opcode == 0x67 && funct3 == 0 then
      Some(Decoded(raw, pc, Jalr, Some(rd), Some(rs1), None, ImmI(raw), None))
    else if opcode == 0x63 then
      DecodeBranch(funct3).GetOr(k => Some(Decoded(raw, pc, Branch(k), None, Some(rs1), Some(rs2), ImmB(raw), None)), None)
    else if opcode == 0x03 then
      DecodeLoad(funct3).GetOr(k => Some(Decoded(raw, pc, Load(k), Some(rd), Some(rs1), None, ImmI(raw), None)), None)
    else if opcode == 0x23 then
      DecodeStore(funct3).GetOr(k => Some(Decoded(raw, pc, Store(k), None, Some(rs1), Some(rs2), ImmS(raw), None)), None)
    else if opcode == 0x13 then
      DecodeOpImm(funct3, funct7).GetOr(k => Some(Decoded(raw, pc, OpImm(k), Some(rd), Some(rs1), None, ImmI(raw), None)), None)
    else if opcode == 0x33 then
      DecodeOp(funct3, funct7).GetOr(k => Some(Decoded(raw, pc, Op(k), Some(rd), Some(rs1), Some(rs2), 0, None)), None)
    else if opcode == 0x73 && funct3 == 0 then
      DecodeSystem(raw).GetOr(
        (k: SystemKind) => if k.SfenceVma?
          then Some(Decoded(raw, pc, System(k), None, Some(rs1), Some(rs2), 0, None))
          else Some(Decoded(raw, pc, System(k), None, None, None, 0, None)), None)
    else if opcode == 0x73 then
      match (DecodeCsrOp(funct3), CsrFromNumber(raw >> 20))
      case (Some(op), Some(csr)) => Some(Decoded(raw, pc, Csr(op), Some(rd), Some(rs1), None, 0, Some(csr)))
      case _ => None
    else None
  }
}
