/** The control and status registers: reads, masked writes, interrupt selection,
    trap entry and trap return. `Csrs` is the register file as a value; the class
    `CsrFile` updates the same fields in place and is proved equal to it. */
module CsrState {
  import opened Wrappers
  import opened Isa

  const MSTATUS_SIE: Word := 0x0000_0002
  const MSTATUS_MIE: Word := 0x0000_0008
  const MSTATUS_SPIE: Word := 0x0000_0020
  const MSTATUS_MPIE: Word := 0x0000_0080
  const MSTATUS_SPP: Word := 0x0000_0100
  const MSTATUS_MPP_MASK: Word := 0x0000_1800
  const MSTATUS_MPRV: Word := 0x0002_0000
  const MSTATUS_SUM: Word := 0x0004_0000
  const MSTATUS_MXR: Word := 0x0008_0000
  const MSTATUS_TVM: Word := 0x0010_0000
  const MSTATUS_TW: Word := 0x0020_0000
  const MSTATUS_TSR: Word := 0x0040_0000
  const SSTATUS_MASK: Word := 0x000c_0122
  const MIE_MASK: Word := 0x0000_0aaa
  const SIE_MASK: Word := 0x0000_0222
  const SIP_MASK: Word := 0x0000_0222
  const MANAGED_INTERRUPT_MASK: Word := 0x0000_0aaa
  const MIP_WRITABLE_MASK: Word := 0x0000_000a
  const SIP_WRITABLE_MASK: Word := 0x0000_0002
  const MEDELEG_MASK: Word := 0x0000_b3ff
  const MIDELEG_MASK: Word := 0x0000_0222
  const COUNTEREN_MASK: Word := 0x0000_0007

  datatype MachineCsrs = MachineCsrs(
    mstatus: Word, medeleg: Word, mideleg: Word, mie: Word, mtvec: Word, mcounteren: Word,
    mcycle: bv64, time: bv64, minstret: bv64, mepc: Word, mcause: Word, mtval: Word, mip: Word)

  datatype SupervisorCsrs = SupervisorCsrs(
    stvec: Word, scounteren: Word, sepc: Word, scause: Word, stval: Word, satp: Word)

  datatype Csrs = Csrs(
    machine: MachineCsrs, supervisor: SupervisorCsrs, softwarePending: Word, externalPending: Word)

  const RESET_CSRS: Csrs :=
    Csrs(MachineCsrs(0, 0, 0, 0, 0, 0, 0, 0, 0, 0, 0, 0, 0), SupervisorCsrs(0, 0, 0, 0, 0, 0), 0, 0)

  /* ---------- privilege levels ---------- */

  function Level(p: Privilege): Word {
    match p
    case User => 0
    case Supervisor => 1
    case Machine => 3
  }

  function PrivilegeFromBits(bits: Word): Privilege {
    if bits == 0 then User else if bits == 1 then Supervisor else Machine
  }

  function PreviousPrivilege(mstatus: Word): Privilege {
    PrivilegeFromBits((mstatus & MSTATUS_MPP_MASK) >> 11)
  }

  function PreviousSupervisorPrivilege(mstatus: Word): Privilege {
    if mstatus & MSTATUS_SPP != 0 then Supervisor else User
  }

  /* ---------- reads and writes ---------- */

  function LowHalf(value: bv64): Word { (value & 0xffff_ffff) as Word }
  function HighHalf(value: bv64): Word { (value >> 32) as Word }
  function WithLowHalf(target: bv64, value: Word): bv64 { (target & !0xffff_ffff) | (value as bv64) }
  function WithHighHalf(target: bv64, value: Word): bv64 { ((value as bv64) << 32) | (target & 0xffff_ffff) }
  function WithFlag(value: Word, mask: Word, on: bool): Word { if on then value | mask else value & !mask }

  function Read(c: Csrs, csr: CsrAddress): Word {
    match csr
    case Sstatus => c.machine.mstatus & SSTATUS_MASK
    case Sie => c.machine.mie & SIE_MASK
    case Stvec => c.supervisor.stvec
    case Scounteren => c.supervisor.scounteren
    case Satp => c.supervisor.satp
    case Mstatus => c.machine.mstatus
    case Medeleg => c.machine.medeleg
    case Mideleg => c.machine.mideleg
    case Mie => c.machine.mie
    case Mtvec => c.machine.mtvec
    case Mcounteren => c.machine.mcounteren
    case Mcycle => LowHalf(c.machine.mcycle)
    case Cycle => LowHalf(c.machine.mcycle)
    case Mcycleh => HighHalf(c.machine.mcycle)
    case Cycleh => HighHalf(c.machine.mcycle)
    case Minstret => LowHalf(c.machine.minstret)
    case Instret => LowHalf(c.machine.minstret)
    case Minstreth => HighHalf(c.machine.minstret)
    case Instreth => HighHalf(c.machine.minstret)
    case Time => LowHalf(c.machine.time)
    case Timeh => HighHalf(c.machine.time)
    case Sepc => c.supervisor.sepc
    case Scause => c.supervisor.scause
    case Stval => c.supervisor.stval
    case Sip => c.machine.mip & SIP_MASK
    case Mepc => c.machine.mepc
    case Mcause => c.machine.mcause
    case Mtval => c.machine.mtval
    case Mip => c.machine.mip
  }

  function RefreshMip(c: Csrs): Csrs {
    c.(machine := c.machine.(mip :=
      (c.machine.mip & !MANAGED_INTERRUPT_MASK)
      | (c.softwarePending & MIP_WRITABLE_MASK)
      | (c.externalPending & MANAGED_INTERRUPT_MASK)))
  }

  function Write(c: Csrs, csr: CsrAddress, value: Word): Csrs {
    var m := c.machine;
    var s := c.supervisor;
    match csr
    case Sstatus => c.(machine := m.(mstatus := (m.mstatus & !SSTATUS_MASK) | (value & SSTATUS_MASK)))
    case Sie => c.(machine := m.(mie := (m.mie & !SIE_MASK) | (value & SIE_MASK)))
    case Stvec => c.(supervisor := s.(stvec := value))
    case Scounteren => c.(supervisor := s.(scounteren := value & COUNTEREN_MASK))
    case Satp => c.(supervisor := s.(satp := value))
    case Mstatus => c.(machine := m.(mstatus := value))
    case Medeleg => c.(machine := m.(medeleg := value & MEDELEG_MASK))
    case Mideleg => c.(machine := m.(mideleg := value & MIDELEG_MASK))
    case Mie => c.(machine := m.(mie := value & MIE_MASK))
    case Mtvec => c.(machine := m.(mtvec := value))
    case Mcounteren => c.(machine := m.(mcounteren := value & COUNTEREN_MASK))
    case Mcycle => c.(machine := m.(mcycle := WithLowHalf(m.mcycle, value)))
    case Cycle => c.(machine := m.(mcycle := WithLowHalf(m.mcycle, value)))
    case Mcycleh => c.(machine := m.(mcycle := WithHighHalf(m.mcycle, value)))
    case Cycleh => c.(machine := m.(mcycle := WithHighHalf(m.mcycle, value)))
    case Minstret => c.(machine := m.(minstret := WithLowHalf(m.minstret, value)))
    case Instret => c.(machine := m.(minstret := WithLowHalf(m.minstret, value)))
    case Minstreth => c.(machine := m.(minstret := WithHighHalf(m.minstret, value)))
    case Instreth => c.(machine := m.(minstret := WithHighHalf(m.minstret, value)))
    case Time => c.(machine := m.(time := WithLowHalf(m.time, value)))
    case Timeh => c.(machine := m.(time := WithHighHalf(m.time, value)))
    case Sepc => c.(supervisor := s.(sepc := value))
    case Scause => c.(supervisor := s.(scause := value))
    case Stval => c.(supervisor := s.(stval := value))
    case Sip =>
      RefreshMip(c.(softwarePending := (c.softwarePending & !SIP_WRITABLE_MASK) | (value & SIP_WRITABLE_MASK)))
    case Mepc => c.(machine := m.(mepc := value))
    case Mcause => c.(machine := m.(mcause := value))
    case Mtval => c.(machine := m.(mtval := value))
    case Mip =>
      RefreshMip(c.(softwarePending := (c.softwarePending & !MIP_WRITABLE_MASK) | (value & MIP_WRITABLE_MASK)))
  }

  function MinPrivilegeLevel(csr: CsrAddress): Word { (CsrNumber(csr) >> 8) & 3 }

  predicate IsReadOnly(csr: CsrAddress) { (CsrNumber(csr) >> 10) & 3 == 3 }

  function CounterenMask(csr: CsrAddress): Word {
    match csr
    case Cycle => 1 case Cycleh => 1
    case Time => 2 case Timeh => 2
    case Instret => 4 case Instreth => 4
    case _ => 0
  }

  predicate AllowsCsrAccess(c: Csrs, p: Privilege, csr: CsrAddress) {
    var mask := CounterenMask(csr);
    Level(p) >= MinPrivilegeLevel(csr) &&
    (mask == 0 || p.Machine? ||
     (c.machine.mcounteren & mask != 0 && (p.Supervisor? || c.supervisor.scounteren & mask != 0)))
  }

  predicate TvmEnabled(c: Csrs) { c.machine.mstatus & MSTATUS_TVM != 0 }
  predicate TsrEnabled(c: Csrs) { c.machine.mstatus & MSTATUS_TSR != 0 }
  predicate TwEnabled(c: Csrs) { c.machine.mstatus & MSTATUS_TW != 0 }

  /* ---------- interrupts ---------- */

  /** The mip and mie bit of an interrupt: one shifted by its cause code. */
  function InterruptMask(i: Interrupt): Word {
    match i
    case SupervisorSoftware => 0x002
    case MachineSoftware => 0x008
    case SupervisorTimer => 0x020
    case MachineTimer => 0x080
    case SupervisorExternal => 0x200
    case MachineExternal => 0x800
  }

  function LineBits(lines: set<Interrupt>): Word {
    (if SupervisorSoftware in lines then 0x002 else 0) | (if MachineExternal in lines then 0x800 else 0)
    | (if MachineSoftware in lines then 0x008 else 0) | (if SupervisorTimer in lines then 0x020 else 0)
    | (if MachineTimer in lines then 0x080 else 0) | (if SupervisorExternal in lines then 0x200 else 0)
  }

  function SyncInterrupts(c: Csrs, lines: set<Interrupt>): Csrs {
    RefreshMip(c.(externalPending := LineBits(lines)))
  }

  predicate DelegatesInterrupt(c: Csrs, i: Interrupt) {
    IsSupervisorInterrupt(i) && c.machine.mideleg & InterruptMask(i) != 0
  }

  /** Pending, enabled, and aimed at a privilege whose global enable lets it through. */
  predicate Takeable(c: Csrs, p: Privilege, i: Interrupt) {
    c.machine.mip & InterruptMask(i) != 0 && c.machine.mie & InterruptMask(i) != 0 &&
    if DelegatesInterrupt(c, i) then
      p.User? || (p.Supervisor? && c.machine.mstatus & MSTATUS_SIE != 0)
    else
      !p.Machine? || c.machine.mstatus & MSTATUS_MIE != 0
  }

  const INTERRUPT_PRIORITY: seq<Interrupt> :=
    [MachineExternal, MachineSoftware, MachineTimer, SupervisorExternal, SupervisorSoftware, SupervisorTimer]

  function FirstTakeable(c: Csrs, p: Privilege, order: seq<Interrupt>): (r: Option<Interrupt>)
    ensures r.Some? ==> r.value in order && Takeable(c, p, r.value)
    ensures r.None? ==> forall i | i in order :: !Takeable(c, p, i)
  {
    if order == [] then None
    else if Takeable(c, p, order[0]) then Some(order[0])
    else FirstTakeable(c, p, order[1..])
  }

  function PendingInterrupt(c: Csrs, p: Privilege): Option<Interrupt> {
    FirstTakeable(c, p, INTERRUPT_PRIORITY)
  }

  /* ---------- trap entry and return ---------- */

  predicate DelegatesTrap(c: Csrs, trap: Trap, p: Privilege) {
    !p.Machine? &&
    match trap
    case ExceptionTrap(_) => c.machine.medeleg & (1 << CauseCode(trap)) != 0
    case InterruptTrap(i) => DelegatesInterrupt(c, i)
  }

  function Vector(tvec: Word, trap: Trap): Word {
    var base := tvec & !3;
    if trap.InterruptTrap? && tvec & 3 == 1 then base + CauseCode(trap) * 4 else base
  }

  function MachineEntryStatus(mstatus: Word, p: Privilege): Word {
    var withMpie := WithFlag(mstatus, MSTATUS_MPIE, mstatus & MSTATUS_MIE != 0) & !MSTATUS_MIE;
    (withMpie & !MSTATUS_MPP_MASK) | (Level(p) << 11)
  }

  function SupervisorEntryStatus(mstatus: Word, p: Privilege): Word {
    var withSpie := WithFlag(mstatus, MSTATUS_SPIE, mstatus & MSTATUS_SIE != 0) & !MSTATUS_SIE;
    WithFlag(withSpie, MSTATUS_SPP, p.Supervisor?)
  }

  datatype Entry = Entry(csrs: Csrs, privilege: Privilege, pc: Word)

  function EnterTrap(c: Csrs, trap: Trap, pc: Word, p: Privilege): Entry {
    if DelegatesTrap(c, trap, p) then
      Entry(c.(supervisor := c.supervisor.(sepc := pc, scause := CauseBits(trap), stval := TrapValue(trap)),
               machine := c.machine.(mstatus := SupervisorEntryStatus(c.machine.mstatus, p))),
            Supervisor, Vector(c.supervisor.stvec, trap))
    else
      Entry(c.(machine := c.machine.(mepc := pc, mcause := CauseBits(trap), mtval := TrapValue(trap),
                                     mstatus := MachineEntryStatus(c.machine.mstatus, p))),
            Machine, Vector(c.machine.mtvec, trap))
  }

  function MachineReturnStatus(mstatus: Word): Word {
    (WithFlag(mstatus, MSTATUS_MIE, mstatus & MSTATUS_MPIE != 0) | MSTATUS_MPIE) & !MSTATUS_MPP_MASK
  }

  function SupervisorReturnStatus(mstatus: Word): Word {
    (WithFlag(mstatus, MSTATUS_SIE, mstatus & MSTATUS_SPIE != 0) | MSTATUS_SPIE) & !MSTATUS_SPP
  }

  function ReturnFromMachineTrap(c: Csrs): Entry {
    Entry(c.(machine := c.machine.(mstatus := MachineReturnStatus(c.machine.mstatus))),
          PreviousPrivilege(c.machine.mstatus), c.machine.mepc)
  }

  function ReturnFromSupervisorTrap(c: Csrs): Entry {
    Entry(c.(machine := c.machine.(mstatus := SupervisorReturnStatus(c.machine.mstatus))),
          PreviousSupervisorPrivilege(c.machine.mstatus), c.supervisor.sepc)
  }

  /* ---------- the register file updated in place ---------- */

  class CsrFile {
    var machine: MachineCsrs
    var supervisor: SupervisorCsrs
    var softwarePending: Word
    var externalPending: Word

    function State(): Csrs
      reads this
    {
      Csrs(machine, supervisor, softwarePending, externalPending)
    }

    constructor ()
      ensures State() == RESET_CSRS
    {
      machine, supervisor := RESET_CSRS.machine, RESET_CSRS.supervisor;
      softwarePending, externalPending := 0, 0;
    }

    method Refresh()
      modifies this
      ensures State() == RefreshMip(old(State()))
    {
      machine := machine.(mip := (machine.mip & !MANAGED_INTERRUPT_MASK)
                                 | (softwarePending & MIP_WRITABLE_MASK)
                                 | (externalPending & MANAGED_INTERRUPT_MASK));
    }

    method Sync(lines: set<Interrupt>)
      modifies this
      ensures State() == SyncInterrupts(old(State()), lines)
    {
      externalPending := 0;
      if SupervisorSoftware in lines { externalPending := externalPending | 0x002; }
      if MachineExternal in lines { externalPending := externalPending | 0x800; }
      if MachineSoftware in lines { externalPending := externalPending | 0x008; }
      if SupervisorTimer in lines { externalPending := externalPending | 0x020; }
      if MachineTimer in lines { externalPending := externalPending | 0x080; }
      if SupervisorExternal in lines { externalPending := externalPending | 0x200; }
      Refresh();
    }

    /** The first takeable interrupt of the priority list, and none only if none is takeable. */
    method Pending(p: Privilege) returns (r: Option<Interrupt>)
      ensures r == PendingInterrupt(State(), p)
    {
      var k := 0;
      while k < |INTERRUPT_PRIORITY|
        invariant 0 <= k <= |INTERRUPT_PRIORITY|
        invariant PendingInterrupt(State(), p) == FirstTakeable(State(), p, INTERRUPT_PRIORITY[k..])
      {
        if Takeable(State(), p, INTERRUPT_PRIORITY[k]) {
          return Some(INTERRUPT_PRIORITY[k]);
        }
        k := k + 1;
      }
      r := None;
    }

    method Enter(trap: Trap, pc: Word, p: Privilege) returns (privilege: Privilege, target: Word)
      modifies this
      ensures Entry(State(), privilege, target) == EnterTrap(old(State()), trap, pc, p)
    {
      var status := machine.mstatus;
      if DelegatesTrap(State(), trap, p) {
        supervisor := supervisor.(sepc := pc, scause := CauseBits(trap), stval := TrapValue(trap));
        status := WithFlag(status, MSTATUS_SPIE, status & MSTATUS_SIE != 0);
        status := status & !MSTATUS_SIE;
        status := WithFlag(status, MSTATUS_SPP, p.Supervisor?);
        privilege, target := Supervisor, Vector(supervisor.stvec, trap);
      } else {
        machine := machine.(mepc := pc, mcause := CauseBits(trap), mtval := TrapValue(trap));
        status := WithFlag(status, MSTATUS_MPIE, status & MSTATUS_MIE != 0);
        status := status & !MSTATUS_MIE;
        status := (status & !MSTATUS_MPP_MASK) | (Level(p) << 11);
        privilege, target := Machine, Vector(machine.mtvec, trap);
      }
      machine := machine.(mstatus := status);
    }

    method ReturnFromMachine() returns (privilege: Privilege, target: Word)
      modifies this
      ensures Entry(State(), privilege, target) == ReturnFromMachineTrap(old(State()))
    {
      var status := machine.mstatus;
      privilege, target := PreviousPrivilege(status), machine.mepc;
      status := WithFlag(status, MSTATUS_MIE, status & MSTATUS_MPIE != 0);
      status := status | MSTATUS_MPIE;
      machine := machine.(mstatus := status & !MSTATUS_MPP_MASK);
    }

    method ReturnFromSupervisor() returns (privilege: Privilege, target: Word)
      modifies this
      ensures Entry(State(), privilege, target) == ReturnFromSupervisorTrap(old(State()))
    {
      var status := machine.mstatus;
      privilege := PreviousSupervisorPrivilege(status);
      target := supervisor.sepc;
      status := WithFlag(status, MSTATUS_SIE, status & MSTATUS_SPIE != 0);
      status := status | MSTATUS_SPIE;
      machine := machine.(mstatus := status & !MSTATUS_SPP);
    }
  }
}
